/** Member signatures of an interface (`src/logos_bridge/lidl.py`, `member_signature`, `_RecordNamer`). */
module Signatures {
  import opened Wrappers
  import opened LidlTypes
  import opened ShapeText
  import opened FirstReference
  import opened Renaming
  import opened Structure

  // A member is its parameters and its return; a record table is the interface's `record(name)`. A
  // member's signature is that of one type tree, so that what `Structure` proves of trees carries over to
  // members.

  /** Records by name, with their fields by name. */
  type Table = map<string, map<string, Slot>>

  datatype Member = Member(params: seq<Slot>, result: Option<Slot>)

  // ---------------------------------------------------------------- the record graph of slots

  function SlotsOf(fields: map<string, Slot>, fs: seq<string>): seq<Slot> {
    if fs == [] then [] else (if fs[0] in fields then [fields[fs[0]]] else []) + SlotsOf(fields, fs[1..])
  }

  /** The fields in the order in which the namer walks them. */
  function Sorted(fields: map<string, Slot>): seq<Slot> {
    SlotsOf(fields, SortedNames(fields.Keys))
  }

  function Mentioned(slots: seq<Slot>): seq<string> {
    if slots == [] then [] else NamesIn(slots[0].ty) + Mentioned(slots[1..])
  }

  function SlotGraph(table: Table): Graph {
    map r | r in table :: Mentioned(Sorted(table[r]))
  }

  function AllSlots(m: Member): seq<Slot> {
    m.params + if m.result.Some? then [m.result.value] else []
  }

  function MemberRoots(m: Member): seq<string> {
    Mentioned(AllSlots(m))
  }

  lemma {:induction false} MentionedAppend(a: seq<Slot>, b: seq<Slot>)
    ensures Mentioned(a + b) == Mentioned(a) + Mentioned(b)
  {
    if a == [] {
      assert a + b == b;
    } else {
      assert (a + b)[1..] == a[1..] + b;
      MentionedAppend(a[1..], b);
    }
  }

  lemma MentionedNext(slots: seq<Slot>, k: nat)
    requires k < |slots|
    ensures Mentioned(slots[..k + 1]) == Mentioned(slots[..k]) + NamesIn(slots[k].ty)
  {
    assert slots[..k + 1] == slots[..k] + [slots[k]];
    MentionedAppend(slots[..k], [slots[k]]);
    assert Mentioned([slots[k]]) == NamesIn(slots[k].ty);
  }

  lemma {:induction false} MentionedIn(slots: seq<Slot>, k: nat)
    requires k < |slots|
    ensures Members(NamesIn(slots[k].ty)) <= Members(Mentioned(slots))
  {
    if k > 0 {
      MentionedIn(slots[1..], k - 1);
    }
  }

  // ---------------------------------------------------------------- the two forms

  /** `_RecordNamer.rename` of a spelling. */
  function SubSpelled(s: Spelled, names: Names): Spelled {
    match s
    case Text(text) => Text(SubText(text, names))
    case Ast(_) => s
  }

  function SubSlot(s: Slot, names: Names): Spelled {
    SubSpelled(ShapeSlot(s), names)
  }

  function SubSlots(slots: seq<Slot>, names: Names): seq<Spelled> {
    seq(|slots|, i requires 0 <= i < |slots| => SubSlot(slots[i], names))
  }

  function SubFields(fields: map<string, Slot>, names: Names): map<string, Spelled> {
    map f | f in fields :: SubSlot(fields[f], names)
  }

  datatype Form = Form(params: seq<Spelled>, result: Option<Spelled>, records: map<string, map<string, Spelled>>)

  function MemberOrder(table: Table, m: Member): seq<string> {
    VisitAll(SlotGraph(table), [], MemberRoots(m))
  }

  function NamedRecords(table: Table, order: seq<string>, names: Names): map<string, map<string, Spelled>> {
    if order == [] then map[]
    else
      var k := |order| - 1;
      var x := order[k];
      NamedRecords(table, order[..k], names)[NewName(k) := if x in table then SubFields(table[x], names) else map[]]
  }

  lemma {:induction false} NamedAt(table: Table, order: seq<string>, names: Names, k: nat)
    requires k < |order|
    ensures NewName(k) in NamedRecords(table, order, names)
    ensures order[k] in table ==> NamedRecords(table, order, names)[NewName(k)] == SubFields(table[order[k]], names)
  {
    var last := |order| - 1;
    if k < last {
      NamedAt(table, order[..last], names, k);
      assert order[..last][k] == order[k];
      if NewName(k) == NewName(last) {
        NewNamesDiffer(k, last);
      }
    }
  }

  lemma {:induction false} NamedKeys(table: Table, order: seq<string>, names: Names, n: string)
    requires n in NamedRecords(table, order, names)
    ensures exists k :: 0 <= k < |order| && n == NewName(k)
  {
    var last := |order| - 1;
    if n != NewName(last) {
      NamedKeys(table, order[..last], names, n);
    }
  }

  /** `member_signature(..., structural=True)`. */
  function StructuralForm(table: Table, m: Member): Form {
    var order := MemberOrder(table, m);
    var names := NamesOf(order);
    Form(SubSlots(m.params, names), if m.result.Some? then Some(SubSlot(m.result.value, names)) else None,
         NamedRecords(table, order, names))
  }

  datatype ShapeForm = ShapeForm(params: seq<(string, Spelled)>, result: Option<Spelled>, records: map<string, map<string, Spelled>>)

  function PlainFields(fields: map<string, Slot>): map<string, Spelled> {
    map f | f in fields :: ShapeSlot(fields[f])
  }

  /** `member_signature(...)`: names kept, with exactly the records that can be reached. */
  function ShapeFormOf(table: Table, m: Member): ShapeForm {
    ShapeForm(
      seq(|m.params|, i requires 0 <= i < |m.params| => (m.params[i].name, ShapeSlot(m.params[i]))),
      if m.result.Some? then Some(ShapeSlot(m.result.value)) else None,
      map r | r in table && r in MemberOrder(table, m) :: PlainFields(table[r]))
  }

  // ---------------------------------------------------------------- what is asked of an interface

  predicate AllConsistent(slots: seq<Slot>) {
    forall i :: 0 <= i < |slots| ==> DerivedConsistent(slots[i])
  }

  predicate FieldsConsistent(fields: map<string, Slot>) {
    forall f :: f in fields ==> DerivedConsistent(fields[f])
  }

  /** The derived keys are consistent, and no record shadows a primitive. */
  predicate Tidy(table: Table) {
    && (forall r :: r in table ==> FieldsConsistent(table[r]))
    && (forall r :: r in table ==> r !in PRIMITIVES)
  }

  lemma {:induction false} SortedAre(fields: map<string, Slot>, fs: seq<string>)
    requires forall f :: f in fs ==> f in fields
    ensures |SlotsOf(fields, fs)| == |fs| && forall i :: 0 <= i < |fs| ==> SlotsOf(fields, fs)[i] == fields[fs[i]]
  {
    if fs != [] {
      assert forall f :: f in fs[1..] ==> f in fs;
      SortedAre(fields, fs[1..]);
    }
  }

  // ---------------------------------------------------------------- names under growing orders

  /** The names of a spelling: those of the type that it spells. */
  lemma {:induction false} NormNames(t: TypeRef)
    requires Compactable(t)
    ensures NamesIn(Norm(t)) == NamesIn(t)
    decreases t, 1
  {
    ValueTypeCompactable(t);
    ValueNames(t);
    NormValueNames(ValueType(t));
    assert NamesInAll([NormValue(ValueType(t))]) == NamesIn(NormValue(ValueType(t))) + [];
  }

  lemma {:induction false} ValueNames(t: TypeRef)
    requires Compactable(t)
    ensures NamesIn(ValueType(t)) == NamesIn(t)
  {
    if t.kind.Optional? {
      ValueNames(t.elements[0]);
      assert t.elements[1..] == [];
      assert NamesInAll(t.elements) == NamesIn(t.elements[0]) + [];
    }
  }

  lemma {:induction false} NormValueNames(t: TypeRef)
    requires Compactable(t) && !t.kind.Optional?
    ensures NamesIn(NormValue(t)) == NamesIn(t)
    decreases t, 0
  {
    match t.kind
    case Primitive =>
    case Named =>
    case Array =>
      NormNames(t.elements[0]);
      assert t.elements == [t.elements[0]];
      OneName(t.elements[0]);
      OneName(Norm(t.elements[0]));
    case Map =>
      NormNames(t.elements[0]);
      NormNames(t.elements[1]);
      assert t.elements == [t.elements[0], t.elements[1]];
      TwoNames(t.elements[0], t.elements[1]);
      TwoNames(Norm(t.elements[0]), Norm(t.elements[1]));
  }

  lemma OneName(t: TypeRef)
    ensures NamesInAll([t]) == NamesIn(t)
  {
    assert [t][1..] == [];
  }

  lemma TwoNames(t: TypeRef, u: TypeRef)
    ensures NamesInAll([t, u]) == NamesIn(t) + NamesIn(u)
  {
    assert [t, u][1..] == [u];
    OneName(u);
  }

  lemma SlotTreeNames(s: Slot)
    requires Compactable(s.ty) && DerivedConsistent(s)
    ensures NamesIn(SlotTree(s)) == NamesIn(s.ty)
  {
    ValueTypeCompactable(s.ty);
    ValueNames(s.ty);
    NormValueNames(s.valueType);
    OneName(NormValue(s.valueType));
  }

  predicate Agree(a: Names, b: Names, xs: seq<string>) {
    forall i :: 0 <= i < |xs| ==> Sub(a, xs[i]) == Sub(b, xs[i])
  }

  /** The spelling of a slot depends on the new names of the names in its type only. */
  lemma SubSlotAgrees(s: Slot, a: Names, b: Names)
    requires DerivedConsistent(s) && Spellable(a) && Spellable(b) && Agree(a, b, NamesIn(s.ty))
    ensures SubSlot(s, a) == SubSlot(s, b)
  {
    if Compactable(s.ty) {
      SlotTreeSpells(s);
      SlotTreeNames(s);
      var t := SlotTree(s);
      SpellsRenamed(t, a);
      SpellsRenamed(t, b);
      AgreeRename(t, a, b);
    }
  }

  lemma AgreeRename(t: TypeRef, a: Names, b: Names)
    requires Agree(a, b, NamesIn(t))
    ensures Rename(t, a) == Rename(t, b)
  {
    forall i | 0 <= i < |NamesIn(t)|
      ensures Sub(map[], Sub(a, NamesIn(t)[i])) == Sub(b, NamesIn(t)[i])
    {
    }
    RenameTwice(t, a, map[], b);
    RenameNone(Rename(t, a));
  }

  lemma {:induction false} RenameNone(t: TypeRef)
    ensures Rename(t, map[]) == t
    decreases t
  {
    RenameNoneAll(t.elements);
  }

  lemma {:induction false} RenameNoneAll(ts: seq<TypeRef>)
    ensures RenameAll(ts, map[]) == ts
    decreases ts
  {
    if ts != [] {
      RenameNone(ts[0]);
      RenameNoneAll(ts[1..]);
    }
  }

  lemma OrderSpellable(table: Table, order: seq<string>)
    requires Tidy(table) && Members(order) <= table.Keys
    ensures Spellable(NamesOf(order))
  {
    forall x | x in NamesOf(order)
      ensures x !in PRIMITIVES && NamesOf(order)[x] !in PRIMITIVES && IsIdent(NamesOf(order)[x])
    {
      assert x in Members(order);
      NewNameSpellable(Position(order, x));
    }
  }

  /** Names that have been given stay as they are when more are given. */
  lemma GrownAgrees(table: Table, o: seq<string>, p: seq<string>, xs: seq<string>)
    requires o <= p && Distinct(p) && Members(p) <= table.Keys
    requires forall x :: x in xs && x in table ==> x in o
    ensures Agree(NamesOf(o), NamesOf(p), xs)
  {
    forall i | 0 <= i < |xs|
      ensures Sub(NamesOf(o), xs[i]) == Sub(NamesOf(p), xs[i])
    {
      var x := xs[i];
      if x in o {
        var k := Position(o, x);
        assert p[k] == x;
        PositionIs(p, k);
      } else {
        assert x in p ==> x in Members(p);
      }
    }
  }

  lemma SlotSettles(table: Table, s: Slot, o: seq<string>, p: seq<string>)
    requires Tidy(table) && DerivedConsistent(s) && o <= p && Distinct(p) && Members(p) <= table.Keys
    requires Holds(SlotGraph(table), o, NamesIn(s.ty))
    ensures SubSlot(s, NamesOf(o)) == SubSlot(s, NamesOf(p))
  {
    assert Members(o) <= Members(p) by {
      forall x | x in Members(o)
        ensures x in p
      {
        assert x == p[Position(o, x)];
      }
    }
    OrderSpellable(table, o);
    OrderSpellable(table, p);
    GrownAgrees(table, o, p, NamesIn(s.ty));
    SubSlotAgrees(s, NamesOf(o), NamesOf(p));
  }
}
