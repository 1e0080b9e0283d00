/** The structural form of a member as the code has it, in texts, and as `Structure` has it, in type trees
(`src/logos_bridge/lidl.py`, `member_signature`, `_RecordNamer`, `_shape_slot`).

For contracts that the validator accepts every type has a compact spelling; two of them are then
spelled alike exactly when their trees are alike, slot by slot, record by record and name by name. */
module SpelledForms {
  import opened Wrappers
  import opened LidlTypes
  import opened ShapeText
  import opened FirstReference
  import opened Renaming
  import opened Structure
  import opened Signatures

  // ---------------------------------------------------------------- contracts with compact types

  predicate SpeltSlot(s: Slot) {
    Compactable(s.ty) && DerivedConsistent(s)
  }

  predicate SpeltSlots(slots: seq<Slot>) {
    forall i :: 0 <= i < |slots| ==> SpeltSlot(slots[i])
  }

  predicate SpeltFields(fields: map<string, Slot>) {
    forall f :: f in fields ==> SpeltSlot(fields[f])
  }

  /** Every type has a compact spelling, the derived keys are consistent, and records are named by
      identifiers that are not primitives. */
  predicate SpeltTable(table: Table) {
    && (forall r :: r in table ==> SpeltFields(table[r]))
    && (forall r :: r in table ==> r !in PRIMITIVES && IsIdent(r))
  }

  predicate Declared(table: Table, m: Member) {
    && Members(MemberRoots(m)) <= table.Keys
    && forall r :: r in table ==> Members(Mentioned(Sorted(table[r]))) <= table.Keys
  }

  // ---------------------------------------------------------------- as trees

  function FieldTrees(fields: map<string, Slot>): Fields
    requires SpeltFields(fields)
  {
    map f | f in fields :: SlotTree(fields[f])
  }

  function TableTrees(table: Table): Decl
    requires SpeltTable(table)
  {
    map r | r in table :: FieldTrees(table[r])
  }

  function SlotTrees(slots: seq<Slot>): seq<TypeRef>
    requires SpeltSlots(slots)
  {
    seq(|slots|, i requires 0 <= i < |slots| => SlotTree(slots[i]))
  }

  function SigTrees(m: Member): Sig
    requires SpeltSlots(AllSlots(m))
  {
    assert forall i :: 0 <= i < |m.params| ==> m.params[i] == AllSlots(m)[i];
    assert m.result.Some? ==> m.result.value == AllSlots(m)[|m.params|];
    Sig(SlotTrees(m.params), if m.result.Some? then Some(SlotTree(m.result.value)) else None)
  }

  lemma {:induction false} TreesMention(slots: seq<Slot>)
    requires SpeltSlots(slots)
    ensures NamesInAll(SlotTrees(slots)) == Mentioned(slots)
  {
    if slots != [] {
      SlotTreeNames(slots[0]);
      TreesMention(slots[1..]);
      assert SlotTrees(slots)[1..] == SlotTrees(slots[1..]);
    }
  }

  lemma {:induction false} FieldTreesMention(fields: map<string, Slot>, fs: seq<string>)
    requires SpeltFields(fields)
    ensures RefsOf(FieldTrees(fields), fs) == Mentioned(SlotsOf(fields, fs))
  {
    if fs != [] {
      FieldTreesMention(fields, fs[1..]);
      var slots := SlotsOf(fields, fs);
      if fs[0] in fields {
        SlotTreeNames(fields[fs[0]]);
        assert slots[1..] == SlotsOf(fields, fs[1..]);
      } else {
        assert slots == SlotsOf(fields, fs[1..]);
      }
    }
  }

  lemma SameGraph(table: Table)
    requires SpeltTable(table)
    ensures GraphOf(TableTrees(table)) == SlotGraph(table)
  {
    forall r | r in table
      ensures GraphOf(TableTrees(table))[r] == SlotGraph(table)[r]
    {
      RecordMentions(table, r);
    }
    SameMaps(GraphOf(TableTrees(table)), SlotGraph(table));
  }

  lemma RecordMentions(table: Table, r: string)
    requires SpeltTable(table) && r in table
    ensures Refs(TableTrees(table)[r]) == Mentioned(Sorted(table[r]))
  {
    FieldTreesMention(table[r], SortedNames(table[r].Keys));
    assert FieldTrees(table[r]).Keys == table[r].Keys;
  }

  lemma SameMaps<A>(p: map<string, A>, q: map<string, A>)
    requires p.Keys == q.Keys && forall f :: f in p ==> p[f] == q[f]
    ensures p == q
  {
  }

  lemma SameRoots(m: Member)
    requires SpeltSlots(AllSlots(m))
    ensures Roots(SigTrees(m)) == MemberRoots(m)
  {
    assert forall i :: 0 <= i < |m.params| ==> m.params[i] == AllSlots(m)[i];
    TreesMention(m.params);
    if m.result.Some? {
      assert m.result.value == AllSlots(m)[|m.params|];
      SlotTreeNames(m.result.value);
      MentionedAppend(m.params, [m.result.value]);
      assert Mentioned([m.result.value]) == NamesIn(m.result.value.ty);
    } else {
      MentionedAppend(m.params, []);
    }
  }

  lemma SameOrder(table: Table, m: Member)
    requires SpeltTable(table) && SpeltSlots(AllSlots(m))
    ensures OrderOf(TableTrees(table), SigTrees(m)) == MemberOrder(table, m)
  {
    SameGraph(table);
    SameRoots(m);
  }

  // ---------------------------------------------------------------- texts and trees

  lemma {:induction false} NormRename(t: TypeRef, names: Names)
    requires Compactable(t) && Spellable(names)
    ensures Compactable(Rename(t, names)) && Norm(Rename(t, names)) == Rename(Norm(t), names)
    decreases t, 1
  {
    ValueTypeCompactable(t);
    RenameCompactable(t, names);
    ValueTypeRename(t, names);
    NormValueRename(ValueType(t), names);
    OneRename(NormValue(ValueType(t)), names);
  }

  lemma OneRename(t: TypeRef, names: Names)
    ensures RenameAll([t], names) == [Rename(t, names)]
  {
    assert [t][1..] == [];
  }

  lemma TwoRename(t: TypeRef, u: TypeRef, names: Names)
    ensures RenameAll([t, u], names) == [Rename(t, names), Rename(u, names)]
  {
    assert [t, u][1..] == [u];
    OneRename(u, names);
  }

  lemma {:induction false} NormValueRename(t: TypeRef, names: Names)
    requires Compactable(t) && !t.kind.Optional? && Spellable(names)
    ensures Compactable(Rename(t, names)) && NormValue(Rename(t, names)) == Rename(NormValue(t), names)
    decreases t, 0
  {
    RenameCompactable(t, names);
    match t.kind
    case Primitive =>
    case Named =>
    case Array =>
      RenameAllAt(t.elements, names, 0);
      NormRename(t.elements[0], names);
      OneRename(Norm(t.elements[0]), names);
    case Map =>
      RenameAllAt(t.elements, names, 0);
      RenameAllAt(t.elements, names, 1);
      NormRename(t.elements[0], names);
      NormRename(t.elements[1], names);
      TwoRename(Norm(t.elements[0]), Norm(t.elements[1]), names);
  }

  /** Two slots are renamed alike in spelling exactly when their trees are. */
  lemma SubSlotsAlike(s: Slot, a: Names, t: Slot, b: Names)
    requires SpeltSlot(s) && SpeltSlot(t) && Spellable(a) && Spellable(b)
    ensures SubSlot(s, a) == SubSlot(t, b) <==> Rename(SlotTree(s), a) == Rename(SlotTree(t), b)
  {
    SubSlotIs(s, a);
    SubSlotIs(t, b);
    SpelledAlike(Rename(SlotTree(s), a), Rename(SlotTree(t), b));
  }

  lemma SubSlotIs(s: Slot, a: Names)
    requires SpeltSlot(s) && Spellable(a)
    ensures var t := Rename(SlotTree(s), a); Compactable(t) && Norm(t) == t && SubSlot(s, a) == ShapeType(t)
  {
    SlotTreeSpells(s);
    SpellsRenamed(SlotTree(s), a);
    NormRename(SlotTree(s), a);
  }

  lemma FieldsAlikeIff(x: map<string, Slot>, a: Names, y: map<string, Slot>, b: Names)
    requires SpeltFields(x) && SpeltFields(y) && Spellable(a) && Spellable(b)
    ensures SubFields(x, a) == SubFields(y, b) <==> RenameFields(FieldTrees(x), a) == RenameFields(FieldTrees(y), b)
  {
    forall f | f in x && f in y
      ensures SubFields(x, a)[f] == SubFields(y, b)[f] <==>
        RenameFields(FieldTrees(x), a)[f] == RenameFields(FieldTrees(y), b)[f]
    {
      FieldAlikeIff(x, a, y, b, f);
    }
    MapsAlike(SubFields(x, a), SubFields(y, b), RenameFields(FieldTrees(x), a), RenameFields(FieldTrees(y), b));
  }

  lemma FieldAlikeIff(x: map<string, Slot>, a: Names, y: map<string, Slot>, b: Names, f: string)
    requires SpeltFields(x) && SpeltFields(y) && Spellable(a) && Spellable(b) && f in x && f in y
    ensures SubFields(x, a)[f] == SubFields(y, b)[f] <==>
      RenameFields(FieldTrees(x), a)[f] == RenameFields(FieldTrees(y), b)[f]
  {
    SubSlotsAlike(x[f], a, y[f], b);
  }

  lemma MapsAlike<A, B>(p: map<string, A>, q: map<string, A>, t: map<string, B>, u: map<string, B>)
    requires p.Keys == t.Keys && q.Keys == u.Keys
    requires forall f :: f in p && f in q ==> (p[f] == q[f] <==> t[f] == u[f])
    ensures p == q <==> t == u
  {
    if p == q {
      assert forall f :: f in t ==> f in u && t[f] == u[f];
    }
    if t == u {
      assert forall f :: f in p ==> f in q && p[f] == q[f];
    }
  }

  lemma RenameFieldsNone(x: Fields)
    ensures RenameFields(x, map[]) == x
  {
    forall f | f in x
      ensures Rename(x[f], map[]) == x[f]
    {
      RenameNone(x[f]);
    }
  }

  /** `SubSlots` on both sides, slot by slot. */
  lemma SlotsAlikeIff(xs: seq<Slot>, a: Names, ys: seq<Slot>, b: Names)
    requires SpeltSlots(xs) && SpeltSlots(ys) && Spellable(a) && Spellable(b)
    ensures SubSlots(xs, a) == SubSlots(ys, b) <==> RenameAll(SlotTrees(xs), a) == RenameAll(SlotTrees(ys), b)
  {
    forall i | 0 <= i < |xs|
      ensures RenameAll(SlotTrees(xs), a)[i] == Rename(SlotTree(xs[i]), a)
    {
      RenameAllAt(SlotTrees(xs), a, i);
    }
    forall i | 0 <= i < |ys|
      ensures RenameAll(SlotTrees(ys), b)[i] == Rename(SlotTree(ys[i]), b)
    {
      RenameAllAt(SlotTrees(ys), b, i);
    }
    forall i | 0 <= i < |xs| && i < |ys|
      ensures SubSlots(xs, a)[i] == SubSlots(ys, b)[i] <==> RenameAll(SlotTrees(xs), a)[i] == RenameAll(SlotTrees(ys), b)[i]
    {
      SubSlotsAlike(xs[i], a, ys[i], b);
    }
    SeqsAlike(SubSlots(xs, a), SubSlots(ys, b), RenameAll(SlotTrees(xs), a), RenameAll(SlotTrees(ys), b));
  }

  lemma SeqsAlike<A, B>(p: seq<A>, q: seq<A>, t: seq<B>, u: seq<B>)
    requires |p| == |t| && |q| == |u|
    requires forall i :: 0 <= i < |p| && i < |q| ==> (p[i] == q[i] <==> t[i] == u[i])
    ensures p == q <==> t == u
  {
    if p == q {
      assert |t| == |u|;
      assert forall i :: 0 <= i < |t| ==> t[i] == u[i];
    }
    if t == u {
      assert |p| == |q|;
      assert forall i :: 0 <= i < |p| ==> p[i] == q[i];
    }
  }

  // ---------------------------------------------------------------- the forms, as texts and as trees

  lemma SlotsOfMember(m: Member)
    requires SpeltSlots(AllSlots(m))
    ensures SpeltSlots(m.params) && (m.result.Some? ==> SpeltSlot(m.result.value))
  {
    assert forall i :: 0 <= i < |m.params| ==> m.params[i] == AllSlots(m)[i];
    assert m.result.Some? ==> m.result.value == AllSlots(m)[|m.params|];
  }

  function FormSig(m: Member, names: Names): (seq<Spelled>, Option<Spelled>) {
    (SubSlots(m.params, names), if m.result.Some? then Some(SubSlot(m.result.value, names)) else None)
  }

  lemma SigsAlikeIff(m: Member, a: Names, n: Member, b: Names)
    requires SpeltSlots(AllSlots(m)) && SpeltSlots(AllSlots(n)) && Spellable(a) && Spellable(b)
    ensures FormSig(m, a) == FormSig(n, b) <==> RenameSig(SigTrees(m), a) == RenameSig(SigTrees(n), b)
  {
    SlotsOfMember(m);
    SlotsOfMember(n);
    SlotsAlikeIff(m.params, a, n.params, b);
    if m.result.Some? && n.result.Some? {
      SubSlotsAlike(m.result.value, a, n.result.value, b);
    }
  }

  lemma KeysAlike(table: Table, order: seq<string>, names: Names)
    requires SpeltTable(table) && Members(order) <= table.Keys
    ensures NamedRecords(table, order, names).Keys == RecordsOf(TableTrees(table), order, names).Keys
  {
    var p, t := NamedRecords(table, order, names), RecordsOf(TableTrees(table), order, names);
    forall n
      ensures n in p <==> n in t
    {
      if n in p {
        NamedKeys(table, order, names, n);
        var k :| 0 <= k < |order| && n == NewName(k);
        RecordsAt(TableTrees(table), order, names, k);
      }
      if n in t {
        RecordsKeys(TableTrees(table), order, names, n);
        var k :| 0 <= k < |order| && n == NewName(k);
        NamedAt(table, order, names, k);
      }
    }
  }

  lemma RecordAlikeIff(table: Table, o: seq<string>, a: Names, other: Table, p: seq<string>, b: Names, n: string)
    requires SpeltTable(table) && SpeltTable(other) && Members(o) <= table.Keys && Members(p) <= other.Keys
    requires Spellable(a) && Spellable(b)
    requires n in NamedRecords(table, o, a) && n in NamedRecords(other, p, b)
    requires n in RecordsOf(TableTrees(table), o, a) && n in RecordsOf(TableTrees(other), p, b)
    ensures NamedRecords(table, o, a)[n] == NamedRecords(other, p, b)[n] <==>
      RecordsOf(TableTrees(table), o, a)[n] == RecordsOf(TableTrees(other), p, b)[n]
  {
    NamedKeys(table, o, a, n);
    NamedKeys(other, p, b, n);
    var k :| 0 <= k < |o| && n == NewName(k);
    var l :| 0 <= l < |p| && n == NewName(l);
    assert o[k] in Members(o) && p[l] in Members(p);
    NamedAt(table, o, a, k);
    NamedAt(other, p, b, l);
    RecordsAt(TableTrees(table), o, a, k);
    RecordsAt(TableTrees(other), p, b, l);
    FieldsAlikeIff(table[o[k]], a, other[p[l]], b);
  }

  lemma RecordsAlikeIff(table: Table, o: seq<string>, a: Names, other: Table, p: seq<string>, b: Names)
    requires SpeltTable(table) && SpeltTable(other) && Members(o) <= table.Keys && Members(p) <= other.Keys
    requires Spellable(a) && Spellable(b)
    ensures NamedRecords(table, o, a) == NamedRecords(other, p, b) <==>
      RecordsOf(TableTrees(table), o, a) == RecordsOf(TableTrees(other), p, b)
  {
    hide SpeltTable, Spellable, TableTrees, Members;
    KeysAlike(table, o, a);
    KeysAlike(other, p, b);
    forall n | n in NamedRecords(table, o, a) && n in NamedRecords(other, p, b)
      ensures NamedRecords(table, o, a)[n] == NamedRecords(other, p, b)[n] <==>
        RecordsOf(TableTrees(table), o, a)[n] == RecordsOf(TableTrees(other), p, b)[n]
    {
      RecordAlikeIff(table, o, a, other, p, b, n);
    }
    MapsAlike(NamedRecords(table, o, a), NamedRecords(other, p, b),
              RecordsOf(TableTrees(table), o, a), RecordsOf(TableTrees(other), p, b));
  }

  /** The order of a member names records only, by spellable names. */
  lemma OrderNames(table: Table, m: Member)
    requires SpeltTable(table)
    ensures Members(MemberOrder(table, m)) <= table.Keys && Spellable(NamesOf(MemberOrder(table, m)))
  {
    VisitDistinct(SlotGraph(table), [], MemberRoots(m));
    SpeltIsTidy(table);
    OrderSpellable(table, MemberOrder(table, m));
  }

  lemma SpeltIsTidy(table: Table)
    requires SpeltTable(table)
    ensures Tidy(table)
  {
  }

  lemma FormsAlikeIff(table: Table, m: Member, other: Table, n: Member)
    requires SpeltTable(table) && SpeltTable(other) && SpeltSlots(AllSlots(m)) && SpeltSlots(AllSlots(n))
    ensures StructuralForm(table, m) == StructuralForm(other, n) <==>
      StructuralOf(TableTrees(table), SigTrees(m)) == StructuralOf(TableTrees(other), SigTrees(n))
  {
    var o, p := MemberOrder(table, m), MemberOrder(other, n);
    SameOrder(table, m);
    SameOrder(other, n);
    OrderNames(table, m);
    OrderNames(other, n);
    SigsAlikeIff(m, NamesOf(o), n, NamesOf(p));
    RecordsAlikeIff(table, o, NamesOf(o), other, p, NamesOf(p));
  }
}
