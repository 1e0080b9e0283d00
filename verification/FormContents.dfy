/** What stands where in a structural form (`src/logos_bridge/lidl.py`). */
module FormContents {
  import opened Wrappers
  import opened LidlTypes
  import opened ShapeText
  import opened FirstReference
  import opened Renaming
  import opened Structure
  import opened Signatures
  import opened SpelledForms
  import opened WholeForm

  // In `structural` and `member_signature`: each parameter, return and field at its own place, spelled with the new
  // names, and one record `R<k>` for each record reached, in the order of first reference.

  /** The slot's type, its records renamed, spelled. */
  function RenamedText(s: Slot, names: Names): Spelled
    requires SpeltSlot(s)
  {
    ShapeType(Rename(SlotTree(s), names))
  }

  lemma SlotContents(s: Slot, names: Names)
    requires SpeltSlot(s) && Spellable(names)
    ensures SubSlot(s, names) == RenamedText(s, names)
  {
    hide CompactInner, SubText, SlotTree;
    SlotTreeSpells(s);
    SpellsRenamed(SlotTree(s), names);
  }

  ghost predicate ListContents(slots: seq<Slot>, names: Names, texts: seq<Spelled>) {
    |texts| == |slots| && forall i :: 0 <= i < |slots| ==> SpeltSlot(slots[i]) && texts[i] == RenamedText(slots[i], names)
  }

  lemma SlotsContents(slots: seq<Slot>, names: Names)
    requires SpeltSlots(slots) && Spellable(names)
    ensures ListContents(slots, names, SubSlots(slots, names))
  {
    hide RenamedText, SubSlot;
    forall i | 0 <= i < |slots|
      ensures SubSlots(slots, names)[i] == RenamedText(slots[i], names)
    {
      SlotContents(slots[i], names);
    }
  }

  ghost predicate FieldContents(fields: map<string, Slot>, names: Names, texts: map<string, Spelled>) {
    texts.Keys == fields.Keys && forall f :: f in fields ==> SpeltSlot(fields[f]) && texts[f] == RenamedText(fields[f], names)
  }

  lemma FieldsContents(fields: map<string, Slot>, names: Names)
    requires SpeltFields(fields) && Spellable(names)
    ensures FieldContents(fields, names, SubFields(fields, names))
  {
    hide RenamedText, SubSlot;
    forall f | f in fields
      ensures SubFields(fields, names)[f] == RenamedText(fields[f], names)
    {
      SlotContents(fields[f], names);
    }
  }

  /** The records: the `k`th of the order is `R<k>`, with its fields; there is no other. */
  ghost predicate RecordContents(table: Table, order: seq<string>, records: map<string, map<string, Spelled>>) {
    && (forall k :: 0 <= k < |order| ==>
          && order[k] in table && NewName(k) in records
          && FieldContents(table[order[k]], NamesOf(order), records[NewName(k)]))
    && (forall n :: n in records ==> exists k :: 0 <= k < |order| && n == NewName(k))
  }

  lemma RecordsContents(table: Table, order: seq<string>)
    requires SpeltTable(table) && Members(order) <= table.Keys
    ensures RecordContents(table, order, NamedRecords(table, order, NamesOf(order)))
  {
    hide FieldContents, SubFields, NamedRecords, NamesOf;
    var names := NamesOf(order);
    OrderNames(table, order);
    forall k | 0 <= k < |order|
      ensures order[k] in table && NewName(k) in NamedRecords(table, order, names)
      ensures order[k] in table ==> FieldContents(table[order[k]], names, NamedRecords(table, order, names)[NewName(k)])
    {
      assert order[k] in Members(order);
      NamedAt(table, order, names, k);
      FieldsContents(table[order[k]], names);
    }
    forall n | n in NamedRecords(table, order, names)
      ensures exists k :: 0 <= k < |order| && n == NewName(k)
    {
      NamedKeys(table, order, names, n);
    }
  }

  lemma OrderNames(table: Table, order: seq<string>)
    requires SpeltTable(table) && Members(order) <= table.Keys
    ensures Spellable(NamesOf(order))
  {
    assert Tidy(table);
    OrderSpellable(table, order);
  }

  /** An order of first reference has each record that can be reached, once; the `k`th is named `R<k>`. */
  ghost predicate NumbersReached(table: Table, roots: seq<string>, order: seq<string>) {
    && Distinct(order) && Members(order) <= table.Keys
    && (forall x :: x in order <==> Reachable(SlotGraph(table), roots, x))
    && (forall k :: 0 <= k < |order| ==> Sub(NamesOf(order), order[k]) == NewName(k))
  }

  lemma OrderNumbers(table: Table, roots: seq<string>)
    ensures NumbersReached(table, roots, VisitAll(SlotGraph(table), [], roots))
  {
    hide VisitAll, NamesOf;
    var order := VisitAll(SlotGraph(table), [], roots);
    assert Members([]) <= SlotGraph(table).Keys;
    VisitDistinct(SlotGraph(table), [], roots);
    forall x
      ensures x in order <==> Reachable(SlotGraph(table), roots, x)
    {
      VisitsReachable(SlotGraph(table), roots, x);
    }
    forall k | 0 <= k < |order|
      ensures Sub(NamesOf(order), order[k]) == NewName(k)
    {
      SubOrder(order, k);
    }
  }

  // ---------------------------------------------------------------- one member

  /** What a member's structural form holds. */
  lemma MemberContents(table: Table, m: Member)
    requires SpeltTable(table) && SpeltSlots(AllSlots(m))
    ensures var form, order := StructuralForm(table, m), MemberOrder(table, m);
      && NumbersReached(table, MemberRoots(m), order)
      && ListContents(m.params, NamesOf(order), form.params)
      && (form.result.Some? <==> m.result.Some?)
      && (m.result.Some? ==> SpeltSlot(m.result.value) && form.result.value == RenamedText(m.result.value, NamesOf(order)))
      && RecordContents(table, order, form.records)
  {
    hide NamedRecords, NamesOf, SubSlots, SubSlot, VisitAll, RecordContents, ListContents, RenamedText, NumbersReached;
    var order := MemberOrder(table, m);
    MemberNumbers(table, m);
    OrderNames(table, order);
    assert m.params == AllSlots(m)[..|m.params|];
    SlotsContents(m.params, NamesOf(order));
    if m.result.Some? {
      assert AllSlots(m)[|m.params|] == m.result.value;
      SlotContents(m.result.value, NamesOf(order));
    }
    RecordsContents(table, order);
  }

  lemma MemberNumbers(table: Table, m: Member)
    ensures NumbersReached(table, MemberRoots(m), MemberOrder(table, m))
    ensures Members(MemberOrder(table, m)) <= table.Keys
  {
    OrderNumbers(table, MemberRoots(m));
  }

  // ---------------------------------------------------------------- a whole interface

  lemma WholeNumbers(w: Whole)
    ensures NumbersReached(w.table, Mentioned(SlotsIn(w)), WholeOrder(w))
    ensures Members(WholeOrder(w)) <= w.table.Keys
  {
    OrderNumbers(w.table, Mentioned(SlotsIn(w)));
  }

  /** What the structural document of an interface holds: each method and event under its own name. */
  lemma DocumentContents(w: Whole)
    requires SpeltTable(w.table)
    requires forall n :: n in w.methods ==> SpeltSlots(AllSlots(w.methods[n]))
    requires forall n :: n in w.events ==> SpeltSlots(w.events[n])
    ensures var doc, order := StructuralDocument(w), WholeOrder(w); var names := NamesOf(order);
      && NumbersReached(w.table, Mentioned(SlotsIn(w)), order)
      && doc.methods.Keys == w.methods.Keys && doc.events.Keys == w.events.Keys
      && (forall n :: n in w.methods ==> MethodContents(w.methods[n], names, doc.methods[n]))
      && (forall n :: n in w.events ==> ListContents(w.events[n], names, doc.events[n]))
      && RecordContents(w.table, order, doc.records)
  {
    hide NamedRecords, NamesOf, SubSlots, WholeOrder, RecordContents, ListContents, NumbersReached, FormSig, MethodContents, SlotsIn;
    var order := WholeOrder(w);
    WholeNumbers(w);
    OrderNames(w.table, order);
    forall n | n in w.methods
      ensures MethodContents(w.methods[n], NamesOf(order), FormSig(w.methods[n], NamesOf(order)))
    {
      MethodHolds(w.methods[n], NamesOf(order));
    }
    forall n | n in w.events
      ensures ListContents(w.events[n], NamesOf(order), SubSlots(w.events[n], NamesOf(order)))
    {
      SlotsContents(w.events[n], NamesOf(order));
    }
    RecordsContents(w.table, order);
  }

  ghost predicate MethodContents(m: Member, names: Names, doc: (seq<Spelled>, Option<Spelled>)) {
    && ListContents(m.params, names, doc.0)
    && (doc.1.Some? <==> m.result.Some?)
    && (m.result.Some? ==> SpeltSlot(m.result.value) && doc.1 == Some(RenamedText(m.result.value, names)))
  }

  lemma MethodHolds(m: Member, names: Names)
    requires SpeltSlots(AllSlots(m)) && Spellable(names)
    ensures MethodContents(m, names, FormSig(m, names))
  {
    hide SubSlots, SubSlot, RenamedText, ListContents;
    assert m.params == AllSlots(m)[..|m.params|];
    SlotsContents(m.params, names);
    if m.result.Some? {
      assert AllSlots(m)[|m.params|] == m.result.value;
      SlotContents(m.result.value, names);
    }
  }

  // ---------------------------------------------------------------- in the order of names

  function Flat(lists: seq<seq<Slot>>): seq<Slot> {
    if lists == [] then [] else lists[0] + Flat(lists[1..])
  }

  function MemberSlots(m: Member): seq<Slot> {
    m.params + match m.result case Some(s) => [s] case None => []
  }

  /** The namer meets the methods in the order of their names, each with its parameters and then its return, and then
      the events in the order of theirs. */
  lemma SlotsInOrder(w: Whole, ns: seq<string>, es: seq<string>)
    requires Increasing(ns) && (forall n :: n in ns <==> n in w.methods)
    requires Increasing(es) && (forall n :: n in es <==> n in w.events)
    ensures SlotsIn(w) ==
      Flat(seq(|ns|, i requires 0 <= i < |ns| => assert ns[i] in ns; MemberSlots(w.methods[ns[i]])))
      + Flat(seq(|es|, i requires 0 <= i < |es| => assert es[i] in es; w.events[es[i]]))
  {
    hide MethodSlots, EventSlots, Flat, SortedNames;
    SortedNamesOnly(w.methods.Keys, ns);
    SortedNamesOnly(w.events.Keys, es);
    MethodsFlat(w.methods, ns);
    EventsFlat(w.events, es);
  }

  lemma {:induction false} MethodsFlat(methods: map<string, Member>, ns: seq<string>)
    requires forall n :: n in ns ==> n in methods
    ensures MethodSlots(methods, ns) == Flat(seq(|ns|, i requires 0 <= i < |ns| => assert ns[i] in ns; MemberSlots(methods[ns[i]])))
  {
    if ns != [] {
      var rest := ns[1..];
      MethodsFlat(methods, rest);
      assert ns[0] in ns && forall n :: n in rest ==> n in ns;
      var all := seq(|ns|, i requires 0 <= i < |ns| => assert ns[i] in ns; MemberSlots(methods[ns[i]]));
      assert all[1..] == seq(|rest|, i requires 0 <= i < |rest| => assert rest[i] in rest; MemberSlots(methods[rest[i]]));
      assert AllSlots(methods[ns[0]]) == MemberSlots(methods[ns[0]]);
    }
  }

  lemma {:induction false} EventsFlat(events: map<string, seq<Slot>>, es: seq<string>)
    requires forall n :: n in es ==> n in events
    ensures EventSlots(events, es) == Flat(seq(|es|, i requires 0 <= i < |es| => assert es[i] in es; events[es[i]]))
  {
    if es != [] {
      var rest := es[1..];
      EventsFlat(events, rest);
      assert es[0] in es && forall n :: n in rest ==> n in es;
      var all := seq(|es|, i requires 0 <= i < |es| => assert es[i] in es; events[es[i]]);
      assert all[1..] == seq(|rest|, i requires 0 <= i < |rest| => assert rest[i] in rest; events[rest[i]]);
    }
  }
}
