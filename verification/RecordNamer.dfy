/** The objects and loops behind member signatures (`src/logos_bridge/lidl.py`, `_RecordNamer` and
the worklist of `member_signature`), proved against `Signatures`: the namer fills a table of records in place,
the worklist a table of what it has reached. */
module RecordNamer {
  import opened Wrappers
  import opened LidlTypes
  import opened ShapeText
  import opened FirstReference
  import opened Renaming
  import opened Structure
  import opened Signatures

  type Records = map<string, Option<map<string, Spelled>>>

  // ---------------------------------------------------------------- what the namer has filled in

  lemma {:induction false} DistinctCount(order: seq<string>)
    requires Distinct(order)
    ensures |NamesOf(order)| == |order|
  {
    MembersCount(order);
    assert NamesOf(order).Keys == Members(order);
  }

  lemma {:induction false} MembersCount(order: seq<string>)
    requires Distinct(order)
    ensures |Members(order)| == |order|
  {
    if order != [] {
      var last := |order| - 1;
      MembersCount(order[..last]);
      assert Members(order) == Members(order[..last]) + {order[last]};
      assert order[last] !in order[..last];
    }
  }

  lemma {:induction false} PositionAppend(order: seq<string>, x: string, y: string)
    requires y in order + [x] && x !in order
    ensures Position(order + [x], y) == if y == x then |order| else Position(order, y)
  {
    if order != [] {
      assert (order + [x])[1..] == order[1..] + [x];
      if y != order[0] {
        PositionAppend(order[1..], x, y);
      }
    }
  }

  lemma NamesAppend(order: seq<string>, x: string)
    requires x !in order
    ensures NamesOf(order + [x]) == NamesOf(order)[x := NewName(|order|)]
  {
    forall y | y in order + [x]
      ensures NamesOf(order + [x])[y] == NamesOf(order)[x := NewName(|order|)][y]
    {
      PositionAppend(order, x, y);
    }
  }

  /** The k-th record has its final form. */
  predicate Filled(table: Table, order: seq<string>, records: Records, k: nat) {
    && k < |order| && order[k] in table && NewName(k) in records
    && records[NewName(k)] == Some(SubFields(table[order[k]], NamesOf(order)))
  }

  predicate FilledFrom(table: Table, order: seq<string>, records: Records, from: nat) {
    forall k :: from <= k < |order| ==> Filled(table, order, records, k)
  }

  /** The first `n` records have not been touched. */
  predicate Kept(before: Records, after: Records, n: nat) {
    forall k :: 0 <= k < n && NewName(k) in before ==>
      NewName(k) in after && after[NewName(k)] == before[NewName(k)]
  }

  lemma {:induction false} SlotIn(fields: map<string, Slot>, fs: seq<string>, f: string)
    requires f in fs && f in fields
    ensures Members(NamesIn(fields[f].ty)) <= Members(Mentioned(SlotsOf(fields, fs)))
  {
    var slots := SlotsOf(fields, fs);
    if fs[0] in fields {
      assert slots[0] == fields[fs[0]] && slots[1..] == SlotsOf(fields, fs[1..]);
    } else {
      assert slots == SlotsOf(fields, fs[1..]);
    }
    if fs[0] != f {
      SlotIn(fields, fs[1..], f);
    }
  }

  lemma FieldsSettle(table: Table, x: string, o: seq<string>, p: seq<string>)
    requires Tidy(table) && x in table && o <= p && Distinct(p) && Members(p) <= table.Keys
    requires Holds(SlotGraph(table), o, SlotGraph(table)[x])
    ensures SubFields(table[x], NamesOf(o)) == SubFields(table[x], NamesOf(p))
  {
    forall f | f in table[x]
      ensures SubSlot(table[x][f], NamesOf(o)) == SubSlot(table[x][f], NamesOf(p))
    {
      FieldSettles(table, x, f, o, p);
    }
  }

  lemma FieldSettles(table: Table, x: string, f: string, o: seq<string>, p: seq<string>)
    requires Tidy(table) && x in table && f in table[x] && o <= p && Distinct(p) && Members(p) <= table.Keys
    requires Holds(SlotGraph(table), o, SlotGraph(table)[x])
    ensures SubSlot(table[x][f], NamesOf(o)) == SubSlot(table[x][f], NamesOf(p))
  {
    SlotIn(table[x], SortedNames(table[x].Keys), f);
    forall y | y in NamesIn(table[x][f].ty) && y in table
      ensures y in o
    {
      assert y in Members(NamesIn(table[x][f].ty));
      assert y in SlotGraph(table)[x];
    }
    SlotSettles(table, table[x][f], o, p);
  }

  /** Records that were filled and closed stay filled while more are named. */
  lemma FilledStays(table: Table, o: seq<string>, p: seq<string>, before: Records, after: Records, from: nat)
    requires Tidy(table) && o <= p && Distinct(p) && Members(p) <= table.Keys
    requires FilledFrom(table, o, before, from) && Kept(before, after, |o|) && FilledFrom(table, p, after, |o|)
    requires from <= |o| && ClosedBut(SlotGraph(table), o, o[..from])
    ensures FilledFrom(table, p, after, from)
  {
    forall k | from <= k < |p|
      ensures Filled(table, p, after, k)
    {
      if k < |o| {
        assert Filled(table, o, before, k);
        assert p[k] == o[k];
        assert o[k] !in o[..from];
        FieldsSettle(table, o[k], o, p);
      }
    }
  }

  /** From `o` to `order` every new record has been filled and no earlier one touched; guarded, so that
      the methods only pass it on. */
  ghost predicate Progress(table: Table, o: seq<string>, before: Records, order: seq<string>, after: Records) {
    forall k {:trigger Look(k)} :: Look(k) && k == 0 ==> Kept(before, after, |o|) && FilledFrom(table, order, after, |o|)
  }

  lemma ProgressStarts(table: Table, o: seq<string>, records: Records)
    ensures Progress(table, o, records, o, records)
  {
  }

  lemma ProgressOn(table: Table, o: seq<string>, p: seq<string>, q: seq<string>, first: Records, before: Records, after: Records)
    requires Tidy(table) && o <= p <= q && Distinct(q) && Members(q) <= table.Keys && ClosedBut(SlotGraph(table), p, o)
    requires Progress(table, o, first, p, before) && Progress(table, p, before, q, after)
    ensures Progress(table, o, first, q, after)
  {
    assert Look(0);
    assert p[..|o|] == o;
    FilledStays(table, p, q, before, after, |o|);
  }

  function NewNames(n: nat): set<string> {
    set k | 0 <= k < n :: NewName(k)
  }

  // ---------------------------------------------------------------- the namer

  predicate Assigned(table: Table, order: seq<string>, names: Names, filled: set<string>) {
    && Distinct(order) && Members(order) <= table.Keys
    && names == NamesOf(order) && filled == NewNames(|order|)
  }

  lemma AssignedNext(table: Table, order: seq<string>, names: Names, filled: set<string>, name: string)
    requires Assigned(table, order, names, filled) && name in table && name !in order
    ensures |names| == |order|
    ensures Assigned(table, order + [name], names[name := NewName(|order|)], filled + {NewName(|order|)})
  {
    DistinctCount(order);
    NamesAppend(order, name);
    DistinctNext(order, name);
    NewNamesNext(|order|);
  }

  lemma DistinctNext(order: seq<string>, name: string)
    requires Distinct(order) && name !in order
    ensures Distinct(order + [name]) && Members(order + [name]) == Members(order) + {name}
  {
  }

  lemma NewNamesNext(n: nat)
    ensures NewNames(n + 1) == NewNames(n) + {NewName(n)}
  {
  }

  class Namer {
    const table: Table
    ghost const graph: Graph
    var names: Names
    var records: Records
    ghost var order: seq<string>

    /** `Sound`, guarded like `Progress`. */
    ghost predicate Valid()
      reads this
    {
      forall k {:trigger Look(k)} :: Look(k) && k == 1 ==> Sound()
    }

    ghost predicate Sound()
      reads this
    {
      graph == SlotGraph(table) && Tidy(table) && Assigned(table, order, names, records.Keys)
    }

    constructor (table: Table)
      requires Tidy(table)
      ensures Valid() && this.table == table && graph == SlotGraph(table) && order == []
    {
      this.table := table;
      graph := SlotGraph(table);
      names, records, order := map[], map[], [];
    }

    /** `visit`. */
    method Visit(name: string)
      requires Valid()
      modifies this`names, this`records, this`order
      ensures Valid() && order == VisitAll(graph, old(order), [name])
      ensures Progress(table, old(order), old(records), order, records)
      decreases |Unseen(graph, order)|, 0
    {
      hide Progress, SubFields, Mentioned, Sorted;
      VisitOne(graph, order, name);
      ProgressStarts(table, order, records);
      Named(name);
      if name !in table || name in names {
        return;
      }
      ghost var before, o := records, order;
      UnseenDrops(graph, order, name);
      Reserve(name);
      ghost var reserved := records;
      var form := Fields(name);
      ghost var filled := records;
      Named(name);
      Complete(name, form, |o|);
      Finish(table, o, name, order, before, reserved, filled, records);
    }

    lemma Named(name: string)
      requires Valid()
      ensures (name in names <==> name in order) && names == NamesOf(order)
      ensures name in table <==> name in graph
      ensures name in table ==> graph[name] == Mentioned(Sorted(table[name]))
    {
      assert Look(1);
    }

    lemma Consistent(name: string, f: string)
      requires Valid() && name in table && f in table[name]
      ensures DerivedConsistent(table[name][f])
    {
      assert Look(1);
    }

    /** One node more has been visited. */
    lemma NodeVisited(nodes: seq<string>, k: nat, o: seq<string>, p: seq<string>, first: Records, before: Records)
      requires Valid() && k < |nodes| && p == VisitAll(graph, o, nodes[..k]) && order == VisitAll(graph, p, [nodes[k]])
      requires Progress(table, o, first, p, before) && Progress(table, p, before, order, records)
      ensures order == VisitAll(graph, o, nodes[..k + 1])
      ensures Progress(table, o, first, order, records)
    {
      hide VisitAll, Progress, ClosedBut;
      assert nodes[..k + 1] == nodes[..k] + [nodes[k]];
      VisitAppend(graph, o, nodes[..k], [nodes[k]]);
      VisitCloses(graph, o, nodes[..k]);
      NodeIsDone(o, p, first, before);
    }

    lemma NodeIsDone(o: seq<string>, p: seq<string>, first: Records, before: Records)
      requires Valid() && o <= p <= order && ClosedBut(graph, p, o)
      requires Progress(table, o, first, p, before) && Progress(table, p, before, order, records)
      ensures Progress(table, o, first, order, records)
    {
      assert Look(1);
      ProgressOn(table, o, p, order, first, before, records);
    }

    lemma FieldIsDone(x: string, fields: seq<string>, k: nat, o: seq<string>, p: seq<string>, first: Records, before: Records,
                      form: map<string, Spelled>, spelled: Spelled)
      requires Valid() && x in table && fields == SortedNames(table[x].Keys) && k < |fields| == |Sorted(table[x])|
      requires p == VisitAll(graph, o, Mentioned(Sorted(table[x])[..k]))
      requires order == VisitAll(graph, p, NamesIn(table[x][fields[k]].ty))
      requires Progress(table, o, first, p, before) && Progress(table, p, before, order, records)
      requires FormOf(table, x, fields[..k], p, form)
      requires spelled == SubSlot(table[x][fields[k]], names)
      ensures order == VisitAll(graph, o, Mentioned(Sorted(table[x])[..k + 1]))
      ensures Progress(table, o, first, order, records)
      ensures FormOf(table, x, fields[..k + 1], order, form[fields[k] := spelled])
    {
      assert Look(1);
      SortedAre(table[x], fields);
      FieldDone(table, x, fields, k, o, p, order, first, before, records, form);
      FormGrows(table, x, fields, k, order, form, spelled);
    }

    method Complete(name: string, form: map<string, Spelled>, ghost k: nat)
      requires Valid() && k < |order| && order[k] == name
      modifies this`records
      ensures Valid() && records == old(records)[NewName(k) := Some(form)]
    {
      assert Look(1);
      PositionIs(order, k);
      records := records[names[name] := Some(form)];
    }

    /** The position is reserved before the fields are walked. */
    method Reserve(name: string)
      requires Valid() && name in table && name !in order
      modifies this`names, this`records, this`order
      ensures Valid() && order == old(order) + [name] && records == old(records)[NewName(|old(order)|) := None]
    {
      hide VisitAll, SlotGraph, Tidy, Distinct, Members;
      assert Look(1);
      AssignedNext(table, order, names, records.Keys, name);
      var new_ := NewName(|names|);
      names := names[name := new_];
      assert records[new_ := None].Keys == records.Keys + {new_};
      records := records[new_ := None];
      order := order + [name];
    }

    /** The fields of a record, in sorted order. */
    method Fields(name: string) returns (form: map<string, Spelled>)
      requires Valid() && name in table
      modifies this`names, this`records, this`order
      ensures Valid() && order == VisitAll(graph, old(order), Mentioned(Sorted(table[name])))
      ensures Progress(table, old(order), old(records), order, records)
      ensures form == SubFields(table[name], names)
      decreases |Unseen(graph, order)|, 2
    {
      hide VisitAll, Progress, FormOf, Mentioned, Sorted, SortedNames, SubSlot, SubFields, Valid, Unseen;
      ghost var o := order;
      ProgressStarts(table, order, records);
      var fields := SortedNames(table[name].Keys);
      SlotPerField(table[name], fields);
      ghost var slots := Sorted(table[name]);
      form := map[];
      NothingYet(table, name, graph, o, slots, fields);
      for k := 0 to |fields|
        invariant Valid() && order == VisitAll(graph, o, Mentioned(slots[..k]))
        invariant Progress(table, o, old(records), order, records)
        invariant FormOf(table, name, fields[..k], order, form)
      {
        ghost var p, before := order, records;
        var slot := table[name][fields[k]];
        Consistent(name, fields[k]);
        UnseenShrinks(graph, o, order);
        var spelled := RenameSlot(slot);
        FieldIsDone(name, fields, k, o, p, old(records), before, form, spelled);
        form := form[fields[k] := spelled];
      }
      assert slots[..|fields|] == slots && fields[..|fields|] == fields;
      Named(name);
      FormDone(table, name, order, form);
    }

    /** `rename`. */
    method RenameSlot(slot: Slot) returns (spelled: Spelled)
      requires Valid() && DerivedConsistent(slot)
      modifies this`names, this`records, this`order
      ensures Valid() && order == VisitAll(graph, old(order), NamesIn(slot.ty))
      ensures Progress(table, old(order), old(records), order, records)
      ensures spelled == SubSlot(slot, names)
      decreases |Unseen(graph, order)|, 1
    {
      hide VisitAll, Progress, ClosedBut, NamesIn, Valid;
      ghost var o := order;
      ProgressStarts(table, order, records);
      var nodes := NamesIn(slot.ty);
      VisitNone(graph, o, nodes);
      for k := 0 to |nodes|
        invariant Valid() && order == VisitAll(graph, o, nodes[..k])
        invariant Progress(table, o, old(records), order, records)
      {
        ghost var p, before := order, records;
        UnseenShrinks(graph, o, order);
        Visit(nodes[k]);
        NodeVisited(nodes, k, o, p, old(records), before);
      }
      assert nodes[..|nodes|] == nodes;
      spelled := SubSpelled(ShapeSlot(slot), names);
    }
  }

  /** `form` has the fields `fs` of record `x`, renamed as far as names are known. */
  ghost predicate FormOf(table: Table, x: string, fs: seq<string>, order: seq<string>, form: map<string, Spelled>)
    requires x in table
  {
    && (forall f :: f in form <==> f in fs)
    && (forall f :: f in form && f in table[x] ==> form[f] == SubSlot(table[x][f], NamesOf(order)))
  }

  lemma SlotPerField(slots: map<string, Slot>, fields: seq<string>)
    requires fields == SortedNames(slots.Keys)
    ensures |Sorted(slots)| == |fields| && forall f :: f in fields <==> f in slots
  {
    SortedAre(slots, fields);
  }

  lemma VisitNone(g: Graph, o: seq<string>, nodes: seq<string>)
    ensures VisitAll(g, o, nodes[..0]) == o
  {
  }

  lemma NothingYet(table: Table, x: string, g: Graph, o: seq<string>, slots: seq<Slot>, fields: seq<string>)
    requires x in table
    ensures VisitAll(g, o, Mentioned(slots[..0])) == o && FormOf(table, x, fields[..0], o, map[])
  {
  }

  lemma VisitOne(g: Graph, o: seq<string>, name: string)
    ensures VisitAll(g, o, [name]) == if name !in g || name in o then o else VisitAll(g, o + [name], g[name])
  {
    assert [name][1..] == [];
  }

  /** One field more has been renamed: what was done before still stands. */
  lemma FieldDone(table: Table, x: string, fields: seq<string>, k: nat, o: seq<string>, p: seq<string>, q: seq<string>,
                  first: Records, before: Records, after: Records, form: map<string, Spelled>)
    requires Tidy(table) && x in table && fields == SortedNames(table[x].Keys) && k < |fields|
    requires |Sorted(table[x])| == |fields| && Sorted(table[x])[k] == table[x][fields[k]]
    requires p == VisitAll(SlotGraph(table), o, Mentioned(Sorted(table[x])[..k]))
    requires q == VisitAll(SlotGraph(table), p, NamesIn(table[x][fields[k]].ty))
    requires Distinct(q) && Members(q) <= table.Keys
    requires Progress(table, o, first, p, before) && Progress(table, p, before, q, after)
    requires FormOf(table, x, fields[..k], p, form)
    ensures q == VisitAll(SlotGraph(table), o, Mentioned(Sorted(table[x])[..k + 1]))
    ensures Progress(table, o, first, q, after) && FormOf(table, x, fields[..k], q, form)
  {
    var g, slots := SlotGraph(table), Sorted(table[x]);
    VisitAppend(g, o, Mentioned(slots[..k]), NamesIn(slots[k].ty));
    MentionedNext(slots, k);
    VisitCloses(g, o, Mentioned(slots[..k]));
    ProgressOn(table, o, p, q, first, before, after);
    FormStays(table, x, fields, k, p, q, form);
  }

  lemma FormGrows(table: Table, x: string, fields: seq<string>, k: nat, q: seq<string>, form: map<string, Spelled>, s: Spelled)
    requires x in table && k < |fields| && fields[k] in table[x]
    requires FormOf(table, x, fields[..k], q, form) && s == SubSlot(table[x][fields[k]], NamesOf(q))
    ensures FormOf(table, x, fields[..k + 1], q, form[fields[k] := s])
  {
    assert fields[..k + 1] == fields[..k] + [fields[k]];
  }

  lemma FormDone(table: Table, x: string, order: seq<string>, form: map<string, Spelled>)
    requires x in table && FormOf(table, x, SortedNames(table[x].Keys), order, form)
    ensures form == SubFields(table[x], NamesOf(order))
  {
  }

  lemma FormStays(table: Table, x: string, fields: seq<string>, k: nat, p: seq<string>, q: seq<string>,
                  form: map<string, Spelled>)
    requires Tidy(table) && x in table && fields == SortedNames(table[x].Keys) && k <= |fields|
    requires p <= q && Distinct(q) && Members(q) <= table.Keys
    requires |Sorted(table[x])| == |fields| && Holds(SlotGraph(table), p, Mentioned(Sorted(table[x])[..k]))
    requires FormOf(table, x, fields[..k], p, form)
    ensures FormOf(table, x, fields[..k], q, form)
  {
    forall f | f in form && f in table[x]
      ensures form[f] == SubSlot(table[x][f], NamesOf(q))
    {
      var j :| 0 <= j < k && fields[j] == f;
      SortedAre(table[x], fields);
      MentionedIn(Sorted(table[x])[..k], j);
      forall y | y in NamesIn(table[x][f].ty) && y in table
        ensures y in p
      {
        assert y in Members(NamesIn(table[x][f].ty));
      }
      SlotSettles(table, table[x][f], p, q);
    }
  }

  lemma Finish(table: Table, o: seq<string>, name: string, order: seq<string>, before: Records, reserved: Records,
               filled: Records, after: Records)
    requires name in table && o + [name] <= order && reserved == before[NewName(|o|) := None]
    requires after == filled[NewName(|o|) := Some(SubFields(table[name], NamesOf(order)))]
    requires Progress(table, o + [name], reserved, order, filled)
    ensures Progress(table, o, before, order, after)
  {
    assert Look(0);
    forall k | 0 <= k < |order| && k != |o|
      ensures NewName(k) != NewName(|o|)
    {
      if NewName(k) == NewName(|o|) {
        NewNamesDiffer(k, |o|);
      }
    }
    forall k | |o| <= k < |order|
      ensures Filled(table, order, after, k)
    {
      if k != |o| {
        assert Filled(table, order, filled, k);
      } else {
        assert order[k] == (o + [name])[k];
      }
    }
  }

  // ---------------------------------------------------------------- the structural signature

  /** The records of a finished namer. */
  function Values(records: Records): map<string, map<string, Spelled>> {
    map n | n in records && records[n].Some? :: records[n].value
  }

  /** Every record has its form. */
  predicate AllFilled(table: Table, order: seq<string>, names: Names, records: Records) {
    forall k :: 0 <= k < |order| ==>
      order[k] in table && NewName(k) in records && records[NewName(k)] == Some(SubFields(table[order[k]], names))
  }

  lemma ValueIs(table: Table, order: seq<string>, names: Names, records: Records, n: string)
    requires records.Keys == NewNames(|order|) && AllFilled(table, order, names, records) && n in records
    ensures n in NamedRecords(table, order, names) && records[n] == Some(NamedRecords(table, order, names)[n])
  {
    var k :| 0 <= k < |order| && n == NewName(k);
    NamedAt(table, order, names, k);
  }

  lemma ValuesAre(table: Table, order: seq<string>, names: Names, records: Records)
    requires records.Keys == NewNames(|order|) && AllFilled(table, order, names, records)
    ensures Values(records) == NamedRecords(table, order, names)
  {
    var named := NamedRecords(table, order, names);
    forall n | n in records
      ensures n in named && records[n] == Some(named[n])
    {
      ValueIs(table, order, names, records, n);
    }
    forall n | n in named
      ensures n in records
    {
      NamedKeys(table, order, names, n);
    }
    ValuesOf(records, named);
  }

  lemma ValuesOf(records: Records, named: map<string, map<string, Spelled>>)
    requires records.Keys == named.Keys && forall n :: n in records ==> records[n] == Some(named[n])
    ensures Values(records) == named
  {
  }

  lemma FinishedRecords(namer: Namer)
    requires namer.Valid() && Progress(namer.table, [], map[], namer.order, namer.records)
    ensures Values(namer.records) == NamedRecords(namer.table, namer.order, NamesOf(namer.order))
    ensures namer.names == NamesOf(namer.order)
  {
    assert Look(0) && Look(1);
    forall k | 0 <= k < |namer.order|
      ensures namer.order[k] in namer.table && NewName(k) in namer.records
      ensures namer.records[NewName(k)] == Some(SubFields(namer.table[namer.order[k]], NamesOf(namer.order)))
    {
      assert Filled(namer.table, namer.order, namer.records, k);
    }
    assert AllFilled(namer.table, namer.order, NamesOf(namer.order), namer.records);
    ValuesAre(namer.table, namer.order, NamesOf(namer.order), namer.records);
  }

  /** Slots that were renamed stay as they are. */
  lemma SlotsSettle(table: Table, slots: seq<Slot>, p: seq<string>, q: seq<string>)
    requires Tidy(table) && AllConsistent(slots) && p <= q && Distinct(q) && Members(q) <= table.Keys
    requires Holds(SlotGraph(table), p, Mentioned(slots))
    ensures SubSlots(slots, NamesOf(p)) == SubSlots(slots, NamesOf(q))
  {
    forall i | 0 <= i < |slots|
      ensures SubSlot(slots[i], NamesOf(p)) == SubSlot(slots[i], NamesOf(q))
    {
      MentionedIn(slots, i);
      forall y | y in NamesIn(slots[i].ty) && y in table
        ensures y in p
      {
        assert y in Members(NamesIn(slots[i].ty));
      }
      SlotSettles(table, slots[i], p, q);
    }
  }

  /** What one more slot of the member leaves in place. */
  lemma SlotDone(namer: Namer, slots: seq<Slot>, slot: Slot, p: seq<string>, before: Records)
    requires namer.Valid() && AllConsistent(slots)
    requires p == VisitAll(namer.graph, [], Mentioned(slots))
    requires namer.order == VisitAll(namer.graph, p, NamesIn(slot.ty))
    requires Progress(namer.table, [], map[], p, before)
    requires Progress(namer.table, p, before, namer.order, namer.records)
    ensures namer.order == VisitAll(namer.graph, [], Mentioned(slots + [slot]))
    ensures Progress(namer.table, [], map[], namer.order, namer.records)
    ensures SubSlots(slots, NamesOf(p)) == SubSlots(slots, namer.names)
  {
    assert Look(1);
    VisitAppend(namer.graph, [], Mentioned(slots), NamesIn(slot.ty));
    assert (slots + [slot])[..|slots|] == slots && (slots + [slot])[..|slots| + 1] == slots + [slot];
    MentionedNext(slots + [slot], |slots|);
    VisitCloses(namer.graph, [], Mentioned(slots));
    ProgressOn(namer.table, [], p, namer.order, map[], before, namer.records);
    SlotsSettle(namer.table, slots, p, namer.order);
  }

  lemma NoSlotYet(g: Graph, slots: seq<Slot>)
    ensures VisitAll(g, [], Mentioned(slots[..0])) == [] && SubSlots(slots[..0], NamesOf([])) == []
  {
  }

  /** `member_signature(..., structural=True)`. */
  method StructuralSignature(table: Table, m: Member) returns (form: Form)
    requires Tidy(table) && AllConsistent(AllSlots(m))
    ensures form == StructuralForm(table, m)
  {
    hide VisitAll, Progress, Mentioned, SubSlot, NamedRecords;
    var namer := new Namer(table);
    assert namer.Valid() && namer.records == map[] by {
      assert Look(1);
    }
    ProgressStarts(table, [], map[]);
    var slots := AllSlots(m);
    var spelled: seq<Spelled> := [];
    NoSlotYet(namer.graph, slots);
    for k := 0 to |slots|
      invariant namer.Valid() && namer.order == VisitAll(namer.graph, [], Mentioned(slots[..k]))
      invariant Progress(table, [], map[], namer.order, namer.records)
      invariant spelled == SubSlots(slots[..k], NamesOf(namer.order))
    {
      ghost var p, before := namer.order, namer.records;
      var s := namer.RenameSlot(slots[k]);
      assert slots[..k + 1] == slots[..k] + [slots[k]];
      SlotDone(namer, slots[..k], slots[k], p, before);
      namer.Named("");
      spelled := spelled + [s];
    }
    assert slots[..|slots|] == slots;
    FinishedRecords(namer);
    var n := |m.params|;
    assert spelled[..n] == SubSlots(m.params, namer.names);
    form := Form(spelled[..n], if m.result.Some? then Some(spelled[n]) else None, Values(namer.records));
  }

  // ---------------------------------------------------------------- the shape signature

  function TypesOf(slots: seq<Slot>): seq<TypeRef> {
    seq(|slots|, i requires 0 <= i < |slots| => slots[i].ty)
  }

  lemma {:induction false} TypesMention(slots: seq<Slot>)
    ensures NamesInAll(TypesOf(slots)) == Mentioned(slots)
  {
    if slots != [] {
      assert TypesOf(slots)[1..] == TypesOf(slots[1..]);
      TypesMention(slots[1..]);
    }
  }

  lemma {:induction false} NamesAppendAll(a: seq<TypeRef>, b: seq<TypeRef>)
    ensures NamesInAll(a + b) == NamesInAll(a) + NamesInAll(b)
  {
    if a == [] {
      assert a + b == b;
    } else {
      assert (a + b)[1..] == a[1..] + b;
      NamesAppendAll(a[1..], b);
    }
  }

  /** Every name here that is a record has been reached or is still to be walked. */
  predicate Covered(g: Graph, xs: seq<string>, reached: set<string>, waiting: seq<string>) {
    forall x :: x in xs && x in g ==> x in reached || x in waiting
  }

  ghost predicate AllReachable(g: Graph, roots: seq<string>, xs: seq<string>) {
    forall x :: x in xs && x in g ==> Reachable(g, roots, x)
  }

  /** The worklist, guarded: what is reached can be reached, and whatever it names is reached or
      waiting. */
  ghost predicate Working(g: Graph, roots: seq<string>, reached: set<string>, waiting: seq<string>) {
    forall k {:trigger Look(k)} :: Look(k) && k == 2 ==> Worklist(g, roots, reached, waiting)
  }

  ghost predicate Worklist(g: Graph, roots: seq<string>, reached: set<string>, waiting: seq<string>) {
    && reached <= g.Keys
    && (forall r :: r in reached ==> Reachable(g, roots, r))
    && AllReachable(g, roots, waiting)
    && Covered(g, roots, reached, waiting)
    && (forall r :: r in reached && r in g ==> Covered(g, g[r], reached, waiting))
  }

  lemma WorkAdds(g: Graph, roots: seq<string>, reached: set<string>, waiting: seq<string>, x: string)
    requires Working(g, roots, reached, waiting) && x in g && x in waiting
    ensures Working(g, roots, reached + {x}, waiting + g[x])
  {
    assert Look(2);
    forall y | y in g[x] && y in g
      ensures Reachable(g, roots, y)
    {
      ReachesNext(g, roots, x, y);
    }
  }

  lemma ReachesNext(g: Graph, roots: seq<string>, x: string, y: string)
    requires Reachable(g, roots, x) && x in g && y in g[x] && y in g
    ensures Reachable(g, roots, y)
  {
    var p :| Path(g, p) && p[0] in roots && p[|p| - 1] == x;
    assert Path(g, p + [y]);
  }

  lemma WorkDrops(g: Graph, roots: seq<string>, reached: set<string>, before: seq<string>, x: string, after: seq<string>)
    requires Working(g, roots, reached, before + [x] + after) && (x in g ==> x in reached)
    ensures Working(g, roots, reached, before + after)
  {
    assert Look(2);
    forall y | y in before + [x] + after && y != x
      ensures y in before + after
    {
    }
    forall y | y in before + after
      ensures y in before + [x] + after
    {
    }
  }

  lemma {:induction false} PathIn(g: Graph, reached: set<string>, p: seq<string>)
    requires Path(g, p) && p[0] in reached && forall r :: r in reached && r in g ==> Covered(g, g[r], reached, [])
    ensures p[|p| - 1] in reached
    decreases |p|
  {
    if |p| > 1 {
      assert p[1] in g[p[0]];
      assert forall i :: 0 <= i < |p[1..]| ==> p[1..][i] == p[i + 1];
      PathIn(g, reached, p[1..]);
    }
  }

  lemma WorkDone(g: Graph, roots: seq<string>, reached: set<string>)
    requires Working(g, roots, reached, [])
    ensures forall x :: x in reached <==> x in VisitAll(g, [], roots)
  {
    assert Look(2);
    forall x
      ensures x in reached <==> x in VisitAll(g, [], roots)
    {
      VisitsReachable(g, roots, x);
      if Reachable(g, roots, x) {
        var p :| Path(g, p) && p[0] in roots && p[|p| - 1] == x;
        PathIn(g, reached, p);
      }
    }
  }

  /** The records reached so far, with their fields; guarded. */
  ghost predicate Right(table: Table, reached: map<string, map<string, Spelled>>) {
    forall k {:trigger Look(k)} :: Look(k) && k == 3 ==>
      reached.Keys <= table.Keys && forall r :: r in reached && r in table ==> reached[r] == PlainFields(table[r])
  }

  lemma RightAdds(table: Table, reached: map<string, map<string, Spelled>>, name: string)
    requires Right(table, reached) && name in table
    ensures Right(table, reached[name := PlainFields(table[name])])
  {
    assert Look(3);
  }

  lemma RightKeys(table: Table, reached: map<string, map<string, Spelled>>)
    requires Right(table, reached)
    ensures reached.Keys <= table.Keys
  {
    assert Look(3);
  }

  /** `member_signature(...)`: the worklist ends on every table, and reaches exactly the records that a
      chain of references reaches. */
  method ShapeSignature(table: Table, m: Member) returns (form: ShapeForm)
    ensures form == ShapeFormOf(table, m)
  {
    hide Working, SlotGraph, NamesIn;
    ghost var g, roots := SlotGraph(table), MemberRoots(m);
    var reached: map<string, map<string, Spelled>> := map[];
    var stack := TypesOf(AllSlots(m));
    TypesMention(AllSlots(m));
    WorkStarts(g, roots);
    while stack != []
      invariant Right(table, reached)
      invariant Working(g, roots, reached.Keys, NamesInAll(stack))
      decreases |table.Keys - reached.Keys|, |stack|
    {
      var top := stack[|stack| - 1];
      NamesLast(stack);
      stack := stack[..|stack| - 1];
      ghost var before := reached.Keys;
      reached, stack := WalkNames(table, roots, NamesIn(top), reached, stack);
      RightKeys(table, reached);
      GapShrinks(table.Keys, before, reached.Keys);
    }
    WorkDone(g, roots, reached.Keys);
    ReachedAll(table, m, reached);
    form := ShapeForm(
      seq(|m.params|, i requires 0 <= i < |m.params| => (m.params[i].name, ShapeSlot(m.params[i]))),
      if m.result.Some? then Some(ShapeSlot(m.result.value)) else None,
      reached);
  }

  lemma {:induction false} NamesLast(stack: seq<TypeRef>)
    requires stack != []
    ensures NamesInAll(stack) == NamesInAll(stack[..|stack| - 1]) + NamesIn(stack[|stack| - 1])
  {
    hide NamesIn, NamesInAll;
    var top := stack[|stack| - 1];
    NamesAppendAll(stack[..|stack| - 1], [top]);
    assert stack == stack[..|stack| - 1] + [top];
    OneName(top);
  }

  lemma GapShrinks(all: set<string>, a: set<string>, b: set<string>)
    requires a <= b <= all
    ensures |all - b| <= |all - a| && (a != b ==> |all - b| < |all - a|)
  {
    CardinalityGrows(all - b, all - a);
    if a != b {
      var x :| x in b && x !in a;
      CardinalityGrows(all - b, all - a - {x});
    }
  }

  lemma ReachedAll(table: Table, m: Member, reached: map<string, map<string, Spelled>>)
    requires Right(table, reached) && forall x :: x in reached.Keys <==> x in MemberOrder(table, m)
    ensures reached == ShapeFormOf(table, m).records
  {
    assert Look(3);
  }

  lemma WorkStarts(g: Graph, roots: seq<string>)
    ensures Working(g, roots, {}, roots)
  {
    forall x | x in roots && x in g
      ensures Reachable(g, roots, x)
    {
      ReachesRoot(g, roots, x);
    }
  }

  /** The named nodes of one type. */
  method WalkNames(table: Table, ghost roots: seq<string>, nodes: seq<string>, reached: map<string, map<string, Spelled>>,
                   stack: seq<TypeRef>)
    returns (reached': map<string, map<string, Spelled>>, stack': seq<TypeRef>)
    requires Right(table, reached)
    requires Working(SlotGraph(table), roots, reached.Keys, NamesInAll(stack) + nodes)
    ensures Right(table, reached')
    ensures Working(SlotGraph(table), roots, reached'.Keys, NamesInAll(stack'))
    ensures reached.Keys < reached'.Keys || (reached' == reached && stack' == stack)
  {
    reached', stack' := reached, stack;
    for k := 0 to |nodes|
      invariant Right(table, reached')
      invariant Working(SlotGraph(table), roots, reached'.Keys, NamesInAll(stack') + nodes[k..])
      invariant reached.Keys < reached'.Keys || (reached' == reached && stack' == stack)
    {
      var name := nodes[k];
      ghost var waiting := NamesInAll(stack');
      assert nodes[k..] == [name] + nodes[k + 1..];
      assert waiting + nodes[k..] == waiting + [name] + nodes[k + 1..];
      if name in table && name !in reached' {
        var types := TypesOf(Sorted(table[name]));
        WalkEnters(table, roots, reached', stack', name, nodes[k + 1..]);
        RightAdds(table, reached', name);
        reached' := reached'[name := PlainFields(table[name])];
        stack' := stack' + types;
      } else {
        WorkDrops(SlotGraph(table), roots, reached'.Keys, waiting, name, nodes[k + 1..]);
      }
    }
    assert NamesInAll(stack') + nodes[|nodes|..] == NamesInAll(stack');
  }

  lemma WalkEnters(table: Table, roots: seq<string>, reached: map<string, map<string, Spelled>>, stack: seq<TypeRef>,
                   name: string, rest: seq<string>)
    requires Working(SlotGraph(table), roots, reached.Keys, NamesInAll(stack) + [name] + rest)
    requires name in table && name !in reached
    ensures var then' := reached[name := PlainFields(table[name])];
      && Working(SlotGraph(table), roots, then'.Keys, NamesInAll(stack + TypesOf(Sorted(table[name]))) + rest)
      && reached.Keys < then'.Keys
  {
    WorkEnters(table, roots, reached.Keys, NamesInAll(stack), name, rest);
    TypesMention(Sorted(table[name]));
    NamesAppendAll(stack, TypesOf(Sorted(table[name])));
    assert reached[name := PlainFields(table[name])].Keys == reached.Keys + {name};
  }

  lemma WorkEnters(table: Table, roots: seq<string>, reached: set<string>, waiting: seq<string>, name: string, rest: seq<string>)
    requires Working(SlotGraph(table), roots, reached, waiting + [name] + rest) && name in table
    ensures Working(SlotGraph(table), roots, reached + {name}, waiting + Mentioned(Sorted(table[name])) + rest)
  {
    var g, more := SlotGraph(table), Mentioned(Sorted(table[name]));
    assert name in waiting + [name] + rest;
    WorkAdds(g, roots, reached, waiting + [name] + rest, name);
    assert waiting + [name] + rest + more == waiting + [name] + (rest + more);
    WorkDrops(g, roots, reached + {name}, waiting, name, rest + more);
    WorkShuffles(g, roots, reached + {name}, waiting + (rest + more), waiting + more + rest);
  }

  lemma WorkShuffles(g: Graph, roots: seq<string>, reached: set<string>, a: seq<string>, b: seq<string>)
    requires Working(g, roots, reached, a) && forall x :: x in a <==> x in b
    ensures Working(g, roots, reached, b)
  {
    assert Look(2);
  }
}
