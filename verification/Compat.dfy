/** Comparing an expected contract with a served one (`src/logos_bridge/compat.py`, `compare`). */
module Compat {
  import opened Wrappers
  import opened LidlTypes
  import opened ShapeText
  import opened FirstReference
  import opened Renaming
  import opened Structure
  import opened Signatures
  import RecordNamer

  // ---------------------------------------------------------------- equal shapes

  lemma SpelledNames(s: Slot, t: Slot)
    requires DerivedConsistent(s) && DerivedConsistent(t) && ShapeSlot(s) == ShapeSlot(t)
    ensures NamesIn(s.ty) == NamesIn(t.ty)
  {
    ConsistentSpelling(s);
    ConsistentSpelling(t);
    if Compactable(s.ty) {
      SlotTreeSpells(s);
      SlotTreeSpells(t);
      SpelledAlike(SlotTree(s), SlotTree(t));
      SlotTreeNames(s);
      SlotTreeNames(t);
    }
  }

  lemma ConsistentSpelling(s: Slot)
    requires DerivedConsistent(s)
    ensures ShapeSlot(s).Text? <==> Compactable(s.ty)
    ensures !Compactable(s.ty) ==> ShapeSlot(s) == Ast(s.ty)
  {
    if Compactable(s.ty) {
      ValueTypeCompactable(s.ty);
    }
  }

  lemma {:induction false} SameMentions(xs: seq<Slot>, ys: seq<Slot>)
    requires AllConsistent(xs) && AllConsistent(ys) && |xs| == |ys|
    requires forall i :: 0 <= i < |xs| ==> ShapeSlot(xs[i]) == ShapeSlot(ys[i])
    ensures Mentioned(xs) == Mentioned(ys)
  {
    if xs != [] {
      SpelledNames(xs[0], ys[0]);
      SameMentions(xs[1..], ys[1..]);
    }
  }

  lemma SameRecordMentions(x: map<string, Slot>, y: map<string, Slot>)
    requires FieldsConsistent(x) && FieldsConsistent(y) && PlainFields(x) == PlainFields(y)
    ensures Mentioned(Sorted(x)) == Mentioned(Sorted(y))
  {
    assert x.Keys == PlainFields(x).Keys == PlainFields(y).Keys == y.Keys;
    var fs := SortedNames(x.Keys);
    SortedAre(x, fs);
    SortedAre(y, fs);
    forall i | 0 <= i < |fs|
      ensures DerivedConsistent(Sorted(x)[i]) && DerivedConsistent(Sorted(y)[i])
      ensures ShapeSlot(Sorted(x)[i]) == ShapeSlot(Sorted(y)[i])
    {
      assert fs[i] in fs;
      assert PlainFields(x)[fs[i]] == PlainFields(y)[fs[i]];
    }
    SameMentions(Sorted(x), Sorted(y));
  }

  lemma SameSubFields(x: map<string, Slot>, y: map<string, Slot>, names: Names)
    requires PlainFields(x) == PlainFields(y)
    ensures SubFields(x, names) == SubFields(y, names)
  {
    assert x.Keys == PlainFields(x).Keys == PlainFields(y).Keys == y.Keys;
    forall f | f in x
      ensures SubSlot(x[f], names) == SubSlot(y[f], names)
    {
      assert PlainFields(x)[f] == PlainFields(y)[f];
    }
  }

  /** Both graphs agree on `s`, and `s` is closed under references. */
  predicate AgreeOn(g: Graph, h: Graph, s: set<string>) {
    && (forall x :: x in s ==> (x in g <==> x in h))
    && (forall x :: x in s && x in g && x in h ==> g[x] == h[x] && Members(g[x]) <= s)
  }

  lemma {:induction false} VisitSame(g: Graph, h: Graph, s: set<string>, order: seq<string>, xs: seq<string>)
    requires AgreeOn(g, h, s) && Members(xs) <= s
    ensures VisitAll(g, order, xs) == VisitAll(h, order, xs)
    decreases |Unseen(g, order)|, |xs|
  {
    if xs != [] {
      assert xs[0] in Members(xs) && Members(xs[1..]) <= Members(xs);
      if xs[0] !in g || xs[0] in order {
        VisitSame(g, h, s, order, xs[1..]);
      } else {
        UnseenDrops(g, order, xs[0]);
        var inner := VisitAll(g, order + [xs[0]], g[xs[0]]);
        UnseenShrinks(g, order + [xs[0]], inner);
        VisitSame(g, h, s, order + [xs[0]], g[xs[0]]);
        VisitSame(g, h, s, inner, xs[1..]);
      }
    }
  }

  /** Every name that the member or a record it reaches mentions. */
  function Scope(table: Table, m: Member): set<string> {
    Members(MemberRoots(m)) + (set r, x | r in MemberOrder(table, m) && r in table && x in Mentioned(Sorted(table[r])) :: x)
  }

  lemma ReachedMeans(table: Table, m: Member, x: string)
    ensures x in ShapeFormOf(table, m).records <==> x in table && Reachable(SlotGraph(table), MemberRoots(m), x)
  {
    VisitsReachable(SlotGraph(table), MemberRoots(m), x);
  }

  /** A mentioned record is reached. */
  lemma ScopeReached(table: Table, m: Member, x: string)
    requires x in Scope(table, m) && x in table
    ensures x in ShapeFormOf(table, m).records
  {
    var g, roots := SlotGraph(table), MemberRoots(m);
    ReachedMeans(table, m, x);
    if x in Members(roots) {
      ReachesRoot(g, roots, x);
    } else {
      var r :| r in MemberOrder(table, m) && r in table && x in Mentioned(Sorted(table[r]));
      VisitsReachable(g, roots, r);
      RecordNamer.ReachesNext(g, roots, r, x);
    }
  }

  lemma SameRoots(m: Member, n: Member)
    requires AllConsistent(AllSlots(m)) && AllConsistent(AllSlots(n))
    requires |m.params| == |n.params| && forall i :: 0 <= i < |m.params| ==> ShapeSlot(m.params[i]) == ShapeSlot(n.params[i])
    requires m.result.Some? == n.result.Some? && (m.result.Some? ==> ShapeSlot(m.result.value) == ShapeSlot(n.result.value))
    ensures MemberRoots(m) == MemberRoots(n)
  {
    SameMentions(AllSlots(m), AllSlots(n));
  }

  lemma SameSlots(table: Table, m: Member, other: Table, n: Member)
    requires ShapeFormOf(table, m) == ShapeFormOf(other, n)
    ensures |m.params| == |n.params| && forall i :: 0 <= i < |m.params| ==> ShapeSlot(m.params[i]) == ShapeSlot(n.params[i])
    ensures m.result.Some? == n.result.Some? && (m.result.Some? ==> ShapeSlot(m.result.value) == ShapeSlot(n.result.value))
  {
    var a, b := ShapeFormOf(table, m), ShapeFormOf(other, n);
    assert |m.params| == |a.params| == |b.params| == |n.params|;
    forall i | 0 <= i < |m.params|
      ensures ShapeSlot(m.params[i]) == ShapeSlot(n.params[i])
    {
      assert a.params[i] == b.params[i];
    }
    assert a.result == b.result;
  }

  lemma ReachedAlike(table: Table, m: Member, other: Table, n: Member, x: string)
    requires Tidy(table) && Tidy(other) && ShapeFormOf(table, m).records == ShapeFormOf(other, n).records
    requires x in ShapeFormOf(table, m).records
    ensures x in table && x in other && PlainFields(table[x]) == PlainFields(other[x])
    ensures SlotGraph(table)[x] == SlotGraph(other)[x]
  {
    assert ShapeFormOf(table, m).records[x] == ShapeFormOf(other, n).records[x];
    SameRecordMentions(table[x], other[x]);
  }

  lemma ScopeReachedThere(table: Table, m: Member, other: Table, n: Member, x: string)
    requires Tidy(table) && Tidy(other) && ShapeFormOf(table, m).records == ShapeFormOf(other, n).records
    requires MemberRoots(m) == MemberRoots(n) && x in Scope(table, m) && x in other
    ensures x in ShapeFormOf(table, m).records
  {
    var h, roots := SlotGraph(other), MemberRoots(n);
    ReachedMeans(other, n, x);
    if x in Members(roots) {
      ReachesRoot(h, roots, x);
    } else {
      var r :| r in MemberOrder(table, m) && r in table && x in Mentioned(Sorted(table[r]));
      VisitsReachable(SlotGraph(table), MemberRoots(m), r);
      ReachedMeans(table, m, r);
      ReachedMeans(other, n, r);
      ReachedAlike(table, m, other, n, r);
      RecordNamer.ReachesNext(h, roots, r, x);
    }
  }

  lemma ScopeMember(table: Table, m: Member, x: string)
    requires x in ShapeFormOf(table, m).records
    ensures x in table && Members(Mentioned(Sorted(table[x]))) <= Scope(table, m)
  {
  }

  lemma ScopesAgree(table: Table, m: Member, other: Table, n: Member)
    requires Tidy(table) && Tidy(other) && ShapeFormOf(table, m).records == ShapeFormOf(other, n).records
    requires MemberRoots(m) == MemberRoots(n)
    ensures AgreeOn(SlotGraph(table), SlotGraph(other), Scope(table, m))
  {
    forall x | x in Scope(table, m)
      ensures x in table <==> x in other
      ensures x in table ==> SlotGraph(table)[x] == SlotGraph(other)[x] && Members(SlotGraph(table)[x]) <= Scope(table, m)
    {
      if x in table {
        ScopeReached(table, m, x);
        ReachedAlike(table, m, other, n, x);
        ScopeMember(table, m, x);
      }
      if x in other {
        ScopeReachedThere(table, m, other, n, x);
      }
    }
  }

  lemma {:induction false} SameNamedRecords(table: Table, other: Table, order: seq<string>, names: Names)
    requires forall i :: 0 <= i < |order| ==>
      order[i] in table && order[i] in other && SubFields(table[order[i]], names) == SubFields(other[order[i]], names)
    ensures NamedRecords(table, order, names) == NamedRecords(other, order, names)
  {
    if order != [] {
      SameNamedRecords(table, other, order[..|order| - 1], names);
    }
  }

  /** Equal shape signatures imply equal structural signatures: the structural form is a function of
      the shape and of exactly the records that the member reaches. */
  lemma ShapeImpliesStructural(table: Table, m: Member, other: Table, n: Member)
    requires Tidy(table) && Tidy(other) && AllConsistent(AllSlots(m)) && AllConsistent(AllSlots(n))
    requires ShapeFormOf(table, m) == ShapeFormOf(other, n)
    ensures StructuralForm(table, m) == StructuralForm(other, n)
  {
    SameSlots(table, m, other, n);
    SameRoots(m, n);
    ScopesAgree(table, m, other, n);
    VisitSame(SlotGraph(table), SlotGraph(other), Scope(table, m), [], MemberRoots(m));
    var order := MemberOrder(table, m);
    var names := NamesOf(order);
    SameSubSlots(m.params, n.params, names);
    forall i | 0 <= i < |order|
      ensures order[i] in table && order[i] in other
      ensures SubFields(table[order[i]], names) == SubFields(other[order[i]], names)
    {
      VisitsReachable(SlotGraph(table), MemberRoots(m), order[i]);
      ReachedIsDeclared(table, m, order[i]);
      ReachedAlike(table, m, other, n, order[i]);
      SameSubFields(table[order[i]], other[order[i]], names);
    }
    SameNamedRecords(table, other, order, names);
  }

  lemma ReachedIsDeclared(table: Table, m: Member, x: string)
    requires Reachable(SlotGraph(table), MemberRoots(m), x)
    ensures x in ShapeFormOf(table, m).records
  {
    ReachedMeans(table, m, x);
    var p :| Path(SlotGraph(table), p) && p[0] in MemberRoots(m) && p[|p| - 1] == x;
  }

  lemma SameSubSlots(xs: seq<Slot>, ys: seq<Slot>, names: Names)
    requires |xs| == |ys| && forall i :: 0 <= i < |xs| ==> ShapeSlot(xs[i]) == ShapeSlot(ys[i])
    ensures SubSlots(xs, names) == SubSlots(ys, names)
  {
  }

  // ---------------------------------------------------------------- compare

  /** The members of one kind, by name and in declaration order. */
  datatype MemberTable = MemberTable(names: seq<string>, byName: map<string, Member>)

  datatype Contract = Contract(name: string, table: Table, methods: MemberTable, events: MemberTable)

  predicate ValidMembers(ms: MemberTable) {
    && (forall i :: 0 <= i < |ms.names| ==> ms.names[i] in ms.byName)
    && (forall n :: n in ms.byName ==> n in ms.names && AllConsistent(AllSlots(ms.byName[n])))
  }

  predicate ValidContract(c: Contract) {
    Tidy(c.table) && ValidMembers(c.methods) && ValidMembers(c.events)
  }

  datatype Kind = MethodKind | EventKind

  function OfKind(c: Contract, k: Kind): MemberTable {
    if k.MethodKind? then c.methods else c.events
  }

  predicate ShapeDiffers(e: Contract, s: Contract, k: Kind, n: string) {
    && n in OfKind(e, k).byName && n in OfKind(s, k).byName
    && ShapeFormOf(e.table, OfKind(e, k).byName[n]) != ShapeFormOf(s.table, OfKind(s, k).byName[n])
  }

  predicate StructureDiffers(e: Contract, s: Contract, k: Kind, n: string) {
    && n in OfKind(e, k).byName && n in OfKind(s, k).byName
    && StructuralForm(e.table, OfKind(e, k).byName[n]) != StructuralForm(s.table, OfKind(s, k).byName[n])
  }

  /** The names of `names` that `served` lacks, in order. */
  function Lacking(names: seq<string>, served: map<string, Member>): seq<string> {
    if names == [] then [] else (if names[0] in served then [] else [names[0]]) + Lacking(names[1..], served)
  }

  function ShapeDiffs(e: Contract, s: Contract, k: Kind, names: seq<string>): seq<string> {
    if names == [] then []
    else (if ShapeDiffers(e, s, k, names[0]) then [names[0]] else []) + ShapeDiffs(e, s, k, names[1..])
  }

  function StructuralDiffs(e: Contract, s: Contract, k: Kind, names: seq<string>): seq<string> {
    if names == [] then []
    else (if StructureDiffers(e, s, k, names[0]) then [names[0]] else []) + StructuralDiffs(e, s, k, names[1..])
  }

  lemma {:induction false} LackingNext(names: seq<string>, served: map<string, Member>, n: string)
    ensures Lacking(names + [n], served) == Lacking(names, served) + if n in served then [] else [n]
  {
    if names == [] {
      assert [n][1..] == [] && [] + [n] == [n];
    } else {
      assert (names + [n])[1..] == names[1..] + [n];
      LackingNext(names[1..], served, n);
    }
  }

  lemma {:induction false} ShapeDiffsNext(e: Contract, s: Contract, k: Kind, names: seq<string>, n: string)
    ensures ShapeDiffs(e, s, k, names + [n]) == ShapeDiffs(e, s, k, names) + if ShapeDiffers(e, s, k, n) then [n] else []
  {
    if names == [] {
      assert [n][1..] == [] && [] + [n] == [n];
    } else {
      assert (names + [n])[1..] == names[1..] + [n];
      ShapeDiffsNext(e, s, k, names[1..], n);
    }
  }

  lemma {:induction false} StructuralDiffsNext(e: Contract, s: Contract, k: Kind, names: seq<string>, n: string)
    ensures StructuralDiffs(e, s, k, names + [n]) ==
      StructuralDiffs(e, s, k, names) + if StructureDiffers(e, s, k, n) then [n] else []
  {
    if names == [] {
      assert [n][1..] == [] && [] + [n] == [n];
    } else {
      assert (names + [n])[1..] == names[1..] + [n];
      StructuralDiffsNext(e, s, k, names[1..], n);
    }
  }

  /** A member never has a structural difference without a shape difference. */
  lemma StructureDiffersInShape(e: Contract, s: Contract, k: Kind, n: string)
    requires ValidContract(e) && ValidContract(s) && StructureDiffers(e, s, k, n)
    ensures ShapeDiffers(e, s, k, n)
  {
    var m, o := OfKind(e, k).byName[n], OfKind(s, k).byName[n];
    if ShapeFormOf(e.table, m) == ShapeFormOf(s.table, o) {
      ShapeImpliesStructural(e.table, m, s.table, o);
    }
  }

  lemma {:induction false} DiffsWithin(e: Contract, s: Contract, k: Kind, names: seq<string>)
    requires ValidContract(e) && ValidContract(s)
    ensures forall n :: n in StructuralDiffs(e, s, k, names) ==> n in ShapeDiffs(e, s, k, names)
  {
    if names != [] {
      DiffsWithin(e, s, k, names[1..]);
      if StructureDiffers(e, s, k, names[0]) {
        StructureDiffersInShape(e, s, k, names[0]);
      }
    }
  }

  lemma {:induction false} NoDiffs(e: Contract, s: Contract, k: Kind, names: seq<string>)
    ensures ShapeDiffs(e, s, k, names) == [] <==> forall n :: n in names ==> !ShapeDiffers(e, s, k, n)
    ensures StructuralDiffs(e, s, k, names) == [] <==> forall n :: n in names ==> !StructureDiffers(e, s, k, n)
  {
    if names != [] {
      NoDiffs(e, s, k, names[1..]);
      assert forall n :: n in names <==> n == names[0] || n in names[1..];
    }
  }

  lemma {:induction false} NothingLacking(names: seq<string>, served: map<string, Member>)
    ensures Lacking(names, served) == [] <==> forall n :: n in names ==> n in served
  {
    if names != [] {
      NothingLacking(names[1..], served);
      assert forall n :: n in names <==> n == names[0] || n in names[1..];
    }
  }

  /** `ys` is what of `xs` is in `keep`, in order: `at` says where each stands. */
  ghost predicate Selected(xs: seq<string>, keep: set<string>, ys: seq<string>, at: seq<nat>) {
    && |at| == |ys|
    && (forall i :: 0 <= i < |at| ==> at[i] < |xs| && xs[at[i]] == ys[i] && ys[i] in keep)
    && (forall i, j :: 0 <= i < j < |at| ==> at[i] < at[j])
    && (forall k :: 0 <= k < |xs| && xs[k] in keep ==> k in at)
  }

  lemma SelectedNext(xs: seq<string>, keep: set<string>, ys: seq<string>, at: seq<nat>, x: string) returns (more: seq<nat>)
    requires Selected(xs, keep, ys, at)
    ensures Selected(xs + [x], keep, ys + (if x in keep then [x] else []), more)
  {
    more := at + (if x in keep then [|xs|] else []);
    forall k | 0 <= k < |xs + [x]| && (xs + [x])[k] in keep
      ensures k in more
    {
      if k < |xs| {
        assert xs[k] in keep;
      } else {
        assert more[|at|] == k;
      }
    }
  }

  /** The names listed as missing are those of `names` that are not served, each at each of its places, in order. */
  lemma LackingInOrder(names: seq<string>, served: map<string, Member>) returns (at: seq<nat>)
    ensures Selected(names, (set n | n in names && n !in served), Lacking(names, served), at)
  {
    var keep := set n | n in names && n !in served;
    at := LackingSelected(names, served, keep);
  }

  lemma {:induction false} LackingSelected(names: seq<string>, served: map<string, Member>, keep: set<string>) returns (at: seq<nat>)
    requires forall n :: n in names ==> (n in keep <==> n !in served)
    ensures Selected(names, keep, Lacking(names, served), at)
  {
    if names == [] {
      at := [];
    } else {
      var last := |names| - 1;
      at := LackingSelected(names[..last], served, keep);
      LackingNext(names[..last], served, names[last]);
      assert names == names[..last] + [names[last]];
      at := SelectedNext(names[..last], keep, Lacking(names[..last], served), at, names[last]);
    }
  }

  /** The names listed as different are exactly those that both sides have with different forms, in order. */
  lemma {:induction false} DiffsInOrder(e: Contract, s: Contract, k: Kind, names: seq<string>, shapes: set<string>, structures: set<string>)
    returns (at: seq<nat>, other: seq<nat>)
    requires forall n :: n in names ==> (n in shapes <==> ShapeDiffers(e, s, k, n))
    requires forall n :: n in names ==> (n in structures <==> StructureDiffers(e, s, k, n))
    ensures Selected(names, shapes, ShapeDiffs(e, s, k, names), at)
    ensures Selected(names, structures, StructuralDiffs(e, s, k, names), other)
  {
    if names == [] {
      at, other := [], [];
    } else {
      hide ShapeDiffers, StructureDiffers, Selected;
      var last := |names| - 1;
      at, other := DiffsInOrder(e, s, k, names[..last], shapes, structures);
      ShapeDiffsNext(e, s, k, names[..last], names[last]);
      StructuralDiffsNext(e, s, k, names[..last], names[last]);
      assert names == names[..last] + [names[last]];
      at := SelectedNext(names[..last], shapes, ShapeDiffs(e, s, k, names[..last]), at, names[last]);
      other := SelectedNext(names[..last], structures, StructuralDiffs(e, s, k, names[..last]), other, names[last]);
    }
  }

  /** The loop over the members of one kind. */
  method CompareKind(e: Contract, s: Contract, k: Kind) returns (missing: seq<string>, shape: seq<string>, structural: seq<string>)
    requires ValidContract(e) && ValidContract(s)
    ensures missing == Lacking(OfKind(e, k).names, OfKind(s, k).byName)
    ensures shape == ShapeDiffs(e, s, k, OfKind(e, k).names)
    ensures structural == StructuralDiffs(e, s, k, OfKind(e, k).names)
  {
    var names, ours, theirs := OfKind(e, k).names, OfKind(e, k).byName, OfKind(s, k).byName;
    missing, shape, structural := [], [], [];
    for i := 0 to |names|
      invariant missing == Lacking(names[..i], theirs)
      invariant shape == ShapeDiffs(e, s, k, names[..i])
      invariant structural == StructuralDiffs(e, s, k, names[..i])
    {
      var n := names[i];
      assert names[..i + 1] == names[..i] + [n];
      LackingNext(names[..i], theirs, n);
      ShapeDiffsNext(e, s, k, names[..i], n);
      StructuralDiffsNext(e, s, k, names[..i], n);
      if n !in theirs {
        missing := missing + [n];
        continue;
      }
      var a := RecordNamer.ShapeSignature(e.table, ours[n]);
      var b := RecordNamer.ShapeSignature(s.table, theirs[n]);
      if a != b {
        shape := shape + [n];
      }
      var p := RecordNamer.StructuralSignature(e.table, ours[n]);
      var q := RecordNamer.StructuralSignature(s.table, theirs[n]);
      if p != q {
        structural := structural + [n];
      }
    }
    assert names[..|names|] == names;
  }

  /** `None` when nothing typed is possible. */
  datatype Level = Exact | ShapeLevel | StructuralLevel

  datatype Report = Report(level: Option<Level>, missing: (seq<string>, seq<string>), mismatched: (seq<string>, seq<string>))

  predicate Served(e: Contract, s: Contract, k: Kind) {
    forall n :: n in OfKind(e, k).names ==> n in OfKind(s, k).byName
  }

  predicate SameShape(e: Contract, s: Contract, k: Kind) {
    forall n :: n in OfKind(e, k).names ==> !ShapeDiffers(e, s, k, n)
  }

  predicate SameStructure(e: Contract, s: Contract, k: Kind) {
    forall n :: n in OfKind(e, k).names ==> !StructureDiffers(e, s, k, n)
  }

  predicate AllServed(e: Contract, s: Contract) {
    Served(e, s, MethodKind) && Served(e, s, EventKind)
  }

  predicate AllSameShape(e: Contract, s: Contract) {
    SameShape(e, s, MethodKind) && SameShape(e, s, EventKind)
  }

  predicate AllSameStructure(e: Contract, s: Contract) {
    SameStructure(e, s, MethodKind) && SameStructure(e, s, EventKind)
  }

  /** The converse fails: another name for a parameter is a difference in shape only. */
  lemma ParameterNameIsShapeOnly(table: Table, m: Member, k: nat, name: string)
    requires k < |m.params| && m.params[k].name != name
    ensures var n := m.(params := m.params[k := m.params[k].(name := name)]);
      ShapeFormOf(table, n) != ShapeFormOf(table, m) && StructuralForm(table, n) == StructuralForm(table, m)
  {
    var n := m.(params := m.params[k := m.params[k].(name := name)]);
    assert ShapeFormOf(table, n).params[k] != ShapeFormOf(table, m).params[k];
    assert forall i :: 0 <= i < |AllSlots(m)| ==> AllSlots(n)[i].ty == AllSlots(m)[i].ty;
    SameTypesMention(AllSlots(n), AllSlots(m));
    SameSubSlots(n.params, m.params, NamesOf(MemberOrder(table, m)));
  }

  lemma {:induction false} SameTypesMention(xs: seq<Slot>, ys: seq<Slot>)
    requires |xs| == |ys| && forall i :: 0 <= i < |xs| ==> xs[i].ty == ys[i].ty
    ensures Mentioned(xs) == Mentioned(ys)
  {
    if xs != [] {
      SameTypesMention(xs[1..], ys[1..]);
    }
  }

  /** `compare` for a served contract; `same` is the equality of the two digests. The level is `shape`
      exactly when, short of equal digests, the module name and every member's shape are the same,
      although the code asks for the structural signatures first. */
  method Compare(e: Contract, s: Contract, same: bool) returns (r: Report)
    requires ValidContract(e) && ValidContract(s)
    ensures r.level == Some(Exact) <==> same
    ensures r.level == None <==> !same && !(AllServed(e, s) && AllSameStructure(e, s))
    ensures r.level == Some(ShapeLevel) <==> !same && e.name == s.name && AllServed(e, s) && AllSameShape(e, s)
    ensures r.missing == (Lacking(e.methods.names, s.methods.byName), Lacking(e.events.names, s.events.byName))
    ensures r.mismatched == (StructuralDiffs(e, s, MethodKind, e.methods.names), StructuralDiffs(e, s, EventKind, e.events.names))
  {
    var missingM, shapeM, structuralM := CompareKind(e, s, MethodKind);
    var missingE, shapeE, structuralE := CompareKind(e, s, EventKind);
    LevelFacts(e, s, MethodKind);
    LevelFacts(e, s, EventKind);
    var level;
    if same {
      level := Some(Exact);
    } else if missingM != [] || missingE != [] || structuralM != [] || structuralE != [] {
      level := None;
    } else if e.name == s.name && shapeM == [] && shapeE == [] {
      level := Some(ShapeLevel);
    } else {
      level := Some(StructuralLevel);
    }
    r := Report(level, (missingM, missingE), (structuralM, structuralE));
  }

  lemma LevelFacts(e: Contract, s: Contract, k: Kind)
    requires ValidContract(e) && ValidContract(s)
    ensures var names := OfKind(e, k).names;
      && (Lacking(names, OfKind(s, k).byName) == [] <==> Served(e, s, k))
      && (ShapeDiffs(e, s, k, names) == [] <==> SameShape(e, s, k))
      && (StructuralDiffs(e, s, k, names) == [] <==> SameStructure(e, s, k))
      && (SameShape(e, s, k) ==> SameStructure(e, s, k))
  {
    var names := OfKind(e, k).names;
    NothingLacking(names, OfKind(s, k).byName);
    NoDiffs(e, s, k, names);
    DiffsWithin(e, s, k, names);
    if SameShape(e, s, k) {
      forall n | n in names
        ensures !StructureDiffers(e, s, k, n)
      {
        if StructureDiffers(e, s, k, n) {
          StructureDiffersInShape(e, s, k, n);
        }
      }
    }
  }
}
