/** The structural form of a whole interface (`src/logos_bridge/lidl.py`, `Interface.structural`). */
module WholeForm {
  import opened Wrappers
  import opened LidlTypes
  import opened ShapeText
  import opened FirstReference
  import opened Renaming
  import opened Structure
  import opened Signatures
  import opened Canonical
  import opened SpelledForms
  import opened RecordNamer

  /** An interface without its name: records, methods and events, each by name. */
  datatype Whole = Whole(table: Table, methods: map<string, Member>, events: map<string, seq<Slot>>)

  datatype Document = Document(
    records: map<string, map<string, Spelled>>,
    methods: map<string, (seq<Spelled>, Option<Spelled>)>,
    events: map<string, seq<Spelled>>)

  function MethodSlots(methods: map<string, Member>, ns: seq<string>): seq<Slot> {
    if ns == [] then [] else (if ns[0] in methods then AllSlots(methods[ns[0]]) else []) + MethodSlots(methods, ns[1..])
  }

  function EventSlots(events: map<string, seq<Slot>>, ns: seq<string>): seq<Slot> {
    if ns == [] then [] else (if ns[0] in events then events[ns[0]] else []) + EventSlots(events, ns[1..])
  }

  /** Every slot in the order in which the namer meets it: methods by name, then events by name. */
  function SlotsIn(w: Whole): seq<Slot> {
    MethodSlots(w.methods, SortedNames(w.methods.Keys)) + EventSlots(w.events, SortedNames(w.events.Keys))
  }

  function MethodForms(methods: map<string, Member>, names: Names): map<string, (seq<Spelled>, Option<Spelled>)> {
    map n | n in methods :: FormSig(methods[n], names)
  }

  function EventForms(events: map<string, seq<Slot>>, names: Names): map<string, seq<Spelled>> {
    map n | n in events :: SubSlots(events[n], names)
  }

  function WholeOrder(w: Whole): seq<string> {
    VisitAll(SlotGraph(w.table), [], Mentioned(SlotsIn(w)))
  }

  /** `structural()`. */
  function StructuralDocument(w: Whole): Document {
    var order := WholeOrder(w);
    var names := NamesOf(order);
    Document(NamedRecords(w.table, order, names), MethodForms(w.methods, names), EventForms(w.events, names))
  }

  // ---------------------------------------------------------------- renamings of interfaces

  /** `phi` is a bijection between the records that the two interfaces reach; writing it into every
      method, event and record of the first gives those of the second. Names of methods, events and
      fields stay. */
  ghost predicate CarriesWhole(phi: Names, w: Whole, v: Whole) {
    && Bijects(phi, SlotGraph(w.table), Mentioned(SlotsIn(w)), SlotGraph(v.table), Mentioned(SlotsIn(v)))
    && MethodForms(w.methods, phi) == MethodForms(v.methods, map[])
    && EventForms(w.events, phi) == EventForms(v.events, map[])
    && RecordsCarried(phi, w.table, v.table)
  }

  /** What the validator accepts: every type is declared and has a compact spelling. */
  predicate Accepted(w: Whole) {
    && SpeltTable(w.table) && SpeltSlots(SlotsIn(w))
    && Members(Mentioned(SlotsIn(w))) <= w.table.Keys
    && forall r :: r in w.table ==> Members(Mentioned(Sorted(w.table[r]))) <= w.table.Keys
  }

  // ---------------------------------------------------------------- all slots as one member

  /** The same names, and for each the same number of parameters and a return or none. */
  predicate SameSkeleton(w: Whole, v: Whole) {
    && w.methods.Keys == v.methods.Keys && w.events.Keys == v.events.Keys
    && (forall n :: n in w.methods ==> SameArity(w.methods[n], v.methods[n]))
    && (forall n :: n in w.events ==> |w.events[n]| == |v.events[n]|)
  }

  predicate SameArity(m: Member, n: Member) {
    |m.params| == |n.params| && (m.result.Some? <==> n.result.Some?)
  }

  lemma SubSlotsAppend(a: seq<Slot>, b: seq<Slot>, names: Names)
    ensures SubSlots(a + b, names) == SubSlots(a, names) + SubSlots(b, names)
  {
  }

  lemma JoinedAlike<T>(a: seq<T>, b: seq<T>, c: seq<T>, d: seq<T>)
    requires |a| == |c|
    ensures a + b == c + d <==> a == c && b == d
  {
    if a + b == c + d {
      assert (a + b)[..|a|] == a && (c + d)[..|a|] == c;
      assert (a + b)[|a|..] == b && (c + d)[|a|..] == d;
    }
  }

  lemma MemberFormIff(m: Member, a: Names, n: Member, b: Names)
    requires SameArity(m, n)
    ensures FormSig(m, a) == FormSig(n, b) <==> SubSlots(AllSlots(m), a) == SubSlots(AllSlots(n), b)
  {
    hide SubSlot;
    if m.result.Some? {
      var x, y := [m.result.value], [n.result.value];
      SubSlotsAppend(m.params, x, a);
      SubSlotsAppend(n.params, y, b);
      JoinedAlike(SubSlots(m.params, a), SubSlots(x, a), SubSlots(n.params, b), SubSlots(y, b));
      assert SubSlots(x, a) == [SubSlot(x[0], a)] && SubSlots(y, b) == [SubSlot(y[0], b)];
    } else {
      assert AllSlots(m) == m.params && AllSlots(n) == n.params;
    }
  }

  lemma {:induction false} MethodSlotsIff(ms: map<string, Member>, a: Names, others: map<string, Member>, b: Names, ns: seq<string>)
    requires forall n :: n in ns ==> n in ms && n in others && SameArity(ms[n], others[n])
    ensures |MethodSlots(ms, ns)| == |MethodSlots(others, ns)|
    ensures SubSlots(MethodSlots(ms, ns), a) == SubSlots(MethodSlots(others, ns), b) <==>
      forall n :: n in ns ==> FormSig(ms[n], a) == FormSig(others[n], b)
  {
    hide FormSig, SubSlot;
    if ns != [] {
      var m, o := ms[ns[0]], others[ns[0]];
      var x, y := MethodSlots(ms, ns[1..]), MethodSlots(others, ns[1..]);
      MethodSlotsIff(ms, a, others, b, ns[1..]);
      MemberFormIff(m, a, o, b);
      SubSlotsAppend(AllSlots(m), x, a);
      SubSlotsAppend(AllSlots(o), y, b);
      JoinedAlike(SubSlots(AllSlots(m), a), SubSlots(x, a), SubSlots(AllSlots(o), b), SubSlots(y, b));
      assert forall n :: n in ns <==> n == ns[0] || n in ns[1..];
    }
  }

  lemma {:induction false} EventSlotsIff(es: map<string, seq<Slot>>, a: Names, others: map<string, seq<Slot>>, b: Names, ns: seq<string>)
    requires forall n :: n in ns ==> n in es && n in others && |es[n]| == |others[n]|
    ensures |EventSlots(es, ns)| == |EventSlots(others, ns)|
    ensures SubSlots(EventSlots(es, ns), a) == SubSlots(EventSlots(others, ns), b) <==>
      forall n :: n in ns ==> SubSlots(es[n], a) == SubSlots(others[n], b)
  {
    hide SubSlot;
    if ns != [] {
      var x, y := EventSlots(es, ns[1..]), EventSlots(others, ns[1..]);
      EventSlotsIff(es, a, others, b, ns[1..]);
      SubSlotsAppend(es[ns[0]], x, a);
      SubSlotsAppend(others[ns[0]], y, b);
      JoinedAlike(SubSlots(es[ns[0]], a), SubSlots(x, a), SubSlots(others[ns[0]], b), SubSlots(y, b));
      assert forall n :: n in ns <==> n == ns[0] || n in ns[1..];
    }
  }

  /** Equal forms of all methods and events are equal lists of spellings over the same skeleton. */
  lemma FormsIff(w: Whole, a: Names, v: Whole, b: Names)
    ensures MethodForms(w.methods, a) == MethodForms(v.methods, b) && EventForms(w.events, a) == EventForms(v.events, b) <==>
      SameSkeleton(w, v) && SubSlots(SlotsIn(w), a) == SubSlots(SlotsIn(v), b)
  {
    if SameSkeleton(w, v) {
      SlotsIff(w, a, v, b);
      MapsIff(w, a, v, b);
    } else if MethodForms(w.methods, a) == MethodForms(v.methods, b) && EventForms(w.events, a) == EventForms(v.events, b) {
      FormsSkeleton(w, a, v, b);
    }
  }

  /** Same forms for every method and event. */
  predicate AlikeByName(w: Whole, a: Names, v: Whole, b: Names)
    requires SameSkeleton(w, v)
  {
    && (forall n :: n in w.methods ==> FormSig(w.methods[n], a) == FormSig(v.methods[n], b))
    && (forall n :: n in w.events ==> SubSlots(w.events[n], a) == SubSlots(v.events[n], b))
  }

  lemma SlotsIff(w: Whole, a: Names, v: Whole, b: Names)
    requires SameSkeleton(w, v)
    ensures SubSlots(SlotsIn(w), a) == SubSlots(SlotsIn(v), b) <==> AlikeByName(w, a, v, b)
  {
    hide SubSlot, FormSig, SortedNames, MethodSlots, EventSlots, SubSlots;
    var ns, es := SortedNames(w.methods.Keys), SortedNames(w.events.Keys);
    MethodSlotsIff(w.methods, a, v.methods, b, ns);
    EventSlotsIff(w.events, a, v.events, b, es);
    SubSlotsAppend(MethodSlots(w.methods, ns), EventSlots(w.events, es), a);
    SubSlotsAppend(MethodSlots(v.methods, ns), EventSlots(v.events, es), b);
    SubSlotsCount(MethodSlots(w.methods, ns), a);
    SubSlotsCount(MethodSlots(v.methods, ns), b);
    JoinedAlike(SubSlots(MethodSlots(w.methods, ns), a), SubSlots(EventSlots(w.events, es), a),
                SubSlots(MethodSlots(v.methods, ns), b), SubSlots(EventSlots(v.events, es), b));
  }

  lemma SubSlotsCount(slots: seq<Slot>, names: Names)
    ensures |SubSlots(slots, names)| == |slots|
  {
  }

  lemma MapsIff(w: Whole, a: Names, v: Whole, b: Names)
    requires SameSkeleton(w, v)
    ensures MethodForms(w.methods, a) == MethodForms(v.methods, b) && EventForms(w.events, a) == EventForms(v.events, b) <==>
      AlikeByName(w, a, v, b)
  {
    hide FormSig, SubSlots;
    var m, n, e, f := MethodForms(w.methods, a), MethodForms(v.methods, b), EventForms(w.events, a), EventForms(v.events, b);
    assert m.Keys == n.Keys && e.Keys == f.Keys;
    if AlikeByName(w, a, v, b) {
      assert m == n && e == f;
    }
    if m == n && e == f {
      forall x | x in w.methods
        ensures FormSig(w.methods[x], a) == FormSig(v.methods[x], b)
      {
        assert m[x] == n[x];
      }
      forall x | x in w.events
        ensures SubSlots(w.events[x], a) == SubSlots(v.events[x], b)
      {
        assert e[x] == f[x];
      }
    }
  }

  lemma FormsSkeleton(w: Whole, a: Names, v: Whole, b: Names)
    requires MethodForms(w.methods, a) == MethodForms(v.methods, b) && EventForms(w.events, a) == EventForms(v.events, b)
    ensures SameSkeleton(w, v)
  {
    hide SubSlot;
    var m, n, e, f := MethodForms(w.methods, a), MethodForms(v.methods, b), EventForms(w.events, a), EventForms(v.events, b);
    assert w.methods.Keys == m.Keys == n.Keys == v.methods.Keys;
    assert w.events.Keys == e.Keys == f.Keys == v.events.Keys;
    forall x | x in w.methods
      ensures SameArity(w.methods[x], v.methods[x])
    {
      assert m[x] == n[x];
      SubSlotsCount(w.methods[x].params, a);
      SubSlotsCount(v.methods[x].params, b);
    }
    forall x | x in w.events
      ensures |w.events[x]| == |v.events[x]|
    {
      assert e[x] == f[x];
      SubSlotsCount(w.events[x], a);
      SubSlotsCount(v.events[x], b);
    }
  }

  // ---------------------------------------------------------------- the equivalence

  function AsMember(w: Whole): Member {
    Member(SlotsIn(w), None)
  }

  lemma AsMemberSlots(w: Whole)
    ensures AllSlots(AsMember(w)) == SlotsIn(w) && MemberRoots(AsMember(w)) == Mentioned(SlotsIn(w))
    ensures MemberOrder(w.table, AsMember(w)) == WholeOrder(w)
  {
    assert SlotsIn(w) + [] == SlotsIn(w);
  }

  lemma DocumentIff(w: Whole, v: Whole)
    ensures StructuralDocument(w) == StructuralDocument(v) <==>
      SameSkeleton(w, v) && StructuralForm(w.table, AsMember(w)) == StructuralForm(v.table, AsMember(v))
  {
    hide VisitAll, NamedRecords, SubSlots, MethodForms, EventForms, SlotsIn, SameSkeleton, NamesOf;
    AsMemberSlots(w);
    AsMemberSlots(v);
    FormsIff(w, NamesOf(WholeOrder(w)), v, NamesOf(WholeOrder(v)));
  }

  lemma CarriesIff(phi: Names, w: Whole, v: Whole)
    ensures CarriesWhole(phi, w, v) <==>
      SameSkeleton(w, v) && CarriesSpelling(phi, w.table, AsMember(w), v.table, AsMember(v))
  {
    hide SubSlots, MethodForms, EventForms, SlotsIn, SameSkeleton, Bijects, RecordsCarried;
    AsMemberSlots(w);
    AsMemberSlots(v);
    FormsIff(w, phi, v, map[]);
  }

  /** Two interfaces have equal structural forms exactly when they differ by a renaming of the records
      they reach, by parameter names, and by records that they do not reach. */
  lemma EqualDocumentsIffRenaming(w: Whole, v: Whole)
    requires Accepted(w) && Accepted(v)
    ensures StructuralDocument(w) == StructuralDocument(v) <==> exists phi :: CarriesWhole(phi, w, v)
  {
    hide StructuralDocument, CarriesWhole, StructuralForm, CarriesSpelling, SameSkeleton, SpeltTable, SpeltSlots, SlotsIn;
    AsMemberSlots(w);
    AsMemberSlots(v);
    DocumentIff(w, v);
    EqualSignaturesIffRenaming(w.table, AsMember(w), v.table, AsMember(v));
    forall phi
      ensures CarriesWhole(phi, w, v) <==>
        SameSkeleton(w, v) && CarriesSpelling(phi, w.table, AsMember(w), v.table, AsMember(v))
    {
      CarriesIff(phi, w, v);
    }
  }

  // ---------------------------------------------------------------- the namer computes it

  /** The namer has gone through the slots `done`. */
  ghost predicate Through(namer: Namer, done: seq<Slot>)
    reads namer
  {
    && namer.Valid() && namer.order == VisitAll(namer.graph, [], Mentioned(done))
    && Progress(namer.table, [], map[], namer.order, namer.records)
  }

  lemma BothAlike(x: seq<Slot>, y: seq<Slot>, a: Names, b: Names)
    requires SubSlots(x + y, a) == SubSlots(x + y, b)
    ensures SubSlots(x, a) == SubSlots(x, b) && SubSlots(y, a) == SubSlots(y, b)
  {
    SubSlotsAppend(x, y, a);
    SubSlotsAppend(x, y, b);
    JoinedAlike(SubSlots(x, a), SubSlots(y, a), SubSlots(x, b), SubSlots(y, b));
  }

  lemma FirstOf(done: seq<Slot>, slots: seq<Slot>, k: nat)
    requires AllConsistent(done + slots) && k < |slots|
    ensures AllConsistent(done + slots[..k]) && DerivedConsistent(slots[k])
    ensures done + slots[..k + 1] == done + slots[..k] + [slots[k]]
  {
    assert (done + slots)[|done| + k] == slots[k];
    assert forall i :: 0 <= i < |done| + k ==> (done + slots[..k])[i] == (done + slots)[i];
  }

  lemma StillThrough(namer: Namer, done: seq<Slot>, slot: Slot, p: seq<string>, before: Records)
    requires namer.Valid() && AllConsistent(done)
    requires p == VisitAll(namer.graph, [], Mentioned(done)) && Progress(namer.table, [], map[], p, before)
    requires namer.order == VisitAll(namer.graph, p, NamesIn(slot.ty))
    requires Progress(namer.table, p, before, namer.order, namer.records)
    ensures Through(namer, done + [slot])
    ensures SubSlots(done, NamesOf(p)) == SubSlots(done, NamesOf(namer.order)) && namer.names == NamesOf(namer.order)
  {
    SlotDone(namer, done, slot, p, before);
    namer.Named("");
  }

  lemma SpelledNext(slots: seq<Slot>, k: nat, a: Names, b: Names, spelled: seq<Spelled>, s: Spelled)
    requires k < |slots| && spelled == SubSlots(slots[..k], a) && SubSlots(slots[..k], a) == SubSlots(slots[..k], b)
    requires s == SubSlot(slots[k], b)
    ensures spelled + [s] == SubSlots(slots[..k + 1], b)
  {
  }

  /** `namer.slot` for each of some slots, after those of `done`. */
  method NameSlots(namer: Namer, ghost done: seq<Slot>, slots: seq<Slot>) returns (spelled: seq<Spelled>)
    requires Through(namer, done) && AllConsistent(done + slots)
    modifies namer`names, namer`records, namer`order
    ensures Through(namer, done + slots) && spelled == SubSlots(slots, NamesOf(namer.order))
    ensures SubSlots(done, NamesOf(old(namer.order))) == SubSlots(done, NamesOf(namer.order))
  {
    hide VisitAll, Progress, Mentioned, SubSlot, NamesOf;
    spelled := [];
    assert done + slots[..0] == done;
    for k := 0 to |slots|
      invariant Through(namer, done + slots[..k]) && spelled == SubSlots(slots[..k], NamesOf(namer.order))
      invariant SubSlots(done, NamesOf(old(namer.order))) == SubSlots(done, NamesOf(namer.order))
    {
      FirstOf(done, slots, k);
      ghost var p, before := namer.order, namer.records;
      var s := namer.RenameSlot(slots[k]);
      StillThrough(namer, done + slots[..k], slots[k], p, before);
      BothAlike(done, slots[..k], NamesOf(p), NamesOf(namer.order));
      SpelledNext(slots, k, NamesOf(p), NamesOf(namer.order), spelled, s);
      spelled := spelled + [s];
    }
    assert slots[..|slots|] == slots;
  }

  /** The forms of the methods `ns`. */
  ghost predicate HasMethods(methods: map<string, Member>, ns: seq<string>, forms: map<string, (seq<Spelled>, Option<Spelled>)>,
                       names: Names)
  {
    && (forall n :: n in forms <==> n in ns)
    && (forall n :: n in ns ==> n in methods && forms[n] == FormSig(methods[n], names))
  }

  ghost predicate HasEvents(events: map<string, seq<Slot>>, ns: seq<string>, forms: map<string, seq<Spelled>>, names: Names) {
    && (forall n :: n in forms <==> n in ns)
    && (forall n :: n in ns ==> n in events && forms[n] == SubSlots(events[n], names))
  }

  lemma {:induction false} MethodSlotsNext(methods: map<string, Member>, ns: seq<string>, n: string)
    requires n in methods
    ensures MethodSlots(methods, ns + [n]) == MethodSlots(methods, ns) + AllSlots(methods[n])
  {
    if ns != [] {
      MethodSlotsNext(methods, ns[1..], n);
      assert (ns + [n])[1..] == ns[1..] + [n];
    } else {
      assert ns + [n] == [n] && [n][1..] == [];
    }
  }

  lemma {:induction false} EventSlotsNext(events: map<string, seq<Slot>>, ns: seq<string>, n: string)
    requires n in events
    ensures EventSlots(events, ns + [n]) == EventSlots(events, ns) + events[n]
  {
    if ns != [] {
      EventSlotsNext(events, ns[1..], n);
      assert (ns + [n])[1..] == ns[1..] + [n];
    } else {
      assert ns + [n] == [n] && [n][1..] == [];
    }
  }

  /** Forms made before stay right when the names grow. */
  lemma MethodsStay(methods: map<string, Member>, ns: seq<string>, forms: map<string, (seq<Spelled>, Option<Spelled>)>,
                    a: Names, b: Names)
    requires HasMethods(methods, ns, forms, a) && SubSlots(MethodSlots(methods, ns), a) == SubSlots(MethodSlots(methods, ns), b)
    ensures HasMethods(methods, ns, forms, b)
  {
    MethodSlotsIff(methods, a, methods, b, ns);
  }

  lemma EventsStay(events: map<string, seq<Slot>>, ns: seq<string>, forms: map<string, seq<Spelled>>, a: Names, b: Names)
    requires HasEvents(events, ns, forms, a) && SubSlots(EventSlots(events, ns), a) == SubSlots(EventSlots(events, ns), b)
    ensures HasEvents(events, ns, forms, b)
  {
    EventSlotsIff(events, a, events, b, ns);
  }

  function Split(m: Member, spelled: seq<Spelled>): (seq<Spelled>, Option<Spelled>)
    requires |spelled| == |AllSlots(m)|
  {
    (spelled[..|m.params|], if m.result.Some? then Some(spelled[|m.params|]) else None)
  }

  lemma SplitIsForm(m: Member, names: Names)
    ensures |SubSlots(AllSlots(m), names)| == |AllSlots(m)| && Split(m, SubSlots(AllSlots(m), names)) == FormSig(m, names)
  {
    hide SubSlot;
    assert SubSlots(AllSlots(m), names)[..|m.params|] == SubSlots(m.params, names);
  }

  lemma MethodAdded(methods: map<string, Member>, ns: seq<string>, n: string,
                    forms: map<string, (seq<Spelled>, Option<Spelled>)>, a: Names, b: Names)
    requires n in methods && HasMethods(methods, ns, forms, a)
    requires SubSlots(MethodSlots(methods, ns), a) == SubSlots(MethodSlots(methods, ns), b)
    ensures HasMethods(methods, ns + [n], forms[n := FormSig(methods[n], b)], b)
  {
    hide FormSig, SubSlots, MethodSlots;
    MethodsStay(methods, ns, forms, a, b);
  }

  lemma EventAdded(events: map<string, seq<Slot>>, ns: seq<string>, n: string, forms: map<string, seq<Spelled>>, a: Names, b: Names)
    requires n in events && HasEvents(events, ns, forms, a)
    requires SubSlots(EventSlots(events, ns), a) == SubSlots(EventSlots(events, ns), b)
    ensures HasEvents(events, ns + [n], forms[n := SubSlots(events[n], b)], b)
  {
    hide SubSlots, EventSlots;
    EventsStay(events, ns, forms, a, b);
  }

  /** What comes first among consistent slots is consistent. */
  lemma ConsistentStart(a: seq<Slot>, b: seq<Slot>)
    requires AllConsistent(a + b)
    ensures AllConsistent(a)
  {
    assert forall i :: 0 <= i < |a| ==> a[i] == (a + b)[i];
  }

  lemma {:induction false} MethodsBegin(methods: map<string, Member>, ns: seq<string>, k: nat, rest: seq<Slot>)
    requires k < |ns| && (forall n :: n in ns ==> n in methods) && AllConsistent(MethodSlots(methods, ns) + rest)
    ensures AllConsistent(MethodSlots(methods, ns[..k]) + AllSlots(methods[ns[k]]))
    ensures MethodSlots(methods, ns[..k + 1]) == MethodSlots(methods, ns[..k]) + AllSlots(methods[ns[k]])
    decreases |ns| - k
  {
    assert ns[..k + 1] == ns[..k] + [ns[k]];
    MethodSlotsNext(methods, ns[..k], ns[k]);
    if k + 1 == |ns| {
      assert ns[..k + 1] == ns;
      ConsistentStart(MethodSlots(methods, ns), rest);
    } else {
      MethodsBegin(methods, ns, k + 1, rest);
      ConsistentStart(MethodSlots(methods, ns[..k + 1]), AllSlots(methods[ns[k + 1]]));
    }
  }

  lemma {:induction false} EventsBegin(events: map<string, seq<Slot>>, before: seq<Slot>, ns: seq<string>, k: nat)
    requires k < |ns| && (forall n :: n in ns ==> n in events) && AllConsistent(before + EventSlots(events, ns))
    ensures AllConsistent(before + EventSlots(events, ns[..k]) + events[ns[k]])
    ensures before + EventSlots(events, ns[..k + 1]) == before + EventSlots(events, ns[..k]) + events[ns[k]]
    decreases |ns| - k
  {
    assert ns[..k + 1] == ns[..k] + [ns[k]];
    EventSlotsNext(events, ns[..k], ns[k]);
    assert before + (EventSlots(events, ns[..k]) + events[ns[k]]) == before + EventSlots(events, ns[..k]) + events[ns[k]];
    if k + 1 == |ns| {
      assert ns[..k + 1] == ns;
    } else {
      EventsBegin(events, before, ns, k + 1);
      ConsistentStart(before + EventSlots(events, ns[..k + 1]), events[ns[k + 1]]);
    }
  }

  method NameMethods(namer: Namer, methods: map<string, Member>, ghost rest: seq<Slot>)
    returns (forms: map<string, (seq<Spelled>, Option<Spelled>)>)
    requires Through(namer, []) && AllConsistent(MethodSlots(methods, SortedNames(methods.Keys)) + rest)
    modifies namer`names, namer`records, namer`order
    ensures Through(namer, MethodSlots(methods, SortedNames(methods.Keys)))
    ensures HasMethods(methods, SortedNames(methods.Keys), forms, NamesOf(namer.order))
  {
    hide Through, SortedNames, MethodSlots, SubSlots, FormSig, HasMethods, NamesOf, AllConsistent;
    var ns := SortedNames(methods.Keys);
    forms := map[];
    NoMethodsYet(methods, ns, NamesOf(namer.order));
    for k := 0 to |ns|
      invariant Through(namer, MethodSlots(methods, ns[..k]))
      invariant HasMethods(methods, ns[..k], forms, NamesOf(namer.order))
    {
      var m := methods[ns[k]];
      MethodsBegin(methods, ns, k, rest);
      ghost var a := NamesOf(namer.order);
      var spelled := NameSlots(namer, MethodSlots(methods, ns[..k]), AllSlots(m));
      SplitIsForm(m, NamesOf(namer.order));
      MethodAdded(methods, ns[..k], ns[k], forms, a, NamesOf(namer.order));
      assert ns[..k + 1] == ns[..k] + [ns[k]];
      forms := forms[ns[k] := Split(m, spelled)];
    }
    assert ns[..|ns|] == ns;
  }

  lemma NoMethodsYet(methods: map<string, Member>, ns: seq<string>, names: Names)
    ensures MethodSlots(methods, ns[..0]) == [] && HasMethods(methods, ns[..0], map[], names)
  {
  }

  lemma NoEventsYet(events: map<string, seq<Slot>>, before: seq<Slot>, ns: seq<string>, names: Names)
    ensures before + EventSlots(events, ns[..0]) == before && HasEvents(events, ns[..0], map[], names)
  {
  }

  method NameEvents(namer: Namer, events: map<string, seq<Slot>>, ghost before: seq<Slot>)
    returns (forms: map<string, seq<Spelled>>)
    requires Through(namer, before) && AllConsistent(before + EventSlots(events, SortedNames(events.Keys)))
    modifies namer`names, namer`records, namer`order
    ensures Through(namer, before + EventSlots(events, SortedNames(events.Keys)))
    ensures HasEvents(events, SortedNames(events.Keys), forms, NamesOf(namer.order))
    ensures SubSlots(before, NamesOf(old(namer.order))) == SubSlots(before, NamesOf(namer.order))
  {
    hide Through, SortedNames, EventSlots, SubSlots, HasEvents, NamesOf, AllConsistent;
    var ns := SortedNames(events.Keys);
    forms := map[];
    NoEventsYet(events, before, ns, NamesOf(namer.order));
    for k := 0 to |ns|
      invariant Through(namer, before + EventSlots(events, ns[..k]))
      invariant HasEvents(events, ns[..k], forms, NamesOf(namer.order))
      invariant SubSlots(before, NamesOf(old(namer.order))) == SubSlots(before, NamesOf(namer.order))
    {
      EventsBegin(events, before, ns, k);
      ghost var a := NamesOf(namer.order);
      var spelled := NameSlots(namer, before + EventSlots(events, ns[..k]), events[ns[k]]);
      BothAlike(before, EventSlots(events, ns[..k]), a, NamesOf(namer.order));
      EventAdded(events, ns[..k], ns[k], forms, a, NamesOf(namer.order));
      assert ns[..k + 1] == ns[..k] + [ns[k]];
      forms := forms[ns[k] := spelled];
    }
    assert ns[..|ns|] == ns;
  }

  lemma NothingThrough(namer: Namer)
    requires namer.Valid() && namer.order == [] && namer.records == map[]
    ensures Through(namer, [])
  {
    ProgressStarts(namer.table, [], map[]);
  }

  lemma NewNamerEmpty(namer: Namer)
    requires namer.Valid() && namer.order == []
    ensures namer.records == map[]
  {
    assert Look(1);
  }

  lemma IsDocument(w: Whole, namer: Namer, methods: map<string, (seq<Spelled>, Option<Spelled>)>, events: map<string, seq<Spelled>>)
    requires Through(namer, SlotsIn(w)) && namer.table == w.table && namer.graph == SlotGraph(w.table)
    requires HasMethods(w.methods, SortedNames(w.methods.Keys), methods, NamesOf(namer.order))
    requires HasEvents(w.events, SortedNames(w.events.Keys), events, NamesOf(namer.order))
    ensures Document(Values(namer.records), methods, events) == StructuralDocument(w)
  {
    hide FormSig, SubSlots, VisitAll, SlotsIn, Progress, Mentioned;
    FinishedRecords(namer);
    assert methods == MethodForms(w.methods, NamesOf(namer.order));
    assert events == EventForms(w.events, NamesOf(namer.order));
  }

  /** `structural()`: one namer goes through the methods by name and then through the events. */
  method StructuralDict(w: Whole) returns (doc: Document)
    requires Tidy(w.table) && AllConsistent(SlotsIn(w))
    ensures doc == StructuralDocument(w)
  {
    hide Through, SortedNames, MethodSlots, EventSlots, StructuralDocument, HasMethods, HasEvents, AllConsistent, NamesOf, SubSlots;
    var namer := new Namer(w.table);
    NewNamerEmpty(namer);
    NothingThrough(namer);
    ghost var first := MethodSlots(w.methods, SortedNames(w.methods.Keys));
    var methods := NameMethods(namer, w.methods, EventSlots(w.events, SortedNames(w.events.Keys)));
    ghost var a := NamesOf(namer.order);
    var events := NameEvents(namer, w.events, first);
    MethodsStay(w.methods, SortedNames(w.methods.Keys), methods, a, NamesOf(namer.order));
    IsDocument(w, namer, methods, events);
    doc := Document(Values(namer.records), methods, events);
  }
}
