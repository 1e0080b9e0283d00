/** The structural form of one member, on type trees: its signature and the records it reaches. */
module Structure {
  import opened Wrappers
  import opened LidlTypes
  import opened FirstReference
  import opened Renaming

  // Records are renamed in first-reference order (`src/logos_bridge/lidl.py`, `member_signature`,
  // `_RecordNamer`).

  // ---------------------------------------------------------------- sorted field names

  predicate Leq(a: string, b: string) {
    a == [] || (b != [] && (a[0] < b[0] || (a[0] == b[0] && Leq(a[1..], b[1..]))))
  }

  lemma {:induction false} LeqAntisymmetric(a: string, b: string)
    requires Leq(a, b) && Leq(b, a)
    ensures a == b
  {
    if a != [] {
      LeqAntisymmetric(a[1..], b[1..]);
      assert a == [a[0]] + a[1..] && b == [b[0]] + b[1..];
    }
  }

  lemma {:induction false} LeqTotal(a: string, b: string)
    ensures Leq(a, b) || Leq(b, a)
  {
    if a != [] && b != [] {
      LeqTotal(a[1..], b[1..]);
    }
  }

  lemma {:induction false} LeqTransitive(a: string, b: string, c: string)
    requires Leq(a, b) && Leq(b, c)
    ensures Leq(a, c)
  {
    if a != [] && b != [] && c != [] && a[0] == b[0] == c[0] {
      LeqTransitive(a[1..], b[1..], c[1..]);
    }
  }

  predicate IsLeast(s: set<string>, m: string) {
    m in s && forall x :: x in s ==> Leq(m, x)
  }

  lemma {:induction false} HasLeast(s: set<string>)
    requires s != {}
    ensures exists m :: IsLeast(s, m)
  {
    var x :| x in s;
    LeqTotal(x, x);
    if s == {x} {
      assert IsLeast(s, x);
    } else {
      HasLeast(s - {x});
      var m :| IsLeast(s - {x}, m);
      LeqTotal(x, m);
      if Leq(m, x) {
        assert IsLeast(s, m);
      } else {
        forall y | y in s
          ensures Leq(x, y)
        {
          if y != x {
            LeqTransitive(x, m, y);
          }
        }
        assert IsLeast(s, x);
      }
    }
  }

  lemma OneLeast(s: set<string>)
    ensures forall m, n :: IsLeast(s, m) && IsLeast(s, n) ==> m == n
  {
    forall m, n | IsLeast(s, m) && IsLeast(s, n)
      ensures m == n
    {
      LeqAntisymmetric(m, n);
    }
  }

  function Least(s: set<string>): (m: string)
    requires s != {}
    ensures IsLeast(s, m)
  {
    HasLeast(s);
    OneLeast(s);
    var m :| IsLeast(s, m);
    m
  }

  /** `sorted` of distinct names. */
  function SortedNames(s: set<string>): (r: seq<string>)
    ensures forall x :: x in r <==> x in s
  {
    if s == {} then [] else
      var m := Least(s);
      [m] + SortedNames(s - {m})
  }

  predicate Increasing(r: seq<string>) {
    forall i, j :: 0 <= i < j < |r| ==> Leq(r[i], r[j]) && r[i] != r[j]
  }

  lemma {:induction false} SortedNamesIncrease(s: set<string>)
    ensures Increasing(SortedNames(s))
  {
    if s != {} {
      SortedNamesIncrease(s - {Least(s)});
      assert forall j :: 0 < j < |SortedNames(s)| ==> SortedNames(s)[j] in s - {Least(s)};
    }
  }

  /** The sorted list of a set's names is the only increasing list of them. */
  lemma {:induction false} SortedNamesOnly(s: set<string>, r: seq<string>)
    requires Increasing(r) && forall x :: x in r <==> x in s
    ensures r == SortedNames(s)
    decreases r
  {
    hide Increasing, Leq;
    if r == [] {
      assert s == {};
    } else {
      FirstIsLeast(s, r);
      RestIsRest(s, r);
      SortedNamesOnly(s - {r[0]}, r[1..]);
    }
  }

  lemma FirstIsLeast(s: set<string>, r: seq<string>)
    requires r != [] && Increasing(r) && forall x :: x in r <==> x in s
    ensures s != {} && r[0] == Least(s)
  {
    assert r[0] in s;
    forall y | y in s
      ensures Leq(r[0], y)
    {
      var i :| 0 <= i < |r| && r[i] == y;
      if i == 0 {
        LeqTotal(y, y);
      }
    }
    assert IsLeast(s, r[0]);
    OneLeast(s);
  }

  lemma RestIsRest(s: set<string>, r: seq<string>)
    requires r != [] && Increasing(r) && forall x :: x in r <==> x in s
    ensures Increasing(r[1..]) && forall x :: x in r[1..] <==> x in s - {r[0]}
  {
    forall x
      ensures x in r[1..] <==> x in s - {r[0]}
    {
      if x in s - {r[0]} {
        var i :| 0 <= i < |r| && r[i] == x;
        assert r[1..][i - 1] == x;
      }
    }
  }

  // ---------------------------------------------------------------- declarations

  /** A record's fields, in normal form. */
  type Fields = map<string, TypeRef>

  type Decl = map<string, Fields>

  datatype Sig = Sig(params: seq<TypeRef>, result: Option<TypeRef>)

  /** The names that the fields `fs` mention, in order. */
  function RefsOf(fields: Fields, fs: seq<string>): seq<string> {
    if fs == [] then []
    else (if fs[0] in fields then NamesIn(fields[fs[0]]) else []) + RefsOf(fields, fs[1..])
  }

  function Refs(fields: Fields): seq<string> {
    RefsOf(fields, SortedNames(fields.Keys))
  }

  function GraphOf(d: Decl): Graph {
    map r | r in d :: Refs(d[r])
  }

  function Roots(s: Sig): seq<string> {
    NamesInAll(s.params) + if s.result.Some? then NamesIn(s.result.value) else []
  }

  function RenameFields(fields: Fields, names: Names): Fields {
    map f | f in fields :: Rename(fields[f], names)
  }

  function RenameSig(s: Sig, names: Names): Sig {
    Sig(RenameAll(s.params, names), if s.result.Some? then Some(Rename(s.result.value, names)) else None)
  }

  function Position(order: seq<string>, x: string): (k: nat)
    requires x in order
    ensures k < |order| && order[k] == x
  {
    if order[0] == x then 0 else 1 + Position(order[1..], x)
  }

  lemma {:induction false} PositionIs(order: seq<string>, k: nat)
    requires Distinct(order) && k < |order|
    ensures Position(order, order[k]) == k
  {
  }

  /** `R0`, `R1`, ... in first-reference order. */
  function NamesOf(order: seq<string>): Names {
    map x | x in order :: NewName(Position(order, x))
  }

  function RecordsOf(d: Decl, order: seq<string>, names: Names): Decl {
    if order == [] then map[]
    else
      var k := |order| - 1;
      var x := order[k];
      RecordsOf(d, order[..k], names)[NewName(k) := if x in d then RenameFields(d[x], names) else map[]]
  }

  datatype Structural = Structural(sig: Sig, records: Decl)

  function OrderOf(d: Decl, s: Sig): seq<string> {
    VisitAll(GraphOf(d), [], Roots(s))
  }

  function StructuralOf(d: Decl, s: Sig): Structural {
    var order := OrderOf(d, s);
    Structural(RenameSig(s, NamesOf(order)), RecordsOf(d, order, NamesOf(order)))
  }

  // ---------------------------------------------------------------- facts about the form

  /** Every name that is mentioned is declared. */
  predicate AllDeclared(d: Decl, s: Sig) {
    Members(Roots(s)) <= d.Keys && forall r :: r in d ==> Members(Refs(d[r])) <= d.Keys
  }

  lemma {:induction false} RecordsAt(d: Decl, order: seq<string>, names: Names, k: nat)
    requires k < |order|
    ensures NewName(k) in RecordsOf(d, order, names)
    ensures order[k] in d ==> RecordsOf(d, order, names)[NewName(k)] == RenameFields(d[order[k]], names)
  {
    var last := |order| - 1;
    if k < last {
      RecordsAt(d, order[..last], names, k);
      assert order[..last][k] == order[k];
      if NewName(k) == NewName(last) {
        NewNamesDiffer(k, last);
      }
    }
  }

  lemma {:induction false} RecordsKeys(d: Decl, order: seq<string>, names: Names, n: string)
    requires n in RecordsOf(d, order, names)
    ensures exists k :: 0 <= k < |order| && n == NewName(k)
  {
    var last := |order| - 1;
    if n != NewName(last) {
      RecordsKeys(d, order[..last], names, n);
    }
  }

  lemma SubOrder(order: seq<string>, k: nat)
    requires Distinct(order) && k < |order|
    ensures order[k] in NamesOf(order) && Sub(NamesOf(order), order[k]) == NewName(k)
  {
    PositionIs(order, k);
  }

  lemma OrderIs(d: Decl, s: Sig)
    ensures Distinct(OrderOf(d, s)) && Members(OrderOf(d, s)) <= d.Keys
    ensures forall x :: x in OrderOf(d, s) <==> Reachable(GraphOf(d), Roots(s), x)
  {
    VisitDistinct(GraphOf(d), [], Roots(s));
    forall x
      ensures x in OrderOf(d, s) <==> Reachable(GraphOf(d), Roots(s), x)
    {
      VisitsReachable(GraphOf(d), Roots(s), x);
    }
  }

  /** With everything declared, all names of the signature and of reached records are reached. */
  lemma OrderCovers(d: Decl, s: Sig)
    requires AllDeclared(d, s)
    ensures Members(Roots(s)) <= Members(OrderOf(d, s))
    ensures forall x :: x in OrderOf(d, s) ==> x in d && Members(Refs(d[x])) <= Members(OrderOf(d, s))
  {
    OrderIs(d, s);
    VisitCloses(GraphOf(d), [], Roots(s));
    forall y | y in Members(Roots(s))
      ensures y in OrderOf(d, s)
    {
      assert y in Roots(s) && y in GraphOf(d);
    }
    forall x | x in OrderOf(d, s)
      ensures x in d && Members(Refs(d[x])) <= Members(OrderOf(d, s))
    {
      assert x in Members(OrderOf(d, s));
      assert GraphOf(d)[x] == Refs(d[x]);
      forall y | y in Members(Refs(d[x]))
        ensures y in OrderOf(d, s)
      {
        assert y in Refs(d[x]) && y in GraphOf(d);
      }
    }
  }

  lemma {:induction false} RefsIn(fields: Fields, fs: seq<string>, f: string)
    requires f in fs && f in fields
    ensures Members(NamesIn(fields[f])) <= Members(RefsOf(fields, fs))
  {
    if fs[0] != f {
      RefsIn(fields, fs[1..], f);
    }
  }

  lemma {:induction false} RefsRename(fields: Fields, fs: seq<string>, names: Names)
    ensures RefsOf(RenameFields(fields, names), fs) == SubAll(names, RefsOf(fields, fs))
  {
    if fs != [] {
      RefsRename(fields, fs[1..], names);
      var rest := RefsOf(fields, fs[1..]);
      if fs[0] in fields {
        NamesRename(fields[fs[0]], names);
        SubAllAppend(names, NamesIn(fields[fs[0]]), rest);
      } else {
        SubAllAppend(names, [], rest);
      }
    }
  }

  lemma SubAllAppend(names: Names, xs: seq<string>, ys: seq<string>)
    ensures SubAll(names, xs + ys) == SubAll(names, xs) + SubAll(names, ys)
    ensures [] + ys == ys && SubAll(names, []) == []
  {
  }

  lemma RootsRename(s: Sig, names: Names)
    ensures Roots(RenameSig(s, names)) == SubAll(names, Roots(s))
  {
    NamesRenameAll(s.params, names);
    if s.result.Some? {
      NamesRename(s.result.value, names);
    }
  }

  // ---------------------------------------------------------------- renamings of contracts

  /** `phi` is a bijection between the records that the two members reach, and carries the one
      signature and its records to the other; field names stay. */
  ghost predicate Carries(phi: Names, d: Decl, s: Sig, e: Decl, t: Sig) {
    && Bijects(phi, GraphOf(d), Roots(s), GraphOf(e), Roots(t))
    && RenameSig(s, phi) == t
    && DeclCarried(phi, d, e)
  }

  /** `phi` is a bijection between what `roots` reach in `g` and what `others` reach in `h`. */
  ghost predicate Bijects(phi: Names, g: Graph, roots: seq<string>, h: Graph, others: seq<string>) {
    && Injective(phi)
    && (forall x :: x in phi <==> Reachable(g, roots, x))
    && (forall y :: y in phi.Values <==> Reachable(h, others, y))
  }

  predicate DeclCarried(phi: Names, d: Decl, e: Decl) {
    forall x :: x in phi ==> x in d && phi[x] in e && RenameFields(d[x], phi) == e[phi[x]]
  }

  lemma ImageIsSub(phi: Names, xs: seq<string>)
    requires Members(xs) <= phi.Keys
    ensures Image(phi, xs) == SubAll(phi, xs)
  {
    forall i | 0 <= i < |xs|
      ensures xs[i] in phi
    {
      assert xs[i] in Members(xs);
    }
  }

  // A renaming gives the same form.

  lemma CarriedRefs(phi: Names, d: Decl, s: Sig, e: Decl, t: Sig, x: string)
    requires AllDeclared(d, s) && Carries(phi, d, s, e, t) && x in phi
    ensures x in d && phi[x] in e
    ensures Members(Refs(d[x])) <= phi.Keys && Refs(e[phi[x]]) == Image(phi, Refs(d[x]))
  {
    hide VisitAll, SortedNames;
    OrderIs(d, s);
    OrderCovers(d, s);
    assert x in OrderOf(d, s);
    assert e[phi[x]].Keys == d[x].Keys;
    RefsRename(d[x], SortedNames(d[x].Keys), phi);
    ImageIsSub(phi, Refs(d[x]));
  }

  lemma CarriedGraphs(phi: Names, d: Decl, s: Sig, e: Decl, t: Sig)
    requires AllDeclared(d, s) && Carries(phi, d, s, e, t)
    ensures Matches(GraphOf(d), GraphOf(e), phi) && Members(Roots(s)) <= phi.Keys && Roots(t) == Image(phi, Roots(s))
  {
    hide VisitAll, SortedNames, Refs, Image;
    OrderIs(d, s);
    OrderCovers(d, s);
    RootsRename(s, phi);
    assert Members(OrderOf(d, s)) == phi.Keys;
    ImageIsSub(phi, Roots(s));
    forall x | x in phi
      ensures Members(Refs(d[x])) <= phi.Keys && Refs(e[phi[x]]) == Image(phi, Refs(d[x]))
    {
      CarriedRefs(phi, d, s, e, t, x);
    }
  }

  lemma CarriedOrder(phi: Names, d: Decl, s: Sig, e: Decl, t: Sig)
    requires AllDeclared(d, s) && Carries(phi, d, s, e, t)
    ensures Members(OrderOf(d, s)) <= phi.Keys && OrderOf(e, t) == Image(phi, OrderOf(d, s))
  {
    CarriedGraphs(phi, d, s, e, t);
    assert Image(phi, []) == [];
    VisitMaps(GraphOf(d), GraphOf(e), phi, [], Roots(s));
  }

  lemma CarriedNames(phi: Names, d: Decl, s: Sig, e: Decl, t: Sig, xs: seq<string>)
    requires AllDeclared(d, s) && Carries(phi, d, s, e, t) && Members(xs) <= Members(OrderOf(d, s))
    ensures Composes(phi, NamesOf(OrderOf(e, t)), NamesOf(OrderOf(d, s)), xs)
  {
    var o, p := OrderOf(d, s), OrderOf(e, t);
    CarriedOrder(phi, d, s, e, t);
    OrderIs(d, s);
    OrderIs(e, t);
    forall i | 0 <= i < |xs|
      ensures Sub(NamesOf(p), Sub(phi, xs[i])) == Sub(NamesOf(o), xs[i])
    {
      assert xs[i] in Members(xs);
      var k := Position(o, xs[i]);
      assert o[k] in Members(o);
      assert p[k] == phi[xs[i]];
      SubOrder(o, k);
      SubOrder(p, k);
    }
  }

  lemma CarriedSig(phi: Names, d: Decl, s: Sig, e: Decl, t: Sig)
    requires AllDeclared(d, s) && Carries(phi, d, s, e, t)
    ensures RenameSig(t, NamesOf(OrderOf(e, t))) == RenameSig(s, NamesOf(OrderOf(d, s)))
  {
    var a, b := NamesOf(OrderOf(d, s)), NamesOf(OrderOf(e, t));
    OrderCovers(d, s);
    CarriedNames(phi, d, s, e, t, Roots(s));
    ComposesParts(phi, b, a, NamesInAll(s.params), if s.result.Some? then NamesIn(s.result.value) else []);
    RenameAllTwice(s.params, phi, b, a);
    if s.result.Some? {
      RenameTwice(s.result.value, phi, b, a);
    }
  }

  lemma FieldsTwice(fields: Fields, a: Names, b: Names, c: Names)
    requires forall f :: f in fields ==> Composes(a, b, c, NamesIn(fields[f]))
    ensures RenameFields(RenameFields(fields, a), b) == RenameFields(fields, c)
  {
    forall f | f in fields
      ensures Rename(Rename(fields[f], a), b) == Rename(fields[f], c)
    {
      RenameTwice(fields[f], a, b, c);
    }
  }

  lemma CarriedField(phi: Names, d: Decl, s: Sig, e: Decl, t: Sig, x: string, f: string)
    requires AllDeclared(d, s) && Carries(phi, d, s, e, t) && x in OrderOf(d, s) && x in d && f in d[x]
    ensures Composes(phi, NamesOf(OrderOf(e, t)), NamesOf(OrderOf(d, s)), NamesIn(d[x][f]))
  {
    OrderCovers(d, s);
    RefsIn(d[x], SortedNames(d[x].Keys), f);
    CarriedNames(phi, d, s, e, t, NamesIn(d[x][f]));
  }

  lemma CarriedRecord(phi: Names, d: Decl, s: Sig, e: Decl, t: Sig, x: string)
    requires AllDeclared(d, s) && Carries(phi, d, s, e, t) && x in OrderOf(d, s)
    ensures x in d && x in phi && phi[x] in e
    ensures RenameFields(e[phi[x]], NamesOf(OrderOf(e, t))) == RenameFields(d[x], NamesOf(OrderOf(d, s)))
  {
    OrderIs(d, s);
    forall f | f in d[x]
      ensures Composes(phi, NamesOf(OrderOf(e, t)), NamesOf(OrderOf(d, s)), NamesIn(d[x][f]))
    {
      CarriedField(phi, d, s, e, t, x, f);
    }
    FieldsTwice(d[x], phi, NamesOf(OrderOf(e, t)), NamesOf(OrderOf(d, s)));
  }

  lemma CarriedForm(phi: Names, d: Decl, s: Sig, e: Decl, t: Sig)
    requires AllDeclared(d, s) && Carries(phi, d, s, e, t)
    ensures StructuralOf(d, s) == StructuralOf(e, t)
  {
    var o, p := OrderOf(d, s), OrderOf(e, t);
    CarriedOrder(phi, d, s, e, t);
    CarriedSig(phi, d, s, e, t);
    SameRecords(d, o, NamesOf(o), e, p, NamesOf(p)) by {
      forall k | 0 <= k < |o|
        ensures o[k] in d && p[k] in e && RenameFields(d[o[k]], NamesOf(o)) == RenameFields(e[p[k]], NamesOf(p))
      {
        assert o[k] in Members(o);
        CarriedRecord(phi, d, s, e, t, o[k]);
      }
    }
  }

  lemma {:induction false} SameRecords(d: Decl, o: seq<string>, a: Names, e: Decl, p: seq<string>, b: Names)
    requires |o| == |p|
    requires forall k :: 0 <= k < |o| ==> o[k] in d && p[k] in e && RenameFields(d[o[k]], a) == RenameFields(e[p[k]], b)
    ensures RecordsOf(d, o, a) == RecordsOf(e, p, b)
  {
    if o != [] {
      SameRecords(d, o[..|o| - 1], a, e, p[..|p| - 1], b);
    }
  }

  // The same form gives a renaming.

  /** Maps the k-th record of `o` to the k-th of `p`. */
  function Pairing(o: seq<string>, p: seq<string>): Names
    requires |o| == |p|
  {
    map x | x in o :: p[Position(o, x)]
  }

  lemma SameFormSameLength(d: Decl, s: Sig, e: Decl, t: Sig)
    requires StructuralOf(d, s) == StructuralOf(e, t)
    ensures |OrderOf(d, s)| == |OrderOf(e, t)|
  {
    var o, p := OrderOf(d, s), OrderOf(e, t);
    if |o| < |p| {
      LongerDiffers(d, o, NamesOf(o), e, p, NamesOf(p));
    } else if |p| < |o| {
      LongerDiffers(e, p, NamesOf(p), d, o, NamesOf(o));
    }
  }

  lemma LongerDiffers(d: Decl, o: seq<string>, a: Names, e: Decl, p: seq<string>, b: Names)
    requires |o| < |p|
    ensures RecordsOf(d, o, a) != RecordsOf(e, p, b)
  {
    RecordsAt(e, p, b, |o|);
    if NewName(|o|) in RecordsOf(d, o, a) {
      RecordsKeys(d, o, a, NewName(|o|));
      var k :| 0 <= k < |o| && NewName(|o|) == NewName(k);
      NewNamesDiffer(|o|, k);
    }
  }

  lemma PairingCorresponds(o: seq<string>, p: seq<string>, xs: seq<string>, ys: seq<string>)
    requires Distinct(o) && Distinct(p) && |o| == |p| && Members(xs) <= Members(o) && Members(ys) <= Members(p)
    ensures CorrespondsOn(NamesOf(o), NamesOf(p), Pairing(o, p), xs, ys)
  {
    forall i, j | 0 <= i < |xs| && 0 <= j < |ys|
      ensures Corresponds(NamesOf(o), NamesOf(p), Pairing(o, p), xs[i], ys[j])
    {
      assert xs[i] in Members(xs) && ys[j] in Members(ys);
      var k, l := Position(o, xs[i]), Position(p, ys[j]);
      SubOrder(o, k);
      SubOrder(p, l);
      if NewName(k) == NewName(l) {
        NewNamesDiffer(k, l);
      }
    }
  }

  lemma PairedSig(d: Decl, s: Sig, e: Decl, t: Sig)
    requires AllDeclared(d, s) && AllDeclared(e, t) && StructuralOf(d, s) == StructuralOf(e, t)
    requires |OrderOf(d, s)| == |OrderOf(e, t)|
    ensures RenameSig(s, Pairing(OrderOf(d, s), OrderOf(e, t))) == t
  {
    var o, p := OrderOf(d, s), OrderOf(e, t);
    OrderIs(d, s);
    OrderIs(e, t);
    OrderCovers(d, s);
    OrderCovers(e, t);
    PairingCorresponds(o, p, Roots(s), Roots(t));
    SigAlike(s, t, NamesOf(o), NamesOf(p), Pairing(o, p));
  }

  lemma SigAlike(s: Sig, t: Sig, a: Names, b: Names, phi: Names)
    requires RenameSig(s, a) == RenameSig(t, b) && CorrespondsOn(a, b, phi, Roots(s), Roots(t))
    ensures RenameSig(s, phi) == t
  {
    CorrespondsParts(a, b, phi, NamesInAll(s.params), if s.result.Some? then NamesIn(s.result.value) else [],
                     NamesInAll(t.params), if t.result.Some? then NamesIn(t.result.value) else []);
    AllRenamedAlike(s.params, t.params, a, b, phi);
    assert s.result.Some? == RenameSig(s, a).result.Some? == t.result.Some?;
    if s.result.Some? {
      RenamedAlike(s.result.value, t.result.value, a, b, phi);
    }
  }

  lemma FieldsAlike(x: Fields, y: Fields, a: Names, b: Names, phi: Names)
    requires RenameFields(x, a) == RenameFields(y, b)
    requires CorrespondsOn(a, b, phi, Refs(x), Refs(y))
    ensures RenameFields(x, phi) == y
  {
    assert x.Keys == RenameFields(x, a).Keys == RenameFields(y, b).Keys == y.Keys;
    forall f | f in x
      ensures Rename(x[f], phi) == y[f]
    {
      assert RenameFields(x, a)[f] == RenameFields(y, b)[f];
      FieldAlike(x, y, f, a, b, phi);
    }
    RenamedFieldsAre(x, y, phi);
  }

  lemma RenamedFieldsAre(x: Fields, y: Fields, phi: Names)
    requires x.Keys == y.Keys && forall f :: f in x ==> Rename(x[f], phi) == y[f]
    ensures RenameFields(x, phi) == y
  {
  }

  lemma FieldAlike(x: Fields, y: Fields, f: string, a: Names, b: Names, phi: Names)
    requires f in x && f in y && Rename(x[f], a) == Rename(y[f], b)
    requires CorrespondsOn(a, b, phi, Refs(x), Refs(y))
    ensures Rename(x[f], phi) == y[f]
  {
    RefsIn(x, SortedNames(x.Keys), f);
    RefsIn(y, SortedNames(y.Keys), f);
    CorrespondsWithin(a, b, phi, Refs(x), Refs(y), NamesIn(x[f]), NamesIn(y[f]));
    RenamedAlike(x[f], y[f], a, b, phi);
  }

  lemma CorrespondsWithin(a: Names, b: Names, phi: Names, xs: seq<string>, ys: seq<string>, us: seq<string>, vs: seq<string>)
    requires CorrespondsOn(a, b, phi, xs, ys) && Members(us) <= Members(xs) && Members(vs) <= Members(ys)
    ensures CorrespondsOn(a, b, phi, us, vs)
  {
    forall i, j | 0 <= i < |us| && 0 <= j < |vs|
      ensures Corresponds(a, b, phi, us[i], vs[j])
    {
      assert us[i] in Members(us) && vs[j] in Members(vs);
      var k :| 0 <= k < |xs| && xs[k] == us[i];
      var l :| 0 <= l < |ys| && ys[l] == vs[j];
      assert Corresponds(a, b, phi, xs[k], ys[l]);
    }
  }

  lemma PairedRecord(d: Decl, s: Sig, e: Decl, t: Sig, k: nat)
    requires AllDeclared(d, s) && AllDeclared(e, t) && StructuralOf(d, s) == StructuralOf(e, t)
    requires |OrderOf(d, s)| == |OrderOf(e, t)| && k < |OrderOf(d, s)|
    ensures var x, y := OrderOf(d, s)[k], OrderOf(e, t)[k];
      x in d && y in e && RenameFields(d[x], Pairing(OrderOf(d, s), OrderOf(e, t))) == e[y]
  {
    var o, p := OrderOf(d, s), OrderOf(e, t);
    OrderIs(d, s);
    OrderIs(e, t);
    OrderCovers(d, s);
    OrderCovers(e, t);
    RecordsAt(d, o, NamesOf(o), k);
    RecordsAt(e, p, NamesOf(p), k);
    assert o[k] in o && p[k] in p;
    PairingCorresponds(o, p, Refs(d[o[k]]), Refs(e[p[k]]));
    FieldsAlike(d[o[k]], e[p[k]], NamesOf(o), NamesOf(p), Pairing(o, p));
  }

  lemma PairingIsBijection(o: seq<string>, p: seq<string>)
    requires Distinct(o) && Distinct(p) && |o| == |p|
    ensures Injective(Pairing(o, p))
    ensures forall x :: x in Pairing(o, p) <==> x in o
    ensures forall y :: y in Pairing(o, p).Values <==> y in p
  {
    forall y | y in p
      ensures y in Pairing(o, p).Values
    {
      var k := Position(p, y);
      PositionIs(o, k);
      assert o[k] in Pairing(o, p) && Pairing(o, p)[o[k]] == y;
    }
  }

  lemma PairedForm(d: Decl, s: Sig, e: Decl, t: Sig) returns (phi: Names)
    requires AllDeclared(d, s) && AllDeclared(e, t) && StructuralOf(d, s) == StructuralOf(e, t)
    ensures Carries(phi, d, s, e, t)
  {
    var o, p := OrderOf(d, s), OrderOf(e, t);
    SameFormSameLength(d, s, e, t);
    phi := Pairing(o, p);
    OrderIs(d, s);
    OrderIs(e, t);
    PairingIsBijection(o, p);
    PairedSig(d, s, e, t);
    forall x | x in phi
      ensures x in d && phi[x] in e && RenameFields(d[x], phi) == e[phi[x]]
    {
      PairedRecord(d, s, e, t, Position(o, x));
    }
  }

  /** First-reference renaming is a sound and complete canonical form, also for mutually recursive
      records: the structural forms of two members are equal exactly when a bijection between the
      records they reach carries one to the other. */
  lemma SameFormIffRenaming(d: Decl, s: Sig, e: Decl, t: Sig)
    requires AllDeclared(d, s) && AllDeclared(e, t)
    ensures StructuralOf(d, s) == StructuralOf(e, t) <==> exists phi :: Carries(phi, d, s, e, t)
  {
    if StructuralOf(d, s) == StructuralOf(e, t) {
      var phi := PairedForm(d, s, e, t);
    }
    if phi :| Carries(phi, d, s, e, t) {
      CarriedForm(phi, d, s, e, t);
    }
  }
}
