/** Records in first-reference order (`src/logos_bridge/lidl.py`, `_RecordNamer.visit`), as a graph. */
module FirstReference {

  // Each record refers to a list of names, in the order in which its fields are walked.

  type Graph = map<string, seq<string>>

  function Members(xs: seq<string>): set<string> {
    set x | x in xs
  }

  function Unseen(g: Graph, order: seq<string>): set<string> {
    g.Keys - Members(order)
  }

  lemma UnseenShrinks(g: Graph, order: seq<string>, later: seq<string>)
    requires order <= later
    ensures Unseen(g, later) <= Unseen(g, order)
    ensures |Unseen(g, later)| <= |Unseen(g, order)|
  {
    CardinalityGrows(Unseen(g, later), Unseen(g, order));
  }

  lemma {:induction false} CardinalityGrows(a: set<string>, b: set<string>)
    requires a <= b
    ensures |a| <= |b|
  {
    if a != {} {
      var x :| x in a;
      CardinalityGrows(a - {x}, b - {x});
    }
  }

  lemma UnseenDrops(g: Graph, order: seq<string>, x: string)
    requires x in g && x !in order
    ensures |Unseen(g, order + [x])| < |Unseen(g, order)|
  {
    assert Unseen(g, order + [x]) == Unseen(g, order) - {x};
  }

  /** The records known so far, after every name of `xs` has been visited: a record that is new is
      named before anything it refers to. */
  function VisitAll(g: Graph, order: seq<string>, xs: seq<string>): (r: seq<string>)
    ensures order <= r
    decreases |Unseen(g, order)|, |xs|
  {
    if xs == [] then
      order
    else if xs[0] !in g || xs[0] in order then
      VisitAll(g, order, xs[1..])
    else
      UnseenDrops(g, order, xs[0]);
      var inner := VisitAll(g, order + [xs[0]], g[xs[0]]);
      UnseenShrinks(g, order + [xs[0]], inner);
      VisitAll(g, inner, xs[1..])
  }

  lemma {:induction false} VisitAppend(g: Graph, order: seq<string>, xs: seq<string>, ys: seq<string>)
    ensures VisitAll(g, order, xs + ys) == VisitAll(g, VisitAll(g, order, xs), ys)
    decreases |Unseen(g, order)|, |xs|
  {
    if xs == [] {
      assert xs + ys == ys;
    } else {
      assert (xs + ys)[1..] == xs[1..] + ys;
      if xs[0] !in g || xs[0] in order {
        VisitAppend(g, order, xs[1..], ys);
      } else {
        UnseenDrops(g, order, xs[0]);
        var inner := VisitAll(g, order + [xs[0]], g[xs[0]]);
        UnseenShrinks(g, order + [xs[0]], inner);
        VisitAppend(g, inner, xs[1..], ys);
      }
    }
  }

  // ---------------------------------------------------------------- what is visited

  predicate Distinct(xs: seq<string>) {
    forall i, j :: 0 <= i < j < |xs| ==> xs[i] != xs[j]
  }

  lemma {:induction false} VisitDistinct(g: Graph, order: seq<string>, xs: seq<string>)
    requires Distinct(order) && Members(order) <= g.Keys
    ensures Distinct(VisitAll(g, order, xs)) && Members(VisitAll(g, order, xs)) <= g.Keys
    decreases |Unseen(g, order)|, |xs|
  {
    if xs != [] {
      if xs[0] !in g || xs[0] in order {
        VisitDistinct(g, order, xs[1..]);
      } else {
        UnseenDrops(g, order, xs[0]);
        var inner := VisitAll(g, order + [xs[0]], g[xs[0]]);
        UnseenShrinks(g, order + [xs[0]], inner);
        VisitDistinct(g, order + [xs[0]], g[xs[0]]);
        VisitDistinct(g, inner, xs[1..]);
      }
    }
  }

  /** A chain of declared records, each named by the one before. */
  predicate Path(g: Graph, p: seq<string>) {
    && p != []
    && (forall i :: 0 <= i < |p| ==> p[i] in g)
    && (forall i :: 0 <= i < |p| - 1 ==> p[i] in g && p[i + 1] in g[p[i]])
  }

  ghost predicate Reachable(g: Graph, roots: seq<string>, x: string) {
    exists p :: Path(g, p) && p[0] in roots && p[|p| - 1] == x
  }

  lemma ReachesRoot(g: Graph, roots: seq<string>, x: string)
    requires x in roots && x in g
    ensures Reachable(g, roots, x)
  {
    assert Path(g, [x]);
  }

  lemma ReachesThrough(g: Graph, roots: seq<string>, x: string, y: string)
    requires x in roots && x in g && Reachable(g, g[x], y)
    ensures Reachable(g, roots, y)
  {
    var p :| Path(g, p) && p[0] in g[x] && p[|p| - 1] == y;
    var q := [x] + p;
    assert forall i :: 0 < i < |q| ==> q[i] == p[i - 1];
    assert Path(g, q);
  }

  lemma ReachesMore(g: Graph, xs: seq<string>, ys: seq<string>, y: string)
    requires Members(xs) <= Members(ys) && Reachable(g, xs, y)
    ensures Reachable(g, ys, y)
  {
    var p :| Path(g, p) && p[0] in xs && p[|p| - 1] == y;
    assert p[0] in Members(xs);
  }

  lemma {:induction false} VisitReaches(g: Graph, order: seq<string>, xs: seq<string>, y: string)
    requires y in VisitAll(g, order, xs)
    ensures y in order || Reachable(g, xs, y)
    decreases |Unseen(g, order)|, |xs|
  {
    if xs != [] {
      assert Members(xs[1..]) <= Members(xs);
      if xs[0] !in g || xs[0] in order {
        VisitReaches(g, order, xs[1..], y);
        if y !in order { ReachesMore(g, xs[1..], xs, y); }
      } else {
        UnseenDrops(g, order, xs[0]);
        var inner := VisitAll(g, order + [xs[0]], g[xs[0]]);
        UnseenShrinks(g, order + [xs[0]], inner);
        VisitReaches(g, inner, xs[1..], y);
        if y in inner {
          VisitReaches(g, order + [xs[0]], g[xs[0]], y);
          if y == xs[0] {
            ReachesRoot(g, xs, y);
          } else if y !in order {
            ReachesThrough(g, xs, xs[0], y);
          }
        } else {
          ReachesMore(g, xs[1..], xs, y);
        }
      }
    }
  }

  /** Everything of `r` outside `order` has all the records it names in `r`. */
  predicate ClosedBut(g: Graph, r: seq<string>, order: seq<string>) {
    forall y :: y in r && y !in order && y in g ==> Holds(g, r, g[y])
  }

  predicate Holds(g: Graph, r: seq<string>, xs: seq<string>) {
    forall x :: x in xs && x in g ==> x in r
  }

  lemma {:induction false} VisitCloses(g: Graph, order: seq<string>, xs: seq<string>)
    ensures ClosedBut(g, VisitAll(g, order, xs), order) && Holds(g, VisitAll(g, order, xs), xs)
    decreases |Unseen(g, order)|, |xs|
  {
    hide Unseen;
    if xs != [] {
      assert xs == [xs[0]] + xs[1..];
      if xs[0] !in g || xs[0] in order {
        VisitCloses(g, order, xs[1..]);
      } else {
        UnseenDrops(g, order, xs[0]);
        var inner := VisitAll(g, order + [xs[0]], g[xs[0]]);
        UnseenShrinks(g, order + [xs[0]], inner);
        VisitCloses(g, order + [xs[0]], g[xs[0]]);
        VisitCloses(g, inner, xs[1..]);
        assert (order + [xs[0]])[|order|] == inner[|order|] == VisitAll(g, inner, xs[1..])[|order|];
      }
    }
  }

  lemma {:induction false} PathStays(g: Graph, r: seq<string>, p: seq<string>)
    requires ClosedBut(g, r, []) && Path(g, p) && p[0] in r
    ensures p[|p| - 1] in r
    decreases |p|
  {
    if |p| > 1 {
      assert p[1] in g[p[0]];
      assert forall i :: 0 <= i < |p[1..]| ==> p[1..][i] == p[i + 1];
      PathStays(g, r, p[1..]);
    }
  }

  /** From nothing, exactly the records that can be reached are visited. */
  lemma VisitsReachable(g: Graph, roots: seq<string>, x: string)
    ensures x in VisitAll(g, [], roots) <==> Reachable(g, roots, x)
  {
    var r := VisitAll(g, [], roots);
    VisitCloses(g, [], roots);
    if x in r {
      VisitReaches(g, [], roots, x);
    }
    if Reachable(g, roots, x) {
      var p :| Path(g, p) && p[0] in roots && p[|p| - 1] == x;
      PathStays(g, r, p);
    }
  }

  // ---------------------------------------------------------------- under a renaming

  function Image(phi: map<string, string>, xs: seq<string>): seq<string>
    requires Members(xs) <= phi.Keys
  {
    seq(|xs|, i requires 0 <= i < |xs| => assert xs[i] in Members(xs); phi[xs[i]])
  }

  predicate Injective(phi: map<string, string>) {
    forall x, y :: x in phi && y in phi && phi[x] == phi[y] ==> x == y
  }

  /** `phi` carries the records of `g` to records of `h` with the same references. */
  predicate Matches(g: Graph, h: Graph, phi: map<string, string>) {
    && Injective(phi)
    && (forall x :: x in phi ==> (x in g <==> phi[x] in h))
    && (forall x :: x in phi && x in g && phi[x] in h ==> Members(g[x]) <= phi.Keys && h[phi[x]] == Image(phi, g[x]))
  }

  lemma ImageIn(phi: map<string, string>, xs: seq<string>, x: string)
    requires Injective(phi) && Members(xs) <= phi.Keys && x in phi
    ensures phi[x] in Image(phi, xs) <==> x in xs
  {
    if x in xs {
      var i :| 0 <= i < |xs| && xs[i] == x;
      assert Image(phi, xs)[i] == phi[x];
    }
    if phi[x] in Image(phi, xs) {
      var i :| 0 <= i < |xs| && Image(phi, xs)[i] == phi[x];
      assert xs[i] in Members(xs);
    }
  }

  lemma ImageTail(phi: map<string, string>, xs: seq<string>)
    requires xs != [] && Members(xs) <= phi.Keys
    ensures xs[0] in phi && Members(xs[1..]) <= phi.Keys
    ensures Image(phi, xs)[0] == phi[xs[0]] && Image(phi, xs)[1..] == Image(phi, xs[1..])
  {
    assert xs[0] in Members(xs) && Members(xs[1..]) <= Members(xs);
  }

  lemma ImageAppend(phi: map<string, string>, xs: seq<string>, x: string)
    requires Members(xs) <= phi.Keys && x in phi
    ensures Members(xs + [x]) <= phi.Keys && Image(phi, xs + [x]) == Image(phi, xs) + [phi[x]]
  {
  }

  /** The order of first reference follows a renaming. */
  lemma {:induction false} VisitMaps(g: Graph, h: Graph, phi: map<string, string>, order: seq<string>, xs: seq<string>)
    requires Matches(g, h, phi) && Members(order) <= phi.Keys && Members(xs) <= phi.Keys
    ensures Members(VisitAll(g, order, xs)) <= phi.Keys
    ensures VisitAll(h, Image(phi, order), Image(phi, xs)) == Image(phi, VisitAll(g, order, xs))
    decreases |Unseen(g, order)|, |xs|
  {
    if xs != [] {
      ImageTail(phi, xs);
      ImageIn(phi, order, xs[0]);
      if xs[0] !in g || xs[0] in order {
        VisitMaps(g, h, phi, order, xs[1..]);
      } else {
        UnseenDrops(g, order, xs[0]);
        var start := order + [xs[0]];
        var inner := VisitAll(g, start, g[xs[0]]);
        UnseenShrinks(g, start, inner);
        ImageAppend(phi, order, xs[0]);
        VisitMaps(g, h, phi, start, g[xs[0]]);
        VisitMaps(g, h, phi, inner, xs[1..]);
      }
    }
  }
}
