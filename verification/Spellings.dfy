/** How types, names and their order are written (`src/logos_bridge/lidl.py`). */
module Spellings {
  import opened Wrappers
  import opened LidlTypes
  import opened ShapeText
  import opened FirstReference
  import opened Renaming
  import opened Structure

  // The documented spellings of `shape_type`, the new names `R0`, `R1`, ... and the order of first reference of
  // `_RecordNamer`, and the order of names in `structural`.

  // ---------------------------------------------------------------- spellings

  lemma NameSpelled(name: string)
    requires IsIdent(name)
    ensures name in PRIMITIVES ==> Compactable(Prim(name)) && CompactInner(Prim(name)) == name
    ensures name !in PRIMITIVES ==> Compactable(Ref(name)) && CompactInner(Ref(name)) == name
  {
  }

  lemma ArraySpelled(t: TypeRef)
    requires Compactable(t)
    ensures Compactable(ArrayOf(t)) && CompactInner(ArrayOf(t)) == "[" + CompactInner(t) + "]"
  {
    hide CompactInner;
    assert ArrayOf(t).elements == [t];
    Uncovered(ArrayOf(t));
  }

  lemma MapSpelled(t: TypeRef, u: TypeRef)
    requires Compactable(t) && Compactable(u)
    ensures Compactable(MapOf(t, u)) && CompactInner(MapOf(t, u)) == "{" + CompactInner(t) + ":" + CompactInner(u) + "}"
  {
    hide CompactInner;
    assert MapOf(t, u).elements == [t, u];
    Uncovered(MapOf(t, u));
  }

  /** A type that is not optional is spelled as itself. */
  lemma Uncovered(t: TypeRef)
    requires Compactable(t) && !t.kind.Optional?
    ensures CompactInner(t) == Compact(t)
  {
    hide Compact;
  }

  /** An optional type has one question mark, however often it is optional; `any` has none. */
  lemma OptionalSpelled(t: TypeRef)
    requires Compactable(t)
    ensures Compactable(OptionalOf(t))
    ensures CompactInner(OptionalOf(t)) == if t.kind.Optional? || IsAny(t) then CompactInner(t) else "?" + CompactInner(t)
  {
    hide Compact;
    assert OptionalOf(t).elements == [t];
    assert ValueType(OptionalOf(t)) == ValueType(t);
    ValueTypeCompactable(t);
  }

  /** The spellings that the documentation and the tests give. */
  lemma DocumentedNames()
    ensures CompactInner(Prim("tstr")) == "tstr" && CompactInner(Prim("any")) == "any" && CompactInner(Ref("Blob")) == "Blob"
    ensures CompactInner(OptionalOf(Prim("any"))) == "any"
  {
    hide CompactInner;
    NameSpelled("tstr");
    NameSpelled("Blob");
    NameSpelled("any");
    OptionalSpelled(Prim("any"));
  }

  lemma DocumentedOptionals()
    ensures Compactable(OptionalOf(ArrayOf(Prim("tstr"))))
    ensures ShapeType(OptionalOf(Prim("tstr"))) == ShapeType(OptionalOf(OptionalOf(Prim("tstr")))) == Text("?tstr")
    ensures ShapeType(OptionalOf(ArrayOf(Prim("tstr")))) == Text("?[tstr]")
  {
    hide CompactInner, Compactable;
    NameSpelled("tstr");
    OptionalSpelled(Prim("tstr"));
    OptionalSpelled(OptionalOf(Prim("tstr")));
    ArraySpelled(Prim("tstr"));
    OptionalSpelled(ArrayOf(Prim("tstr")));
    assert "?" + "tstr" == "?tstr";
    assert "[" + "tstr" + "]" == "[tstr]";
    assert "?" + "[tstr]" == "?[tstr]";
  }

  lemma DocumentedMaps()
    ensures ShapeType(MapOf(Prim("tstr"), Ref("Blob"))) == Text("{tstr:Blob}")
    ensures ShapeType(MapOf(Prim("tstr"), ArrayOf(Prim("bstr")))) == Text("{tstr:[bstr]}")
  {
    hide CompactInner, Compactable;
    NameSpelled("tstr");
    NameSpelled("Blob");
    NameSpelled("bstr");
    MapSpelled(Prim("tstr"), Ref("Blob"));
    ArraySpelled(Prim("bstr"));
    MapSpelled(Prim("tstr"), ArrayOf(Prim("bstr")));
    assert "[" + "bstr" + "]" == "[bstr]";
    assert "{" + "tstr" + ":" + "Blob" + "}" == "{tstr:Blob}";
    assert "{" + "tstr" + ":" + "[bstr]" + "}" == "{tstr:[bstr]}";
  }

  lemma DocumentedArrays()
    ensures ShapeType(ArrayOf(OptionalOf(Ref("Blob")))) == Text("[?Blob]")
  {
    hide CompactInner, Compactable;
    NameSpelled("Blob");
    OptionalSpelled(Ref("Blob"));
    ArraySpelled(OptionalOf(Ref("Blob")));
    assert "?" + "Blob" == "?Blob";
    assert "[" + "?Blob" + "]" == "[?Blob]";
  }

  // ---------------------------------------------------------------- new names

  /** A number in base ten, most significant digit first. */
  function Number(s: string): nat
    requires forall i :: 0 <= i < |s| ==> '0' <= s[i] <= '9'
  {
    if s == [] then 0 else Number(s[..|s| - 1]) * 10 + (s[|s| - 1] as int - '0' as int)
  }

  /** The `k`th new name is `R` and the number `k` in base ten, without leading zeros. */
  lemma NewNameIs(k: nat)
    ensures var n := NewName(k);
      && |n| > 1 && n[0] == 'R' && (forall i :: 1 <= i < |n| ==> '0' <= n[i] <= '9')
      && Number(n[1..]) == k && (k > 0 ==> n[1] != '0') && (k == 0 ==> n == "R0")
  {
    DigitsAre(k);
    assert NewName(k)[1..] == Digits(k);
    assert k == 0 ==> NewName(k) == "R" + "0" == "R0";
  }

  lemma {:induction false} DigitsAre(n: nat)
    ensures Number(Digits(n)) == n && (n > 0 ==> Digits(n)[0] != '0') && (n == 0 ==> Digits(n) == "0")
  {
    if n >= 10 {
      DigitsAre(n / 10);
      var s := Digits(n);
      assert s[..|s| - 1] == Digits(n / 10);
    } else {
      assert Digits(n)[..0] == [];
    }
  }

  // ---------------------------------------------------------------- the order of names

  /** Names are ordered by code point: a prefix comes first, else the first difference decides. */
  lemma {:induction false} LeqIs(a: string, b: string)
    ensures Leq(a, b) <==> a <= b || exists i: nat :: FirstDifference(a, b, i) && a[i] < b[i]
  {
    if a == [] {
    } else if b == [] {
      assert !(a <= b);
    } else if a[0] != b[0] {
      assert FirstDifference(a, b, 0);
      AgreeFirst(a, b);
      assert !(a <= b);
    } else {
      LeqIs(a[1..], b[1..]);
      assert a <= b <==> a[1..] <= b[1..] by {
        assert a == [a[0]] + a[1..] && b == [b[0]] + b[1..];
      }
      DifferenceLater(a, b);
    }
  }

  lemma AgreeFirst(a: string, b: string)
    ensures forall i: nat :: 0 < i <= |a| && i <= |b| && a[..i] == b[..i] ==> a[0] == b[0]
  {
    forall i: nat | 0 < i <= |a| && i <= |b| && a[..i] == b[..i]
      ensures a[0] == b[0]
    {
      assert a[..i][0] == b[..i][0];
    }
  }

  predicate FirstDifference(a: string, b: string, i: nat) {
    i < |a| && i < |b| && a[i] != b[i] && a[..i] == b[..i]
  }

  lemma DifferenceLater(a: string, b: string)
    requires a != [] && b != [] && a[0] == b[0]
    ensures (exists i: nat :: FirstDifference(a, b, i) && a[i] < b[i])
      <==> exists i: nat :: FirstDifference(a[1..], b[1..], i) && a[1..][i] < b[1..][i]
  {
    if i: nat :| FirstDifference(a, b, i) && a[i] < b[i] {
      assert a[1..][..i - 1] == a[..i][1..] && b[1..][..i - 1] == b[..i][1..];
      assert FirstDifference(a[1..], b[1..], i - 1) && a[1..][i - 1] < b[1..][i - 1];
    }
    if i: nat :| FirstDifference(a[1..], b[1..], i) && a[1..][i] < b[1..][i] {
      assert a[..i + 1] == [a[0]] + a[1..][..i] && b[..i + 1] == [b[0]] + b[1..][..i];
      assert FirstDifference(a, b, i + 1) && a[i + 1] < b[i + 1];
    }
  }

  // ---------------------------------------------------------------- first reference

  /** The first new record of a list comes next, then everything new that it refers to, then the rest. */
  lemma {:induction false} FirstReferenceNext(g: Graph, order: seq<string>, before: seq<string>, x: string, after: seq<string>)
    requires forall y :: y in before ==> y !in g || y in order
    requires x in g && x !in order
    ensures VisitAll(g, order, before + [x] + after) == VisitAll(g, VisitAll(g, order + [x], g[x]), after)
    decreases |before|
  {
    var xs := before + [x] + after;
    if before == [] {
      assert xs == [x] + after && xs[1..] == after;
    } else {
      assert xs[0] == before[0] && xs[1..] == before[1..] + [x] + after;
      FirstReferenceNext(g, order, before[1..], x, after);
    }
  }

  /** A record that refers to a second and a third, the second to a fourth and back. */
  lemma FirstReferenceExample(g: Graph)
    requires g.Keys == {"A", "B", "C", "D"} && g["A"] == ["B", "C"] && g["B"] == ["A", "D"] && g["C"] == ["D"] && g["D"] == []
    ensures VisitAll(g, [], ["A"]) == ["A", "B", "D", "C"]
  {
    hide VisitAll;
    VisitsNone(g, ["A", "B", "D"]);
    VisitsNone(g, ["A", "B", "D", "C"]);
    FirstReferenceNext(g, [], [], "A", []);
    FirstReferenceNext(g, ["A"], [], "B", ["C"]);
    FirstReferenceNext(g, ["A", "B"], ["A"], "D", []);
    FirstReferenceNext(g, ["A", "B", "D"], [], "C", []);
    var none: seq<string> := [];
    assert none + ["A"] == ["A"] && none + ["A"] + none == ["A"];
    assert [] + ["B"] + ["C"] == ["B", "C"];
    assert ["A"] + ["D"] + [] == ["A", "D"];
    assert [] + ["C"] + [] == ["C"];
    assert ["A"] + ["B"] == ["A", "B"] && ["A", "B"] + ["D"] == ["A", "B", "D"] && ["A", "B", "D"] + ["C"] == ["A", "B", "D", "C"];
    AlreadySeen(g, ["A", "B", "D", "C"], "D");
    assert VisitAll(g, ["A", "B"], ["A", "D"]) == ["A", "B", "D"];
    assert VisitAll(g, ["A", "B", "D"], ["C"]) == ["A", "B", "D", "C"];
    assert VisitAll(g, ["A"], ["B", "C"]) == ["A", "B", "D", "C"];
  }

  lemma VisitsNone(g: Graph, order: seq<string>)
    ensures VisitAll(g, order, []) == order
  {
  }

  lemma AlreadySeen(g: Graph, order: seq<string>, x: string)
    requires x in order
    ensures VisitAll(g, order, [x]) == order
  {
    assert [x][1..] == [];
  }
}
