/** Renaming records in a type and in its spelling (`src/logos_bridge/lidl.py`,
`_RecordNamer.rename`), and the new names `R0`, `R1`, ... */
module Renaming {
  import opened Wrappers
  import opened LidlTypes
  import opened ShapeText

  type Names = map<string, string>

  function Sub(names: Names, x: string): string {
    if x in names then names[x] else x
  }

  function Rename(t: TypeRef, names: Names): TypeRef {
    TypeRef(t.kind, if t.kind.Named? then Sub(names, t.name) else t.name, RenameAll(t.elements, names))
  }

  function RenameAll(ts: seq<TypeRef>, names: Names): (r: seq<TypeRef>)
    ensures |r| == |ts|
  {
    if ts == [] then [] else [Rename(ts[0], names)] + RenameAll(ts[1..], names)
  }

  lemma {:induction false} RenameAllAt(ts: seq<TypeRef>, names: Names, i: nat)
    requires i < |ts|
    ensures RenameAll(ts, names)[i] == Rename(ts[i], names)
  {
    if i > 0 {
      RenameAllAt(ts[1..], names, i - 1);
    }
  }

  // ---------------------------------------------------------------- names under a renaming

  function SubAll(names: Names, xs: seq<string>): seq<string> {
    seq(|xs|, i requires 0 <= i < |xs| => Sub(names, xs[i]))
  }

  lemma {:induction false} NamesRename(t: TypeRef, names: Names)
    ensures NamesIn(Rename(t, names)) == SubAll(names, NamesIn(t))
    decreases t
  {
    NamesRenameAll(t.elements, names);
  }

  lemma {:induction false} NamesRenameAll(ts: seq<TypeRef>, names: Names)
    ensures NamesInAll(RenameAll(ts, names)) == SubAll(names, NamesInAll(ts))
    decreases ts
  {
    if ts != [] {
      NamesRename(ts[0], names);
      NamesRenameAll(ts[1..], names);
      assert RenameAll(ts, names)[1..] == RenameAll(ts[1..], names);
    }
  }

  predicate Composes(a: Names, b: Names, c: Names, xs: seq<string>) {
    forall i :: 0 <= i < |xs| ==> Sub(b, Sub(a, xs[i])) == Sub(c, xs[i])
  }

  lemma ComposesParts(a: Names, b: Names, c: Names, xs: seq<string>, ys: seq<string>)
    requires Composes(a, b, c, xs + ys)
    ensures Composes(a, b, c, xs) && Composes(a, b, c, ys)
  {
    forall i | 0 <= i < |xs|
      ensures Sub(b, Sub(a, xs[i])) == Sub(c, xs[i])
    {
      assert (xs + ys)[i] == xs[i];
    }
    forall i | 0 <= i < |ys|
      ensures Sub(b, Sub(a, ys[i])) == Sub(c, ys[i])
    {
      assert (xs + ys)[|xs| + i] == ys[i];
    }
  }

  lemma {:induction false} RenameTwice(t: TypeRef, a: Names, b: Names, c: Names)
    requires Composes(a, b, c, NamesIn(t))
    ensures Rename(Rename(t, a), b) == Rename(t, c)
    decreases t
  {
    ComposesParts(a, b, c, if t.kind.Named? then [t.name] else [], NamesInAll(t.elements));
    RenameAllTwice(t.elements, a, b, c);
    if t.kind.Named? {
      assert [t.name][0] == t.name;
    }
  }

  lemma {:induction false} RenameAllTwice(ts: seq<TypeRef>, a: Names, b: Names, c: Names)
    requires Composes(a, b, c, NamesInAll(ts))
    ensures RenameAll(RenameAll(ts, a), b) == RenameAll(ts, c)
    decreases ts
  {
    if ts != [] {
      ComposesParts(a, b, c, NamesIn(ts[0]), NamesInAll(ts[1..]));
      RenameTwice(ts[0], a, b, c);
      RenameAllTwice(ts[1..], a, b, c);
      assert RenameAll(ts, a)[1..] == RenameAll(ts[1..], a);
    }
  }

  /** Two names that are renamed alike by `a` and `b` correspond under `phi`. */
  predicate Corresponds(a: Names, b: Names, phi: Names, x: string, y: string) {
    Sub(a, x) == Sub(b, y) ==> Sub(phi, x) == y
  }

  predicate CorrespondsOn(a: Names, b: Names, phi: Names, xs: seq<string>, ys: seq<string>) {
    forall i, j :: 0 <= i < |xs| && 0 <= j < |ys| ==> Corresponds(a, b, phi, xs[i], ys[j])
  }

  lemma CorrespondsParts(a: Names, b: Names, phi: Names, xs: seq<string>, us: seq<string>, ys: seq<string>, vs: seq<string>)
    requires CorrespondsOn(a, b, phi, xs + us, ys + vs)
    ensures CorrespondsOn(a, b, phi, xs, ys) && CorrespondsOn(a, b, phi, us, vs)
  {
    forall i, j | 0 <= i < |xs| && 0 <= j < |ys|
      ensures Corresponds(a, b, phi, xs[i], ys[j])
    {
      assert (xs + us)[i] == xs[i] && (ys + vs)[j] == ys[j];
    }
    forall i, j | 0 <= i < |us| && 0 <= j < |vs|
      ensures Corresponds(a, b, phi, us[i], vs[j])
    {
      assert (xs + us)[|xs| + i] == us[i] && (ys + vs)[|ys| + j] == vs[j];
    }
  }

  /** Trees that are renamed alike are renamings of each other. */
  lemma {:induction false} RenamedAlike(t: TypeRef, u: TypeRef, a: Names, b: Names, phi: Names)
    requires Rename(t, a) == Rename(u, b) && CorrespondsOn(a, b, phi, NamesIn(t), NamesIn(u))
    ensures Rename(t, phi) == u
    decreases t
  {
    CorrespondsParts(a, b, phi, if t.kind.Named? then [t.name] else [], NamesInAll(t.elements),
                     if u.kind.Named? then [u.name] else [], NamesInAll(u.elements));
    AllRenamedAlike(t.elements, u.elements, a, b, phi);
    if t.kind.Named? {
      assert Corresponds(a, b, phi, [t.name][0], [u.name][0]);
    }
  }

  lemma {:induction false} AllRenamedAlike(ts: seq<TypeRef>, us: seq<TypeRef>, a: Names, b: Names, phi: Names)
    requires RenameAll(ts, a) == RenameAll(us, b) && CorrespondsOn(a, b, phi, NamesInAll(ts), NamesInAll(us))
    ensures RenameAll(ts, phi) == us
    decreases ts
  {
    assert |ts| == |us|;
    if ts != [] {
      assert RenameAll(ts, a)[0] == RenameAll(us, b)[0];
      assert RenameAll(ts, a)[1..] == RenameAll(us, b)[1..];
      CorrespondsParts(a, b, phi, NamesIn(ts[0]), NamesInAll(ts[1..]), NamesIn(us[0]), NamesInAll(us[1..]));
      RenamedAlike(ts[0], us[0], a, b, phi);
      AllRenamedAlike(ts[1..], us[1..], a, b, phi);
      assert us == [us[0]] + us[1..];
    }
  }

  // ---------------------------------------------------------------- renaming a spelling

  /** `re.sub` of every identifier. */
  function SubText(text: string, names: Names): string
    decreases |text|
  {
    if text == [] then []
    else if IdentStart(text[0]) then
      var end := IdentEnd(text, 0);
      Sub(names, text[..end]) + SubText(text[end..], names)
    else
      [text[0]] + SubText(text[1..], names)
  }

  lemma EndAppend(a: string, b: string)
    requires a != [] && IdentStart(a[0]) && (b != [] ==> !IdentChar(b[0]))
    ensures IdentEnd(a + b, 0) == IdentEnd(a, 0) && 0 < IdentEnd(a, 0)
  {
    var m, n := IdentEnd(a + b, 0), IdentEnd(a, 0);
    assert forall i :: 0 <= i < |a| ==> (a + b)[i] == a[i];
    assert n < |a| ==> !IdentChar((a + b)[n]);
    assert n == |a| && b != [] ==> (a + b)[n] == b[0];
    assert m < |a| ==> !IdentChar(a[m]);
  }

  lemma Associate(a: string, b: string, c: string)
    ensures a + (b + c) == a + b + c
  {
  }

  lemma {:induction false} SubAppend(a: string, b: string, names: Names)
    requires b != [] ==> !IdentChar(b[0])
    ensures SubText(a + b, names) == SubText(a, names) + SubText(b, names)
    decreases |a|
  {
    if a == [] {
      assert a + b == b;
    } else if IdentStart(a[0]) {
      var end := IdentEnd(a, 0);
      EndAppend(a, b);
      assert (a + b)[..end] == a[..end];
      assert (a + b)[end..] == a[end..] + b;
      SubAppend(a[end..], b, names);
      Associate(Sub(names, a[..end]), SubText(a[end..], names), SubText(b, names));
    } else {
      assert (a + b)[1..] == a[1..] + b;
      SubAppend(a[1..], b, names);
      Associate([a[0]], SubText(a[1..], names), SubText(b, names));
    }
  }

  lemma SubName(name: string, names: Names)
    requires IsIdent(name)
    ensures SubText(name, names) == Sub(names, name)
  {
    assert IdentEnd(name, 0) == |name|;
    assert name[..|name|] == name && name[|name|..] == [];
  }

  lemma SubOpen(c: char, a: string, names: Names)
    requires !IdentChar(c)
    ensures SubText([c] + a, names) == [c] + SubText(a, names)
  {
    assert ([c] + a)[1..] == a;
  }

  lemma SubClose(a: string, c: char, names: Names)
    requires !IdentChar(c)
    ensures SubText(a + [c], names) == SubText(a, names) + [c]
  {
    SubAppend(a, [c], names);
    SubOpen(c, [], names);
    assert [c] + [] == [c];
  }

  /** `[a]` and `{a:b}` are renamed inside. */
  lemma SubArray(a: string, names: Names)
    ensures SubText("[" + a + "]", names) == "[" + SubText(a, names) + "]"
  {
    assert "[" + a + "]" == ['['] + (a + [']']);
    SubOpen('[', a + [']'], names);
    SubClose(a, ']', names);
    assert "[" + SubText(a, names) + "]" == ['['] + (SubText(a, names) + [']']);
  }

  lemma SubMap(a: string, b: string, names: Names)
    ensures SubText("{" + a + ":" + b + "}", names) == "{" + SubText(a, names) + ":" + SubText(b, names) + "}"
  {
    var tail := [':'] + (b + ['}']);
    assert "{" + a + ":" + b + "}" == ['{'] + (a + tail);
    SubOpen('{', a + tail, names);
    SubAppend(a, tail, names);
    SubOpen(':', b + ['}'], names);
    SubClose(b, '}', names);
    assert "{" + SubText(a, names) + ":" + SubText(b, names) + "}"
        == ['{'] + (SubText(a, names) + ([':'] + (SubText(b, names) + ['}'])));
  }

  /** Names that a spelling can carry, for names that are not primitives. */
  predicate Spellable(names: Names) {
    forall x :: x in names ==> x !in PRIMITIVES && names[x] !in PRIMITIVES && IsIdent(names[x])
  }

  lemma {:induction false} RenameCompactable(t: TypeRef, names: Names)
    requires Compactable(t) && Spellable(names)
    ensures Compactable(Rename(t, names))
    decreases t
  {
    forall i | 0 <= i < |t.elements|
      ensures Compactable(RenameAll(t.elements, names)[i])
    {
      RenameAllAt(t.elements, names, i);
      RenameCompactable(t.elements[i], names);
    }
  }

  lemma {:induction false} ValueTypeRename(t: TypeRef, names: Names)
    ensures ValueType(Rename(t, names)) == Rename(ValueType(t), names)
    decreases t
  {
    if t.kind.Optional? && t.elements != [] {
      ValueTypeRename(t.elements[0], names);
      RenameAllAt(t.elements, names, 0);
    }
  }

  /** Renaming the spelling spells the renamed tree. */
  lemma {:induction false} SpellsRenamed(t: TypeRef, names: Names)
    requires Compactable(t) && Spellable(names)
    ensures Compactable(Rename(t, names)) && CompactInner(Rename(t, names)) == SubText(CompactInner(t), names)
    decreases t, 1
  {
    ValueTypeCompactable(t);
    RenameCompactable(t, names);
    ValueTypeRename(t, names);
    var v := ValueType(t);
    SpellsRenamedValue(v, names);
    SubOpen('?', Compact(v), names);
    assert "?" + Compact(v) == ['?'] + Compact(v);
    assert "?" + SubText(Compact(v), names) == ['?'] + SubText(Compact(v), names);
  }

  lemma {:induction false} SpellsRenamedValue(t: TypeRef, names: Names)
    requires Compactable(t) && !t.kind.Optional? && Spellable(names)
    ensures Compactable(Rename(t, names)) && Compact(Rename(t, names)) == SubText(Compact(t), names)
    decreases t, 0
  {
    RenameCompactable(t, names);
    match t.kind
    case Primitive =>
      PrimitivesAreIdents(t.name);
      SubName(t.name, names);
    case Named =>
      SubName(t.name, names);
    case Array =>
      RenameAllAt(t.elements, names, 0);
      SpellsRenamed(t.elements[0], names);
      SubArray(CompactInner(t.elements[0]), names);
    case Map =>
      RenameAllAt(t.elements, names, 0);
      RenameAllAt(t.elements, names, 1);
      SpellsRenamed(t.elements[0], names);
      SpellsRenamed(t.elements[1], names);
      SubMap(CompactInner(t.elements[0]), CompactInner(t.elements[1]), names);
  }

  // ---------------------------------------------------------------- new names

  function Digit(n: nat): char
    requires n < 10
  {
    '0' + n as char
  }

  function Digits(n: nat): (s: string)
    ensures s != [] && forall i :: 0 <= i < |s| ==> '0' <= s[i] <= '9'
  {
    if n < 10 then [Digit(n)] else Digits(n / 10) + [Digit(n % 10)]
  }

  function Undigits(s: string): nat
    requires forall i :: 0 <= i < |s| ==> '0' <= s[i] <= '9'
  {
    if s == [] then 0 else 10 * Undigits(s[..|s| - 1]) + (s[|s| - 1] as nat - '0' as nat)
  }

  lemma {:induction false} DigitsBack(n: nat)
    ensures Undigits(Digits(n)) == n
  {
    if n >= 10 {
      DigitsBack(n / 10);
      var s := Digits(n);
      assert s[..|s| - 1] == Digits(n / 10);
    } else {
      assert Digits(n)[..0] == [];
    }
  }

  function NewName(k: nat): string {
    "R" + Digits(k)
  }

  lemma NewNameSpellable(k: nat)
    ensures IsIdent(NewName(k)) && NewName(k) !in PRIMITIVES
  {
    assert NewName(k)[0] == 'R';
    if NewName(k) in PRIMITIVES {
      PrimitivesAreIdents(NewName(k));
    }
  }

  lemma NewNamesDiffer(j: nat, k: nat)
    requires NewName(j) == NewName(k)
    ensures j == k
  {
    assert Digits(j) == NewName(j)[1..] && Digits(k) == NewName(k)[1..];
    DigitsBack(j);
    DigitsBack(k);
  }
}
