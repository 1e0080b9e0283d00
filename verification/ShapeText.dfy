/** The compact spelling of types and its parser (`src/logos_bridge/lidl.py`, `shape_type`,
`_compact`, `_shape_slot`, `parse_shape_type`, `_ShapeTypeParser`). */
module ShapeText {
  import opened Wrappers
  import opened LidlTypes

  /** A type in shape form: a compact string, or the AST of a type that has no compact spelling. */
  datatype Spelled = Text(text: string) | Ast(ty: TypeRef)

  /** `_compact`. */
  function Compact(t: TypeRef): string
    requires Compactable(t)
    decreases t, 0
  {
    match t.kind
    case Primitive => t.name
    case Named => t.name
    case Array => "[" + CompactInner(t.elements[0]) + "]"
    case Map => "{" + CompactInner(t.elements[0]) + ":" + CompactInner(t.elements[1]) + "}"
    case Optional => CompactInner(t.elements[0])
  }

  /** `_compact_inner`: the text of `shape_type` for a compactable type. */
  function CompactInner(t: TypeRef): string
    requires Compactable(t)
    decreases t, 1
  {
    ValueTypeCompactable(t);
    var v := ValueType(t);
    var body := Compact(v);
    if IsAny(v) then body else if t.kind.Optional? then "?" + body else body
  }

  function ShapeType(t: TypeRef): Spelled {
    if Compactable(t) then Text(CompactInner(t)) else Ast(t)
  }

  /** `_shape_slot`. */
  function ShapeSlot(s: Slot): Spelled {
    if !(Compactable(s.ty) && Compactable(s.valueType)) then
      ShapeType(s.ty)
    else
      var body := Compact(s.valueType);
      if s.optional && !IsAny(s.valueType) then Text("?" + body) else Text(body)
  }

  // ---------------------------------------------------------------- the normal form

  /** What the spelling of a type remembers of it: `??T` as `?T`, `?any` as `any`. */
  function Norm(t: TypeRef): TypeRef
    requires Compactable(t)
    decreases t, 1
  {
    ValueTypeCompactable(t);
    var v := ValueType(t);
    if IsAny(v) || !t.kind.Optional? then NormValue(v) else OptionalOf(NormValue(v))
  }

  function NormValue(t: TypeRef): TypeRef
    requires Compactable(t)
    decreases t, 0
  {
    match t.kind
    case Primitive => Prim(t.name)
    case Named => Ref(t.name)
    case Array => ArrayOf(Norm(t.elements[0]))
    case Map => MapOf(Norm(t.elements[0]), Norm(t.elements[1]))
    case Optional => Norm(t.elements[0])
  }

  // ---------------------------------------------------------------- parsing

  datatype ParseError = UnexpectedEnd(at: nat) | Expected(what: char, at: nat) | ExpectedName(at: nat) | Trailing(at: nat)

  /** Where the longest run of identifier characters from `pos` ends. */
  function IdentEnd(text: string, pos: nat): (end: nat)
    requires pos <= |text|
    ensures pos <= end <= |text|
    ensures forall i :: pos <= i < end ==> IdentChar(text[i])
    ensures end < |text| ==> !IdentChar(text[end])
    decreases |text| - pos
  {
    if pos < |text| && IdentChar(text[pos]) then IdentEnd(text, pos + 1) else pos
  }

  function NamedOrPrimitive(name: string): TypeRef {
    if name in PRIMITIVES then Prim(name) else Ref(name)
  }

  function Expect(text: string, pos: nat, c: char): Result<nat, ParseError>
    requires pos <= |text|
    ensures Expect(text, pos, c).Ok? ==> Expect(text, pos, c).value == pos + 1 <= |text|
  {
    if pos < |text| && text[pos] == c then Ok(pos + 1) else Err(Expected(c, pos))
  }

  /** One type at `pos`, and where it ends. Whatever is accepted has a compact spelling. */
  function ParseAt(text: string, pos: nat): (r: Result<(TypeRef, nat), ParseError>)
    requires pos <= |text|
    ensures r.Ok? ==> pos < r.value.1 <= |text| && Compactable(r.value.0)
    decreases |text| - pos
  {
    if pos == |text| then
      Err(UnexpectedEnd(pos))
    else if text[pos] == '?' then
      var inner :- ParseAt(text, pos + 1);
      Ok((OptionalOf(inner.0), inner.1))
    else if text[pos] == '[' then
      var inner :- ParseAt(text, pos + 1);
      var end :- Expect(text, inner.1, ']');
      Ok((ArrayOf(inner.0), end))
    else if text[pos] == '{' then
      var key :- ParseAt(text, pos + 1);
      var colon :- Expect(text, key.1, ':');
      var value :- ParseAt(text, colon);
      var end :- Expect(text, value.1, '}');
      Ok((MapOf(key.0, value.0), end))
    else if !IdentStart(text[pos]) then
      Err(ExpectedName(pos))
    else
      var end := IdentEnd(text, pos);
      Ok((NamedOrPrimitive(text[pos..end]), end))
  }

  function ParseText(text: string): Result<TypeRef, ParseError> {
    var r :- ParseAt(text, 0);
    if r.1 == |text| then Ok(r.0) else Err(Trailing(r.1))
  }

  /** `parse_shape_type`, for what `shape_type` can produce. */
  function ParseShapeType(s: Spelled): Result<TypeRef, ParseError> {
    match s
    case Ast(t) => Ok(t)
    case Text(text) => ParseText(text)
  }

  // ---------------------------------------------------------------- the parser object

  class ShapeTypeParser {
    const text: string
    var pos: nat

    constructor (text: string)
      ensures this.text == text && pos == 0
    {
      this.text := text;
      pos := 0;
    }

    method ExpectChar(c: char) returns (r: Result<nat, ParseError>)
      requires pos <= |text|
      modifies this`pos
      ensures r == Expect(text, old(pos), c) && pos == if r.Ok? then r.value else old(pos)
    {
      if !(pos < |text| && text[pos] == c) {
        return Err(Expected(c, pos));
      }
      pos := pos + 1;
      r := Ok(pos);
    }

    method SkipIdent()
      requires pos <= |text|
      modifies this`pos
      ensures pos == IdentEnd(text, old(pos))
    {
      while pos < |text| && IdentChar(text[pos])
        invariant old(pos) <= pos <= |text| && IdentEnd(text, pos) == IdentEnd(text, old(pos))
      {
        pos := pos + 1;
      }
    }

    /** Terminates on every text. */
    method Parse() returns (r: Result<TypeRef, ParseError>)
      requires pos <= |text|
      modifies this`pos
      ensures pos <= |text|
      ensures match ParseAt(text, old(pos))
        case Ok(p) => r == Ok(p.0) && pos == p.1
        case Err(e) => r == Err(e)
      decreases |text| - pos
    {
      if pos >= |text| {
        return Err(UnexpectedEnd(pos));
      }
      var c := text[pos];
      if c == '?' {
        pos := pos + 1;
        var inner :- Parse();
        return Ok(OptionalOf(inner));
      }
      if c == '[' {
        pos := pos + 1;
        var inner :- Parse();
        var _ :- ExpectChar(']');
        return Ok(ArrayOf(inner));
      }
      if c == '{' {
        pos := pos + 1;
        var key :- Parse();
        var _ :- ExpectChar(':');
        var value :- Parse();
        var _ :- ExpectChar('}');
        return Ok(MapOf(key, value));
      }
      if !IdentStart(c) {
        return Err(ExpectedName(pos));
      }
      var start := pos;
      SkipIdent();
      var name := text[start..pos];
      r := Ok(if name in PRIMITIVES then Prim(name) else Ref(name));
    }
  }

  method Parse(spelled: Spelled) returns (r: Result<TypeRef, ParseError>)
    ensures r == ParseShapeType(spelled)
  {
    if spelled.Ast? {
      return Ok(spelled.ty);
    }
    var parser := new ShapeTypeParser(spelled.text);
    var t :- parser.Parse();
    if parser.pos != |spelled.text| {
      return Err(Trailing(parser.pos));
    }
    r := Ok(t);
  }

  // ---------------------------------------------------------------- print, then parse

  /** `ParseAt` reads `t` from `pos` to `end`; guarded, so that it is unfolded where it is needed only. */
  ghost predicate Reads(text: string, pos: nat, t: TypeRef, end: nat) {
    forall k {:trigger Look(k)} :: Look(k) ==> pos <= |text| && ParseAt(text, pos) == Ok((t, end))
  }

  /** `part` stands in `text` at `pos`, and no identifier runs on after it. */
  predicate Stands(text: string, pos: nat, part: string) {
    && pos + |part| <= |text| && text[pos..pos + |part|] == part
    && (pos + |part| < |text| ==> !IdentChar(text[pos + |part|]))
  }

  lemma StandsAt(text: string, pos: nat, part: string, i: nat)
    requires Stands(text, pos, part) && i < |part|
    ensures text[pos + i] == part[i]
  {
    assert text[pos..pos + |part|][i] == part[i];
  }

  /** `a` and then `b` inside `part`. */
  lemma StandsWithin(text: string, pos: nat, a: string, b: string, c: string)
    requires pos + |a + b + c| <= |text| && text[pos..pos + |a + b + c|] == a + b + c
    requires c != [] && !IdentChar(c[0])
    ensures Stands(text, pos + |a|, b) && text[pos + |a| + |b|] == c[0]
  {
    var part := a + b + c;
    MiddleOf(a, b, c);
    SliceOf(text, pos, part, |a|, |b|);
    SliceAt(text, pos, part, |a| + |b|);
  }

  lemma SliceAt(text: string, pos: nat, part: string, i: nat)
    requires pos + |part| <= |text| && text[pos..pos + |part|] == part && i < |part|
    ensures text[pos + i] == part[i]
  {
    assert text[pos..pos + |part|][i] == text[pos + i];
  }

  lemma SliceOf(text: string, pos: nat, part: string, i: nat, n: nat)
    requires pos + |part| <= |text| && text[pos..pos + |part|] == part && i + n <= |part|
    ensures text[pos + i..pos + i + n] == part[i..i + n]
  {
    var x, y := text[pos + i..pos + i + n], part[i..i + n];
    forall k | 0 <= k < n
      ensures x[k] == y[k]
    {
      SliceAt(text, pos, part, i + k);
    }
  }

  lemma MiddleOf(a: string, b: string, c: string)
    ensures (a + b + c)[|a|..|a| + |b|] == b
    ensures c != [] ==> (a + b + c)[|a| + |b|] == c[0]
  {
    var x := (a + b + c)[|a|..|a| + |b|];
    forall k | 0 <= k < |b|
      ensures x[k] == b[k]
    {
    }
  }

  lemma {:induction false} ParsesName(name: string, text: string, pos: nat)
    requires IsIdent(name) && Stands(text, pos, name)
    ensures Reads(text, pos, NamedOrPrimitive(name), pos + |name|)
  {
    StandsAt(text, pos, name, 0);
    forall i | pos <= i < pos + |name|
      ensures IdentChar(text[i])
    {
      StandsAt(text, pos, name, i - pos);
    }
    assert IdentEnd(text, pos) == pos + |name|;
  }

  lemma {:induction false} ParsesCompact(t: TypeRef, text: string, pos: nat)
    requires Compactable(t) && !t.kind.Optional? && Stands(text, pos, Compact(t))
    ensures Reads(text, pos, NormValue(t), pos + |Compact(t)|)
    decreases t, 1
  {
    match t.kind
    case Primitive =>
      PrimitivesAreIdents(t.name);
      ParsesName(t.name, text, pos);
    case Named =>
      ParsesName(t.name, text, pos);
    case Array =>
      ParsesArray(t, text, pos);
    case Map =>
      ParsesMap(t, text, pos);
  }

  lemma {:induction false} ParsesArray(t: TypeRef, text: string, pos: nat)
    requires Compactable(t) && t.kind.Array? && Stands(text, pos, Compact(t))
    ensures Reads(text, pos, NormValue(t), pos + |Compact(t)|)
    decreases t, 0
  {
    hide Reads, Stands;
    var end := ArraySplits(t, text, pos);
    ParsesInner(t.elements[0], text, pos + 1);
    ArrayReads(text, pos, Norm(t.elements[0]), end);
  }

  /** Where the parts of an array's spelling stand. */
  lemma ArraySplits(t: TypeRef, text: string, pos: nat) returns (end: nat)
    requires Compactable(t) && t.kind.Array? && Stands(text, pos, Compact(t))
    ensures |t.elements| == 1 && Compactable(t.elements[0]) && NormValue(t) == ArrayOf(Norm(t.elements[0]))
    ensures end == pos + 1 + |CompactInner(t.elements[0])| && end + 1 == pos + |Compact(t)|
    ensures pos < end < |text| && text[pos] == '[' && Stands(text, pos + 1, CompactInner(t.elements[0])) && text[end] == ']'
  {
    var inner := CompactInner(t.elements[0]);
    assert Compact(t) == "[" + inner + "]";
    end := pos + 1 + |inner|;
    ArrayStands(text, pos, inner, end);
  }

  lemma ArrayStands(text: string, pos: nat, inner: string, end: nat)
    requires Stands(text, pos, "[" + inner + "]") && end == pos + 1 + |inner|
    ensures end < |text| && text[pos] == '[' && Stands(text, pos + 1, inner) && text[end] == ']'
  {
    StandsAt(text, pos, "[" + inner + "]", 0);
    StandsWithin(text, pos, "[", inner, "]");
  }

  lemma ArrayReads(text: string, pos: nat, inner: TypeRef, end: nat)
    requires pos < end < |text| && text[pos] == '[' && text[end] == ']' && Reads(text, pos + 1, inner, end)
    ensures Reads(text, pos, ArrayOf(inner), end + 1)
  {
    assert Look(0);
  }

  lemma {:induction false} ParsesMap(t: TypeRef, text: string, pos: nat)
    requires Compactable(t) && t.kind.Map? && Stands(text, pos, Compact(t))
    ensures Reads(text, pos, NormValue(t), pos + |Compact(t)|)
    decreases t, 0
  {
    hide Reads, Stands;
    var colon, end := MapSplits(t, text, pos);
    ParsesInner(t.elements[0], text, pos + 1);
    ParsesInner(t.elements[1], text, colon + 1);
    MapReads(text, pos, Norm(t.elements[0]), colon, Norm(t.elements[1]), end);
  }

  /** Where the parts of a map's spelling stand. */
  lemma MapSplits(t: TypeRef, text: string, pos: nat) returns (colon: nat, end: nat)
    requires Compactable(t) && t.kind.Map? && Stands(text, pos, Compact(t))
    ensures |t.elements| == 2 && Compactable(t.elements[0]) && Compactable(t.elements[1])
    ensures NormValue(t) == MapOf(Norm(t.elements[0]), Norm(t.elements[1]))
    ensures colon == pos + 1 + |CompactInner(t.elements[0])| && end == colon + 1 + |CompactInner(t.elements[1])|
    ensures end + 1 == pos + |Compact(t)| && pos < colon < end < |text|
    ensures text[pos] == '{' && Stands(text, pos + 1, CompactInner(t.elements[0])) && text[colon] == ':'
    ensures Stands(text, colon + 1, CompactInner(t.elements[1])) && text[end] == '}'
  {
    var key, value := CompactInner(t.elements[0]), CompactInner(t.elements[1]);
    assert Compact(t) == "{" + key + ":" + value + "}";
    colon := pos + 1 + |key|;
    end := colon + 1 + |value|;
    MapStands(text, pos, key, value, colon, end);
  }

  lemma MapStands(text: string, pos: nat, key: string, value: string, colon: nat, end: nat)
    requires Stands(text, pos, "{" + key + ":" + value + "}")
    requires colon == pos + 1 + |key| && end == colon + 1 + |value|
    ensures end < |text| && text[pos] == '{' && Stands(text, pos + 1, key) && text[colon] == ':'
    ensures Stands(text, colon + 1, value) && text[end] == '}'
  {
    StandsAt(text, pos, "{" + key + ":" + value + "}", 0);
    assert "{" + key + ":" + value + "}" == "{" + key + (":" + value + "}");
    StandsWithin(text, pos, "{", key, ":" + value + "}");
    StandsWithin(text, pos, "{" + key + ":", value, "}");
  }

  lemma MapReads(text: string, pos: nat, key: TypeRef, colon: nat, value: TypeRef, end: nat)
    requires pos < colon < end < |text| && text[pos] == '{' && text[colon] == ':' && text[end] == '}'
    requires Reads(text, pos + 1, key, colon) && Reads(text, colon + 1, value, end)
    ensures Reads(text, pos, MapOf(key, value), end + 1)
  {
    assert Look(0);
  }

  lemma {:induction false} ParsesInner(t: TypeRef, text: string, pos: nat)
    requires Compactable(t) && Stands(text, pos, CompactInner(t))
    ensures Reads(text, pos, Norm(t), pos + |CompactInner(t)|)
    decreases t, 2
  {
    hide Reads, Stands;
    ValueTypeCompactable(t);
    InnerForm(t);
    var v := ValueType(t);
    if t.kind.Optional? && !IsAny(v) {
      var start := OptionalSplits(t, text, pos);
      ParsesCompact(v, text, start);
      OptionalReads(text, pos, NormValue(v), pos + |CompactInner(t)|);
    } else {
      ParsesCompact(v, text, pos);
    }
  }

  lemma OptionalSplits(t: TypeRef, text: string, pos: nat) returns (start: nat)
    requires Compactable(t) && t.kind.Optional? && !IsAny(ValueType(t)) && Stands(text, pos, CompactInner(t))
    ensures Compactable(ValueType(t)) && start == pos + 1 <= |text| && text[pos] == '?'
    ensures Stands(text, start, Compact(ValueType(t))) && start + |Compact(ValueType(t))| == pos + |CompactInner(t)|
    ensures Norm(t) == OptionalOf(NormValue(ValueType(t)))
  {
    InnerForm(t);
    start := pos + 1;
    OptionalStands(text, pos, Compact(ValueType(t)), start);
  }

  lemma InnerForm(t: TypeRef)
    requires Compactable(t)
    ensures Compactable(ValueType(t))
    ensures var v := ValueType(t);
      if t.kind.Optional? && !IsAny(v)
      then CompactInner(t) == "?" + Compact(v) && Norm(t) == OptionalOf(NormValue(v))
      else CompactInner(t) == Compact(v) && Norm(t) == NormValue(v)
  {
    ValueTypeCompactable(t);
  }

  lemma OptionalStands(text: string, pos: nat, body: string, start: nat)
    requires Stands(text, pos, "?" + body) && start == pos + 1
    ensures text[pos] == '?' && Stands(text, start, body)
  {
    StandsAt(text, pos, "?" + body, 0);
    assert text[start..start + |body|] == text[pos..pos + |"?" + body|][1..];
  }

  lemma OptionalReads(text: string, pos: nat, inner: TypeRef, end: nat)
    requires pos < |text| && text[pos] == '?' && Reads(text, pos + 1, inner, end)
    ensures Reads(text, pos, OptionalOf(inner), end)
  {
    assert Look(0);
  }

  /** Parsing the spelling of a type gives its normal form. */
  lemma ParsePrint(t: TypeRef)
    requires Compactable(t)
    ensures ParseShapeType(ShapeType(t)) == Ok(Norm(t))
  {
    hide Reads, ParseText;
    var text := CompactInner(t);
    StandsWhole(text);
    hide Stands;
    ParsesInner(t, text, 0);
    ReadsAll(text, Norm(t));
  }

  lemma StandsWhole(text: string)
    ensures Stands(text, 0, text)
  {
    assert text[0..|text|] == text;
  }

  lemma ReadsAll(text: string, t: TypeRef)
    requires Reads(text, 0, t, |text|)
    ensures ParseText(text) == Ok(t)
  {
    assert Look(0);
  }

  // ---------------------------------------------------------------- the spelling is canonical

  lemma {:induction false} NormIsNormal(t: TypeRef)
    requires Compactable(t)
    ensures Compactable(Norm(t)) && CompactInner(Norm(t)) == CompactInner(t)
    decreases t, 1
  {
    ValueTypeCompactable(t);
    NormValueIsNormal(ValueType(t));
    OnceOptional(NormValue(ValueType(t)));
  }

  lemma OnceOptional(t: TypeRef)
    requires !t.kind.Optional?
    ensures ValueType(OptionalOf(t)) == t == ValueType(t)
  {
  }

  lemma {:induction false} NormValueIsNormal(t: TypeRef)
    requires Compactable(t) && !t.kind.Optional?
    ensures Compactable(NormValue(t)) && Compact(NormValue(t)) == Compact(t)
    ensures !NormValue(t).kind.Optional? && (IsAny(NormValue(t)) <==> IsAny(t))
    decreases t, 0
  {
    if t.kind.Array? {
      NormIsNormal(t.elements[0]);
    } else if t.kind.Map? {
      NormIsNormal(t.elements[0]);
      NormIsNormal(t.elements[1]);
    }
  }

  /** Two types are spelled alike exactly when their normal forms are equal. */
  lemma SpelledAlike(t: TypeRef, u: TypeRef)
    requires Compactable(t) && Compactable(u)
    ensures ShapeType(t) == ShapeType(u) <==> Norm(t) == Norm(u)
  {
    ParsePrint(t);
    ParsePrint(u);
    NormIsNormal(t);
    NormIsNormal(u);
  }

  // ---------------------------------------------------------------- slots

  /** The type that a slot's spelling stands for. */
  function SlotTree(s: Slot): TypeRef
    requires Compactable(s.ty) && DerivedConsistent(s)
  {
    ValueTypeCompactable(s.ty);
    var v := NormValue(s.valueType);
    if s.optional && !IsAny(s.valueType) then OptionalOf(v) else v
  }

  lemma SlotTreeSpells(s: Slot)
    requires Compactable(s.ty) && DerivedConsistent(s)
    ensures Compactable(SlotTree(s)) && ShapeSlot(s) == ShapeType(SlotTree(s)) && Norm(SlotTree(s)) == SlotTree(s)
  {
    ValueTypeCompactable(s.ty);
    NormValueIsNormal(s.valueType);
    NormTwice(s.valueType);
    OnceOptional(NormValue(s.valueType));
  }

  lemma {:induction false} NormTwice(t: TypeRef)
    requires Compactable(t) && !t.kind.Optional?
    ensures Compactable(NormValue(t)) && NormValue(NormValue(t)) == NormValue(t)
  {
    NormValueIsNormal(t);
    if t.kind.Array? {
      InnerTwice(t.elements[0]);
    } else if t.kind.Map? {
      InnerTwice(t.elements[0]);
      InnerTwice(t.elements[1]);
    }
  }

  lemma {:induction false} InnerTwice(t: TypeRef)
    requires Compactable(t)
    ensures Compactable(Norm(t)) && Norm(Norm(t)) == Norm(t)
  {
    NormIsNormal(t);
    ParsePrint(t);
    ParsePrint(Norm(t));
  }

  /** Spelling a slot, parsing it and making a slot of it again changes nothing in the spelling. */
  lemma SlotRoundTrip(s: Slot, name: string)
    requires DerivedConsistent(s)
    ensures var r := ParseShapeType(ShapeSlot(s));
      r.Ok? && ShapeSlot(MakeSlot(name, r.value)) == ShapeSlot(s)
  {
    if Compactable(s.ty) {
      SlotTreeSpells(s);
      var t := SlotTree(s);
      ParsePrint(t);
      var again := MakeSlot(name, t);
      SlotTreeAgain(s, name);
    }
  }

  lemma SlotTreeAgain(s: Slot, name: string)
    requires Compactable(s.ty) && DerivedConsistent(s)
    ensures Compactable(SlotTree(s)) && DerivedConsistent(MakeSlot(name, SlotTree(s)))
    ensures ShapeSlot(MakeSlot(name, SlotTree(s))) == ShapeType(SlotTree(s))
  {
    SlotTreeSpells(s);
    ValueTypeCompactable(SlotTree(s));
  }
}
