/** Which texts the shape parser accepts (`src/logos_bridge/lidl.py`). */
module ShapeGrammar {
  import opened Wrappers
  import opened LidlTypes
  import opened ShapeText

  // `_ShapeTypeParser` accepts exactly the texts that the grammar gives a type, and as that type.

  /** A type that some text stands for. */
  predicate Written(t: TypeRef) {
    match t.kind
    case Primitive => t == Prim(t.name) && t.name in PRIMITIVES
    case Named => t == Ref(t.name) && t.name !in PRIMITIVES && IsIdent(t.name)
    case Array => |t.elements| == 1 && t == ArrayOf(t.elements[0]) && Written(t.elements[0])
    case Map => |t.elements| == 2 && t == MapOf(t.elements[0], t.elements[1]) && Written(t.elements[0]) && Written(t.elements[1])
    case Optional => |t.elements| == 1 && t == OptionalOf(t.elements[0]) && Written(t.elements[0])
    case Unknown(_) => false
  }

  /** That text: a name, `[T]`, `{K:V}` or `?T`. */
  function Source(t: TypeRef): string
    requires Written(t)
  {
    match t.kind
    case Primitive => t.name
    case Named => t.name
    case Array => "[" + Source(t.elements[0]) + "]"
    case Map => "{" + Source(t.elements[0]) + ":" + Source(t.elements[1]) + "}"
    case Optional => "?" + Source(t.elements[0])
  }

  // ---------------------------------------------------------------- what is accepted is written so

  /** `t` is what stands between `pos` and `end`. */
  ghost predicate Denotes(text: string, pos: nat, t: TypeRef, end: nat) {
    pos <= end <= |text| && Written(t) && text[pos..end] == Source(t)
  }

  lemma {:induction false} AcceptsWritten(text: string, pos: nat)
    requires pos <= |text| && ParseAt(text, pos).Ok?
    ensures Denotes(text, pos, ParseAt(text, pos).value.0, ParseAt(text, pos).value.1)
    decreases |text| - pos
  {
    hide Denotes, ParseAt;
    AcceptedParts(text, pos);
    if text[pos] == '?' {
      AcceptsWritten(text, pos + 1);
      OptionalDenotes(text, pos, ParseAt(text, pos + 1).value.0, ParseAt(text, pos + 1).value.1);
    } else if text[pos] == '[' {
      AcceptsWritten(text, pos + 1);
      ArrayDenotes(text, pos, ParseAt(text, pos + 1).value.0, ParseAt(text, pos + 1).value.1);
    } else if text[pos] == '{' {
      AcceptsWritten(text, pos + 1);
      var key := ParseAt(text, pos + 1).value;
      AcceptsWritten(text, key.1 + 1);
      var value := ParseAt(text, key.1 + 1).value;
      MapDenotes(text, pos, key.0, key.1, value.0, value.1);
    } else {
      NameDenotes(text, pos, IdentEnd(text, pos));
    }
  }

  /** What has been read, by its first character. */
  lemma AcceptedParts(text: string, pos: nat)
    requires pos <= |text| && ParseAt(text, pos).Ok?
    ensures pos < |text|
    ensures text[pos] == '?' ==>
      var inner := ParseAt(text, pos + 1);
      inner.Ok? && ParseAt(text, pos).value == (OptionalOf(inner.value.0), inner.value.1)
    ensures text[pos] == '[' ==>
      var inner := ParseAt(text, pos + 1);
      && inner.Ok? && inner.value.1 < |text| && text[inner.value.1] == ']'
      && ParseAt(text, pos).value == (ArrayOf(inner.value.0), inner.value.1 + 1)
    ensures text[pos] == '{' ==>
      var key := ParseAt(text, pos + 1);
      && key.Ok? && key.value.1 < |text| && text[key.value.1] == ':'
      && var value := ParseAt(text, key.value.1 + 1);
      && value.Ok? && value.value.1 < |text| && text[value.value.1] == '}'
      && ParseAt(text, pos).value == (MapOf(key.value.0, value.value.0), value.value.1 + 1)
    ensures text[pos] != '?' && text[pos] != '[' && text[pos] != '{' ==>
      IdentStart(text[pos]) && ParseAt(text, pos).value == (NamedOrPrimitive(text[pos..IdentEnd(text, pos)]), IdentEnd(text, pos))
  {
  }

  lemma OptionalDenotes(text: string, pos: nat, t: TypeRef, end: nat)
    requires pos < |text| && text[pos] == '?' && Denotes(text, pos + 1, t, end)
    ensures Denotes(text, pos, OptionalOf(t), end)
  {
    assert text[pos..end] == "?" + text[pos + 1..end];
  }

  lemma ArrayDenotes(text: string, pos: nat, t: TypeRef, end: nat)
    requires pos < end < |text| && text[pos] == '[' && text[end] == ']' && Denotes(text, pos + 1, t, end)
    ensures Denotes(text, pos, ArrayOf(t), end + 1)
  {
    assert text[pos..end + 1] == "[" + text[pos + 1..end] + "]";
  }

  lemma MapDenotes(text: string, pos: nat, key: TypeRef, colon: nat, value: TypeRef, end: nat)
    requires pos < colon < end < |text| && text[pos] == '{' && text[colon] == ':' && text[end] == '}'
    requires Denotes(text, pos + 1, key, colon) && Denotes(text, colon + 1, value, end)
    ensures Denotes(text, pos, MapOf(key, value), end + 1)
  {
    assert text[pos..end + 1] == "{" + text[pos + 1..colon] + ":" + text[colon + 1..end] + "}";
  }

  lemma NameDenotes(text: string, pos: nat, end: nat)
    requires pos < |text| && IdentStart(text[pos]) && end == IdentEnd(text, pos)
    ensures Denotes(text, pos, NamedOrPrimitive(text[pos..end]), end)
  {
    assert IsIdent(text[pos..end]);
  }

  // ---------------------------------------------------------------- what is written so is accepted

  lemma {:induction false} WrittenReads(t: TypeRef, text: string, pos: nat)
    requires Written(t) && Stands(text, pos, Source(t))
    ensures Reads(text, pos, t, pos + |Source(t)|)
    decreases t, 1
  {
    match t.kind
    case Primitive =>
      PrimitivesAreIdents(t.name);
      ParsesName(t.name, text, pos);
    case Named => ParsesName(t.name, text, pos);
    case Array => WrittenArray(t, text, pos);
    case Map => WrittenMap(t, text, pos);
    case Optional => WrittenOptional(t, text, pos);
  }

  lemma {:induction false} WrittenArray(t: TypeRef, text: string, pos: nat)
    requires Written(t) && t.kind.Array? && Stands(text, pos, Source(t))
    ensures Reads(text, pos, t, pos + |Source(t)|)
    decreases t, 0
  {
    hide Reads, Stands;
    var inner := Source(t.elements[0]);
    ArrayStands(text, pos, inner, pos + 1 + |inner|);
    WrittenReads(t.elements[0], text, pos + 1);
    ArrayReads(text, pos, t.elements[0], pos + 1 + |inner|);
  }

  lemma {:induction false} WrittenMap(t: TypeRef, text: string, pos: nat)
    requires Written(t) && t.kind.Map? && Stands(text, pos, Source(t))
    ensures Reads(text, pos, t, pos + |Source(t)|)
    decreases t, 0
  {
    hide Reads, Stands;
    var key, value := Source(t.elements[0]), Source(t.elements[1]);
    var colon := pos + 1 + |key|;
    MapStands(text, pos, key, value, colon, colon + 1 + |value|);
    WrittenReads(t.elements[0], text, pos + 1);
    WrittenReads(t.elements[1], text, colon + 1);
    MapReads(text, pos, t.elements[0], colon, t.elements[1], colon + 1 + |value|);
  }

  lemma {:induction false} WrittenOptional(t: TypeRef, text: string, pos: nat)
    requires Written(t) && t.kind.Optional? && Stands(text, pos, Source(t))
    ensures Reads(text, pos, t, pos + |Source(t)|)
    decreases t, 0
  {
    hide Reads, Stands;
    OptionalStands(text, pos, Source(t.elements[0]), pos + 1);
    WrittenReads(t.elements[0], text, pos + 1);
    OptionalReads(text, pos, t.elements[0], pos + |Source(t)|);
  }

  /** A text is accepted as `t` if and only if it is the text of `t`. */
  lemma ParsesExactly(text: string, t: TypeRef)
    ensures ParseShapeType(Text(text)) == Ok(t) <==> Written(t) && text == Source(t)
  {
    if Written(t) && text == Source(t) {
      assert text[0..|text|] == text;
      WrittenReads(t, text, 0);
      assert Look(0);
    }
    if ParseShapeType(Text(text)) == Ok(t) {
      AcceptsWritten(text, 0);
      assert text[0..|text|] == text;
    }
  }

  /** No text stands for two types. */
  lemma OneMeaning(t: TypeRef, u: TypeRef)
    requires Written(t) && Written(u) && Source(t) == Source(u)
    ensures t == u
  {
    ParsesExactly(Source(t), t);
    ParsesExactly(Source(t), u);
  }

  // ---------------------------------------------------------------- what is refused

  predicate Refused(text: string) {
    ParseShapeType(Text(text)).Err?
  }

  /** The parser's refusals that the tests list. */
  lemma DocumentedRefusals()
    ensures Refused("") && Refused("[tstr") && Refused("tstr]") && Refused("?") && Refused("1x")
  {
    assert IdentEnd("[tstr", 1) == 5;
    assert IdentEnd("tstr]", 0) == 4;
    assert ParseAt("tstr]", 0).Ok? && ParseAt("tstr]", 0).value.1 == 4;
  }
}
