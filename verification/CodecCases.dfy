/** The typed codecs case by case (`src/logos_bridge/typed/_codecs.py`): what the value of a list, a map, a
record, a result or a scalar is encoded as, and what comes back for it.

`Norm` is what comes back for a value; `Returns` says of one value that its document is JSON, decodes
to the normal form and is what the normal form is encoded as. Each lemma takes that of the parts of a value
to the whole, or proves it of a value without parts; `CodecLaws` puts them together. */
module CodecCases {
  import opened Wrappers
  import opened Base64
  import opened Values
  import opened Codecs

  // ---------------------------------------------------------------- the normal form

  /** What comes back for `v`: bytes inside `any` as tags, tuples as lists, integers as floats where a
      float is declared, and records with their empty fields as null or left out. */
  function Norm(env: Env, c: Codec, v: Val): Val
    requires EncodeVal(env, c, v).Some?
    decreases v, 2, c
  {
    match c
    case FloatCodec => ToFloat(v).value
    case AnyCodec => EncodeAny(v).value
    case OptionalCodec(inner) => if v.Null? then Null else Norm(env, inner, v)
    case ListCodec(element) =>
      if v.List? then List(NormItems(env, element, v, v.items)) else List(NormItems(env, element, v, v.elements))
    case MapCodec(value) => Dict(map k | k in v.members :: Norm(env, value, v.members[k]))
    case RecordCodec(name) => Assemble(env[name], map w | w in env[name].fields :: NormField(env, env[name].fields[w], v, w))
    case ResultCodec(_) => NormResult(v)
    case _ => v
  }

  function NormItems(env: Env, element: Codec, v: Val, items: seq<Val>): seq<Val>
    requires forall i :: 0 <= i < |items| ==> items[i] < v
    requires EncodeItems(env, element, v, items).Some?
    decreases v, 0
  {
    seq(|items|, i requires 0 <= i < |items| => Norm(env, element, items[i]))
  }

  function NormField(env: Env, f: Field, v: Val, w: string): Val
    requires EncodesField(env, f, v, w)
    decreases v, 0
  {
    if Item(v, w).Null? then Null else Norm(env, f.codec, Item(v, w))
  }

  function ResultOf(v: Val): map<Key, Val> {
    match v
    case Outcome(success, value, error) => ResultMembers(success, value, error)
    case Dict(members) => members
    case _ => map[]
  }

  function NormResult(v: Val): Val
    requires EncodeResult(v, true).Some?
  {
    var m := ResultOf(v);
    Outcome(m[Name("success")], EncodeAny(m[Name("value")]).value, m[Name("error")])
  }

  // ---------------------------------------------------------------- any

  /** An encoded tree is JSON, and encodes to itself. */
  lemma {:induction false} AnyTwice(v: Val)
    requires EncodeAny(v).Some?
    ensures IsJson(EncodeAny(v).value) && EncodeAny(EncodeAny(v).value) == EncodeAny(v)
    ensures EncodeAny(v).value.Null? ==> v.Null?
    decreases v
  {
    match v
    case Bytes(bytes) =>
      EncodedLength(bytes);
      TagEncodes(Encode(bytes));
    case List(items) =>
      forall i | 0 <= i < |items|
        ensures IsJson(EncodeAny(items[i]).value) && EncodeAny(EncodeAny(items[i]).value) == EncodeAny(items[i])
      {
        AnyTwice(items[i]);
      }
      AnyItemsTwice(items);
    case Tuple(items) =>
      forall i | 0 <= i < |items|
        ensures IsJson(EncodeAny(items[i]).value) && EncodeAny(EncodeAny(items[i]).value) == EncodeAny(items[i])
      {
        AnyTwice(items[i]);
      }
      AnyItemsTwice(items);
    case Dict(members) =>
      if BYTES_KEY !in members {
        forall k | k in members
          ensures IsJson(EncodeAny(members[k]).value) && EncodeAny(EncodeAny(members[k]).value) == EncodeAny(members[k])
        {
          AnyTwice(members[k]);
        }
        AnyMembersTwice(members);
      }
    case _ =>
  }

  lemma TagEncodes(text: string)
    requires Decodable(text)
    ensures IsJson(Tag(text)) && EncodeAny(Tag(text)) == Some(Tag(text))
  {
    assert Tag(text).members.Keys == {BYTES_KEY};
  }

  lemma AnyItemsTwice(items: seq<Val>)
    requires forall i :: 0 <= i < |items| ==> EncodeAny(items[i]).Some?
    requires forall i :: 0 <= i < |items| ==> EncodeAny(EncodeAny(items[i]).value) == EncodeAny(items[i])
    ensures EncodeAny(Tuple(items)) == EncodeAny(List(items))
    ensures EncodeAny(EncodeAny(List(items)).value) == EncodeAny(List(items))
  {
    var w := EncodeAny(List(items)).value;
    assert w == EncodeAny(Tuple(items)).value;
    assert forall i :: 0 <= i < |items| ==> EncodeAny(w.items[i]) == EncodeAny(items[i]);
    assert EncodeAny(w).value.items == w.items;
  }

  lemma AnyMembersTwice(members: map<Key, Val>)
    requires BYTES_KEY !in members && forall k :: k in members ==> k.Name? && EncodeAny(members[k]).Some?
    requires forall k :: k in members ==> EncodeAny(EncodeAny(members[k]).value) == EncodeAny(members[k])
    ensures EncodeAny(EncodeAny(Dict(members)).value) == EncodeAny(Dict(members))
  {
    var w := EncodeAny(Dict(members)).value;
    assert w.members.Keys == members.Keys;
    assert forall k :: k in w.members ==> EncodeAny(w.members[k]) == EncodeAny(members[k]);
    assert EncodeAny(w).value.members == w.members;
  }

  // ---------------------------------------------------------------- one value

  /** What holds of a value that can be encoded. */
  predicate Returns(env: Env, c: Codec, v: Val)
    requires EncodeVal(env, c, v).Some?
  {
    var w := EncodeVal(env, c, v).value;
    && IsJson(w) && (w.Null? ==> v.Null?)
    && DecodeVal(env, c, w, Strict) == Some(Norm(env, c, v))
    && (Norm(env, c, v).Null? ==> v.Null?)
    && EncodeVal(env, c, Norm(env, c, v)) == Some(w)
  }

  lemma ListDecodes(env: Env, element: Codec, ws: seq<Val>, ns: seq<Val>)
    requires |ws| == |ns| && forall i :: 0 <= i < |ws| ==> DecodeVal(env, element, ws[i], Strict) == Some(ns[i])
    ensures DecodeVal(env, ListCodec(element), List(ws), Strict) == Some(List(ns))
  {
    assert DecodeVal(env, ListCodec(element), List(ws), Strict).value.items == ns;
  }

  lemma ListEncodes(env: Env, element: Codec, ns: seq<Val>, ws: seq<Val>)
    requires |ns| == |ws| && forall i :: 0 <= i < |ns| ==> EncodeVal(env, element, ns[i]) == Some(ws[i])
    ensures EncodeVal(env, ListCodec(element), List(ns)) == Some(List(ws))
  {
    var v := List(ns);
    assert EncodeItems(env, element, v, ns).value.items == ws;
  }

  lemma ItemsReturn(env: Env, element: Codec, v: Val, items: seq<Val>)
    requires (v.List? && v.items == items) || (v.Tuple? && v.elements == items)
    requires EncodeVal(env, ListCodec(element), v).Some?
    requires forall i :: 0 <= i < |items| ==> EncodeVal(env, element, items[i]).Some? && Returns(env, element, items[i])
    ensures Returns(env, ListCodec(element), v)
  {
    assert EncodeVal(env, ListCodec(element), v) == EncodeItems(env, element, v, items);
    var ws := EncodeItems(env, element, v, items).value.items;
    var ns := NormItems(env, element, v, items);
    assert Norm(env, ListCodec(element), v) == List(ns);
    forall i | 0 <= i < |items|
      ensures DecodeVal(env, element, ws[i], Strict) == Some(ns[i]) && IsJson(ws[i])
      ensures EncodeVal(env, element, ns[i]) == Some(ws[i])
    {
      assert Returns(env, element, items[i]);
    }
    ListDecodes(env, element, ws, ns);
    ListEncodes(env, element, ns, ws);
  }

  lemma MapDecodes(env: Env, value: Codec, ws: map<Key, Val>, ns: map<Key, Val>)
    requires ws.Keys == ns.Keys && forall k :: k in ws ==> DecodeVal(env, value, ws[k], Strict) == Some(ns[k])
    ensures DecodeVal(env, MapCodec(value), Dict(ws), Strict) == Some(Dict(ns))
  {
    assert DecodeVal(env, MapCodec(value), Dict(ws), Strict).value.members == ns;
  }

  lemma MapEncodes(env: Env, value: Codec, ns: map<Key, Val>, ws: map<Key, Val>)
    requires ws.Keys == ns.Keys && forall k :: k in ns ==> k.Name? && EncodeVal(env, value, ns[k]) == Some(ws[k])
    ensures EncodeVal(env, MapCodec(value), Dict(ns)) == Some(Dict(ws))
  {
    assert EncodeVal(env, MapCodec(value), Dict(ns)).value.members == ws;
  }

  /** A map, encoded and in normal form, member by member. */
  lemma MembersAre(env: Env, value: Codec, v: Val) returns (ws: map<Key, Val>, ns: map<Key, Val>)
    requires EncodeVal(env, MapCodec(value), v).Some?
    ensures v.Dict? && ws.Keys == v.members.Keys == ns.Keys
    ensures EncodeVal(env, MapCodec(value), v) == Some(Dict(ws)) && Norm(env, MapCodec(value), v) == Dict(ns)
    ensures forall k :: k in v.members ==>
      k.Name? && EncodeVal(env, value, v.members[k]) == Some(ws[k]) && ns[k] == Norm(env, value, v.members[k])
  {
    ws, ns := EncodeVal(env, MapCodec(value), v).value.members, Norm(env, MapCodec(value), v).members;
  }

  lemma MemberReturns(env: Env, value: Codec, m: Val, w: Val, n: Val)
    requires EncodeVal(env, value, m) == Some(w) && n == Norm(env, value, m) && Returns(env, value, m)
    ensures IsJson(w) && DecodeVal(env, value, w, Strict) == Some(n) && EncodeVal(env, value, n) == Some(w)
  {
  }

  lemma MembersReturn(env: Env, value: Codec, v: Val)
    requires EncodeVal(env, MapCodec(value), v).Some?
    requires forall k :: k in v.members ==> EncodeVal(env, value, v.members[k]).Some? && Returns(env, value, v.members[k])
    ensures Returns(env, MapCodec(value), v)
  {
    hide EncodeVal, DecodeVal, Norm;
    var ws, ns := MembersAre(env, value, v);
    forall k | k in ws
      ensures k.Name? && IsJson(ws[k]) && DecodeVal(env, value, ws[k], Strict) == Some(ns[k])
      ensures EncodeVal(env, value, ns[k]) == Some(ws[k])
    {
      MemberReturns(env, value, v.members[k], ws[k], ns[k]);
    }
    MapDecodes(env, value, ws, ns);
    MapEncodes(env, value, ns, ws);
  }

  lemma ResultReturns(env: Env, dynamic: bool, v: Val)
    requires EncodeVal(env, ResultCodec(dynamic), v).Some?
    ensures Returns(env, ResultCodec(dynamic), v)
  {
    hide EncodeAny, IsResult;
    ResultEncodes(env, dynamic, v);
    var m := ResultOf(v);
    AnyTwice(m[Name("value")]);
    var w := EncodeAny(m[Name("value")]).value;
    var encoded := ResultMembers(m[Name("success")], w, m[Name("error")]);
    ResultAgain(env, dynamic, encoded);
  }

  lemma ResultEncodes(env: Env, dynamic: bool, v: Val)
    requires EncodeVal(env, ResultCodec(dynamic), v).Some?
    ensures var m := ResultOf(v);
      && m.Keys == RESULT_KEYS && m[Name("success")].Bool? && EncodeAny(m[Name("value")]).Some?
      && (m[Name("error")].Str? || m[Name("error")].Null?)
      && var encoded := ResultMembers(m[Name("success")], EncodeAny(m[Name("value")]).value, m[Name("error")]);
      && EncodeVal(env, ResultCodec(dynamic), v) == Some(Dict(encoded))
      && Norm(env, ResultCodec(dynamic), v) == ResultFrom(encoded)
  {
  }

  function ResultFrom(encoded: map<Key, Val>): Val
    requires encoded.Keys == RESULT_KEYS
  {
    Outcome(encoded[Name("success")], encoded[Name("value")], encoded[Name("error")])
  }

  /** What a result is encoded as decodes to a result that is encoded so again. */
  lemma ResultAgain(env: Env, dynamic: bool, encoded: map<Key, Val>)
    requires encoded.Keys == RESULT_KEYS && encoded[Name("success")].Bool?
    requires encoded[Name("error")].Str? || encoded[Name("error")].Null?
    requires EncodeAny(encoded[Name("value")]) == Some(encoded[Name("value")]) && IsJson(encoded[Name("value")])
    ensures IsJson(Dict(encoded)) && DecodeVal(env, ResultCodec(dynamic), Dict(encoded), Strict) == Some(ResultFrom(encoded))
    ensures EncodeVal(env, ResultCodec(dynamic), ResultFrom(encoded)) == Some(Dict(encoded))
  {
    assert ResultMembers(encoded[Name("success")], encoded[Name("value")], encoded[Name("error")]) == encoded;
  }

  // ---------------------------------------------------------------- records

  /** The fields of one record, encoded and come back. */
  predicate FieldReturns(env: Env, f: Field, v: Val, w: string)
    requires EncodesField(env, f, v, w)
  {
    Item(v, w).Null? || Returns(env, f.codec, Item(v, w))
  }

  lemma EncodedItem(env: Env, name: string, v: Val, w: string)
    requires EncodeVal(env, RecordCodec(name), v).Some? && w in env[name].fields
    ensures EncodesField(env, env[name].fields[w], v, w)
    ensures Item(EncodeVal(env, RecordCodec(name), v).value, w) ==
      if Name(w) in Written(env[name], v) then EncodedField(env, env[name].fields[w], v, w) else Null
  {
  }

  lemma FieldDecodes(env: Env, name: string, v: Val, w: string)
    requires EncodeVal(env, RecordCodec(name), v).Some? && w in env[name].fields
    requires EncodesField(env, env[name].fields[w], v, w) && FieldReturns(env, env[name].fields[w], v, w)
    ensures var j := EncodeVal(env, RecordCodec(name), v).value; var f := env[name].fields[w];
      DecodesField(env, f, j, w, Strict) && DecodedField(env, f, j, w, Strict) == NormField(env, f, v, w)
  {
    EncodedItem(env, name, v, w);
  }

  function NormFields(env: Env, name: string, v: Val): map<string, Val>
    requires EncodeVal(env, RecordCodec(name), v).Some?
  {
    map w | w in env[name].fields :: NormField(env, env[name].fields[w], v, w)
  }

  lemma AssembledItem(def: RecordDef, values: map<string, Val>, w: string)
    requires values.Keys == def.fields.Keys && w in def.fields
    ensures IsRecord(def, Assemble(def, values)) && Item(Assemble(def, values), w) == values[w]
  {
  }

  lemma FieldEncodesAgain(env: Env, name: string, v: Val, w: string)
    requires EncodeVal(env, RecordCodec(name), v).Some? && w in env[name].fields
    requires EncodesField(env, env[name].fields[w], v, w) && FieldReturns(env, env[name].fields[w], v, w)
    ensures var n := Norm(env, RecordCodec(name), v); var f := env[name].fields[w];
      && EncodesField(env, f, n, w) && EncodedField(env, f, n, w) == EncodedField(env, f, v, w)
      && (Item(n, w).Null? <==> Item(v, w).Null?)
  {
    AssembledItem(env[name], NormFields(env, name, v), w);
  }

  /** What a record's value is encoded as, field by field. */
  lemma RecordEncoded(env: Env, name: string, v: Val) returns (members: map<Key, Val>)
    requires EncodeVal(env, RecordCodec(name), v).Some?
    ensures name in env && IsRecord(env[name], v) && members.Keys == Written(env[name], v)
    ensures EncodeVal(env, RecordCodec(name), v) == Some(Dict(members))
    ensures forall w :: w in env[name].fields ==> EncodesField(env, env[name].fields[w], v, w)
    ensures forall w :: w in env[name].fields && Name(w) in members ==>
      members[Name(w)] == EncodedField(env, env[name].fields[w], v, w)
  {
    members := EncodeVal(env, RecordCodec(name), v).value.members;
  }

  lemma RecordEncodes(env: Env, name: string, v: Val, members: map<Key, Val>)
    requires name in env && IsRecord(env[name], v) && members.Keys == Written(env[name], v)
    requires forall w :: w in env[name].fields ==> EncodesField(env, env[name].fields[w], v, w)
    requires forall w :: w in env[name].fields && Name(w) in members ==>
      members[Name(w)] == EncodedField(env, env[name].fields[w], v, w)
    ensures EncodeVal(env, RecordCodec(name), v) == Some(Dict(members))
  {
    assert EncodeVal(env, RecordCodec(name), v).value.members == members;
  }

  lemma RecordDecodesAs(env: Env, name: string, j: Val, values: map<string, Val>)
    requires name in env && j.Dict? && values.Keys == env[name].fields.Keys
    requires forall w :: w in env[name].fields ==> DecodesField(env, env[name].fields[w], j, w, Strict)
    requires forall w :: w in env[name].fields ==> values[w] == DecodedField(env, env[name].fields[w], j, w, Strict)
    ensures DecodeVal(env, RecordCodec(name), j, Strict) == Some(Assemble(env[name], values))
  {
    assert (map w | w in env[name].fields :: DecodedField(env, env[name].fields[w], j, w, Strict)) == values;
  }

  lemma RecordNorm(env: Env, name: string, v: Val)
    requires EncodeVal(env, RecordCodec(name), v).Some?
    ensures name in env && Norm(env, RecordCodec(name), v) == Assemble(env[name], NormFields(env, name, v))
    ensures NormFields(env, name, v).Keys == env[name].fields.Keys
  {
    assert Norm(env, RecordCodec(name), v) == Assemble(env[name], NormFields(env, name, v));
  }

  lemma RecordDecodes(env: Env, name: string, v: Val)
    requires EncodeVal(env, RecordCodec(name), v).Some?
    requires forall w :: w in env[name].fields ==>
      EncodesField(env, env[name].fields[w], v, w) && FieldReturns(env, env[name].fields[w], v, w)
    ensures DecodeVal(env, RecordCodec(name), EncodeVal(env, RecordCodec(name), v).value, Strict)
      == Some(Norm(env, RecordCodec(name), v))
  {
    hide EncodeVal, DecodeVal, Norm, EncodesField, FieldReturns, DecodesField, DecodedField;
    var members := RecordEncoded(env, name, v);
    var j := Dict(members);
    RecordNorm(env, name, v);
    forall w | w in env[name].fields
      ensures DecodesField(env, env[name].fields[w], j, w, Strict)
      ensures DecodedField(env, env[name].fields[w], j, w, Strict) == NormField(env, env[name].fields[w], v, w)
    {
      FieldDecodes(env, name, v, w);
    }
    RecordDecodesAs(env, name, j, NormFields(env, name, v));
  }

  lemma RecordEncodesAgain(env: Env, name: string, v: Val)
    requires EncodeVal(env, RecordCodec(name), v).Some?
    requires forall w :: w in env[name].fields ==>
      EncodesField(env, env[name].fields[w], v, w) && FieldReturns(env, env[name].fields[w], v, w)
    ensures EncodeVal(env, RecordCodec(name), Norm(env, RecordCodec(name), v)) == EncodeVal(env, RecordCodec(name), v)
  {
    hide EncodeVal, Norm, EncodesField, FieldReturns, EncodedField, IsRecord, Item;
    var members := RecordEncoded(env, name, v);
    var def, n := env[name], Norm(env, RecordCodec(name), v);
    NormIsRecord(env, name, v);
    forall w | w in def.fields
      ensures EncodesField(env, def.fields[w], n, w)
      ensures EncodedField(env, def.fields[w], n, w) == EncodedField(env, def.fields[w], v, w)
      ensures Item(n, w).Null? <==> Item(v, w).Null?
    {
      FieldEncodesAgain(env, name, v, w);
    }
    assert Written(def, n) == Written(def, v);
    RecordEncodes(env, name, n, members);
  }

  lemma NormIsRecord(env: Env, name: string, v: Val)
    requires EncodeVal(env, RecordCodec(name), v).Some?
    ensures IsRecord(env[name], Norm(env, RecordCodec(name), v))
  {
    assert Norm(env, RecordCodec(name), v) == Assemble(env[name], NormFields(env, name, v));
  }

  lemma RecordIsJson(env: Env, name: string, v: Val)
    requires EncodeVal(env, RecordCodec(name), v).Some?
    requires forall w :: w in env[name].fields ==>
      EncodesField(env, env[name].fields[w], v, w) && FieldReturns(env, env[name].fields[w], v, w)
    ensures IsJson(EncodeVal(env, RecordCodec(name), v).value)
  {
  }

  lemma ScalarReturns(env: Env, c: Codec, v: Val)
    requires EncodeVal(env, c, v).Some?
    requires c.StrCodec? || c.BytesCodec? || c.IntCodec? || c.FloatCodec? || c.BoolCodec? || c.AnyCodec?
    ensures Returns(env, c, v)
  {
    if c.BytesCodec? {
      TagRoundTrip(v.bytes);
      EncodedLength(v.bytes);
    } else if c.AnyCodec? {
      AnyTwice(v);
    }
  }

  lemma OptionalReturns(env: Env, inner: Codec, v: Val)
    requires EncodeVal(env, OptionalCodec(inner), v).Some?
    requires !v.Null? ==> EncodeVal(env, inner, v).Some? && Returns(env, inner, v)
    ensures Returns(env, OptionalCodec(inner), v)
  {
  }
}
