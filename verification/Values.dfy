/** Python values and the JSON ones among them, and the untyped encoding of arguments
(`src/logos_bridge/codec.py`, `encode_value`, `decode_bytes_tags`). A refusal is `None`. */
module Values {
  import opened Wrappers
  import opened Base64

  /** A dictionary key: a `str`, or anything else. */
  datatype Key = Name(name: string) | OddKey(tag: nat)

  /** A value a caller can pass. Floats are finite reals or not finite; `Bytes` is any bytes-like
      object; `Obj` is an instance of a generated record class, `Outcome` a `LogosResult`, and `Other`
      an object of any other class. */
  datatype Val =
    | Null
    | Bool(b: bool)
    | Int(n: int)
    | Float(x: real)
    | NotFinite
    | Str(text: string)
    | Bytes(bytes: seq<Byte>)
    | List(items: seq<Val>)
    | Tuple(elements: seq<Val>)
    | Dict(members: map<Key, Val>)
    | Obj(cls: string, attrs: map<string, Val>)
    | Outcome(success: Val, value: Val, error: Val)
    | Other

  const BYTES_KEY := Name("_bytes")

  /** What a JSON document can hold. */
  predicate IsJson(v: Val) {
    match v
    case List(items) => forall i :: 0 <= i < |items| ==> IsJson(items[i])
    case Dict(members) => forall k :: k in members ==> k.Name? && IsJson(members[k])
    case _ => v.Null? || v.Bool? || v.Int? || v.Float? || v.Str?
  }

  function Tag(text: string): Val {
    Dict(map[BYTES_KEY := Str(text)])
  }

  /** Exactly one key, `_bytes`, holding a string. */
  predicate IsTag(v: Val) {
    v.Dict? && v.members.Keys == {BYTES_KEY} && v.members[BYTES_KEY].Str?
  }

  function TagText(v: Val): string
    requires IsTag(v)
  {
    v.members[BYTES_KEY].text
  }

  // ---------------------------------------------------------------- encode_value

  /** A tag that was encoded beforehand must be decodable; no other object may have the key. */
  function EncodeTagged(members: map<Key, Val>): Option<Val>
    requires BYTES_KEY in members
  {
    if members.Keys == {BYTES_KEY} && members[BYTES_KEY].Str? && Decodable(members[BYTES_KEY].text)
    then Some(Dict(members)) else None
  }

  function EncodeValue(v: Val): Option<Val> {
    match v
    case Null => Some(v)
    case Bool(_) => Some(v)
    case Int(_) => Some(v)
    case Float(_) => Some(v)
    case Str(_) => Some(v)
    case Bytes(bytes) => Some(Tag(Encode(bytes)))
    case List(items) =>
      if forall i :: 0 <= i < |items| ==> EncodeValue(items[i]).Some?
      then Some(List(seq(|items|, i requires 0 <= i < |items| => EncodeValue(items[i]).value))) else None
    case Tuple(items) =>
      if forall i :: 0 <= i < |items| ==> EncodeValue(items[i]).Some?
      then Some(List(seq(|items|, i requires 0 <= i < |items| => EncodeValue(items[i]).value))) else None
    case Dict(members) =>
      if BYTES_KEY in members then EncodeTagged(members)
      else if forall k :: k in members ==> k.Name? && EncodeValue(members[k]).Some?
      then Some(Dict(map k | k in members :: EncodeValue(members[k]).value)) else None
    case _ => None
  }

  // ---------------------------------------------------------------- decode_bytes_tags

  /** Every tag, at any depth, replaced by its bytes. */
  function DecodeTags(v: Val): Option<Val> {
    match v
    case Dict(members) =>
      if IsTag(v) then
        var bytes := DecodeTagText(TagText(v));
        if bytes.Some? then Some(Bytes(bytes.value)) else None
      else if forall k :: k in members ==> DecodeTags(members[k]).Some?
      then Some(Dict(map k | k in members :: DecodeTags(members[k]).value)) else None
    case List(items) =>
      if forall i :: 0 <= i < |items| ==> DecodeTags(items[i]).Some?
      then Some(List(seq(|items|, i requires 0 <= i < |items| => DecodeTags(items[i]).value))) else None
    case _ => Some(v)
  }

  // ---------------------------------------------------------------- there and back

  /** `v` with tuples as lists and tags decoded. */
  function Plain(v: Val): Val {
    match v
    case List(items) => List(seq(|items|, i requires 0 <= i < |items| => Plain(items[i])))
    case Tuple(items) => List(seq(|items|, i requires 0 <= i < |items| => Plain(items[i])))
    case Dict(members) =>
      if IsTag(v) && Decodable(TagText(v)) then Bytes(Decode(TagText(v)))
      else Dict(map k | k in members :: Plain(members[k]))
    case _ => v
  }

  lemma DictRoundTrip(members: map<Key, Val>)
    requires BYTES_KEY !in members && forall k :: k in members ==> k.Name? && EncodeValue(members[k]).Some?
    requires forall k :: k in members ==> DecodeTags(EncodeValue(members[k]).value) == Some(Plain(members[k]))
    ensures DecodeTags(EncodeValue(Dict(members)).value) == Some(Plain(Dict(members)))
  {
    var w := EncodeValue(Dict(members)).value;
    assert w.members.Keys == members.Keys;
    assert BYTES_KEY !in w.members;
    assert !IsTag(w) && !IsTag(Dict(members));
    assert forall k :: k in w.members ==> DecodeTags(w.members[k]) == Some(Plain(members[k]));
    assert DecodeTags(w).value.members == Plain(Dict(members)).members;
  }

  lemma ListRoundTrip(items: seq<Val>)
    requires forall i :: 0 <= i < |items| ==> EncodeValue(items[i]).Some?
    requires forall i :: 0 <= i < |items| ==> DecodeTags(EncodeValue(items[i]).value) == Some(Plain(items[i]))
    ensures DecodeTags(EncodeValue(List(items)).value) == Some(Plain(List(items)))
    ensures DecodeTags(EncodeValue(Tuple(items)).value) == Some(Plain(Tuple(items)))
  {
    var w := EncodeValue(List(items)).value;
    assert w == EncodeValue(Tuple(items)).value;
    assert forall i :: 0 <= i < |items| ==> DecodeTags(w.items[i]) == Some(Plain(items[i]));
    assert DecodeTags(w).value.items == Plain(List(items)).items;
    assert DecodeTags(w).value.items == Plain(Tuple(items)).items;
  }

  /** Whatever can be sent comes back: decoding the tags of an encoded value never fails, and gives
      the value with tuples as lists and tags decoded, at any depth. */
  lemma {:induction false} ValueRoundTrip(v: Val)
    requires EncodeValue(v).Some?
    ensures IsJson(EncodeValue(v).value) && DecodeTags(EncodeValue(v).value) == Some(Plain(v))
    decreases v
  {
    match v
    case Bytes(bytes) =>
      TagRoundTrip(bytes);
    case List(items) =>
      forall i | 0 <= i < |items|
        ensures IsJson(EncodeValue(items[i]).value) && DecodeTags(EncodeValue(items[i]).value) == Some(Plain(items[i]))
      {
        ValueRoundTrip(items[i]);
      }
      ListRoundTrip(items);
    case Tuple(items) =>
      forall i | 0 <= i < |items|
        ensures IsJson(EncodeValue(items[i]).value) && DecodeTags(EncodeValue(items[i]).value) == Some(Plain(items[i]))
      {
        ValueRoundTrip(items[i]);
      }
      ListRoundTrip(items);
    case Dict(members) =>
      if BYTES_KEY in members {
        NothingToStrip(TagText(v));
      } else {
        forall k | k in members
          ensures IsJson(EncodeValue(members[k]).value) && DecodeTags(EncodeValue(members[k]).value) == Some(Plain(members[k]))
        {
          ValueRoundTrip(members[k]);
        }
        DictRoundTrip(members);
      }
    case _ =>
  }
}
