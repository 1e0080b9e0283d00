/** What the typed codecs encode decodes to the value's normal form (`src/logos_bridge/typed/_codecs.py`). */
module CodecLaws {
  import opened Wrappers
  import opened Base64
  import opened Values
  import opened Codecs
  import opened CodecCases

  // The normal form encodes to the same document again, through records that refer to each other.

  lemma RecordReturns(env: Env, name: string, v: Val)
    requires EncodeVal(env, RecordCodec(name), v).Some?
    requires forall w :: w in env[name].fields ==>
      EncodesField(env, env[name].fields[w], v, w) && FieldReturns(env, env[name].fields[w], v, w)
    ensures Returns(env, RecordCodec(name), v)
  {
    RecordDecodes(env, name, v);
    RecordEncodesAgain(env, name, v);
    RecordIsJson(env, name, v);
  }

  // ---------------------------------------------------------------- every value

  /** Whatever a codec encodes is JSON; it decodes strictly to the value's normal form, and that
      encodes to the same document again. */
  lemma {:induction false} TypedRoundTrip(env: Env, c: Codec, v: Val)
    requires EncodeVal(env, c, v).Some?
    ensures Returns(env, c, v)
    decreases v, 1, c
  {
    hide Returns, FieldReturns, EncodesField;
    match c
    case OptionalCodec(inner) =>
      if !v.Null? {
        TypedRoundTrip(env, inner, v);
      }
      OptionalReturns(env, inner, v);
    case ListCodec(element) =>
      var items := if v.List? then v.items else v.elements;
      forall i | 0 <= i < |items|
        ensures EncodeVal(env, element, items[i]).Some? && Returns(env, element, items[i])
      {
        TypedRoundTrip(env, element, items[i]);
      }
      ItemsReturn(env, element, v, items);
    case MapCodec(value) =>
      forall k | k in v.members
        ensures EncodeVal(env, value, v.members[k]).Some? && Returns(env, value, v.members[k])
      {
        TypedRoundTrip(env, value, v.members[k]);
      }
      MembersReturn(env, value, v);
    case RecordCodec(name) =>
      forall w | w in env[name].fields
        ensures EncodesField(env, env[name].fields[w], v, w) && FieldReturns(env, env[name].fields[w], v, w)
      {
        FieldRoundTrip(env, name, v, w);
      }
      RecordReturns(env, name, v);
    case ResultCodec(dynamic) =>
      ResultReturns(env, dynamic, v);
    case _ =>
      ScalarReturns(env, c, v);
  }

  lemma {:induction false} FieldRoundTrip(env: Env, name: string, v: Val, w: string)
    requires EncodeVal(env, RecordCodec(name), v).Some? && w in env[name].fields
    ensures EncodesField(env, env[name].fields[w], v, w) && FieldReturns(env, env[name].fields[w], v, w)
    decreases v, 0
  {
    if !Item(v, w).Null? {
      TypedRoundTrip(env, env[name].fields[w].codec, Item(v, w));
    }
  }
}
