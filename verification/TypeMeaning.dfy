/** Which Python values have a declared type, which documents do, and what stands for what. */
module TypeMeaning {
  import opened Wrappers
  import opened LidlTypes
  import opened Base64
  import opened Values
  import opened Codecs
  import opened CodecCases
  import opened Builder
  import opened Signatures

  // The types are read as the contract language has them (`src/logos_bridge/typed/_codecs.py`, the
  // classes of codecs); no codec is mentioned here but in the lemmas.

  // ---------------------------------------------------------------- numbers

  predicate IsInt64(n: int) {
    -9223372036854775808 <= n <= 9223372036854775807
  }

  predicate IsUint64(n: int) {
    0 <= n <= 18446744073709551615
  }

  /** Nearer to a finite double than to 2 to the power 1024. */
  predicate IsFloatInt(n: int) {
    var limit := Power(2, 1024) - Power(2, 970);
    -limit < n < limit
  }

  lemma {:induction false} PowerAdds(b: nat, m: nat, n: nat)
    ensures Power(b, m + n) == Power(b, m) * Power(b, n)
  {
    if m > 0 {
      PowerAdds(b, m - 1, n);
      assert b * (Power(b, m - 1) * Power(b, n)) == (b * Power(b, m - 1)) * Power(b, n);
    }
  }

  lemma FloatRange(n: int)
    ensures FitsFloat(n) <==> IsFloatInt(n)
  {
    hide Power;
    PowerAdds(2, 970, 54);
  }

  // ---------------------------------------------------------------- any

  predicate IsBytesTag(v: Val) {
    v.Dict? && v.members.Keys == {Name("_bytes")} && v.members[Name("_bytes")].Str? && Decodable(v.members[Name("_bytes")].text)
  }

  /** A tree of JSON values, bytes and sequences; the key `_bytes` is for tags. */
  predicate IsAny(v: Val) {
    match v
    case Int(n) => IsInt64(n) || IsUint64(n)
    case List(items) => forall i :: 0 <= i < |items| ==> IsAny(items[i])
    case Tuple(items) => forall i :: 0 <= i < |items| ==> IsAny(items[i])
    case Dict(members) =>
      if Name("_bytes") in members then IsBytesTag(v) else forall k :: k in members ==> k.Name? && IsAny(members[k])
    case _ => v.Null? || v.Bool? || v.Str? || v.Float? || v.Bytes?
  }

  /** The document of such a tree: bytes as tags, tuples as arrays. */
  predicate WritesAny(v: Val, w: Val) {
    match v
    case Bytes(bytes) => w == Dict(map[Name("_bytes") := Str(Encode(bytes))])
    case List(items) => w.List? && |w.items| == |items| && forall i :: 0 <= i < |items| ==> WritesAny(items[i], w.items[i])
    case Tuple(items) => w.List? && |w.items| == |items| && forall i :: 0 <= i < |items| ==> WritesAny(items[i], w.items[i])
    case Dict(members) =>
      if Name("_bytes") in members then w == v
      else w.Dict? && w.members.Keys == members.Keys && forall k :: k in members ==> WritesAny(members[k], w.members[k])
    case _ => w == v
  }

  lemma {:induction false} AnyExactly(v: Val)
    ensures EncodeAny(v).Some? <==> IsAny(v)
    ensures EncodeAny(v).Some? ==> WritesAny(v, EncodeAny(v).value)
    decreases v
  {
    match v
    case List(items) =>
      forall i | 0 <= i < |items|
        ensures (EncodeAny(items[i]).Some? <==> IsAny(items[i])) && (EncodeAny(items[i]).Some? ==> WritesAny(items[i], EncodeAny(items[i]).value))
      {
        AnyExactly(items[i]);
      }
    case Tuple(items) =>
      forall i | 0 <= i < |items|
        ensures (EncodeAny(items[i]).Some? <==> IsAny(items[i])) && (EncodeAny(items[i]).Some? ==> WritesAny(items[i], EncodeAny(items[i]).value))
      {
        AnyExactly(items[i]);
      }
    case Dict(members) =>
      if Name("_bytes") !in members {
        forall k | k in members
          ensures (EncodeAny(members[k]).Some? <==> IsAny(members[k]))
          ensures EncodeAny(members[k]).Some? ==> WritesAny(members[k], EncodeAny(members[k]).value)
        {
          AnyExactly(members[k]);
        }
      }
    case _ =>
  }

  // ---------------------------------------------------------------- without a type

  /** What an untyped argument can be: like `any`, with integers of any size. */
  predicate IsSendable(v: Val) {
    match v
    case List(items) => forall i :: 0 <= i < |items| ==> IsSendable(items[i])
    case Tuple(items) => forall i :: 0 <= i < |items| ==> IsSendable(items[i])
    case Dict(members) =>
      if Name("_bytes") in members then IsBytesTag(v) else forall k :: k in members ==> k.Name? && IsSendable(members[k])
    case _ => v.Null? || v.Bool? || v.Int? || v.Float? || v.Str? || v.Bytes?
  }

  /** `encode_value` sends exactly these, each as its document. */
  lemma {:induction false} SendsExactly(v: Val)
    ensures EncodeValue(v).Some? <==> IsSendable(v)
    ensures EncodeValue(v).Some? ==> WritesAny(v, EncodeValue(v).value)
    decreases v
  {
    match v
    case List(items) =>
      forall i | 0 <= i < |items|
        ensures (EncodeValue(items[i]).Some? <==> IsSendable(items[i]))
        ensures EncodeValue(items[i]).Some? ==> WritesAny(items[i], EncodeValue(items[i]).value)
      {
        SendsExactly(items[i]);
      }
    case Tuple(items) =>
      forall i | 0 <= i < |items|
        ensures (EncodeValue(items[i]).Some? <==> IsSendable(items[i]))
        ensures EncodeValue(items[i]).Some? ==> WritesAny(items[i], EncodeValue(items[i]).value)
      {
        SendsExactly(items[i]);
      }
    case Dict(members) =>
      if Name("_bytes") !in members {
        forall k | k in members
          ensures (EncodeValue(members[k]).Some? <==> IsSendable(members[k]))
          ensures EncodeValue(members[k]).Some? ==> WritesAny(members[k], EncodeValue(members[k]).value)
        {
          SendsExactly(members[k]);
        }
      }
    case _ =>
  }

  /** An object with the one key `_bytes`, which holds a string. */
  predicate LooksTagged(j: Val) {
    j.Dict? && j.members.Keys == {Name("_bytes")} && j.members[Name("_bytes")].Str?
  }

  /** No object in the document looks like a tag and is none. */
  predicate TagsRight(j: Val) {
    match j
    case Dict(members) =>
      if LooksTagged(j) then DecodeTagText(members[Name("_bytes")].text).Some? else forall k :: k in members ==> TagsRight(members[k])
    case List(items) => forall i :: 0 <= i < |items| ==> TagsRight(items[i])
    case _ => true
  }

  /** The document with its tags as bytes. */
  predicate Untags(j: Val, v: Val) {
    match j
    case Dict(members) =>
      if LooksTagged(j) then v.Bytes? && DecodeTagText(members[Name("_bytes")].text) == Some(v.bytes)
      else v.Dict? && v.members.Keys == members.Keys && forall k :: k in members ==> Untags(members[k], v.members[k])
    case List(items) => v.List? && |v.items| == |items| && forall i :: 0 <= i < |items| ==> Untags(items[i], v.items[i])
    case _ => v == j
  }

  /** `decode_bytes_tags` fails exactly on a tag that is none, and replaces the others. */
  lemma {:induction false} UntagsExactly(j: Val)
    ensures DecodeTags(j).Some? <==> TagsRight(j)
    ensures DecodeTags(j).Some? ==> Untags(j, DecodeTags(j).value)
    decreases j
  {
    match j
    case List(items) =>
      forall i | 0 <= i < |items|
        ensures (DecodeTags(items[i]).Some? <==> TagsRight(items[i]))
        ensures DecodeTags(items[i]).Some? ==> Untags(items[i], DecodeTags(items[i]).value)
      {
        UntagsExactly(items[i]);
      }
    case Dict(members) =>
      if !LooksTagged(j) {
        forall k | k in members
          ensures (DecodeTags(members[k]).Some? <==> TagsRight(members[k]))
          ensures DecodeTags(members[k]).Some? ==> Untags(members[k], DecodeTags(members[k]).value)
        {
          UntagsExactly(members[k]);
        }
      }
    case _ =>
  }

  // ---------------------------------------------------------------- values of a type

  /** A `LogosResult`, or a dictionary like one where dictionaries stand for it. */
  predicate IsOutcome(v: Val, dynamic: bool) {
    match v
    case Outcome(success, value, error) => success.Bool? && IsAny(value) && (error.Null? || error.Str?)
    case Dict(members) =>
      && dynamic && members.Keys == {Name("success"), Name("value"), Name("error")}
      && members[Name("success")].Bool? && IsAny(members[Name("value")])
      && (members[Name("error")].Null? || members[Name("error")].Str?)
    case _ => false
  }

  predicate HasPrimitive(name: string, dynamic: bool, v: Val) {
    if name == "tstr" then v.Str?
    else if name == "bstr" then v.Bytes?
    else if name == "int" then v.Int? && IsInt64(v.n)
    else if name == "uint" then v.Int? && IsUint64(v.n)
    else if name == "float64" then v.Float? || (v.Int? && IsFloatInt(v.n))
    else if name == "bool" then v.Bool?
    else name == "result" && IsOutcome(v, dynamic)
  }

  /** An instance of the record's class, or, without one, a dictionary of some of its fields. */
  predicate IsInstance(fields: map<string, Slot>, cls: Option<string>, v: Val) {
    match cls
    case Some(c) => v.Obj? && v.cls == c && v.attrs.Keys == fields.Keys
    case None => v.Dict? && forall k :: k in v.members ==> k.Name? && k.name in fields
  }

  function ClassOf(classes: map<string, string>, record: string): Option<string> {
    if record in classes then Some(classes[record]) else None
  }

  /** Null is a value of the type. */
  predicate TakesNull(t: TypeRef) {
    Degrades(t) || t.kind.Optional?
  }

  predicate HasType(table: Table, classes: map<string, string>, dynamic: bool, t: TypeRef, v: Val)
    decreases v, 1, t
  {
    if Degrades(t) then IsAny(v)
    else
      match t.kind
      case Primitive => HasPrimitive(t.name, dynamic, v)
      case Array =>
        || (v.List? && forall i :: 0 <= i < |v.items| ==> HasType(table, classes, dynamic, t.elements[0], v.items[i]))
        || (v.Tuple? && forall i :: 0 <= i < |v.elements| ==> HasType(table, classes, dynamic, t.elements[0], v.elements[i]))
      case Map => v.Dict? && forall k :: k in v.members ==> k.Name? && HasType(table, classes, dynamic, t.elements[1], v.members[k])
      case Optional => v.Null? || HasType(table, classes, dynamic, ValueType(t), v)
      case Named =>
        && t.name in table && IsInstance(table[t.name], ClassOf(classes, t.name), v)
        && forall w :: w in table[t.name] ==> HasField(table, classes, dynamic, table[t.name][w], v, w)
  }

  /** A field that is null must be optional, or of a type that has null. */
  predicate HasField(table: Table, classes: map<string, string>, dynamic: bool, s: Slot, v: Val, w: string)
    decreases v, 0
  {
    if Item(v, w).Null? then s.optional || TakesNull(s.valueType) else HasType(table, classes, dynamic, s.valueType, Item(v, w))
  }

  predicate Exactly(table: Table, classes: map<string, string>, dynamic: bool, t: TypeRef, v: Val) {
    EncodeVal(BuildEnv(table, classes, dynamic), Build(t, dynamic), v).Some? <==> HasType(table, classes, dynamic, t, v)
  }

  function Elements(v: Val): (items: seq<Val>)
    ensures forall x :: x in items ==> x < v
  {
    match v
    case List(items) => items
    case Tuple(elements) => elements
    case _ => []
  }

  function BuiltField(table: Table, record: string, w: string, dynamic: bool): Field
    requires record in table && w in table[record]
  {
    Field(Build(table[record][w].valueType, dynamic), table[record][w].optional)
  }

  // ---------------------------------------------------------------- what a value is written as

  predicate WritesPrimitive(name: string, v: Val, w: Val) {
    if name == "bstr" then v.Bytes? && w == Dict(map[Name("_bytes") := Str(Encode(v.bytes))])
    else if name == "float64" then (v.Float? && w == v) || (v.Int? && w == Float(v.n as real))
    else if name == "result" then WritesOutcome(v, w)
    else w == v
  }

  predicate WritesOutcome(v: Val, w: Val) {
    && w.Dict? && w.members.Keys == {Name("success"), Name("value"), Name("error")}
    && match v
       case Outcome(success, value, error) =>
         w.members[Name("success")] == success && WritesAny(value, w.members[Name("value")]) && w.members[Name("error")] == error
       case Dict(members) =>
         && w.members.Keys == members.Keys && w.members[Name("success")] == members[Name("success")]
         && WritesAny(members[Name("value")], w.members[Name("value")]) && w.members[Name("error")] == members[Name("error")]
       case _ => false
  }

  /** `w` is the document for `v`. */
  ghost predicate Writes(table: Table, t: TypeRef, v: Val, w: Val)
    decreases v, 1, t
  {
    if Degrades(t) then WritesAny(v, w)
    else
      match t.kind
      case Primitive => WritesPrimitive(t.name, v, w)
      case Array =>
        && (v.List? || v.Tuple?) && w.List? && |w.items| == |Elements(v)|
        && forall i :: 0 <= i < |w.items| ==> Writes(table, t.elements[0], Elements(v)[i], w.items[i])
      case Map =>
        && v.Dict? && w.Dict? && w.members.Keys == v.members.Keys
        && forall k :: k in v.members ==> Writes(table, t.elements[1], v.members[k], w.members[k])
      case Optional => if v.Null? then w.Null? else Writes(table, ValueType(t), v, w)
      case Named =>
        && t.name in table && w.Dict? && (forall k :: k in w.members <==> IsWritten(table[t.name], v, k))
        && forall f :: f in table[t.name] && Name(f) in w.members ==> WritesField(table, table[t.name][f], v, f, w.members[Name(f)])
  }

  /** Every field is written but for an optional one that is empty. */
  predicate IsWritten(fields: map<string, Slot>, v: Val, k: Key) {
    k.Name? && k.name in fields && !(fields[k.name].optional && Item(v, k.name).Null?)
  }

  ghost predicate WritesField(table: Table, s: Slot, v: Val, f: string, w: Val)
    decreases v, 0
  {
    if Item(v, f).Null? then w.Null? else Writes(table, s.valueType, Item(v, f), w)
  }

  ghost predicate WrittenRightly(table: Table, classes: map<string, string>, dynamic: bool, t: TypeRef, v: Val) {
    var r := EncodeVal(BuildEnv(table, classes, dynamic), Build(t, dynamic), v);
    r.Some? ==> Writes(table, t, v, r.value)
  }

  ghost predicate FieldWritten(table: Table, classes: map<string, string>, dynamic: bool, s: Slot, v: Val, f: string) {
    var env, field := BuildEnv(table, classes, dynamic), Field(Build(s.valueType, dynamic), s.optional);
    EncodesField(env, field, v, f) ==> WritesField(table, s, v, f, EncodedField(env, field, v, f))
  }

  // ---------------------------------------------------------------- documents of a type

  predicate IsTagDocument(j: Val) {
    && j.Dict? && j.members.Keys == {Name("_bytes")} && j.members[Name("_bytes")].Str?
    && DecodeTagText(j.members[Name("_bytes")].text).Some?
  }

  predicate InIntRange(name: string, n: int) {
    if name == "int" then IsInt64(n) else IsUint64(n)
  }

  /** A lenient reader takes whole floats for integers too, and whatever `loose` makes of bytes. */
  predicate IsPrimitiveDocument(name: string, j: Val, mode: Mode) {
    if name == "tstr" then j.Str?
    else if name == "bstr" then IsTagDocument(j) || (mode.Lenient? && mode.loose(j).Some?)
    else if name == "int" || name == "uint" then
      || (j.Int? && InIntRange(name, j.n))
      || (mode.Lenient? && j.Float? && j.x.Floor as real == j.x && InIntRange(name, j.x.Floor))
    else if name == "float64" then j.Float? || (j.Int? && IsFloatInt(j.n))
    else if name == "bool" then j.Bool?
    else
      && name == "result" && j.Dict? && j.members.Keys == {Name("success"), Name("value"), Name("error")}
      && j.members[Name("success")].Bool? && (j.members[Name("error")].Null? || j.members[Name("error")].Str?)
  }

  /** `j` is a document of the type; of `any` every document is one. */
  predicate IsDocument(table: Table, t: TypeRef, j: Val, mode: Mode)
    decreases j, 1, t
  {
    Degrades(t) ||
    match t.kind
    case Primitive => IsPrimitiveDocument(t.name, j, mode)
    case Array => j.List? && forall i :: 0 <= i < |j.items| ==> IsDocument(table, t.elements[0], j.items[i], mode)
    case Map => j.Dict? && forall k :: k in j.members ==> IsDocument(table, t.elements[1], j.members[k], mode)
    case Optional => j.Null? || IsDocument(table, ValueType(t), j, mode)
    case Named => t.name in table && j.Dict? && forall f :: f in table[t.name] ==> IsFieldDocument(table, table[t.name][f], j, f, mode)
  }

  predicate IsFieldDocument(table: Table, s: Slot, j: Val, f: string, mode: Mode)
    decreases j, 0
  {
    if Item(j, f).Null? then s.optional || TakesNull(s.valueType) else IsDocument(table, s.valueType, Item(j, f), mode)
  }

  predicate ReadsPrimitive(name: string, j: Val, v: Val, mode: Mode) {
    if name == "bstr" then
      && v.Bytes?
      && (if IsTagDocument(j) then DecodeTagText(j.members[Name("_bytes")].text) == Some(v.bytes)
          else mode.Lenient? && mode.loose(j) == Some(v.bytes))
    else if name == "int" || name == "uint" then v.Int? && (v == j || (j.Float? && j.x == v.n as real))
    else if name == "float64" then (j.Float? && v == j) || (j.Int? && v == Float(j.n as real))
    else if name == "result" then
      && IsPrimitiveDocument(name, j, mode)
      && v == Outcome(j.members[Name("success")], j.members[Name("value")], j.members[Name("error")])
    else v == j
  }

  /** `v` is what the document `j` stands for. */
  ghost predicate Reads(table: Table, classes: map<string, string>, t: TypeRef, j: Val, v: Val, mode: Mode)
    decreases j, 1, t
  {
    if Degrades(t) then v == j
    else
      match t.kind
      case Primitive => ReadsPrimitive(t.name, j, v, mode)
      case Array =>
        && j.List? && v.List? && |v.items| == |j.items|
        && forall i :: 0 <= i < |j.items| ==> Reads(table, classes, t.elements[0], j.items[i], v.items[i], mode)
      case Map =>
        && j.Dict? && v.Dict? && v.members.Keys == j.members.Keys
        && forall k :: k in j.members ==> Reads(table, classes, t.elements[1], j.members[k], v.members[k], mode)
      case Optional => if j.Null? then v.Null? else Reads(table, classes, ValueType(t), j, v, mode)
      case Named =>
        && t.name in table && j.Dict? && IsReadRecord(table[t.name], ClassOf(classes, t.name), j, v)
        && forall f :: f in table[t.name] ==> ReadsField(table, classes, table[t.name][f], j, f, Item(v, f), mode)
  }

  /** An instance with every field, or a dictionary without the empty optional ones. */
  ghost predicate IsReadRecord(fields: map<string, Slot>, cls: Option<string>, j: Val, v: Val) {
    match cls
    case Some(c) => v.Obj? && v.cls == c && v.attrs.Keys == fields.Keys
    case None => v.Dict? && forall k :: k in v.members <==> IsWritten(fields, j, k)
  }

  ghost predicate ReadsField(table: Table, classes: map<string, string>, s: Slot, j: Val, f: string, item: Val, mode: Mode)
    decreases j, 0
  {
    if Item(j, f).Null? then item.Null? else !item.Null? && Reads(table, classes, s.valueType, Item(j, f), item, mode)
  }

  ghost predicate ReadRightly(table: Table, classes: map<string, string>, dynamic: bool, t: TypeRef, j: Val, mode: Mode) {
    var r := DecodeVal(BuildEnv(table, classes, dynamic), Build(t, dynamic), j, mode);
    && (r.Some? <==> IsDocument(table, t, j, mode))
    && (r.Some? ==> Reads(table, classes, t, j, r.value, mode) && (r.value.Null? ==> j.Null?))
  }

  ghost predicate FieldRead(table: Table, classes: map<string, string>, dynamic: bool, s: Slot, j: Val, f: string, mode: Mode) {
    var env, field := BuildEnv(table, classes, dynamic), Field(Build(s.valueType, dynamic), s.optional);
    && (DecodesField(env, field, j, f, mode) <==> IsFieldDocument(table, s, j, f, mode))
    && (DecodesField(env, field, j, f, mode) ==> ReadsField(table, classes, s, j, f, DecodedField(env, field, j, f, mode), mode))
  }
}
