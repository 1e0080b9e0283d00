/** Typed codecs over possibly recursive records (`src/logos_bridge/typed/_codecs.py`). A refusal
(`CodecError`) is `None`. Attribute names are the wire names. */
module Codecs {
  import opened Wrappers
  import opened Base64
  import opened Values

  datatype Codec =
    | StrCodec
    | BytesCodec
    | IntCodec(unsigned: bool)
    | FloatCodec
    | BoolCodec
    | AnyCodec
    | OptionalCodec(inner: Codec)
    | ListCodec(element: Codec)
    | MapCodec(value: Codec)
    | RecordCodec(record: string)
    | ResultCodec(dynamic: bool)

  datatype Field = Field(codec: Codec, optional: bool)

  /** A record decodes to an instance of `cls`, or to a dictionary without one. */
  datatype RecordDef = RecordDef(cls: Option<string>, fields: map<string, Field>)

  type Env = map<string, RecordDef>

  predicate AcceptsNull(c: Codec) {
    c.AnyCodec? || c.OptionalCodec?
  }

  // ---------------------------------------------------------------- numbers

  const INT64_MIN: int := -0x8000_0000_0000_0000
  const INT64_MAX: int := 0x7fff_ffff_ffff_ffff
  const UINT64_MAX: int := 0xffff_ffff_ffff_ffff

  predicate InRange(unsigned: bool, n: int) {
    if unsigned then 0 <= n <= UINT64_MAX else INT64_MIN <= n <= INT64_MAX
  }

  function Power(b: nat, e: nat): nat {
    if e == 0 then 1 else b * Power(b, e - 1)
  }

  /** An integer that becomes a finite double; its rounding is not part of this model. */
  predicate FitsFloat(n: int) {
    var limit := Power(2, 970) * (Power(2, 54) - 1);
    -limit < n < limit
  }

  function ToFloat(v: Val): Option<Val> {
    match v
    case Int(n) => if FitsFloat(n) then Some(Float(n as real)) else None
    case Float(_) => Some(v)
    case _ => None
  }

  // ---------------------------------------------------------------- any

  /** `encode_json_value`. */
  function EncodeAny(v: Val): Option<Val> {
    match v
    case Null => Some(v)
    case Bool(_) => Some(v)
    case Str(_) => Some(v)
    case Int(n) => if INT64_MIN <= n <= UINT64_MAX then Some(v) else None
    case Float(_) => Some(v)
    case Bytes(bytes) => Some(Tag(Encode(bytes)))
    case Dict(members) =>
      if BYTES_KEY in members then EncodeTagged(members)
      else if forall k :: k in members ==> k.Name? && EncodeAny(members[k]).Some?
      then Some(Dict(map k | k in members :: EncodeAny(members[k]).value)) else None
    case List(items) =>
      if forall i :: 0 <= i < |items| ==> EncodeAny(items[i]).Some?
      then Some(List(seq(|items|, i requires 0 <= i < |items| => EncodeAny(items[i]).value))) else None
    case Tuple(items) =>
      if forall i :: 0 <= i < |items| ==> EncodeAny(items[i]).Some?
      then Some(List(seq(|items|, i requires 0 <= i < |items| => EncodeAny(items[i]).value))) else None
    case _ => None
  }

  // ---------------------------------------------------------------- LogosResult

  const RESULT_KEYS := {Name("success"), Name("value"), Name("error")}

  predicate IsResult(members: map<Key, Val>) {
    && members.Keys == RESULT_KEYS && members[Name("success")].Bool?
    && (members[Name("error")].Null? || members[Name("error")].Str?)
  }

  function ResultMembers(success: Val, value: Val, error: Val): map<Key, Val> {
    map[Name("success") := success, Name("value") := value, Name("error") := error]
  }

  function EncodeMembers(members: map<Key, Val>): Option<Val> {
    if !IsResult(members) then None
    else
      var value := EncodeAny(members[Name("value")]);
      if value.None? then None
      else Some(Dict(ResultMembers(members[Name("success")], value.value, members[Name("error")])))
  }

  function EncodeResult(v: Val, dynamic: bool): Option<Val> {
    match v
    case Outcome(success, value, error) => EncodeMembers(ResultMembers(success, value, error))
    case Dict(members) => if dynamic then EncodeMembers(members) else None
    case _ => None
  }

  // ---------------------------------------------------------------- records

  function Wires(def: RecordDef): set<Key> {
    set w | w in def.fields :: Name(w)
  }

  /** `v` is an instance of the record's class, or a dictionary with no other keys. */
  predicate IsRecord(def: RecordDef, v: Val) {
    match def.cls
    case Some(cls) => v.Obj? && v.cls == cls && v.attrs.Keys == def.fields.Keys
    case None => v.Dict? && v.members.Keys <= Wires(def)
  }

  /** The value of a field; a missing one is null. */
  function Item(v: Val, w: string): (item: Val)
    ensures item == Null || item < v
  {
    match v
    case Obj(_, attrs) => if w in attrs then attrs[w] else Null
    case Dict(members) => if Name(w) in members then members[Name(w)] else Null
    case _ => Null
  }

  /** The keys written for `v`: a field that is optional and empty is left out. */
  function Written(def: RecordDef, v: Val): set<Key> {
    set w | w in def.fields && !(Item(v, w).Null? && def.fields[w].optional) :: Name(w)
  }

  // ---------------------------------------------------------------- encoding

  function EncodeVal(env: Env, c: Codec, v: Val): Option<Val>
    decreases v, 2, c
  {
    match c
    case StrCodec => if v.Str? then Some(v) else None
    case BytesCodec => if v.Bytes? then Some(Tag(Encode(v.bytes))) else None
    case IntCodec(unsigned) => if v.Int? && InRange(unsigned, v.n) then Some(v) else None
    case FloatCodec => ToFloat(v)
    case BoolCodec => if v.Bool? then Some(v) else None
    case AnyCodec => EncodeAny(v)
    case OptionalCodec(inner) => if v.Null? then Some(Null) else EncodeVal(env, inner, v)
    case ListCodec(element) =>
      if v.List? then EncodeItems(env, element, v, v.items)
      else if v.Tuple? then EncodeItems(env, element, v, v.elements) else None
    case MapCodec(value) =>
      if v.Dict? && forall k :: k in v.members ==> k.Name? && EncodeVal(env, value, v.members[k]).Some?
      then Some(Dict(map k | k in v.members :: EncodeVal(env, value, v.members[k]).value)) else None
    case RecordCodec(name) =>
      if name in env && IsRecord(env[name], v) && forall w :: w in env[name].fields ==> EncodesField(env, env[name].fields[w], v, w)
      then Some(Dict(map k | k in Written(env[name], v) :: EncodedField(env, env[name].fields[k.name], v, k.name))) else None
    case ResultCodec(dynamic) => EncodeResult(v, dynamic)
  }

  function EncodeItems(env: Env, element: Codec, v: Val, items: seq<Val>): Option<Val>
    requires forall i :: 0 <= i < |items| ==> items[i] < v
    decreases v, 0
  {
    if forall i :: 0 <= i < |items| ==> EncodeVal(env, element, items[i]).Some?
    then Some(List(seq(|items|, i requires 0 <= i < |items| => EncodeVal(env, element, items[i]).value))) else None
  }

  predicate EncodesField(env: Env, f: Field, v: Val, w: string)
    decreases v, 0
  {
    var item := Item(v, w);
    if item.Null? then f.optional || AcceptsNull(f.codec) else EncodeVal(env, f.codec, item).Some?
  }

  /** What a field that is written holds; `any` and optional slots write null as it is. */
  function EncodedField(env: Env, f: Field, v: Val, w: string): Val
    requires EncodesField(env, f, v, w)
    decreases v, 1
  {
    var item := Item(v, w);
    if item.Null? then Null else EncodeVal(env, f.codec, item).value
  }

  // ---------------------------------------------------------------- decoding

  /** `Lenient` is `lenient=True`; what a C++ provider makes of a value that is not a well-formed tag,
      where bytes are expected, is a parameter. */
  datatype Mode = Strict | Lenient(loose: Val -> Option<seq<Byte>>)

  function DecodeBytes(j: Val, mode: Mode): Option<Val> {
    var strict := if IsTag(j) then DecodeTagText(TagText(j)) else None;
    if strict.Some? then Some(Bytes(strict.value))
    else
      match mode
      case Strict => None
      case Lenient(loose) => var r := loose(j); if r.Some? then Some(Bytes(r.value)) else None
  }

  function DecodeInt(unsigned: bool, j: Val, mode: Mode): Option<Val> {
    match j
    case Int(n) => if InRange(unsigned, n) then Some(j) else None
    case Float(x) =>
      if mode.Lenient? && x.Floor as real == x && InRange(unsigned, x.Floor) then Some(Int(x.Floor)) else None
    case _ => None
  }

  function DecodeResult(j: Val): Option<Val> {
    if j.Dict? && IsResult(j.members)
    then Some(Outcome(j.members[Name("success")], j.members[Name("value")], j.members[Name("error")])) else None
  }

  function DecodeVal(env: Env, c: Codec, j: Val, mode: Mode): Option<Val>
    decreases j, 2, c
  {
    match c
    case StrCodec => if j.Str? then Some(j) else None
    case BytesCodec => DecodeBytes(j, mode)
    case IntCodec(unsigned) => DecodeInt(unsigned, j, mode)
    case FloatCodec => ToFloat(j)
    case BoolCodec => if j.Bool? then Some(j) else None
    case AnyCodec => Some(j)
    case OptionalCodec(inner) => if j.Null? then Some(Null) else DecodeVal(env, inner, j, mode)
    case ListCodec(element) =>
      if j.List? && forall i :: 0 <= i < |j.items| ==> DecodeVal(env, element, j.items[i], mode).Some?
      then Some(List(seq(|j.items|, i requires 0 <= i < |j.items| => DecodeVal(env, element, j.items[i], mode).value))) else None
    case MapCodec(value) =>
      if j.Dict? && forall k :: k in j.members ==> DecodeVal(env, value, j.members[k], mode).Some?
      then Some(Dict(map k | k in j.members :: DecodeVal(env, value, j.members[k], mode).value)) else None
    case RecordCodec(name) =>
      if name in env && j.Dict? && forall w :: w in env[name].fields ==> DecodesField(env, env[name].fields[w], j, w, mode)
      then Some(Assemble(env[name], map w | w in env[name].fields :: DecodedField(env, env[name].fields[w], j, w, mode))) else None
    case ResultCodec(_) => DecodeResult(j)
  }

  predicate DecodesField(env: Env, f: Field, j: Val, w: string, mode: Mode)
    decreases j, 0
  {
    var item := Item(j, w);
    if item.Null? then f.optional || AcceptsNull(f.codec) else DecodeVal(env, f.codec, item, mode).Some?
  }

  function DecodedField(env: Env, f: Field, j: Val, w: string, mode: Mode): Val
    requires DecodesField(env, f, j, w, mode)
    decreases j, 1
  {
    var item := Item(j, w);
    if item.Null? then Null else DecodeVal(env, f.codec, item, mode).value
  }

  /** An instance with every field, or a dictionary without the empty optional ones. */
  function Assemble(def: RecordDef, values: map<string, Val>): Val
    requires values.Keys == def.fields.Keys
  {
    match def.cls
    case Some(cls) => Obj(cls, values)
    case None =>
      Dict(map k | k in (set w | w in def.fields && !(values[w].Null? && def.fields[w].optional) :: Name(w)) :: values[k.name])
  }
}
