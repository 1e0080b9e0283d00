/** Codecs for the types of a contract (`src/logos_bridge/typed/_codecs.py`, `CodecBuilder`). A type
that the reader cannot map becomes `any`, per type node. */
module Builder {
  import opened Wrappers
  import opened LidlTypes
  import opened Codecs
  import opened Signatures

  function PrimitiveCodec(name: string, dynamic: bool): Codec {
    if name == "result" then ResultCodec(dynamic)
    else if name == "tstr" then StrCodec
    else if name == "bstr" then BytesCodec
    else if name == "int" then IntCodec(false)
    else if name == "uint" then IntCodec(true)
    else if name == "float64" then FloatCodec
    else if name == "bool" then BoolCodec
    else AnyCodec
  }

  function Build(t: TypeRef, dynamic: bool): Codec {
    if Arity(t.kind) != Some(|t.elements|) then
      AnyCodec
    else
      match t.kind
      case Primitive => PrimitiveCodec(t.name, dynamic)
      case Named => RecordCodec(t.name)
      case Array => ListCodec(Build(t.elements[0], dynamic))
      case Map =>
        var key := t.elements[0];
        if key.kind.Primitive? && key.name == "tstr" then MapCodec(Build(t.elements[1], dynamic)) else AnyCodec
      case Optional =>
        var inner := Build(ValueType(t), dynamic);
        if AcceptsNull(inner) then inner else OptionalCodec(inner)
  }

  /** The builder takes it for `any`: a kind, a primitive or a map key that it does not know, or another
      number of elements. */
  predicate Degrades(t: TypeRef)
    decreases t
  {
    LidlTypes.Arity(t.kind) != Some(|t.elements|) ||
    match t.kind
    case Primitive => t.name == "any" || t.name !in PRIMITIVES
    case Map => !(t.elements[0].kind.Primitive? && t.elements[0].name == "tstr")
    case Optional => Degrades(ValueType(t))
    case _ => false
  }

  lemma {:induction false} DegradesToAny(t: TypeRef, dynamic: bool)
    ensures Degrades(t) <==> Build(t, dynamic).AnyCodec?
    decreases t
  {
    if LidlTypes.Arity(t.kind) == Some(|t.elements|) && t.kind.Optional? {
      DegradesToAny(ValueType(t), dynamic);
    }
  }

  /** A positional slot: a parameter, a return, an event parameter. */
  function SlotCodec(optional: bool, valueType: TypeRef, dynamic: bool): (c: Codec)
    ensures optional ==> AcceptsNull(c)
  {
    var c := Build(valueType, dynamic);
    if optional && !AcceptsNull(c) then OptionalCodec(c) else c
  }

  function BuildFields(fields: map<string, Slot>, dynamic: bool): map<string, Field> {
    map f | f in fields :: Field(Build(fields[f].valueType, dynamic), fields[f].optional)
  }

  /** Every record of the contract; `classes` gives the generated classes. */
  function BuildEnv(table: Table, classes: map<string, string>, dynamic: bool): Env {
    map r | r in table ::
      RecordDef(if r in classes then Some(classes[r]) else None, BuildFields(table[r], dynamic))
  }
}
