/** When a legitimate result can look like a provider's rejection (`rejection_ambiguous`). */
module Rejection {
  import opened Wrappers
  import opened LidlTypes
  import opened Base64
  import opened Values
  import opened Codecs
  import opened CodecCases
  import opened CodecLaws
  import opened Builder
  import opened Signatures
  import opened Plans

  // What the code answers (`src/logos_bridge/typed/_codecs.py`), and which values of a type really can
  // (`src/logos_bridge/codec.py`, `as_provider_rejection`).

  /** `string_capable`. */
  predicate StringCapable(t: TypeRef) {
    var v := ValueType(t);
    v.kind.Primitive? && (v.name == "tstr" || v.name == "any")
  }

  const REJECTION_FIELDS := {"code", "message", "origin"}

  /** `rejection_ambiguous`. */
  predicate Ambiguous(t: TypeRef, table: Table) {
    var v := ValueType(t);
    match v.kind
    case Primitive => v.name == "any"
    case Map => |v.elements| == 2 && StringCapable(v.elements[1])
    case Named => ExactRecord(v.name, table)
    case _ => false
  }

  predicate ExactRecord(name: string, table: Table) {
    && name in table && table[name].Keys == REJECTION_FIELDS
    && forall f :: f in table[name] ==> StringCapable(table[name][f].ty)
  }

  /** A known type: the right number of elements, known primitives, `tstr` keys, declared records. */
  predicate Known(t: TypeRef, table: Table) {
    && LidlTypes.Arity(t.kind) == Some(|t.elements|)
    && (t.kind.Primitive? ==> t.name in PRIMITIVES)
    && (t.kind.Named? ==> t.name in table)
    && (t.kind.Map? ==> t.elements[0] == Prim("tstr"))
    && forall i :: 0 <= i < |t.elements| ==> Known(t.elements[i], table)
  }

  predicate KnownTable(table: Table) {
    forall r :: r in table ==> forall f :: f in table[r] ==> Known(table[r][f].ty, table) && DerivedConsistent(table[r][f])
  }

  /** Some value of the type is sent as an object that reads as a rejection. */
  ghost predicate CanReject(t: TypeRef, table: Table, classes: map<string, string>, dynamic: bool) {
    exists v: Val :: Rejects(t, table, classes, dynamic, v)
  }

  predicate Rejects(t: TypeRef, table: Table, classes: map<string, string>, dynamic: bool, v: Val) {
    var w := EncodeVal(BuildEnv(table, classes, dynamic), Build(t, dynamic), v);
    w.Some? && IsRejection(w.value)
  }

  /** The record has the three fields, they can be strings, and every other field can be left out. */
  predicate RecordCanReject(fields: map<string, Slot>) {
    && REJECTION_FIELDS <= fields.Keys
    && (forall f :: f in REJECTION_FIELDS ==> f in fields && StringCapable(fields[f].ty))
    && (forall f :: f in fields && f !in REJECTION_FIELDS ==> fields[f].optional)
  }

  /** The exact condition. */
  predicate Possible(t: TypeRef, table: Table) {
    var v := ValueType(t);
    match v.kind
    case Primitive => v.name == "any"
    case Map => |v.elements| == 2 && StringCapable(v.elements[1])
    case Named => v.name in table && RecordCanReject(table[v.name])
    case _ => false
  }

  // ---------------------------------------------------------------- what a type's codec lets through

  /** Strings pass through its codec. */
  predicate TakesText(t: TypeRef)
    decreases t
  {
    Degrades(t) ||
    match t.kind
    case Primitive => t.name == "tstr"
    case Optional => TakesText(ValueType(t))
    case _ => false
  }

  lemma {:induction false} TextPasses(env: Env, t: TypeRef, dynamic: bool, s: string)
    requires TakesText(t)
    ensures EncodeVal(env, Build(t, dynamic), Str(s)) == Some(Str(s))
    decreases t
  {
    DegradesToAny(t, dynamic);
    if !Degrades(t) && t.kind.Optional? {
      TextPasses(env, ValueType(t), dynamic, s);
    }
  }

  lemma {:induction false} TextOnly(env: Env, t: TypeRef, dynamic: bool, v: Val)
    requires EncodeVal(env, Build(t, dynamic), v).Some? && EncodeVal(env, Build(t, dynamic), v).value.Str?
    ensures TakesText(t)
    decreases t
  {
    DegradesToAny(t, dynamic);
    if !Degrades(t) && t.kind.Optional? {
      NotNullEncodes(env, Build(t, dynamic), v);
      TextOnly(env, ValueType(t), dynamic, v);
    }
  }

  /** Null is encoded as null only. */
  lemma {:induction false} NotNullEncodes(env: Env, c: Codec, v: Val)
    requires EncodeVal(env, c, v).Some? && !EncodeVal(env, c, v).value.Null?
    ensures !v.Null?
  {
  }

  const REJECTION: map<Key, Val> :=
    map[Name("code") := Str("invalid_args"), Name("message") := Str(""), Name("origin") := Str("")]

  lemma RejectionIs()
    ensures IsRejection(Dict(REJECTION)) && REJECTION.Keys == {Name("code"), Name("message"), Name("origin")}
    ensures BYTES_KEY !in REJECTION && forall k :: k in REJECTION ==> k.Name? && REJECTION[k].Str?
  {
    assert REJECTION[Name("code")].text in REJECTION_CODES;
  }

  // ---------------------------------------------------------------- possible means possible

  lemma AnyRejects(env: Env)
    ensures EncodeVal(env, AnyCodec, Dict(REJECTION)) == Some(Dict(REJECTION))
  {
    RejectionIs();
    assert EncodeAny(Dict(REJECTION)).value.members == REJECTION;
  }

  lemma MapRejects(env: Env, value: Codec)
    requires forall s :: EncodeVal(env, value, Str(s)) == Some(Str(s))
    ensures EncodeVal(env, MapCodec(value), Dict(REJECTION)) == Some(Dict(REJECTION))
  {
    RejectionIs();
    assert EncodeVal(env, MapCodec(value), Dict(REJECTION)).value.members == REJECTION;
  }

  /** The value that a record of class `cls`, or none, sends as a rejection. */
  function RejectingRecord(def: RecordDef): Val {
    match def.cls
    case Some(cls) => Obj(cls, map f | f in def.fields :: if Name(f) in REJECTION then REJECTION[Name(f)] else Null)
    case None => Dict(REJECTION)
  }

  lemma RejectingItem(def: RecordDef, f: string)
    requires f in def.fields
    ensures Item(RejectingRecord(def), f) == if Name(f) in REJECTION then REJECTION[Name(f)] else Null
  {
  }

  lemma RecordRejects(env: Env, name: string)
    requires name in env && REJECTION_FIELDS <= env[name].fields.Keys
    requires forall f, s :: f in REJECTION_FIELDS && f in env[name].fields ==>
      EncodeVal(env, env[name].fields[f].codec, Str(s)) == Some(Str(s))
    requires forall f :: f in env[name].fields && f !in REJECTION_FIELDS ==> env[name].fields[f].optional
    ensures EncodeVal(env, RecordCodec(name), RejectingRecord(env[name])) == Some(Dict(REJECTION))
  {
    hide EncodeVal, EncodesField, EncodedField, RejectingRecord, Item, IsRecord, Written;
    var def := env[name];
    var v := RejectingRecord(def);
    RejectionIs();
    forall f | f in def.fields
      ensures EncodesField(env, def.fields[f], v, f)
      ensures f in REJECTION_FIELDS ==> EncodedField(env, def.fields[f], v, f) == REJECTION[Name(f)]
      ensures Item(v, f).Null? <==> f !in REJECTION_FIELDS
    {
      RejectingItem(def, f);
      RejectingField(env, def.fields[f], v, f);
    }
    RejectingIsRecord(def);
    WrittenAre(def, v);
    RecordEncodes(env, name, v, REJECTION);
  }

  lemma RejectingField(env: Env, field: Field, v: Val, f: string)
    requires Item(v, f) == if Name(f) in REJECTION then REJECTION[Name(f)] else Null
    requires f in REJECTION_FIELDS ==> forall s :: EncodeVal(env, field.codec, Str(s)) == Some(Str(s))
    requires f !in REJECTION_FIELDS ==> field.optional
    ensures EncodesField(env, field, v, f)
    ensures f in REJECTION_FIELDS ==> Name(f) in REJECTION && EncodedField(env, field, v, f) == REJECTION[Name(f)]
  {
    RejectionIs();
  }

  lemma RejectingIsRecord(def: RecordDef)
    requires REJECTION_FIELDS <= def.fields.Keys
    ensures IsRecord(def, RejectingRecord(def))
  {
    RejectionIs();
    forall k | k in REJECTION
      ensures k in Wires(def)
    {
      assert k.name in REJECTION_FIELDS;
    }
  }

  lemma WrittenAre(def: RecordDef, v: Val)
    requires REJECTION_FIELDS <= def.fields.Keys
    requires forall f :: f in def.fields ==> (Item(v, f).Null? <==> f !in REJECTION_FIELDS)
    requires forall f :: f in def.fields && f !in REJECTION_FIELDS ==> def.fields[f].optional
    ensures Written(def, v) == REJECTION.Keys
  {
    forall k
      ensures k in Written(def, v) <==> k in REJECTION
    {
      if k in REJECTION {
        assert k.name in REJECTION_FIELDS;
      }
    }
  }

  // ---------------------------------------------------------------- and nothing else is

  /** Some value is encoded as a string. */
  ghost predicate MakesStrings(env: Env, c: Codec) {
    exists x: Val :: MakesString(env, c, x)
  }

  predicate MakesString(env: Env, c: Codec, x: Val) {
    var w := EncodeVal(env, c, x); w.Some? && w.value.Str?
  }

  lemma FieldRejects(env: Env, name: string, v: Val, f: string)
    requires EncodeVal(env, RecordCodec(name), v).Some? && IsRejection(EncodeVal(env, RecordCodec(name), v).value)
    requires f in REJECTION_FIELDS
    ensures name in env && f in env[name].fields && MakesStrings(env, env[name].fields[f].codec)
  {
    var def := env[name];
    var w := EncodeVal(env, RecordCodec(name), v).value;
    assert Name(f) in w.members && w.members[Name(f)].Str?;
    assert Name(f) in Written(def, v);
    assert w.members[Name(f)] == EncodedField(env, def.fields[f], v, f);
    assert MakesString(env, def.fields[f].codec, Item(v, f));
  }

  lemma RecordRejectsOnly(env: Env, name: string, v: Val)
    requires EncodeVal(env, RecordCodec(name), v).Some? && IsRejection(EncodeVal(env, RecordCodec(name), v).value)
    ensures name in env && REJECTION_FIELDS <= env[name].fields.Keys
    ensures forall f :: f in env[name].fields && f !in REJECTION_FIELDS ==> env[name].fields[f].optional
    ensures forall f :: f in REJECTION_FIELDS && f in env[name].fields ==> MakesStrings(env, env[name].fields[f].codec)
  {
    var def := env[name];
    var w := EncodeVal(env, RecordCodec(name), v).value;
    assert w.members.Keys == Written(def, v);
    forall f | f in REJECTION_FIELDS
      ensures f in def.fields && MakesStrings(env, def.fields[f].codec)
    {
      FieldRejects(env, name, v, f);
    }
    forall f | f in def.fields && f !in REJECTION_FIELDS
      ensures def.fields[f].optional
    {
      assert Name(f) !in w.members;
    }
  }

  // ---------------------------------------------------------------- every type

  /** The record has the three fields, strings pass through them, and every other field can be left out. */
  predicate RecordSendable(fields: map<string, Slot>) {
    && REJECTION_FIELDS <= fields.Keys
    && (forall f :: f in REJECTION_FIELDS ==> f in fields && TakesText(fields[f].valueType))
    && (forall f :: f in fields && f !in REJECTION_FIELDS ==> fields[f].optional)
  }

  /** The exact condition, for any type in any table. */
  predicate Sendable(t: TypeRef, table: Table)
    decreases t
  {
    Degrades(t) ||
    match t.kind
    case Map => TakesText(t.elements[1])
    case Named => t.name in table && RecordSendable(table[t.name])
    case Optional => Sendable(ValueType(t), table)
    case _ => false
  }

  lemma TextIff(env: Env, t: TypeRef, dynamic: bool)
    ensures MakesStrings(env, Build(t, dynamic)) <==> TakesText(t)
  {
    hide EncodeVal, TakesText;
    if x :| MakesString(env, Build(t, dynamic), x) {
      TextOnly(env, t, dynamic, x);
    }
    if TakesText(t) {
      TextPasses(env, t, dynamic, "");
      assert MakesString(env, Build(t, dynamic), Str(""));
    }
  }

  lemma FieldsMakeStrings(name: string, table: Table, classes: map<string, string>, dynamic: bool)
    requires name in table
    ensures var env := BuildEnv(table, classes, dynamic);
      && name in env && env[name].fields.Keys == table[name].Keys
      && forall f :: f in table[name] ==>
           && env[name].fields[f].optional == table[name][f].optional
           && (MakesStrings(env, env[name].fields[f].codec) <==> TakesText(table[name][f].valueType))
  {
    hide MakesStrings, TakesText;
    var env := BuildEnv(table, classes, dynamic);
    forall f | f in table[name]
      ensures MakesStrings(env, env[name].fields[f].codec) <==> TakesText(table[name][f].valueType)
    {
      TextIff(env, table[name][f].valueType, dynamic);
    }
  }

  lemma RecordRejectsOnlyIf(name: string, table: Table, classes: map<string, string>, dynamic: bool)
    requires name in table && CanReject(Ref(name), table, classes, dynamic)
    ensures RecordSendable(table[name])
  {
    hide EncodeVal, TakesText, MakesStrings, BuildEnv;
    var v :| Rejects(Ref(name), table, classes, dynamic, v);
    FieldsMakeStrings(name, table, classes, dynamic);
    RecordRejectsOnly(BuildEnv(table, classes, dynamic), name, v);
  }

  lemma RecordRejectsIf(name: string, table: Table, classes: map<string, string>, dynamic: bool)
    requires name in table && RecordSendable(table[name])
    ensures CanReject(Ref(name), table, classes, dynamic)
  {
    hide EncodeVal, TakesText, MakesStrings, RejectingRecord;
    var env := BuildEnv(table, classes, dynamic);
    FieldsMakeStrings(name, table, classes, dynamic);
    forall f, s | f in REJECTION_FIELDS && f in env[name].fields
      ensures EncodeVal(env, env[name].fields[f].codec, Str(s)) == Some(Str(s))
    {
      TextPasses(env, table[name][f].valueType, dynamic, s);
    }
    RecordRejects(env, name);
    RejectionIs();
    assert Rejects(Ref(name), table, classes, dynamic, RejectingRecord(env[name]));
  }

  lemma NamedRejectsIff(t: TypeRef, table: Table, classes: map<string, string>, dynamic: bool)
    requires t.kind.Named? && t.elements == []
    ensures CanReject(t, table, classes, dynamic) <==> t.name in table && RecordSendable(table[t.name])
  {
    hide EncodeVal, BuildEnv, RecordSendable, IsRejection;
    assert Build(t, dynamic) == Build(Ref(t.name), dynamic);
    assert CanReject(t, table, classes, dynamic) <==> CanReject(Ref(t.name), table, classes, dynamic) by {
      assert forall x: Val :: Rejects(t, table, classes, dynamic, x) <==> Rejects(Ref(t.name), table, classes, dynamic, x);
    }
    if t.name in table {
      if CanReject(Ref(t.name), table, classes, dynamic) {
        RecordRejectsOnlyIf(t.name, table, classes, dynamic);
      }
      if RecordSendable(table[t.name]) {
        RecordRejectsIf(t.name, table, classes, dynamic);
      }
    } else {
      UndeclaredNeverRejects(t.name, table, classes, dynamic);
    }
  }

  lemma UndeclaredNeverRejects(name: string, table: Table, classes: map<string, string>, dynamic: bool)
    requires name !in table
    ensures !CanReject(Ref(name), table, classes, dynamic)
  {
    forall x: Val
      ensures !Rejects(Ref(name), table, classes, dynamic, x)
    {
    }
  }

  lemma MapRejectsIff(t: TypeRef, table: Table, classes: map<string, string>, dynamic: bool)
    requires t.kind.Map? && !Degrades(t)
    ensures CanReject(t, table, classes, dynamic) <==> TakesText(t.elements[1])
  {
    hide EncodeVal, TakesText, IsRejection;
    var env, value := BuildEnv(table, classes, dynamic), Build(t.elements[1], dynamic);
    if v :| Rejects(t, table, classes, dynamic, v) {
      MapMakesStrings(env, value, v);
      TextIff(env, t.elements[1], dynamic);
    }
    if TakesText(t.elements[1]) {
      forall s
        ensures EncodeVal(env, value, Str(s)) == Some(Str(s))
      {
        TextPasses(env, t.elements[1], dynamic, s);
      }
      MapRejects(env, value);
      RejectionIs();
      assert Rejects(t, table, classes, dynamic, Dict(REJECTION));
    }
  }

  lemma MapMakesStrings(env: Env, value: Codec, v: Val)
    requires EncodeVal(env, MapCodec(value), v).Some? && IsRejection(EncodeVal(env, MapCodec(value), v).value)
    ensures MakesStrings(env, value)
  {
    var w := EncodeVal(env, MapCodec(value), v).value;
    assert Name("code") in w.members;
    assert MakesString(env, value, v.members[Name("code")]);
  }

  lemma AnyRejectsSome(t: TypeRef, table: Table, classes: map<string, string>, dynamic: bool)
    requires Degrades(t)
    ensures CanReject(t, table, classes, dynamic)
  {
    DegradesToAny(t, dynamic);
    AnyRejects(BuildEnv(table, classes, dynamic));
    RejectionIs();
    assert Rejects(t, table, classes, dynamic, Dict(REJECTION));
  }

  lemma ArrayNeverRejects(t: TypeRef, table: Table, classes: map<string, string>, dynamic: bool)
    requires t.kind.Array? && |t.elements| == 1
    ensures !CanReject(t, table, classes, dynamic)
  {
    forall x: Val
      ensures !Rejects(t, table, classes, dynamic, x)
    {
      ListsAreLists(BuildEnv(table, classes, dynamic), Build(t.elements[0], dynamic), x);
    }
  }

  lemma ListsAreLists(env: Env, element: Codec, v: Val)
    ensures var w := EncodeVal(env, ListCodec(element), v); w.Some? ==> w.value.List?
  {
  }

  lemma PrimitiveNeverRejects(t: TypeRef, table: Table, classes: map<string, string>, dynamic: bool)
    requires t.kind.Primitive? && !Degrades(t)
    ensures !CanReject(t, table, classes, dynamic)
  {
    forall x: Val
      ensures !Rejects(t, table, classes, dynamic, x)
    {
      if Rejects(t, table, classes, dynamic, x) {
        ScalarsNeverReject(BuildEnv(table, classes, dynamic), t.name, dynamic, x);
      }
    }
  }

  lemma ScalarsNeverReject(env: Env, name: string, dynamic: bool, v: Val)
    requires name in PRIMITIVES && name != "any" && EncodeVal(env, PrimitiveCodec(name, dynamic), v).Some?
    ensures !IsRejection(EncodeVal(env, PrimitiveCodec(name, dynamic), v).value)
  {
    var w := EncodeVal(env, PrimitiveCodec(name, dynamic), v).value;
    if name == "bstr" {
      assert Name("code") !in w.members;
    } else if name == "result" {
      assert w.members.Keys == RESULT_KEYS;
      assert Name("code") !in RESULT_KEYS;
    }
  }

  /** Optional or not, the same rejections pass. */
  lemma OptionalRejects(env: Env, c: Codec, v: Val)
    ensures var w, u := EncodeVal(env, c, v), EncodeVal(env, OptionalCodec(c), v);
      w.Some? && IsRejection(w.value) <==> u.Some? && IsRejection(u.value)
  {
    if v.Null? && EncodeVal(env, c, v).Some? && IsRejection(EncodeVal(env, c, v).value) {
      NotNullEncodes(env, c, v);
    }
  }

  /** Some value of the type is sent as a rejection exactly when its codec is `any`, a map through whose
      values strings pass, or a record with the three fields as possible strings whose other fields can
      all be left out. */
  lemma {:induction false} RejectsIffSendable(t: TypeRef, table: Table, classes: map<string, string>, dynamic: bool)
    ensures CanReject(t, table, classes, dynamic) <==> Sendable(t, table)
    decreases t
  {
    hide CanReject, EncodeVal, BuildEnv, RecordSendable, TakesText;
    if Degrades(t) {
      AnyRejectsSome(t, table, classes, dynamic);
    } else {
      match t.kind
      case Primitive => PrimitiveNeverRejects(t, table, classes, dynamic);
      case Named => NamedRejectsIff(t, table, classes, dynamic);
      case Map => MapRejectsIff(t, table, classes, dynamic);
      case Array => ArrayNeverRejects(t, table, classes, dynamic);
      case Optional =>
        SameAsValueType(t, table, classes, dynamic);
        RejectsIffSendable(ValueType(t), table, classes, dynamic);
    }
  }

  lemma SameAsValueType(t: TypeRef, table: Table, classes: map<string, string>, dynamic: bool)
    requires t.kind.Optional? && |t.elements| == 1
    ensures CanReject(t, table, classes, dynamic) <==> CanReject(ValueType(t), table, classes, dynamic)
  {
    hide EncodeVal, BuildEnv, IsRejection;
    var inner := Build(ValueType(t), dynamic);
    assert Build(t, dynamic) == if AcceptsNull(inner) then inner else OptionalCodec(inner);
    forall v: Val
      ensures Rejects(t, table, classes, dynamic, v) <==> Rejects(ValueType(t), table, classes, dynamic, v)
    {
      OptionalRejects(BuildEnv(table, classes, dynamic), inner, v);
    }
  }

  // ---------------------------------------------------------------- the code's answer

  /** Some value of the slot, a method's return, is sent as an object that reads as a rejection. */
  ghost predicate CanSend(s: Slot, table: Table, classes: map<string, string>, dynamic: bool) {
    exists v: Val :: Sends(s, table, classes, dynamic, v)
  }

  predicate Sends(s: Slot, table: Table, classes: map<string, string>, dynamic: bool, v: Val) {
    var w := EncodeVal(BuildEnv(table, classes, dynamic), SlotCodec(s.optional, s.valueType, dynamic), v);
    w.Some? && IsRejection(w.value)
  }

  lemma SendsIffSendable(s: Slot, table: Table, classes: map<string, string>, dynamic: bool)
    ensures CanSend(s, table, classes, dynamic) <==> Sendable(s.valueType, table)
  {
    hide EncodeVal, BuildEnv, IsRejection, Sendable;
    RejectsIffSendable(s.valueType, table, classes, dynamic);
    forall v: Val
      ensures Sends(s, table, classes, dynamic, v) <==> Rejects(s.valueType, table, classes, dynamic, v)
    {
      OptionalRejects(BuildEnv(table, classes, dynamic), Build(s.valueType, dynamic), v);
    }
  }

  /** What `rejection_ambiguous` overlooks: a type that its codec takes for `any` and that is not spelled
      like an ambiguous one, a map with such values, a record with further optional fields or fields of
      such types. */
  predicate Overlooked(t: TypeRef, table: Table) {
    var v := ValueType(t);
    if Degrades(v) then
      match v.kind
      case Primitive => v.name != "any"
      case Map => !(|v.elements| == 2 && StringCapable(v.elements[1]))
      case Named => !ExactRecord(v.name, table)
      case _ => true
    else
      match v.kind
      case Map => Degrades(v.elements[1]) && !StringCapable(v.elements[1])
      case Named => v.name in table && RecordSendable(table[v.name]) && !ExactRecord(v.name, table)
      case _ => false
  }

  /** As the properties of a slot are computed. */
  predicate ConsistentTable(table: Table) {
    forall r :: r in table ==> forall f :: f in table[r] ==> DerivedConsistent(table[r][f])
  }

  lemma {:induction false} CapableTakesText(t: TypeRef)
    ensures StringCapable(t) ==> TakesText(t) && TakesText(ValueType(t))
    ensures TakesText(t) && !StringCapable(t) ==> Degrades(t)
  {
    ValueTypeTwice(t);
    var v := ValueType(t);
    assert TakesText(v) ==> Degrades(v) || StringCapable(v);
  }

  lemma {:induction false} ValueTypeTwice(t: TypeRef)
    ensures ValueType(ValueType(t)) == ValueType(t)
    decreases t
  {
    if t.kind.Optional? && t.elements != [] {
      ValueTypeTwice(t.elements[0]);
    }
  }

  lemma ExactIsSendable(name: string, table: Table)
    requires ConsistentTable(table) && ExactRecord(name, table)
    ensures RecordSendable(table[name])
  {
    forall f | f in table[name]
      ensures TakesText(table[name][f].valueType)
    {
      CapableTakesText(table[name][f].ty);
    }
  }

  lemma SendableIff(t: TypeRef, table: Table)
    requires ConsistentTable(table)
    ensures Sendable(ValueType(t), table) <==> Ambiguous(t, table) || Overlooked(t, table)
    ensures !(Ambiguous(t, table) && Overlooked(t, table))
  {
    hide ConsistentTable, ExactRecord, StringCapable, TakesText, RecordSendable;
    var v := ValueType(t);
    if v.kind.Map? && |v.elements| == 2 {
      CapableTakesText(v.elements[1]);
      DegradesTakes(v.elements[1]);
    }
    if v.kind.Named? && ExactRecord(v.name, table) {
      ExactIsSendable(v.name, table);
      ExactIsDeclared(v.name, table);
    }
  }

  lemma DegradesTakes(t: TypeRef)
    ensures Degrades(t) ==> TakesText(t)
  {
  }

  lemma ExactIsDeclared(name: string, table: Table)
    requires ExactRecord(name, table)
    ensures name in table
  {
  }

  /** The code never says that a safe return is ambiguous, and for every return whatever it is right
      exactly when the type is not overlooked. */
  lemma AmbiguousIsRightExactly(s: Slot, table: Table, classes: map<string, string>, dynamic: bool)
    requires DerivedConsistent(s) && ConsistentTable(table)
    ensures (Ambiguous(s.ty, table) <==> CanSend(s, table, classes, dynamic)) <==> !Overlooked(s.ty, table)
    ensures Ambiguous(s.ty, table) ==> CanSend(s, table, classes, dynamic)
  {
    hide CanSend, Sendable, Ambiguous, Overlooked, ConsistentTable;
    SendsIffSendable(s, table, classes, dynamic);
    SendableIff(s.ty, table);
  }

  /** A kind that the reader does not know is said to be safe, and can be sent as a rejection. */
  lemma UnknownKindMisleads(kind: string, table: Table, classes: map<string, string>, dynamic: bool)
    requires ConsistentTable(table)
    ensures var s := MakeSlot("", TypeRef(Unknown(kind), "", []));
      !Ambiguous(s.ty, table) && CanSend(s, table, classes, dynamic)
  {
    hide CanSend;
    AmbiguousIsRightExactly(MakeSlot("", TypeRef(Unknown(kind), "", [])), table, classes, dynamic);
  }

  // ---------------------------------------------------------------- known types

  lemma {:induction false} ValueTypeKnown(t: TypeRef, table: Table)
    requires Known(t, table)
    ensures Known(ValueType(t), table) && !ValueType(t).kind.Optional?
  {
    if t.kind.Optional? {
      ValueTypeKnown(t.elements[0], table);
    }
  }

  lemma KnownDegrades(t: TypeRef, table: Table)
    requires Known(t, table)
    ensures Degrades(t) <==> IsAny(ValueType(t))
    ensures TakesText(t) <==> StringCapable(t)
  {
    ValueTypeKnown(t, table);
  }

  lemma KnownRecord(name: string, table: Table)
    requires KnownTable(table) && name in table
    ensures RecordSendable(table[name]) <==> RecordCanReject(table[name])
  {
    hide StringCapable, TakesText;
    forall f | f in table[name]
      ensures TakesText(table[name][f].valueType) <==> StringCapable(table[name][f].ty)
    {
      KnownField(table[name][f], table);
    }
  }

  lemma KnownField(s: Slot, table: Table)
    requires Known(s.ty, table) && DerivedConsistent(s)
    ensures TakesText(s.valueType) <==> StringCapable(s.ty)
  {
    ValueTypeKnown(s.ty, table);
    KnownDegrades(s.valueType, table);
    ValueTypeTwice(s.ty);
  }

  /** Of a known type, some value is sent as a rejection exactly when the type is `any`, a map of
      possible strings, or a record with the three fields as possible strings whose other fields can
      all be left out. */
  lemma RejectsIffPossible(t: TypeRef, table: Table, classes: map<string, string>, dynamic: bool)
    requires Known(t, table) && KnownTable(table)
    ensures CanReject(t, table, classes, dynamic) <==> Possible(t, table)
  {
    hide CanReject, RecordCanReject, RecordSendable, StringCapable, TakesText, KnownTable;
    var v := ValueType(t);
    RejectsIffSendable(t, table, classes, dynamic);
    ValueTypeKnown(t, table);
    KnownDegrades(t, table);
    KnownDegrades(v, table);
    ValueTypeTwice(t);
    if v.kind.Map? {
      KnownDegrades(v.elements[1], table);
    } else if v.kind.Named? {
      KnownRecord(v.name, table);
    }
  }

  /** A record that can be sent as a rejection and has more fields than the three. */
  predicate HasExtras(t: TypeRef, table: Table) {
    var v := ValueType(t);
    v.kind.Named? && v.name in table && RecordCanReject(table[v.name]) && table[v.name].Keys != REJECTION_FIELDS
  }

  /** The code's answer is right for every type but such a record, which it takes to be safe. */
  lemma AmbiguousIsRightUnlessExtras(t: TypeRef, table: Table, classes: map<string, string>, dynamic: bool)
    requires Known(t, table) && KnownTable(table)
    ensures (Ambiguous(t, table) <==> CanReject(t, table, classes, dynamic)) <==> !HasExtras(t, table)
    ensures Ambiguous(t, table) ==> CanReject(t, table, classes, dynamic)
  {
    RejectsIffPossible(t, table, classes, dynamic);
  }

  /** A record whose other field can be left out. */
  const EXTRA: Table := map["E" := map[
    "code" := MakeSlot("code", Prim("tstr")), "message" := MakeSlot("message", Prim("tstr")),
    "origin" := MakeSlot("origin", Prim("tstr")), "detail" := MakeSlot("detail", OptionalOf(Prim("tstr")))]]

  /** It is said to be safe, and one of its values is sent as a rejection. */
  lemma ExtraFieldMisleads(classes: map<string, string>, dynamic: bool)
    ensures Known(Ref("E"), EXTRA) && KnownTable(EXTRA)
    ensures !Ambiguous(Ref("E"), EXTRA) && CanReject(Ref("E"), EXTRA, classes, dynamic)
  {
    hide CanReject, StringCapable;
    ExtraIsKnown();
    ExtraFields();
    RejectsIffPossible(Ref("E"), EXTRA, classes, dynamic);
  }

  lemma ExtraIsKnown()
    ensures KnownTable(EXTRA) && Known(Ref("E"), EXTRA)
  {
  }

  lemma ExtraFields()
    ensures EXTRA["E"].Keys == REJECTION_FIELDS + {"detail"} && EXTRA["E"].Keys != REJECTION_FIELDS
    ensures RecordCanReject(EXTRA["E"])
  {
    assert EXTRA["E"].Keys == REJECTION_FIELDS + {"detail"};
    assert "detail" in EXTRA["E"] && "detail" !in REJECTION_FIELDS;
  }
}
