/** What the codec of each kind of type does, told from the type (`src/logos_bridge/typed/_codecs.py`, the classes
of codecs).

Each lemma treats one kind: a primitive with its range, an array, a map, an optional, a record or a type that is taken
for `any`. It has what is claimed of the parts as its requirement, so that the main lemmas can go by recursion. */
module TypeCases {
  import opened Wrappers
  import opened LidlTypes
  import opened Base64
  import opened Values
  import opened Codecs
  import opened CodecCases
  import opened Builder
  import opened Signatures
  import opened TypeMeaning

  // ---------------------------------------------------------------- values of a type

  lemma {:induction false} NullTaken(t: TypeRef, dynamic: bool)
    ensures AcceptsNull(Build(t, dynamic)) <==> TakesNull(t)
  {
    DegradesToAny(t, dynamic);
  }

  lemma PrimitiveExactly(name: string, env: Env, dynamic: bool, v: Val)
    requires name in PRIMITIVES && name != "any"
    ensures EncodeVal(env, PrimitiveCodec(name, dynamic), v).Some? <==> HasPrimitive(name, dynamic, v)
  {
    hide FitsFloat, IsFloatInt, Encode;
    if name == "float64" && v.Int? {
      FloatRange(v.n);
    } else if name == "result" {
      ResultExactly(v, dynamic);
    }
  }

  lemma ResultExactly(v: Val, dynamic: bool)
    ensures EncodeResult(v, dynamic).Some? <==> IsOutcome(v, dynamic)
  {
    if v.Outcome? {
      AnyExactly(v.value);
    } else if v.Dict? && Name("value") in v.members {
      AnyExactly(v.members[Name("value")]);
    }
  }

  lemma DegradedExactly(table: Table, classes: map<string, string>, dynamic: bool, t: TypeRef, v: Val)
    requires Degrades(t)
    ensures Exactly(table, classes, dynamic, t, v)
  {
    hide BuildEnv;
    DegradesToAny(t, dynamic);
    AnyExactly(v);
  }

  lemma PrimitiveTypeExactly(table: Table, classes: map<string, string>, dynamic: bool, t: TypeRef, v: Val)
    requires !Degrades(t) && t.kind.Primitive?
    ensures Exactly(table, classes, dynamic, t, v)
  {
    hide BuildEnv, PrimitiveCodec, HasPrimitive;
    PrimitiveExactly(t.name, BuildEnv(table, classes, dynamic), dynamic, v);
  }

  lemma ArrayExactly(table: Table, classes: map<string, string>, dynamic: bool, t: TypeRef, v: Val)
    requires !Degrades(t) && t.kind.Array?
    requires forall x :: x in Elements(v) ==> Exactly(table, classes, dynamic, t.elements[0], x)
    ensures Exactly(table, classes, dynamic, t, v)
  {
    hide BuildEnv;
    if v.List? {
      ItemsExactly(table, classes, dynamic, t.elements[0], v, v.items);
    } else if v.Tuple? {
      ItemsExactly(table, classes, dynamic, t.elements[0], v, v.elements);
    }
  }

  lemma ItemsExactly(table: Table, classes: map<string, string>, dynamic: bool, element: TypeRef, v: Val, items: seq<Val>)
    requires forall i :: 0 <= i < |items| ==> items[i] < v && Exactly(table, classes, dynamic, element, items[i])
    ensures EncodeItems(BuildEnv(table, classes, dynamic), Build(element, dynamic), v, items).Some?
      <==> forall i :: 0 <= i < |items| ==> HasType(table, classes, dynamic, element, items[i])
  {
    hide BuildEnv, HasType, Build, EncodeVal, EncodeItems;
    ItemsSome(BuildEnv(table, classes, dynamic), Build(element, dynamic), v, items);
  }

  lemma ItemsSome(env: Env, element: Codec, v: Val, items: seq<Val>)
    requires forall i :: 0 <= i < |items| ==> items[i] < v
    ensures EncodeItems(env, element, v, items).Some? <==> forall i :: 0 <= i < |items| ==> EncodeVal(env, element, items[i]).Some?
  {
    hide EncodeVal;
  }

  lemma MapExactly(table: Table, classes: map<string, string>, dynamic: bool, t: TypeRef, v: Val)
    requires !Degrades(t) && t.kind.Map?
    requires v.Dict? ==> forall k :: k in v.members ==> Exactly(table, classes, dynamic, t.elements[1], v.members[k])
    ensures Exactly(table, classes, dynamic, t, v)
  {
    hide BuildEnv;
  }

  lemma OptionalExactly(table: Table, classes: map<string, string>, dynamic: bool, t: TypeRef, v: Val)
    requires !Degrades(t) && t.kind.Optional?
    requires EncodeVal(BuildEnv(table, classes, dynamic), Build(ValueType(t), dynamic), v).Some?
      <==> HasType(table, classes, dynamic, ValueType(t), v)
    ensures EncodeVal(BuildEnv(table, classes, dynamic), Build(t, dynamic), v).Some? <==> HasType(table, classes, dynamic, t, v)
  {
    NullTaken(ValueType(t), dynamic);
  }

  lemma RecordExactly(table: Table, classes: map<string, string>, dynamic: bool, t: TypeRef, v: Val)
    requires !Degrades(t) && t.kind.Named?
    requires t.name in table ==> forall w :: w in table[t.name] ==>
      (EncodesField(BuildEnv(table, classes, dynamic), BuiltField(table, t.name, w, dynamic), v, w)
       <==> HasField(table, classes, dynamic, table[t.name][w], v, w))
    ensures EncodeVal(BuildEnv(table, classes, dynamic), Build(t, dynamic), v).Some? <==> HasType(table, classes, dynamic, t, v)
  {
    hide EncodesField, HasField, BuildEnv, IsRecord, IsInstance;
    var env := BuildEnv(table, classes, dynamic);
    EnvIs(table, classes, dynamic, t.name);
    if t.name in table {
      InstanceIs(table, classes, dynamic, t.name, v);
    }
  }

  lemma EnvIs(table: Table, classes: map<string, string>, dynamic: bool, record: string)
    ensures var env := BuildEnv(table, classes, dynamic);
      && (record in env <==> record in table)
      && (record in table ==>
            && env[record].fields.Keys == table[record].Keys && env[record].cls == ClassOf(classes, record)
            && forall w :: w in table[record] ==> env[record].fields[w] == BuiltField(table, record, w, dynamic))
  {
  }

  lemma InstanceIs(table: Table, classes: map<string, string>, dynamic: bool, record: string, v: Val)
    requires record in table
    ensures IsRecord(BuildEnv(table, classes, dynamic)[record], v) <==> IsInstance(table[record], ClassOf(classes, record), v)
  {
    hide BuildEnv;
    EnvIs(table, classes, dynamic, record);
    if v.Dict? {
      forall k
        ensures k in Wires(BuildEnv(table, classes, dynamic)[record]) <==> k.Name? && k.name in table[record]
      {
      }
    }
  }

  // ---------------------------------------------------------------- what a value is written as

  lemma DegradedRightly(table: Table, classes: map<string, string>, dynamic: bool, t: TypeRef, v: Val)
    requires Degrades(t)
    ensures WrittenRightly(table, classes, dynamic, t, v)
  {
    hide BuildEnv;
    DegradesToAny(t, dynamic);
    AnyExactly(v);
  }

  lemma PrimitiveRightly(table: Table, classes: map<string, string>, dynamic: bool, t: TypeRef, v: Val)
    requires !Degrades(t) && t.kind.Primitive?
    ensures WrittenRightly(table, classes, dynamic, t, v)
  {
    hide BuildEnv, WritesOutcome, EncodeResult, Encode, FitsFloat;
    if t.name == "result" {
      ResultRightly(v, dynamic);
    }
  }

  lemma ResultRightly(v: Val, dynamic: bool)
    ensures EncodeResult(v, dynamic).Some? ==> WritesOutcome(v, EncodeResult(v, dynamic).value)
  {
    hide EncodeAny, WritesAny;
    if v.Outcome? {
      AnyExactly(v.value);
    } else if v.Dict? && Name("value") in v.members {
      AnyExactly(v.members[Name("value")]);
    }
  }

  lemma ArrayRightly(table: Table, classes: map<string, string>, dynamic: bool, t: TypeRef, v: Val)
    requires !Degrades(t) && t.kind.Array?
    requires forall x :: x in Elements(v) ==> WrittenRightly(table, classes, dynamic, t.elements[0], x)
    ensures WrittenRightly(table, classes, dynamic, t, v)
  {
    hide BuildEnv;
    if v.List? {
      ItemsRightly(table, classes, dynamic, t.elements[0], v, v.items);
    } else if v.Tuple? {
      ItemsRightly(table, classes, dynamic, t.elements[0], v, v.elements);
    }
  }

  lemma ItemsRightly(table: Table, classes: map<string, string>, dynamic: bool, element: TypeRef, v: Val, items: seq<Val>)
    requires forall i :: 0 <= i < |items| ==> items[i] < v && WrittenRightly(table, classes, dynamic, element, items[i])
    ensures var r := EncodeItems(BuildEnv(table, classes, dynamic), Build(element, dynamic), v, items);
      r.Some? ==>
        && r.value.List? && |r.value.items| == |items|
        && forall i :: 0 <= i < |items| ==> Writes(table, element, items[i], r.value.items[i])
  {
    hide BuildEnv, Writes, Build, EncodeVal;
  }

  lemma MapRightly(table: Table, classes: map<string, string>, dynamic: bool, t: TypeRef, v: Val)
    requires !Degrades(t) && t.kind.Map?
    requires v.Dict? ==> forall k :: k in v.members ==> WrittenRightly(table, classes, dynamic, t.elements[1], v.members[k])
    ensures WrittenRightly(table, classes, dynamic, t, v)
  {
    hide BuildEnv;
  }

  lemma OptionalRightly(table: Table, classes: map<string, string>, dynamic: bool, t: TypeRef, v: Val)
    requires !Degrades(t) && t.kind.Optional? && WrittenRightly(table, classes, dynamic, ValueType(t), v)
    ensures WrittenRightly(table, classes, dynamic, t, v)
  {
    hide BuildEnv;
    if v.Null? {
      NullWritten(table, classes, dynamic, ValueType(t));
    }
  }

  /** Null is written as null. */
  lemma NullWritten(table: Table, classes: map<string, string>, dynamic: bool, t: TypeRef)
    ensures var r := EncodeVal(BuildEnv(table, classes, dynamic), Build(t, dynamic), Null); r.Some? ==> r.value.Null?
  {
    hide BuildEnv;
    NullEncoded(BuildEnv(table, classes, dynamic), Build(t, dynamic));
  }

  lemma {:induction false} NullEncoded(env: Env, c: Codec)
    ensures EncodeVal(env, c, Null).Some? ==> EncodeVal(env, c, Null).value.Null?
    decreases c
  {
  }

  lemma RecordRightly(table: Table, classes: map<string, string>, dynamic: bool, t: TypeRef, v: Val)
    requires !Degrades(t) && t.kind.Named?
    requires t.name in table ==> forall f :: f in table[t.name] ==> FieldWritten(table, classes, dynamic, table[t.name][f], v, f)
    ensures WrittenRightly(table, classes, dynamic, t, v)
  {
    hide EncodesField, WritesField, BuildEnv, IsRecord, Item, EncodeVal, EncodedField;
    var env := BuildEnv(table, classes, dynamic);
    EnvIs(table, classes, dynamic, t.name);
    if EncodeVal(env, RecordCodec(t.name), v).Some? {
      var members := RecordEncoded(env, t.name, v);
      forall f | f in table[t.name] && Name(f) in members
        ensures WritesField(table, table[t.name][f], v, f, members[Name(f)])
      {
        assert FieldWritten(table, classes, dynamic, table[t.name][f], v, f);
      }
      KeysWritten(table, env, t.name, v);
    }
  }

  lemma KeysWritten(table: Table, env: Env, record: string, v: Val)
    requires record in table && record in env && env[record].fields.Keys == table[record].Keys
    requires forall w :: w in table[record] ==> env[record].fields[w].optional == table[record][w].optional
    ensures forall k :: k in Written(env[record], v) <==> IsWritten(table[record], v, k)
  {
  }

  // ---------------------------------------------------------------- documents of a type

  lemma DegradedReads(table: Table, classes: map<string, string>, dynamic: bool, t: TypeRef, j: Val, mode: Mode)
    requires Degrades(t)
    ensures ReadRightly(table, classes, dynamic, t, j, mode)
  {
    hide BuildEnv;
    DegradesToAny(t, dynamic);
  }

  lemma PrimitiveReads(table: Table, classes: map<string, string>, dynamic: bool, t: TypeRef, j: Val, mode: Mode)
    requires !Degrades(t) && t.kind.Primitive?
    ensures ReadRightly(table, classes, dynamic, t, j, mode)
  {
    hide BuildEnv, PrimitiveCodec, ReadsPrimitive, IsPrimitiveDocument;
    PrimitiveDecodes(BuildEnv(table, classes, dynamic), t.name, dynamic, j, mode);
  }

  lemma PrimitiveDecodes(env: Env, name: string, dynamic: bool, j: Val, mode: Mode)
    requires name in PRIMITIVES && name != "any"
    ensures var r := DecodeVal(env, PrimitiveCodec(name, dynamic), j, mode);
      && (r.Some? <==> IsPrimitiveDocument(name, j, mode))
      && (r.Some? ==> ReadsPrimitive(name, j, r.value, mode) && (r.value.Null? ==> j.Null?))
  {
    hide DecodeBytes, DecodeInt, DecodeResult, ToFloat, IsTagDocument, InIntRange, IsFloatInt, DecodeTagText;
    if name == "bstr" {
      BytesDecode(j, mode);
    } else if name == "int" || name == "uint" {
      IntDecodes(name, j, mode);
    } else if name == "float64" {
      FloatDecodes(j);
    } else if name == "result" {
      ResultDecodes(j);
    }
  }

  lemma BytesDecode(j: Val, mode: Mode)
    ensures var r := DecodeBytes(j, mode);
      && (r.Some? <==> IsPrimitiveDocument("bstr", j, mode)) && (r.Some? ==> ReadsPrimitive("bstr", j, r.value, mode))
  {
    hide DecodeTagText;
  }

  lemma IntDecodes(name: string, j: Val, mode: Mode)
    requires name == "int" || name == "uint"
    ensures var r := DecodeInt(name == "uint", j, mode);
      && (r.Some? <==> IsPrimitiveDocument(name, j, mode)) && (r.Some? ==> ReadsPrimitive(name, j, r.value, mode))
  {
  }

  lemma FloatDecodes(j: Val)
    ensures ToFloat(j).Some? <==> j.Float? || (j.Int? && IsFloatInt(j.n))
    ensures ToFloat(j).Some? ==> (j.Float? && ToFloat(j).value == j) || (j.Int? && ToFloat(j).value == Float(j.n as real))
  {
    hide FitsFloat, IsFloatInt;
    if j.Int? {
      FloatRange(j.n);
    }
  }

  lemma ResultDecodes(j: Val)
    ensures var r := Codecs.DecodeResult(j);
      && (r.Some? <==>
            && j.Dict? && j.members.Keys == {Name("success"), Name("value"), Name("error")}
            && j.members[Name("success")].Bool? && (j.members[Name("error")].Null? || j.members[Name("error")].Str?))
      && (r.Some? ==> r.value == Outcome(j.members[Name("success")], j.members[Name("value")], j.members[Name("error")]))
  {
  }

  lemma ArrayReads(table: Table, classes: map<string, string>, dynamic: bool, t: TypeRef, j: Val, mode: Mode)
    requires !Degrades(t) && t.kind.Array?
    requires j.List? ==> forall i :: 0 <= i < |j.items| ==> ReadRightly(table, classes, dynamic, t.elements[0], j.items[i], mode)
    ensures ReadRightly(table, classes, dynamic, t, j, mode)
  {
    hide BuildEnv, DecodeBytes, DecodeInt, DecodeResult, ToFloat, Assemble;
  }

  lemma MapReads(table: Table, classes: map<string, string>, dynamic: bool, t: TypeRef, j: Val, mode: Mode)
    requires !Degrades(t) && t.kind.Map?
    requires j.Dict? ==> forall k :: k in j.members ==> ReadRightly(table, classes, dynamic, t.elements[1], j.members[k], mode)
    ensures ReadRightly(table, classes, dynamic, t, j, mode)
  {
    hide BuildEnv, DecodeVal, Reads, IsDocument;
    MapDecoded(BuildEnv(table, classes, dynamic), Build(t.elements[1], dynamic), j, mode);
    var r := DecodeVal(BuildEnv(table, classes, dynamic), Build(t, dynamic), j, mode);
    MapMeans(table, classes, t, j, if r.Some? then r.value else Null, mode);
  }

  lemma MapMeans(table: Table, classes: map<string, string>, t: TypeRef, j: Val, v: Val, mode: Mode)
    requires !Degrades(t) && t.kind.Map?
    ensures IsDocument(table, t, j, mode) <==> j.Dict? && forall k :: k in j.members ==> IsDocument(table, t.elements[1], j.members[k], mode)
    ensures Reads(table, classes, t, j, v, mode) <==>
      && j.Dict? && v.Dict? && v.members.Keys == j.members.Keys
      && forall k :: k in j.members ==> Reads(table, classes, t.elements[1], j.members[k], v.members[k], mode)
  {
  }

  lemma MapDecoded(env: Env, value: Codec, j: Val, mode: Mode)
    ensures var r := DecodeVal(env, MapCodec(value), j, mode);
      && (r.Some? <==> j.Dict? && forall k :: k in j.members ==> DecodeVal(env, value, j.members[k], mode).Some?)
      && (r.Some? ==>
            && r.value.Dict? && r.value.members.Keys == j.members.Keys
            && forall k :: k in j.members ==> DecodeVal(env, value, j.members[k], mode) == Some(r.value.members[k]))
  {
  }

  lemma OptionalReads(table: Table, classes: map<string, string>, dynamic: bool, t: TypeRef, j: Val, mode: Mode)
    requires !Degrades(t) && t.kind.Optional? && ReadRightly(table, classes, dynamic, ValueType(t), j, mode)
    ensures ReadRightly(table, classes, dynamic, t, j, mode)
  {
    hide BuildEnv, DecodeVal;
    OptionalDecoded(BuildEnv(table, classes, dynamic), Build(ValueType(t), dynamic), j, mode);
  }

  lemma OptionalDecoded(env: Env, inner: Codec, j: Val, mode: Mode)
    ensures DecodeVal(env, if AcceptsNull(inner) then inner else OptionalCodec(inner), j, mode) ==
      if j.Null? then Some(Null) else DecodeVal(env, inner, j, mode)
  {
  }

  lemma RecordReads(table: Table, classes: map<string, string>, dynamic: bool, t: TypeRef, j: Val, mode: Mode)
    requires !Degrades(t) && t.kind.Named?
    requires t.name in table ==> forall f :: f in table[t.name] ==> FieldRead(table, classes, dynamic, table[t.name][f], j, f, mode)
    ensures ReadRightly(table, classes, dynamic, t, j, mode)
  {
    hide DecodesField, ReadsField, BuildEnv, Item, DecodedField, Assemble, IsFieldDocument, FieldRead, IsReadRecord;
    var env := BuildEnv(table, classes, dynamic);
    EnvIs(table, classes, dynamic, t.name);
    if DecodeVal(env, RecordCodec(t.name), j, mode).Some? {
      var values := RecordDecoded(env, t.name, j, mode);
      forall f | f in table[t.name]
        ensures ReadsField(table, classes, table[t.name][f], j, f, values[f], mode)
      {
        FieldReadIs(table, classes, dynamic, table[t.name][f], j, f, mode);
      }
      AssembledReads(table, classes, env[t.name], t.name, j, values, mode);
    }
    DecodesIff(table, classes, dynamic, t, j, mode);
  }

  lemma FieldReadIs(table: Table, classes: map<string, string>, dynamic: bool, s: Slot, j: Val, f: string, mode: Mode)
    requires FieldRead(table, classes, dynamic, s, j, f, mode)
    ensures var env, field := BuildEnv(table, classes, dynamic), Field(Build(s.valueType, dynamic), s.optional);
      DecodesField(env, field, j, f, mode) ==> ReadsField(table, classes, s, j, f, DecodedField(env, field, j, f, mode), mode)
  {
    hide BuildEnv, DecodesField, ReadsField, DecodedField, Build;
  }

  lemma DecodesIff(table: Table, classes: map<string, string>, dynamic: bool, t: TypeRef, j: Val, mode: Mode)
    requires !Degrades(t) && t.kind.Named?
    requires t.name in table ==> forall f :: f in table[t.name] ==> FieldRead(table, classes, dynamic, table[t.name][f], j, f, mode)
    ensures DecodeVal(BuildEnv(table, classes, dynamic), Build(t, dynamic), j, mode).Some? <==> IsDocument(table, t, j, mode)
  {
    hide DecodesField, ReadsField, BuildEnv, DecodedField, Assemble, IsFieldDocument;
    EnvIs(table, classes, dynamic, t.name);
  }

  /** What a record's document is decoded to, field by field. */
  lemma RecordDecoded(env: Env, name: string, j: Val, mode: Mode) returns (values: map<string, Val>)
    requires DecodeVal(env, RecordCodec(name), j, mode).Some?
    ensures name in env && values.Keys == env[name].fields.Keys
    ensures DecodeVal(env, RecordCodec(name), j, mode) == Some(Assemble(env[name], values))
    ensures forall w :: w in env[name].fields ==>
      DecodesField(env, env[name].fields[w], j, w, mode) && values[w] == DecodedField(env, env[name].fields[w], j, w, mode)
  {
    values := map w | w in env[name].fields :: DecodedField(env, env[name].fields[w], j, w, mode);
  }

  lemma AssembledReads(table: Table, classes: map<string, string>, def: RecordDef, record: string, j: Val, values: map<string, Val>, mode: Mode)
    requires record in table && def.fields.Keys == table[record].Keys == values.Keys && def.cls == ClassOf(classes, record)
    requires forall f :: f in table[record] ==>
      def.fields[f].optional == table[record][f].optional && ReadsField(table, classes, table[record][f], j, f, values[f], mode)
    ensures IsReadRecord(table[record], def.cls, j, Assemble(def, values)) && !Assemble(def, values).Null?
    ensures forall f :: f in table[record] ==> ReadsField(table, classes, table[record][f], j, f, Item(Assemble(def, values), f), mode)
  {
    hide Reads, ReadsField, Assemble, IsReadRecord;
    forall f | f in table[record]
      ensures Item(Assemble(def, values), f) == values[f]
      ensures values[f].Null? <==> Item(j, f).Null?
    {
      AssembledItem(def, values, f);
      NullsAgree(table, classes, table[record][f], j, f, values[f], mode);
    }
    AssembledIs(table[record], def, j, values);
  }

  lemma NullsAgree(table: Table, classes: map<string, string>, s: Slot, j: Val, f: string, item: Val, mode: Mode)
    requires ReadsField(table, classes, s, j, f, item, mode)
    ensures item.Null? <==> Item(j, f).Null?
  {
  }

  lemma AssembledIs(fields: map<string, Slot>, def: RecordDef, j: Val, values: map<string, Val>)
    requires def.fields.Keys == fields.Keys == values.Keys
    requires forall f :: f in fields ==> def.fields[f].optional == fields[f].optional && (values[f].Null? <==> Item(j, f).Null?)
    ensures IsReadRecord(fields, def.cls, j, Assemble(def, values)) && !Assemble(def, values).Null?
  {
    hide Item;
  }
}
