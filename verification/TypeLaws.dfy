/** Codecs do what types mean (`src/logos_bridge/typed/_codecs.py`). */
module TypeLaws {
  import opened Wrappers
  import opened LidlTypes
  import opened Base64
  import opened Values
  import opened Codecs
  import opened CodecCases
  import opened Builder
  import opened Signatures
  import opened TypeMeaning
  import opened TypeCases

  // ---------------------------------------------------------------- values of a type

  /** A codec encodes exactly the values of its type. */
  lemma {:induction false} EncodesExactly(table: Table, classes: map<string, string>, dynamic: bool, t: TypeRef, v: Val)
    ensures EncodeVal(BuildEnv(table, classes, dynamic), Build(t, dynamic), v).Some? <==> HasType(table, classes, dynamic, t, v)
    decreases v, 2, t
  {
    hide BuildEnv, PrimitiveCodec, EncodeVal, HasType, Build;
    if Degrades(t) {
      DegradedExactly(table, classes, dynamic, t, v);
    } else {
      match t.kind
      case Primitive => PrimitiveTypeExactly(table, classes, dynamic, t, v);
      case Array =>
        forall x | x in Elements(v)
          ensures Exactly(table, classes, dynamic, t.elements[0], x)
        {
          EncodesExactly(table, classes, dynamic, t.elements[0], x);
        }
        ArrayExactly(table, classes, dynamic, t, v);
      case Map =>
        if v.Dict? {
          forall k | k in v.members
            ensures Exactly(table, classes, dynamic, t.elements[1], v.members[k])
          {
            EncodesExactly(table, classes, dynamic, t.elements[1], v.members[k]);
          }
        }
        MapExactly(table, classes, dynamic, t, v);
      case Optional =>
        EncodesExactly(table, classes, dynamic, ValueType(t), v);
        OptionalExactly(table, classes, dynamic, t, v);
      case Named =>
        if t.name in table {
          forall w | w in table[t.name]
            ensures EncodesField(BuildEnv(table, classes, dynamic), BuiltField(table, t.name, w, dynamic), v, w)
              <==> HasField(table, classes, dynamic, table[t.name][w], v, w)
          {
            FieldExactly(table, classes, dynamic, t.name, v, w);
          }
        }
        RecordExactly(table, classes, dynamic, t, v);
    }
  }

  lemma {:induction false} FieldExactly(table: Table, classes: map<string, string>, dynamic: bool, record: string, v: Val, w: string)
    requires record in table && w in table[record]
    ensures EncodesField(BuildEnv(table, classes, dynamic), BuiltField(table, record, w, dynamic), v, w)
      <==> HasField(table, classes, dynamic, table[record][w], v, w)
    decreases v, 1
  {
    hide BuildEnv, HasType, EncodeVal;
    NullTaken(table[record][w].valueType, dynamic);
    if !Item(v, w).Null? {
      EncodesExactly(table, classes, dynamic, table[record][w].valueType, Item(v, w));
    }
  }

  // ---------------------------------------------------------------- what a value is written as

  /** What a codec encodes is what the type says. */
  lemma {:induction false} EncodesRightly(table: Table, classes: map<string, string>, dynamic: bool, t: TypeRef, v: Val)
    ensures WrittenRightly(table, classes, dynamic, t, v)
    decreases v, 2, t
  {
    hide BuildEnv, PrimitiveCodec, EncodeVal, Writes, Build, WrittenRightly;
    if Degrades(t) {
      DegradedRightly(table, classes, dynamic, t, v);
    } else {
      match t.kind
      case Primitive => PrimitiveRightly(table, classes, dynamic, t, v);
      case Array =>
        forall x | x in Elements(v)
          ensures WrittenRightly(table, classes, dynamic, t.elements[0], x)
        {
          EncodesRightly(table, classes, dynamic, t.elements[0], x);
        }
        ArrayRightly(table, classes, dynamic, t, v);
      case Map =>
        if v.Dict? {
          forall k | k in v.members
            ensures WrittenRightly(table, classes, dynamic, t.elements[1], v.members[k])
          {
            EncodesRightly(table, classes, dynamic, t.elements[1], v.members[k]);
          }
        }
        MapRightly(table, classes, dynamic, t, v);
      case Optional =>
        EncodesRightly(table, classes, dynamic, ValueType(t), v);
        OptionalRightly(table, classes, dynamic, t, v);
      case Named =>
        if t.name in table {
          forall f | f in table[t.name]
            ensures FieldWritten(table, classes, dynamic, table[t.name][f], v, f)
          {
            FieldRightly(table, classes, dynamic, t.name, v, f);
          }
        }
        RecordRightly(table, classes, dynamic, t, v);
    }
  }

  lemma {:induction false} FieldRightly(table: Table, classes: map<string, string>, dynamic: bool, record: string, v: Val, f: string)
    requires record in table && f in table[record]
    ensures FieldWritten(table, classes, dynamic, table[record][f], v, f)
    decreases v, 1
  {
    hide BuildEnv, Writes, EncodeVal;
    if !Item(v, f).Null? {
      EncodesRightly(table, classes, dynamic, table[record][f].valueType, Item(v, f));
    }
  }

  // ---------------------------------------------------------------- documents of a type

  /** A codec decodes exactly the documents of its type, to what they stand for. */
  lemma {:induction false} DecodesExactly(table: Table, classes: map<string, string>, dynamic: bool, t: TypeRef, j: Val, mode: Mode)
    ensures ReadRightly(table, classes, dynamic, t, j, mode)
    decreases j, 2, t
  {
    hide BuildEnv, PrimitiveCodec, DecodeVal, Reads, Build, ReadRightly, IsDocument;
    if Degrades(t) {
      DegradedReads(table, classes, dynamic, t, j, mode);
    } else {
      match t.kind
      case Primitive => PrimitiveReads(table, classes, dynamic, t, j, mode);
      case Array =>
        if j.List? {
          forall i | 0 <= i < |j.items|
            ensures ReadRightly(table, classes, dynamic, t.elements[0], j.items[i], mode)
          {
            DecodesExactly(table, classes, dynamic, t.elements[0], j.items[i], mode);
          }
        }
        ArrayReads(table, classes, dynamic, t, j, mode);
      case Map =>
        if j.Dict? {
          forall k | k in j.members
            ensures ReadRightly(table, classes, dynamic, t.elements[1], j.members[k], mode)
          {
            DecodesExactly(table, classes, dynamic, t.elements[1], j.members[k], mode);
          }
        }
        MapReads(table, classes, dynamic, t, j, mode);
      case Optional =>
        DecodesExactly(table, classes, dynamic, ValueType(t), j, mode);
        OptionalReads(table, classes, dynamic, t, j, mode);
      case Named =>
        if t.name in table {
          forall f | f in table[t.name]
            ensures FieldRead(table, classes, dynamic, table[t.name][f], j, f, mode)
          {
            FieldReads(table, classes, dynamic, t.name, j, f, mode);
          }
        }
        RecordReads(table, classes, dynamic, t, j, mode);
    }
  }

  lemma {:induction false} FieldReads(table: Table, classes: map<string, string>, dynamic: bool, record: string, j: Val, f: string, mode: Mode)
    requires record in table && f in table[record]
    ensures FieldRead(table, classes, dynamic, table[record][f], j, f, mode)
    decreases j, 1
  {
    hide BuildEnv, Reads, DecodeVal, IsDocument;
    NullTaken(table[record][f].valueType, dynamic);
    if !Item(j, f).Null? {
      DecodesExactly(table, classes, dynamic, table[record][f].valueType, Item(j, f), mode);
    }
  }
}
