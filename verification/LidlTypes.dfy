/** LIDL type expressions and slots (`src/logos_bridge/lidl.py`). */
module LidlTypes {
  import opened Wrappers

  /** `Unknown` is a kind that is kept as written. */
  datatype Kind = Primitive | Array | Map | Optional | Named | Unknown(kind: string)

  datatype TypeRef = TypeRef(kind: Kind, name: string, elements: seq<TypeRef>)

  const PRIMITIVES: set<string> := {"tstr", "bstr", "int", "uint", "float64", "bool", "result", "any"}

  function Prim(name: string): TypeRef {
    TypeRef(Primitive, name, [])
  }

  function Ref(name: string): TypeRef {
    TypeRef(Named, name, [])
  }

  function ArrayOf(t: TypeRef): TypeRef {
    TypeRef(Array, "", [t])
  }

  function MapOf(k: TypeRef, v: TypeRef): TypeRef {
    TypeRef(Map, "", [k, v])
  }

  function OptionalOf(t: TypeRef): TypeRef {
    TypeRef(Optional, "", [t])
  }

  predicate IsAny(t: TypeRef) {
    t.kind.Primitive? && t.name == "any"
  }

  function Arity(k: Kind): Option<nat> {
    match k
    case Primitive => Some(0)
    case Named => Some(0)
    case Array => Some(1)
    case Map => Some(2)
    case Optional => Some(1)
    case Unknown(_) => None
  }

  /** Every leading optional stripped. */
  function ValueType(t: TypeRef): (v: TypeRef)
    ensures v == t || v < t
    ensures v.kind.Optional? ==> v.elements == []
  {
    if t.kind.Optional? && t.elements != [] then ValueType(t.elements[0]) else t
  }

  // ---------------------------------------------------------------- identifiers

  predicate IdentStart(c: char) {
    'A' <= c <= 'Z' || 'a' <= c <= 'z' || c == '_'
  }

  predicate IdentChar(c: char) {
    IdentStart(c) || '0' <= c <= '9'
  }

  predicate IsIdent(s: string) {
    s != [] && IdentStart(s[0]) && forall i :: 0 <= i < |s| ==> IdentChar(s[i])
  }

  /** `_compactable`: the tree has a compact spelling. */
  predicate Compactable(t: TypeRef) {
    && Arity(t.kind) == Some(|t.elements|)
    && (t.kind.Primitive? ==> t.name in PRIMITIVES)
    && (t.kind.Named? ==> t.name !in PRIMITIVES && IsIdent(t.name))
    && forall i :: 0 <= i < |t.elements| ==> Compactable(t.elements[i])
  }

  lemma PrimitivesAreIdents(s: string)
    requires s in PRIMITIVES
    ensures IsIdent(s) && 'a' <= s[0] <= 'z'
  {
  }

  lemma {:induction false} ValueTypeCompactable(t: TypeRef)
    requires Compactable(t)
    ensures Compactable(ValueType(t)) && !ValueType(t).kind.Optional?
  {
    if t.kind.Optional? {
      ValueTypeCompactable(t.elements[0]);
    }
  }

  // ---------------------------------------------------------------- names in a type

  /** The names of the named nodes of `walk()`, in order. */
  function NamesIn(t: TypeRef): seq<string> {
    (if t.kind.Named? then [t.name] else []) + NamesInAll(t.elements)
  }

  function NamesInAll(ts: seq<TypeRef>): seq<string> {
    if ts == [] then [] else NamesIn(ts[0]) + NamesInAll(ts[1..])
  }

  // ---------------------------------------------------------------- slots

  /** A record field, a parameter or a return. */
  datatype Slot = Slot(name: string, ty: TypeRef, optional: bool, valueType: TypeRef, flag: bool)

  function MakeSlot(name: string, ty: TypeRef): Slot {
    Slot(name, ty, ty.kind.Optional?, ValueType(ty), false)
  }

  predicate DerivedConsistent(s: Slot) {
    s.optional == (s.flag || s.ty.kind.Optional?) && s.valueType == ValueType(s.ty)
  }
}
