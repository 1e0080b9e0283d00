/** A typed call between a client and a provider that share nothing but the contract. */
module TypedCall {
  import opened Wrappers
  import opened LidlTypes
  import opened Base64
  import opened Values
  import opened Codecs
  import opened CodecCases
  import opened CodecLaws
  import opened Builder
  import opened Signatures
  import opened Plans

  // A generated client has classes for its records (`src/logos_bridge/typed/_binding.py`); a provider has
  // its own or none, and then uses dictionaries (`src/logos_bridge/testing/_provider.py`).

  // ---------------------------------------------------------------- codecs of one contract

  /** Equal but for `dynamic`. */
  predicate Alike(c: Codec, d: Codec) {
    match c
    case OptionalCodec(inner) => d.OptionalCodec? && Alike(inner, d.inner)
    case ListCodec(element) => d.ListCodec? && Alike(element, d.element)
    case MapCodec(value) => d.MapCodec? && Alike(value, d.value)
    case ResultCodec(_) => d.ResultCodec?
    case _ => c == d
  }

  predicate FieldsAlike(x: map<string, Field>, y: map<string, Field>) {
    x.Keys == y.Keys && forall w :: w in x ==> x[w].optional == y[w].optional && Alike(x[w].codec, y[w].codec)
  }

  /** The same records with the same fields, whatever their classes. */
  predicate EnvAlike(e: Env, f: Env) {
    e.Keys == f.Keys && forall r :: r in e ==> FieldsAlike(e[r].fields, f[r].fields)
  }

  predicate PlansAlike(p: Plan, q: Plan) {
    && |p.params| == |q.params|
    && (forall i :: 0 <= i < |p.params| ==>
          p.params[i].optional == q.params[i].optional && Alike(p.params[i].codec, q.params[i].codec))
    && p.result.Some? == q.result.Some? && (p.result.Some? ==> Alike(p.result.value, q.result.value))
  }

  lemma {:induction false} BuildAlike(t: TypeRef, x: bool, y: bool)
    ensures Alike(Build(t, x), Build(t, y))
    decreases t
  {
    if LidlTypes.Arity(t.kind) == Some(|t.elements|) {
      match t.kind
      case Array => BuildAlike(t.elements[0], x, y);
      case Map => BuildAlike(t.elements[1], x, y);
      case Optional => BuildAlike(ValueType(t), x, y);
      case _ =>
    }
  }

  lemma EnvsAlike(table: Table, p: map<string, string>, x: bool, q: map<string, string>, y: bool)
    ensures EnvAlike(BuildEnv(table, p, x), BuildEnv(table, q, y))
  {
    forall r, w | r in table && w in table[r]
      ensures Alike(Build(table[r][w].valueType, x), Build(table[r][w].valueType, y))
    {
      BuildAlike(table[r][w].valueType, x, y);
    }
  }

  lemma MethodAlike(params: seq<Slot>, result: Option<Slot>, x: bool, y: bool)
    ensures PlansAlike(PlanOf(params, result, x), PlanOf(params, result, y))
  {
    forall i | 0 <= i < |params|
      ensures Alike(Build(params[i].valueType, x), Build(params[i].valueType, y))
    {
      BuildAlike(params[i].valueType, x, y);
    }
    if result.Some? {
      BuildAlike(result.value.valueType, x, y);
    }
  }

  lemma {:induction false} AlikeBack(c: Codec, d: Codec)
    requires Alike(c, d)
    ensures Alike(d, c) && AcceptsNull(c) == AcceptsNull(d)
    decreases c
  {
    match c
    case OptionalCodec(inner) => AlikeBack(inner, d.inner);
    case ListCodec(element) => AlikeBack(element, d.element);
    case MapCodec(value) => AlikeBack(value, d.value);
    case _ =>
  }

  lemma {:induction false} AlikeSelf(c: Codec)
    ensures Alike(c, c)
    decreases c
  {
    match c
    case OptionalCodec(inner) => AlikeSelf(inner);
    case ListCodec(element) => AlikeSelf(element);
    case MapCodec(value) => AlikeSelf(value);
    case _ =>
  }

  // ---------------------------------------------------------------- the same value on the other side

  /** `v` as the other side holds it: its records are instances of that side's classes, or dictionaries. */
  function Recast(e: Env, f: Env, c: Codec, v: Val): (r: Val)
    requires EnvAlike(e, f) && EncodeVal(e, c, v).Some?
    ensures r.Null? <==> v.Null?
    decreases v, 1, c
  {
    match c
    case OptionalCodec(inner) => if v.Null? then Null else Recast(e, f, inner, v)
    case ListCodec(element) =>
      if v.List? then List(RecastItems(e, f, element, v, v.items)) else List(RecastItems(e, f, element, v, v.elements))
    case MapCodec(value) => Dict(map k | k in v.members :: Recast(e, f, value, v.members[k]))
    case RecordCodec(name) => Assemble(f[name], map w | w in e[name].fields :: RecastField(e, f, e[name].fields[w], v, w))
    case ResultCodec(_) => if v.Dict? then ResultFrom(v.members) else v
    case _ => v
  }

  function RecastItems(e: Env, f: Env, element: Codec, v: Val, items: seq<Val>): (ns: seq<Val>)
    requires EnvAlike(e, f) && (forall i :: 0 <= i < |items| ==> items[i] < v) && EncodeItems(e, element, v, items).Some?
    ensures |ns| == |items|
    decreases v, 0
  {
    seq(|items|, i requires 0 <= i < |items| => Recast(e, f, element, items[i]))
  }

  function RecastField(e: Env, f: Env, field: Field, v: Val, w: string): (r: Val)
    requires EnvAlike(e, f) && EncodesField(e, field, v, w)
    ensures r.Null? <==> Item(v, w).Null?
    decreases v, 0
  {
    if Item(v, w).Null? then Null else Recast(e, f, field.codec, Item(v, w))
  }

  function RecastFields(e: Env, f: Env, name: string, v: Val): map<string, Val>
    requires EnvAlike(e, f) && EncodeVal(e, RecordCodec(name), v).Some?
  {
    map w | w in e[name].fields :: RecastField(e, f, e[name].fields[w], v, w)
  }

  /** The other side sends the same document for it. */
  lemma {:induction false} RecastEncodes(e: Env, f: Env, c: Codec, d: Codec, v: Val)
    requires EnvAlike(e, f) && Alike(c, d) && EncodeVal(e, c, v).Some?
    ensures EncodeVal(f, d, Recast(e, f, c, v)) == EncodeVal(e, c, v)
    decreases v, 1, c
  {
    match c
    case OptionalCodec(inner) =>
      if !v.Null? {
        RecastEncodes(e, f, inner, d.inner, v);
      }
    case ListCodec(element) =>
      var items := if v.List? then v.items else v.elements;
      forall i | 0 <= i < |items|
        ensures EncodeVal(f, d.element, Recast(e, f, element, items[i])) == EncodeVal(e, element, items[i])
      {
        RecastEncodes(e, f, element, d.element, items[i]);
      }
      ItemsRecast(e, f, element, d.element, v, items);
    case MapCodec(value) =>
      forall k | k in v.members
        ensures EncodeVal(f, d.value, Recast(e, f, value, v.members[k])) == EncodeVal(e, value, v.members[k])
      {
        RecastEncodes(e, f, value, d.value, v.members[k]);
      }
      MembersRecast(e, f, value, d.value, v);
    case RecordCodec(name) =>
      forall w | w in e[name].fields
        ensures EncodesField(e, e[name].fields[w], v, w) && FieldRecasts(e, f, e[name].fields[w], f[name].fields[w], v, w)
      {
        FieldRecast(e, f, name, v, w);
      }
      RecordRecasts(e, f, name, v);
    case ResultCodec(dynamic) =>
      ResultRecasts(e, f, dynamic, d.dynamic, v);
    case _ =>
  }

  lemma ItemsRecast(e: Env, f: Env, element: Codec, other: Codec, v: Val, items: seq<Val>)
    requires EnvAlike(e, f) && EncodeVal(e, ListCodec(element), v).Some?
    requires (v.List? && v.items == items) || (v.Tuple? && v.elements == items)
    requires forall i :: 0 <= i < |items| ==>
      EncodeVal(e, element, items[i]).Some? && EncodeVal(f, other, Recast(e, f, element, items[i])) == EncodeVal(e, element, items[i])
    ensures EncodeVal(f, ListCodec(other), Recast(e, f, ListCodec(element), v)) == EncodeVal(e, ListCodec(element), v)
  {
    assert EncodeVal(e, ListCodec(element), v) == EncodeItems(e, element, v, items);
    ListEncodes(f, other, RecastItems(e, f, element, v, items), EncodeItems(e, element, v, items).value.items);
  }

  lemma MembersRecast(e: Env, f: Env, value: Codec, other: Codec, v: Val)
    requires EnvAlike(e, f) && EncodeVal(e, MapCodec(value), v).Some?
    requires forall k :: k in v.members ==>
      EncodeVal(e, value, v.members[k]).Some? && EncodeVal(f, other, Recast(e, f, value, v.members[k])) == EncodeVal(e, value, v.members[k])
    ensures EncodeVal(f, MapCodec(other), Recast(e, f, MapCodec(value), v)) == EncodeVal(e, MapCodec(value), v)
  {
    var ws, _ := MembersAre(e, value, v);
    MapEncodes(f, other, Recast(e, f, MapCodec(value), v).members, ws);
  }

  lemma ResultRecasts(e: Env, f: Env, x: bool, y: bool, v: Val)
    requires EnvAlike(e, f) && EncodeVal(e, ResultCodec(x), v).Some?
    ensures EncodeVal(f, ResultCodec(y), Recast(e, f, ResultCodec(x), v)) == EncodeVal(e, ResultCodec(x), v)
  {
    if v.Dict? {
      assert ResultMembers(v.members[Name("success")], v.members[Name("value")], v.members[Name("error")]) == v.members;
    }
  }

  /** One field, encoded by either side. */
  predicate FieldRecasts(e: Env, f: Env, x: Field, y: Field, v: Val, w: string)
    requires EnvAlike(e, f) && EncodesField(e, x, v, w)
  {
    Item(v, w).Null? || EncodeVal(f, y.codec, Recast(e, f, x.codec, Item(v, w))) == EncodeVal(e, x.codec, Item(v, w))
  }

  lemma {:induction false} FieldRecast(e: Env, f: Env, name: string, v: Val, w: string)
    requires EnvAlike(e, f) && EncodeVal(e, RecordCodec(name), v).Some? && w in e[name].fields
    ensures EncodesField(e, e[name].fields[w], v, w) && FieldRecasts(e, f, e[name].fields[w], f[name].fields[w], v, w)
    decreases v, 0
  {
    if !Item(v, w).Null? {
      RecastEncodes(e, f, e[name].fields[w].codec, f[name].fields[w].codec, Item(v, w));
    }
  }

  lemma RecordRecasts(e: Env, f: Env, name: string, v: Val)
    requires EnvAlike(e, f) && EncodeVal(e, RecordCodec(name), v).Some?
    requires forall w :: w in e[name].fields ==>
      EncodesField(e, e[name].fields[w], v, w) && FieldRecasts(e, f, e[name].fields[w], f[name].fields[w], v, w)
    ensures EncodeVal(f, RecordCodec(name), Recast(e, f, RecordCodec(name), v)) == EncodeVal(e, RecordCodec(name), v)
  {
    hide EncodeVal, Recast, EncodesField, FieldRecasts, EncodedField, IsRecord, Item, Assemble, Alike;
    var members := RecordEncoded(e, name, v);
    var n := RecastRecord(e, f, name, v);
    forall w | w in f[name].fields
      ensures EncodesField(f, f[name].fields[w], n, w)
      ensures EncodedField(f, f[name].fields[w], n, w) == EncodedField(e, e[name].fields[w], v, w)
      ensures Item(n, w).Null? <==> Item(v, w).Null?
    {
      FieldStays(e, f, name, v, w);
    }
    assert Written(f[name], n) == Written(e[name], v);
    RecordEncodes(f, name, n, members);
  }

  lemma RecastRecord(e: Env, f: Env, name: string, v: Val) returns (n: Val)
    requires EnvAlike(e, f) && EncodeVal(e, RecordCodec(name), v).Some?
    ensures n == Recast(e, f, RecordCodec(name), v) == Assemble(f[name], RecastFields(e, f, name, v))
    ensures name in f && IsRecord(f[name], n) && f[name].fields.Keys == e[name].fields.Keys
  {
    n := Assemble(f[name], RecastFields(e, f, name, v));
  }

  lemma FieldStays(e: Env, f: Env, name: string, v: Val, w: string)
    requires EnvAlike(e, f) && EncodeVal(e, RecordCodec(name), v).Some? && w in e[name].fields
    requires EncodesField(e, e[name].fields[w], v, w) && FieldRecasts(e, f, e[name].fields[w], f[name].fields[w], v, w)
    ensures var n := Recast(e, f, RecordCodec(name), v); var y := f[name].fields[w];
      && EncodesField(f, y, n, w) && EncodedField(f, y, n, w) == EncodedField(e, e[name].fields[w], v, w)
      && (Item(n, w).Null? <==> Item(v, w).Null?)
  {
    var n := RecastRecord(e, f, name, v);
    AssembledItem(f[name], RecastFields(e, f, name, v), w);
    AlikeBack(e[name].fields[w].codec, f[name].fields[w].codec);
  }

  // ---------------------------------------------------------------- one value across

  /** What the other side makes of the document that this side sends for `v`. */
  function Across(e: Env, f: Env, c: Codec, d: Codec, v: Val): Val
    requires EnvAlike(e, f) && Alike(c, d) && EncodeVal(e, c, v).Some?
  {
    RecastEncodes(e, f, c, d, v);
    Norm(f, d, Recast(e, f, c, v))
  }

  /** A document that one side sends is never refused by the other: it decodes strictly, to the value as
      that side holds it, and that is sent as the same document again. */
  lemma CrossesOver(e: Env, f: Env, c: Codec, d: Codec, v: Val)
    requires EnvAlike(e, f) && Alike(c, d) && EncodeVal(e, c, v).Some?
    ensures var w := EncodeVal(e, c, v).value;
      && DecodeVal(f, d, w, Strict) == Some(Across(e, f, c, d, v))
      && EncodeVal(f, d, Across(e, f, c, d, v)) == Some(w)
      && (v.Null? && AcceptsNull(d) ==> Across(e, f, c, d, v).Null?)
  {
    RecastEncodes(e, f, c, d, v);
    TypedRoundTrip(f, d, Recast(e, f, c, v));
  }

  // ---------------------------------------------------------------- a call

  lemma {:induction false} SameArity(p: seq<Param>, q: seq<Param>)
    requires |p| == |q| && forall i :: 0 <= i < |p| ==> p[i].optional == q[i].optional
    ensures MinArgs(p) == MinArgs(q)
    decreases |p|
  {
    if p != [] {
      SameArity(p[..|p| - 1], q[..|q| - 1]);
    }
  }

  lemma {:induction false} DecodesAcross(e: Env, f: Env, p: Plan, q: Plan, args: seq<Val>, wire: seq<Val>,
                                         loose: Val -> Option<seq<Byte>>, n: nat)
    requires EnvAlike(e, f) && PlansAlike(p, q) && n <= |p.params|
    requires EncodeUpTo(e, p.params, args, |p.params|) == Ok(wire)
    ensures var r := DecodeUpTo(f, q.params, wire, Lenient(loose), n);
      && r.Some?
      && forall i :: 0 <= i < n ==>
           && EncodeVal(e, p.params[i].codec, Arg(args, i)) == Some(wire[i])
           && DecodeVal(f, q.params[i].codec, wire[i], Strict) == Some(r.value[i])
           && r.value[i] == Across(e, f, p.params[i].codec, q.params[i].codec, Arg(args, i))
  {
    hide EncodeVal, DecodeVal, Across, Alike, EnvAlike;
    if n > 0 {
      DecodesAcross(e, f, p, q, args, wire, loose, n - 1);
      EncodedAt(e, p.params, args, |p.params|, n - 1);
      CrossesOver(e, f, p.params[n - 1].codec, q.params[n - 1].codec, Arg(args, n - 1));
      LenientAgrees(f, q.params[n - 1].codec, wire[n - 1], loose);
    }
  }

  /** Whatever arguments a client's codecs accept, a provider of the same contract never rejects, whatever
      classes either side has for its records. The provider sees the strict decoding of each document under
      its own codecs: the argument as it holds it, which it would send as the same document, and null for
      every omitted one. */
  lemma AcceptedNeverRejected(table: Table, params: seq<Slot>, result: Option<Slot>,
                              p: map<string, string>, x: bool, q: map<string, string>, y: bool,
                              args: seq<Val>, loose: Val -> Option<seq<Byte>>)
    requires EncodedArgs(BuildEnv(table, p, x), PlanOf(params, result, x), args).Ok?
    ensures var e, f := BuildEnv(table, p, x), BuildEnv(table, q, y);
      var client, provider := PlanOf(params, result, x), PlanOf(params, result, y);
      var wire := EncodedArgs(e, client, args).value; var r := HandledAs(f, provider, wire, loose);
      && r.Calls? && |r.values| == |params|
      && forall i :: 0 <= i < |params| ==> Arrives(e, f, client, provider, args, wire, r.values, i)
  {
    hide BuildEnv, PlanOf, Across, DecodeUpTo, DecodeVal, EncodeVal, Alike, EnvAlike;
    var e, f := BuildEnv(table, p, x), BuildEnv(table, q, y);
    var client, provider := PlanOf(params, result, x), PlanOf(params, result, y);
    EnvsAlike(table, p, x, q, y);
    MethodAlike(params, result, x, y);
    PlanSizes(params, result, x);
    var wire := EncodedArgs(e, client, args).value;
    SameArity(client.params, provider.params);
    MinArgsIs(client.params);
    DecodesAcross(e, f, client, provider, args, wire, loose, |params|);
    forall i | 0 <= i < |params|
      ensures Arrives(e, f, client, provider, args, wire, HandledAs(f, provider, wire, loose).values, i)
    {
      CrossesOver(e, f, client.params[i].codec, provider.params[i].codec, Arg(args, i));
      if |args| <= i {
        OmittedArrives(e, f, client, provider, args, i);
      }
    }
  }

  lemma PlanSizes(params: seq<Slot>, result: Option<Slot>, dynamic: bool)
    ensures |PlanOf(params, result, dynamic).params| == |params|
  {
  }

  /** The i-th argument as the provider gets it. */
  ghost predicate Arrives(e: Env, f: Env, client: Plan, provider: Plan, args: seq<Val>, wire: seq<Val>, values: seq<Val>, i: nat)
  {
    && EnvAlike(e, f) && PlansAlike(client, provider) && i < |client.params| == |wire| == |values|
    && var c, d := client.params[i].codec, provider.params[i].codec;
      && EncodeVal(e, c, Arg(args, i)) == Some(wire[i])
      && DecodeVal(f, d, wire[i], Strict) == Some(values[i])
      && EncodeVal(f, d, values[i]) == Some(wire[i])
      && values[i] == if i < |args| then Across(e, f, c, d, args[i]) else Null
  }

  lemma OmittedArrives(e: Env, f: Env, client: Plan, provider: Plan, args: seq<Val>, i: nat)
    requires EnvAlike(e, f) && PlansAlike(client, provider) && Built(client) && i < |client.params|
    requires client.params[i].optional && Arg(args, i) == Null
    requires EncodeVal(e, client.params[i].codec, Null).Some?
    ensures Across(e, f, client.params[i].codec, provider.params[i].codec, Null) == Null
  {
    AlikeBack(client.params[i].codec, provider.params[i].codec);
    CrossesOver(e, f, client.params[i].codec, provider.params[i].codec, Null);
  }

  /** Whatever a provider's implementation returns and its contract accepts, the caller can decode, whatever
      classes either side has: it gets the value as it holds it, unless that looks like a rejection. */
  lemma AnswerComesBack(table: Table, params: seq<Slot>, result: Option<Slot>,
                        p: map<string, string>, x: bool, q: map<string, string>, y: bool, v: Val)
    requires AnswerOf(BuildEnv(table, q, y), PlanOf(params, result, y), v).Some?
    ensures var e, f := BuildEnv(table, p, x), BuildEnv(table, q, y);
      var client, provider := PlanOf(params, result, x), PlanOf(params, result, y);
      var w := AnswerOf(f, provider, v).value;
      && EnvAlike(f, e) && PlansAlike(provider, client)
      && Plans.DecodeResult(e, client, w) ==
         if IsRejection(w) then Folded
         else if result.None? then Value(Null)
         else Value(Across(f, e, provider.result.value, client.result.value, v))
  {
    hide BuildEnv, Across, DecodeVal, EncodeVal, Alike, EnvAlike, SlotCodec;
    EnvsAlike(table, q, y, p, x);
    MethodAlike(params, result, y, x);
    if result.Some? {
      CrossesOver(BuildEnv(table, q, y), BuildEnv(table, p, x), PlanOf(params, result, y).result.value,
                  PlanOf(params, result, x).result.value, v);
    }
  }

  // ---------------------------------------------------------------- what either side holds

  /** A record arrives as the receiving side's own: an instance of its class, or a dictionary. */
  lemma RecordsAreOwn(e: Env, f: Env, name: string, v: Val)
    requires EnvAlike(e, f) && EncodeVal(e, RecordCodec(name), v).Some?
    ensures name in f && IsRecord(f[name], Across(e, f, RecordCodec(name), RecordCodec(name), v))
  {
    RecastEncodes(e, f, RecordCodec(name), RecordCodec(name), v);
    NormIsRecord(f, name, Recast(e, f, RecordCodec(name), v));
  }

  /** Between equal sides it is the normal form that arrives. */
  lemma BetweenEqualSides(env: Env, c: Codec, v: Val)
    requires EncodeVal(env, c, v).Some?
    ensures EnvAlike(env, env) && Alike(c, c) && Across(env, env, c, c, v) == Norm(env, c, v)
  {
    forall r, w | r in env && w in env[r].fields
      ensures Alike(env[r].fields[w].codec, env[r].fields[w].codec)
    {
      AlikeSelf(env[r].fields[w].codec);
    }
    AlikeSelf(c);
    CrossesOver(env, env, c, c, v);
    TypedRoundTrip(env, c, v);
  }

  /** What goes over and comes back is the normal form of what was sent. */
  lemma ThereAndBack(e: Env, f: Env, c: Codec, d: Codec, v: Val)
    requires EnvAlike(e, f) && Alike(c, d) && EncodeVal(e, c, v).Some?
    ensures EnvAlike(f, e) && Alike(d, c)
    ensures var there := Across(e, f, c, d, v);
      EncodeVal(f, d, there).Some? && Across(f, e, d, c, there) == Norm(e, c, v)
  {
    forall r, w | r in e && w in e[r].fields
      ensures Alike(f[r].fields[w].codec, e[r].fields[w].codec)
    {
      AlikeBack(e[r].fields[w].codec, f[r].fields[w].codec);
    }
    AlikeBack(c, d);
    CrossesOver(e, f, c, d, v);
    CrossesOver(f, e, d, c, Across(e, f, c, d, v));
    TypedRoundTrip(e, c, v);
  }
}
