/** A typed call, end to end (`src/logos_bridge/typed/_plans.py`, `MethodPlan`;
`src/logos_bridge/testing/_provider.py`, `FakeProvider.handle`, `_answer`). */
module Plans {
  import opened Wrappers
  import opened LidlTypes
  import opened Values
  import opened Base64
  import opened Codecs
  import opened CodecCases
  import opened CodecLaws
  import opened Builder

  datatype Param = Param(name: string, codec: Codec, optional: bool)

  datatype Plan = Plan(params: seq<Param>, result: Option<Codec>)

  /** Through the last parameter that is not optional. */
  function MinArgs(params: seq<Param>): nat {
    if params == [] then 0
    else if !params[|params| - 1].optional then |params|
    else MinArgs(params[..|params| - 1])
  }

  predicate ArityOk(plan: Plan, count: nat) {
    MinArgs(plan.params) <= count <= |plan.params|
  }

  lemma {:induction false} MinArgsIs(params: seq<Param>)
    ensures MinArgs(params) <= |params|
    ensures forall i :: MinArgs(params) <= i < |params| ==> params[i].optional
    ensures MinArgs(params) > 0 ==> !params[MinArgs(params) - 1].optional
  {
    if params != [] && params[|params| - 1].optional {
      MinArgsIs(params[..|params| - 1]);
    }
  }

  /** What `CodecBuilder.slot` guarantees. */
  predicate Built(plan: Plan) {
    forall i :: 0 <= i < |plan.params| && plan.params[i].optional ==> AcceptsNull(plan.params[i].codec)
  }

  /** `MethodPlan.__init__`: the plan of a method. */
  function PlanOf(params: seq<Slot>, result: Option<Slot>, dynamic: bool): (plan: Plan)
    ensures Built(plan)
  {
    Plan(seq(|params|, i requires 0 <= i < |params| =>
           Param(params[i].name, SlotCodec(params[i].optional, params[i].valueType, dynamic), params[i].optional)),
         if result.Some? then Some(SlotCodec(result.value.optional, result.value.valueType, dynamic)) else None)
  }

  datatype CallError = Arity(count: nat) | Argument(index: nat) | Unexpected(name: string) | Multiple(name: string)

  // ---------------------------------------------------------------- encode_args

  /** The i-th argument; an omitted one is null. */
  function Arg(args: seq<Val>, i: nat): Val {
    if i < |args| then args[i] else Null
  }

  function EncodeUpTo(env: Env, params: seq<Param>, args: seq<Val>, n: nat): (r: Result<seq<Val>, CallError>)
    requires n <= |params|
    ensures r.Ok? ==> |r.value| == n
  {
    if n == 0 then Ok([])
    else
      var before :- EncodeUpTo(env, params, args, n - 1);
      var w := EncodeVal(env, params[n - 1].codec, Arg(args, n - 1));
      if w.None? then Err(Argument(n - 1)) else Ok(before + [w.value])
  }

  function EncodedArgs(env: Env, plan: Plan, args: seq<Val>): Result<seq<Val>, CallError> {
    if !ArityOk(plan, |args|) then Err(Arity(|args|)) else EncodeUpTo(env, plan.params, args, |plan.params|)
  }

  lemma {:induction false} EncodeStops(env: Env, params: seq<Param>, args: seq<Val>, n: nat, m: nat)
    requires n <= m <= |params| && EncodeUpTo(env, params, args, n).Err?
    ensures EncodeUpTo(env, params, args, m) == EncodeUpTo(env, params, args, n)
  {
    if n < m {
      EncodeStops(env, params, args, n, m - 1);
    }
  }

  method EncodeArgs(env: Env, plan: Plan, args: seq<Val>) returns (r: Result<seq<Val>, CallError>)
    ensures r == EncodedArgs(env, plan, args)
  {
    if !ArityOk(plan, |args|) {
      return Err(Arity(|args|));
    }
    var wire: seq<Val> := [];
    for index := 0 to |plan.params|
      invariant EncodeUpTo(env, plan.params, args, index) == Ok(wire)
    {
      var value := if index < |args| then args[index] else Null;
      var w := EncodeVal(env, plan.params[index].codec, value);
      if w.None? {
        assert EncodeUpTo(env, plan.params, args, index + 1) == Err(Argument(index));
        EncodeStops(env, plan.params, args, index + 1, |plan.params|);
        return Err(Argument(index));
      }
      wire := wire + [w.value];
    }
    r := Ok(wire);
  }

  lemma {:induction false} EncodedAt(env: Env, params: seq<Param>, args: seq<Val>, n: nat, i: nat)
    requires n <= |params| && i < n && EncodeUpTo(env, params, args, n).Ok?
    ensures EncodeVal(env, params[i].codec, Arg(args, i)) == Some(EncodeUpTo(env, params, args, n).value[i])
  {
    if i < n - 1 {
      EncodedAt(env, params, args, n - 1, i);
    }
  }

  // ---------------------------------------------------------------- the provider's side

  /** `Rejected` is a `Reject` answer; `Calls` runs the implementation with these values. */
  datatype Handled = Rejected(code: string) | Calls(values: seq<Val>)

  function DecodeUpTo(env: Env, params: seq<Param>, wire: seq<Val>, mode: Mode, n: nat): (r: Option<seq<Val>>)
    requires n <= |params|
    ensures r.Some? ==> |r.value| == n
  {
    if n == 0 then Some([])
    else
      var before := DecodeUpTo(env, params, wire, mode, n - 1);
      if before.None? then None
      else
        var v := DecodeVal(env, params[n - 1].codec, Arg(wire, n - 1), mode);
        if v.None? then None else Some(before.value + [v.value])
  }

  function HandledAs(env: Env, plan: Plan, wire: seq<Val>, loose: Val -> Option<seq<Byte>>): Handled {
    if !ArityOk(plan, |wire|) then Rejected("invalid_args")
    else
      var values := DecodeUpTo(env, plan.params, wire, Lenient(loose), |plan.params|);
      if values.None? then Rejected("dispatch_failed") else Calls(values.value)
  }

  lemma {:induction false} DecodeStops(env: Env, params: seq<Param>, wire: seq<Val>, mode: Mode, n: nat, m: nat)
    requires n <= m <= |params| && DecodeUpTo(env, params, wire, mode, n).None?
    ensures DecodeUpTo(env, params, wire, mode, m).None?
  {
    if n < m {
      DecodeStops(env, params, wire, mode, n, m - 1);
    }
  }

  /** `FakeProvider.handle`, for a declared method. */
  method Handle(env: Env, plan: Plan, wire: seq<Val>, loose: Val -> Option<seq<Byte>>) returns (r: Handled)
    ensures r == HandledAs(env, plan, wire, loose)
  {
    if !ArityOk(plan, |wire|) {
      return Rejected("invalid_args");
    }
    var values: seq<Val> := [];
    for index := 0 to |plan.params|
      invariant DecodeUpTo(env, plan.params, wire, Lenient(loose), index) == Some(values)
    {
      var item := if index < |wire| then wire[index] else Null;
      var v := DecodeVal(env, plan.params[index].codec, item, Lenient(loose));
      if v.None? {
        assert DecodeUpTo(env, plan.params, wire, Lenient(loose), index + 1).None?;
        DecodeStops(env, plan.params, wire, Lenient(loose), index + 1, |plan.params|);
        return Rejected("dispatch_failed");
      }
      values := values + [v.value];
    }
    r := Calls(values);
  }

  // ---------------------------------------------------------------- lenient and strict

  /** Lenient decoding agrees with strict decoding wherever strict decoding succeeds. */
  lemma {:induction false} LenientAgrees(env: Env, c: Codec, j: Val, loose: Val -> Option<seq<Byte>>)
    requires DecodeVal(env, c, j, Strict).Some?
    ensures DecodeVal(env, c, j, Lenient(loose)) == DecodeVal(env, c, j, Strict)
    decreases j, 1, c
  {
    match c
    case OptionalCodec(inner) =>
      if !j.Null? {
        LenientAgrees(env, inner, j, loose);
      }
    case ListCodec(element) =>
      forall i | 0 <= i < |j.items|
        ensures DecodeVal(env, element, j.items[i], Lenient(loose)) == DecodeVal(env, element, j.items[i], Strict)
      {
        LenientAgrees(env, element, j.items[i], loose);
      }
      assert DecodeVal(env, c, j, Lenient(loose)).value.items == DecodeVal(env, c, j, Strict).value.items;
    case MapCodec(value) =>
      forall k | k in j.members
        ensures DecodeVal(env, value, j.members[k], Lenient(loose)) == DecodeVal(env, value, j.members[k], Strict)
      {
        LenientAgrees(env, value, j.members[k], loose);
      }
      assert DecodeVal(env, c, j, Lenient(loose)).value.members == DecodeVal(env, c, j, Strict).value.members;
    case RecordCodec(name) =>
      forall w | w in env[name].fields
        ensures DecodesField(env, env[name].fields[w], j, w, Lenient(loose)) && DecodesField(env, env[name].fields[w], j, w, Strict)
        ensures DecodedField(env, env[name].fields[w], j, w, Lenient(loose)) == DecodedField(env, env[name].fields[w], j, w, Strict)
      {
        LenientField(env, name, j, w, loose);
      }
      SameRecord(env, name, j, loose);
    case _ =>
  }

  lemma {:induction false} LenientField(env: Env, name: string, j: Val, w: string, loose: Val -> Option<seq<Byte>>)
    requires DecodeVal(env, RecordCodec(name), j, Strict).Some? && w in env[name].fields
    ensures DecodesField(env, env[name].fields[w], j, w, Lenient(loose)) && DecodesField(env, env[name].fields[w], j, w, Strict)
    ensures DecodedField(env, env[name].fields[w], j, w, Lenient(loose)) == DecodedField(env, env[name].fields[w], j, w, Strict)
    decreases j, 0
  {
    if !Item(j, w).Null? {
      LenientAgrees(env, env[name].fields[w].codec, Item(j, w), loose);
    }
  }

  lemma SameRecord(env: Env, name: string, j: Val, loose: Val -> Option<seq<Byte>>)
    requires DecodeVal(env, RecordCodec(name), j, Strict).Some?
    requires forall w :: w in env[name].fields ==>
      && DecodesField(env, env[name].fields[w], j, w, Lenient(loose)) && DecodesField(env, env[name].fields[w], j, w, Strict)
      && DecodedField(env, env[name].fields[w], j, w, Lenient(loose)) == DecodedField(env, env[name].fields[w], j, w, Strict)
    ensures DecodeVal(env, RecordCodec(name), j, Lenient(loose)) == DecodeVal(env, RecordCodec(name), j, Strict)
  {
    var a := map w | w in env[name].fields :: DecodedField(env, env[name].fields[w], j, w, Lenient(loose));
    var b := map w | w in env[name].fields :: DecodedField(env, env[name].fields[w], j, w, Strict);
    assert a == b;
  }

  // ---------------------------------------------------------------- the call

  /** What the implementation is called with for the i-th parameter. */
  function Seen(env: Env, plan: Plan, args: seq<Val>, i: nat): Val
    requires i < |plan.params| && EncodeVal(env, plan.params[i].codec, Arg(args, i)).Some?
  {
    Norm(env, plan.params[i].codec, Arg(args, i))
  }

  lemma {:induction false} DecodesAll(env: Env, plan: Plan, args: seq<Val>, wire: seq<Val>, loose: Val -> Option<seq<Byte>>, n: nat)
    requires EncodeUpTo(env, plan.params, args, |plan.params|) == Ok(wire) && n <= |plan.params|
    ensures var r := DecodeUpTo(env, plan.params, wire, Lenient(loose), n);
      && r.Some?
      && forall i :: 0 <= i < n ==>
           && EncodeVal(env, plan.params[i].codec, Arg(args, i)) == Some(wire[i])
           && DecodeVal(env, plan.params[i].codec, wire[i], Strict) == Some(r.value[i])
           && r.value[i] == Seen(env, plan, args, i)
  {
    hide EncodeVal, DecodeVal, Norm;
    if n > 0 {
      DecodesAll(env, plan, args, wire, loose, n - 1);
      EncodedAt(env, plan.params, args, |plan.params|, n - 1);
      TypedRoundTrip(env, plan.params[n - 1].codec, Arg(args, n - 1));
      LenientAgrees(env, plan.params[n - 1].codec, wire[n - 1], loose);
    }
  }

  /** Arguments that `encode_args` accepts are never rejected by a provider with the same record classes:
      it sees the strict decoding of each, which is its normal form, and null for every omitted one.
      `TypedCall` has any two sides of a contract. */
  lemma AcceptedNeverRejected(env: Env, plan: Plan, args: seq<Val>, loose: Val -> Option<seq<Byte>>)
    requires Built(plan) && EncodedArgs(env, plan, args).Ok?
    ensures var wire := EncodedArgs(env, plan, args).value; var r := HandledAs(env, plan, wire, loose);
      && r.Calls? && |r.values| == |plan.params|
      && forall i :: 0 <= i < |plan.params| ==>
           && DecodeVal(env, plan.params[i].codec, wire[i], Strict) == Some(r.values[i])
           && EncodeVal(env, plan.params[i].codec, Arg(args, i)).Some?
           && r.values[i] == (if i < |args| then Norm(env, plan.params[i].codec, args[i]) else Null)
  {
    hide EncodeVal, DecodeVal, Norm;
    var wire := EncodedArgs(env, plan, args).value;
    DecodesAll(env, plan, args, wire, loose, |plan.params|);
    MinArgsIs(plan.params);
    forall i | |args| <= i < |plan.params| && EncodeVal(env, plan.params[i].codec, Arg(args, i)).Some?
      ensures Seen(env, plan, args, i) == Null
    {
      OmittedIsNull(env, plan, args, i);
    }
  }

  lemma OmittedIsNull(env: Env, plan: Plan, args: seq<Val>, i: nat)
    requires |args| <= i < |plan.params| && EncodeVal(env, plan.params[i].codec, Arg(args, i)).Some?
    ensures Seen(env, plan, args, i) == Null
  {
    assert AcceptsNull(plan.params[i].codec);
  }

  // ---------------------------------------------------------------- the answer

  const REJECTION_CODES := {"dispatch_failed", "invalid_args", "unknown_method"}

  /** `as_provider_rejection`: exactly three string keys, with one of the codes. */
  predicate IsRejection(v: Val) {
    && v.Dict? && v.members.Keys == {Name("code"), Name("message"), Name("origin")}
    && v.members[Name("code")].Str? && v.members[Name("message")].Str? && v.members[Name("origin")].Str?
    && v.members[Name("code")].text in REJECTION_CODES
  }

  datatype Answer = Folded | Value(v: Val) | Undecodable

  /** `decode_result`: a rejection is folded before the result is decoded; a method that returns
      nothing has nothing to decode. */
  function DecodeResult(env: Env, plan: Plan, w: Val): Answer {
    if IsRejection(w) then Folded
    else if plan.result.None? then Value(Null)
    else
      var v := DecodeVal(env, plan.result.value, w, Strict);
      if v.None? then Undecodable else Value(v.value)
  }

  /** `_answer`: a value that the contract refuses is the implementation's own error. */
  function AnswerOf(env: Env, plan: Plan, v: Val): Option<Val> {
    if plan.result.None? then Some(Bool(true)) else EncodeVal(env, plan.result.value, v)
  }

  /** Whatever an implementation returns and its contract accepts reaches the caller in normal form,
      unless it looks like a rejection. */
  lemma AnswerComesBack(env: Env, plan: Plan, v: Val)
    requires AnswerOf(env, plan, v).Some?
    ensures var w := AnswerOf(env, plan, v).value;
      DecodeResult(env, plan, w) ==
        if IsRejection(w) then Folded
        else if plan.result.None? then Value(Null)
        else Value(Norm(env, plan.result.value, v))
  {
    if plan.result.Some? {
      TypedRoundTrip(env, plan.result.value, v);
    }
  }
}
