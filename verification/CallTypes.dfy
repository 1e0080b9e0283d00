/** Which calls a contract admits, told from its types (`src/logos_bridge/typed/_plans.py`). */
module CallTypes {
  import opened Wrappers
  import opened LidlTypes
  import opened Base64
  import opened Values
  import opened Codecs
  import opened CodecCases
  import opened Builder
  import opened Signatures
  import opened Plans
  import opened TypeMeaning
  import opened TypeLaws

  // ---------------------------------------------------------------- slots

  /** A value for a parameter or a return: null for an optional one, else a value of the type. */
  predicate FitsSlot(table: Table, classes: map<string, string>, dynamic: bool, s: Slot, v: Val) {
    (s.optional && v.Null?) || HasType(table, classes, dynamic, s.valueType, v)
  }

  ghost predicate WritesSlot(table: Table, s: Slot, v: Val, w: Val) {
    if s.optional && v.Null? then w.Null? else Writes(table, s.valueType, v, w)
  }

  predicate IsSlotDocument(table: Table, s: Slot, j: Val, mode: Mode) {
    (s.optional && j.Null?) || IsDocument(table, s.valueType, j, mode)
  }

  ghost predicate ReadsSlot(table: Table, classes: map<string, string>, s: Slot, j: Val, v: Val, mode: Mode) {
    if s.optional && j.Null? then v.Null? else Reads(table, classes, s.valueType, j, v, mode)
  }

  lemma SlotEncodes(table: Table, classes: map<string, string>, dynamic: bool, s: Slot, v: Val)
    ensures var r := EncodeVal(BuildEnv(table, classes, dynamic), SlotCodec(s.optional, s.valueType, dynamic), v);
      && (r.Some? <==> FitsSlot(table, classes, dynamic, s, v))
      && (r.Some? ==> WritesSlot(table, s, v, r.value))
  {
    hide BuildEnv, EncodeVal, HasType, Writes;
    var env, c := BuildEnv(table, classes, dynamic), Build(s.valueType, dynamic);
    EncodesExactly(table, classes, dynamic, s.valueType, v);
    EncodesRightly(table, classes, dynamic, s.valueType, v);
    OptionalEncoded(env, c, v);
    if v.Null? && AcceptsNull(c) {
      NullEncodes(env, c);
    }
  }

  lemma OptionalEncoded(env: Env, c: Codec, v: Val)
    ensures EncodeVal(env, OptionalCodec(c), v) == if v.Null? then Some(Null) else EncodeVal(env, c, v)
  {
  }

  lemma NullEncodes(env: Env, c: Codec)
    requires AcceptsNull(c)
    ensures EncodeVal(env, c, Null) == Some(Null)
  {
  }

  lemma SlotDecodes(table: Table, classes: map<string, string>, dynamic: bool, s: Slot, j: Val, mode: Mode)
    ensures var r := DecodeVal(BuildEnv(table, classes, dynamic), SlotCodec(s.optional, s.valueType, dynamic), j, mode);
      && (r.Some? <==> IsSlotDocument(table, s, j, mode))
      && (r.Some? ==> ReadsSlot(table, classes, s, j, r.value, mode))
  {
    hide BuildEnv, DecodeVal, IsDocument, Reads;
    var env, c := BuildEnv(table, classes, dynamic), Build(s.valueType, dynamic);
    DecodesExactly(table, classes, dynamic, s.valueType, j, mode);
    OptionalReading(env, c, j, mode);
    if j.Null? && AcceptsNull(c) {
      NullDecodes(env, c, mode);
    }
  }

  lemma OptionalReading(env: Env, c: Codec, j: Val, mode: Mode)
    ensures DecodeVal(env, OptionalCodec(c), j, mode) == if j.Null? then Some(Null) else DecodeVal(env, c, j, mode)
  {
  }

  lemma NullDecodes(env: Env, c: Codec, mode: Mode)
    requires AcceptsNull(c)
    ensures DecodeVal(env, c, Null, mode) == Some(Null)
  {
  }

  // ---------------------------------------------------------------- the number of arguments

  /** No required parameter is left without an argument, and no argument without a parameter. */
  predicate CountFits(params: seq<Slot>, count: nat) {
    count <= |params| && forall i :: count <= i < |params| ==> params[i].optional
  }

  lemma CountExactly(params: seq<Slot>, result: Option<Slot>, dynamic: bool, count: nat)
    ensures ArityOk(PlanOf(params, result, dynamic), count) <==> CountFits(params, count)
  {
    var ps := PlanOf(params, result, dynamic).params;
    MinArgsIs(ps);
    assert forall i :: 0 <= i < |params| ==> ps[i].optional == params[i].optional;
    if count < MinArgs(ps) {
      assert !params[MinArgs(ps) - 1].optional;
    }
  }

  // ---------------------------------------------------------------- the caller's side

  predicate ArgFits(table: Table, classes: map<string, string>, dynamic: bool, params: seq<Slot>, args: seq<Val>, i: nat)
    requires i < |params|
  {
    FitsSlot(table, classes, dynamic, params[i], Arg(args, i))
  }

  /** `encode_args` sends a call exactly when the number of arguments fits and each has its parameter's
      type; it sends what each stands for. Otherwise it names the count, or the first argument that does not fit. */
  lemma ArgumentsExactly(table: Table, classes: map<string, string>, dynamic: bool, params: seq<Slot>, result: Option<Slot>, args: seq<Val>)
    ensures var r := EncodedArgs(BuildEnv(table, classes, dynamic), PlanOf(params, result, dynamic), args);
      && (r.Ok? <==> CountFits(params, |args|) && forall i :: 0 <= i < |params| ==> ArgFits(table, classes, dynamic, params, args, i))
      && (r.Ok? ==> |r.value| == |params| && forall i :: 0 <= i < |params| ==> WritesSlot(table, params[i], Arg(args, i), r.value[i]))
      && (!CountFits(params, |args|) ==> r == Err(CallError.Arity(|args|)))
      && (CountFits(params, |args|) && r.Err? ==> IsFirstMisfit(table, classes, dynamic, params, args, r.error))
  {
    hide BuildEnv, EncodeVal, FitsSlot, WritesSlot, SlotCodec, MinArgs;
    CountExactly(params, result, dynamic, |args|);
    UpToExactly(table, classes, dynamic, params, result, args, |params|);
  }

  predicate IsFirstMisfit(table: Table, classes: map<string, string>, dynamic: bool, params: seq<Slot>, args: seq<Val>, error: CallError) {
    && error.Argument? && error.index < |params|
    && !ArgFits(table, classes, dynamic, params, args, error.index)
    && forall i :: 0 <= i < error.index ==> ArgFits(table, classes, dynamic, params, args, i)
  }

  lemma {:induction false} UpToExactly(table: Table, classes: map<string, string>, dynamic: bool, params: seq<Slot>,
                                       result: Option<Slot>, args: seq<Val>, n: nat)
    requires n <= |params|
    ensures |PlanOf(params, result, dynamic).params| == |params|
    ensures var r := EncodeUpTo(BuildEnv(table, classes, dynamic), PlanOf(params, result, dynamic).params, args, n);
      && (r.Ok? ==> forall i :: 0 <= i < n ==> ArgFits(table, classes, dynamic, params, args, i))
      && (r.Ok? ==> forall i :: 0 <= i < n ==> WritesSlot(table, params[i], Arg(args, i), r.value[i]))
      && (r.Err? ==> IsFirstMisfit(table, classes, dynamic, params, args, r.error) && r.error.index < n)
    decreases n
  {
    hide BuildEnv, EncodeVal, FitsSlot, WritesSlot, SlotCodec;
    if n > 0 {
      UpToExactly(table, classes, dynamic, params, result, args, n - 1);
      SlotEncodes(table, classes, dynamic, params[n - 1], Arg(args, n - 1));
    }
  }

  // ---------------------------------------------------------------- the provider's side

  predicate WireFits(table: Table, params: seq<Slot>, wire: seq<Val>, mode: Mode, i: nat)
    requires i < |params|
  {
    IsSlotDocument(table, params[i], Arg(wire, i), mode)
  }

  /** The provider calls its implementation exactly when the number of arguments fits and each is, read
      leniently, a document of its parameter's type; with what each stands for. Otherwise the code of its
      refusal says which of the two was wrong. */
  lemma HandlesExactly(table: Table, classes: map<string, string>, dynamic: bool, params: seq<Slot>, result: Option<Slot>,
                       wire: seq<Val>, loose: Val -> Option<seq<Byte>>)
    ensures var r := HandledAs(BuildEnv(table, classes, dynamic), PlanOf(params, result, dynamic), wire, loose);
      && (r.Calls? <==> CountFits(params, |wire|) && forall i :: 0 <= i < |params| ==> WireFits(table, params, wire, Lenient(loose), i))
      && (r.Calls? ==> |r.values| == |params|)
      && (r.Calls? ==> forall i :: 0 <= i < |params| ==> ReadsSlot(table, classes, params[i], Arg(wire, i), r.values[i], Lenient(loose)))
      && (r.Rejected? ==> r.code == if CountFits(params, |wire|) then "dispatch_failed" else "invalid_args")
  {
    hide BuildEnv, DecodeVal, IsSlotDocument, ReadsSlot, SlotCodec, MinArgs;
    CountExactly(params, result, dynamic, |wire|);
    DecodeExactly(table, classes, dynamic, params, result, wire, Lenient(loose), |params|);
  }

  lemma {:induction false} DecodeExactly(table: Table, classes: map<string, string>, dynamic: bool, params: seq<Slot>,
                                         result: Option<Slot>, wire: seq<Val>, mode: Mode, n: nat)
    requires n <= |params|
    ensures |PlanOf(params, result, dynamic).params| == |params|
    ensures var r := DecodeUpTo(BuildEnv(table, classes, dynamic), PlanOf(params, result, dynamic).params, wire, mode, n);
      && (r.Some? <==> forall i :: 0 <= i < n ==> WireFits(table, params, wire, mode, i))
      && (r.Some? ==> forall i :: 0 <= i < n ==> ReadsSlot(table, classes, params[i], Arg(wire, i), r.value[i], mode))
    decreases n
  {
    hide BuildEnv, DecodeVal, IsSlotDocument, ReadsSlot, SlotCodec;
    if n > 0 {
      DecodeExactly(table, classes, dynamic, params, result, wire, mode, n - 1);
      SlotDecodes(table, classes, dynamic, params[n - 1], Arg(wire, n - 1), mode);
      assert WireFits(table, params, wire, mode, n - 1) <==> IsSlotDocument(table, params[n - 1], Arg(wire, n - 1), mode);
    }
  }

  // ---------------------------------------------------------------- the answer

  /** An implementation's answer is sent exactly when it fits the declared return; a method that
      declares none answers `true`. */
  lemma AnswersExactly(table: Table, classes: map<string, string>, dynamic: bool, params: seq<Slot>, result: Option<Slot>, v: Val)
    ensures var r := AnswerOf(BuildEnv(table, classes, dynamic), PlanOf(params, result, dynamic), v);
      if result.None? then
        r == Some(Bool(true))
      else
        && (r.Some? <==> FitsSlot(table, classes, dynamic, result.value, v))
        && (r.Some? ==> WritesSlot(table, result.value, v, r.value))
  {
    hide BuildEnv, EncodeVal, FitsSlot, WritesSlot, SlotCodec;
    if result.Some? {
      SlotEncodes(table, classes, dynamic, result.value, v);
    }
  }

  /** A provider's refusals. */
  datatype Refusal = DispatchFailed | InvalidArgs | UnknownMethod

  function CodeOf(r: Refusal): string {
    match r
    case DispatchFailed => "dispatch_failed"
    case InvalidArgs => "invalid_args"
    case UnknownMethod => "unknown_method"
  }

  /** `Reject.to_result`. */
  function RefusalDocument(r: Refusal, message: string, origin: string): Val {
    Dict(map[Name("code") := Str(CodeOf(r)), Name("message") := Str(message), Name("origin") := Str(origin)])
  }

  /** A result is folded into an exception exactly when it is a refusal, of whatever kind and with
      whatever message and origin; any other is decoded as the declared return has it. */
  lemma ResultsExactly(table: Table, classes: map<string, string>, dynamic: bool, params: seq<Slot>, result: Option<Slot>, w: Val)
    ensures var r := Plans.DecodeResult(BuildEnv(table, classes, dynamic), PlanOf(params, result, dynamic), w);
      && (r.Folded? <==> exists k: Refusal, m: string, o: string :: w == RefusalDocument(k, m, o))
      && (!r.Folded? ==>
            if result.None? then r == Value(Null)
            else
              && (r.Value? <==> IsSlotDocument(table, result.value, w, Strict))
              && (r.Value? ==> ReadsSlot(table, classes, result.value, w, r.v, Strict)))
  {
    hide BuildEnv, DecodeVal, IsSlotDocument, ReadsSlot, SlotCodec, IsRejection, RefusalDocument;
    RefusalsExactly(w);
    if result.Some? {
      SlotDecodes(table, classes, dynamic, result.value, w, Strict);
    }
  }

  lemma RefusalsExactly(w: Val)
    ensures IsRejection(w) <==> exists k: Refusal, m: string, o: string :: w == RefusalDocument(k, m, o)
  {
    if IsRejection(w) {
      var code := w.members[Name("code")].text;
      var k := if code == "dispatch_failed" then DispatchFailed else if code == "invalid_args" then InvalidArgs else UnknownMethod;
      var m, o := w.members[Name("message")].text, w.members[Name("origin")].text;
      assert RefusalDocument(k, m, o).members == w.members;
    }
    forall k: Refusal, m: string, o: string
      ensures IsRejection(RefusalDocument(k, m, o))
    {
      RefusalRejects(k, m, o);
    }
  }

  lemma RefusalRejects(k: Refusal, message: string, origin: string)
    ensures IsRejection(RefusalDocument(k, message, origin))
  {
    var members := RefusalDocument(k, message, origin).members;
    assert members.Keys == {Name("code"), Name("message"), Name("origin")};
  }

  /** Every refusal of `handle` is one of them. */
  lemma HandleRefuses(env: Env, plan: Plan, wire: seq<Val>, loose: Val -> Option<seq<Byte>>)
    ensures var r := HandledAs(env, plan, wire, loose); r.Rejected? ==> r.code in {CodeOf(InvalidArgs), CodeOf(DispatchFailed)}
  {
  }
}
