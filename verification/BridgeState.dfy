/** One connection at the bridge (`src/logos_bridge/testing/_fake.py`). */
module BridgeState {
  import opened ClientState

  // `FakeBridge` and `FakeConnection` as values, with `poison_failed_subscribe_ids` off.

  /** A subscribe handler that has not finished; `at` is the request's place among the requests. */
  datatype Handler = Handler(sid: Sid, at: nat)

  /** `handlers` and `calls` are the requests whose answer is still to come; `posted` is every frame
      queued for the client, in order. History: `answered`, where each answered request is. */
  datatype Bridge = Bridge(
    open: bool,
    subs: map<Sid, Target>,
    subscribers: map<Sid, Target>,
    handlers: map<ReqId, Handler>,
    calls: map<ReqId, nat>,
    posted: seq<Frame>,
    answered: map<ReqId, nat>)

  const NewBridge := Bridge(true, map[], map[], map[], map[], [], map[])

  /** How a request fares: answered at once, later, or never (`NoResponse`). */
  datatype Fate = Now(ok: bool) | Later | Never

  function Post(b: Bridge, f: Frame): Bridge {
    b.(posted := b.posted + [f])
  }

  /** The one answer a request gets (`_Batch.fill`); `at` is its place among the requests. */
  function Answer(b: Bridge, id: ReqId, ok: bool, at: nat): Bridge {
    Post(b, Response(id, ok)).(answered := b.answered[id := at])
  }

  function Claim(b: Bridge, x: Sid, t: Target): Bridge {
    b.(subs := b.subs[x := t], subscribers := b.subscribers[x := t])
  }

  function Unclaim(b: Bridge, x: Sid): Bridge {
    b.(subs := b.subs - {x}, subscribers := b.subscribers - {x})
  }

  /** `_subscribe`: refused, already claimed, or claimed and then handled. */
  function OnSubscribe(b: Bridge, id: ReqId, x: Sid, t: Target, at: nat, permitted: bool, max: nat, fate: Fate): Bridge {
    if !permitted || |b.subs| >= max then Answer(b, id, false, at)
    else if x in b.subs then Answer(b, id, true, at)
    else
      var b1 := Claim(b, x, t);
      match fate
      case Now(true) => Answer(b1, id, true, at)
      case Now(false) => Answer(Unclaim(b1, x), id, false, at)
      case Later => b1.(handlers := b1.handlers[id := Handler(x, at)])
      case Never => b1
  }

  /** A delayed subscribe handler acknowledges or fails. */
  function HandlerDone(b: Bridge, id: ReqId, ok: bool): Bridge
    requires id in b.handlers
  {
    var h := b.handlers[id];
    var b1 := b.(handlers := b.handlers - {id});
    if ok then Answer(b1, id, true, h.at) else Answer(Unclaim(b1, h.sid), id, false, h.at)
  }

  /** `_unsubscribe`: idempotent, always acknowledged. */
  function OnUnsubscribe(b: Bridge, id: ReqId, x: Sid, at: nat): Bridge {
    Answer(Unclaim(b, x), id, true, at)
  }

  function OnOther(b: Bridge, id: ReqId, at: nat, fate: Fate): Bridge {
    match fate
    case Now(ok) => Answer(b, id, ok, at)
    case Later => b.(calls := b.calls[id := at])
    case Never => b
  }

  function CallDone(b: Bridge, id: ReqId, ok: bool): Bridge
    requires id in b.calls
  {
    Answer(b.(calls := b.calls - {id}), id, ok, b.calls[id])
  }

  /** `terminate`: the subscribers `xs` are dropped, each told so. */
  function TerminateAll(b: Bridge, xs: seq<Sid>): Bridge {
    b.(subs := b.subs - (set x | x in xs), subscribers := b.subscribers - (set x | x in xs),
       posted := b.posted + seq(|xs|, i requires 0 <= i < |xs| => TerminatedFrame(xs[i])))
  }

  function CloseConnection(b: Bridge): Bridge {
    b.(open := false, subs := map[], subscribers := map[])
  }

  // ---------------------------------------------------------------- what every handler keeps

  /** A request is answered once at most. */
  predicate AnsweredOnce(posted: seq<Frame>) {
    forall i, j :: 0 <= i < j < |posted| && posted[i].Response? && posted[j].Response? ==> posted[i].id != posted[j].id
  }

  /** Both tables hold the same ids, none once the connection is closed; a request is answered, or still
      to be answered by one handler, and its answer is posted once. */
  ghost predicate BridgeRight(b: Bridge) {
    && b.subs == b.subscribers
    && (!b.open ==> b.subs == map[])
    && b.handlers.Keys !! b.calls.Keys !! b.answered.Keys
    && (forall f :: f in b.posted && f.Response? ==> f.id in b.answered)
    && AnsweredOnce(b.posted)
  }

  /** A request id that no request before it had. */
  predicate Unused(b: Bridge, id: ReqId) {
    id !in b.answered && id !in b.handlers && id !in b.calls
  }

  lemma PostKeeps(b: Bridge, f: Frame)
    requires BridgeRight(b) && (f.Response? ==> f.id !in b.answered)
    ensures AnsweredOnce(Post(b, f).posted)
    ensures !f.Response? ==> BridgeRight(Post(b, f))
  {
    var n := |b.posted|;
    forall i, j | 0 <= i < j < n + 1 && Post(b, f).posted[i].Response? && Post(b, f).posted[j].Response?
      ensures Post(b, f).posted[i].id != Post(b, f).posted[j].id
    {
      assert b.posted[i] in b.posted;
    }
  }

  lemma AnswerKeeps(b: Bridge, id: ReqId, ok: bool, at: nat)
    requires BridgeRight(b) && Unused(b, id)
    ensures BridgeRight(Answer(b, id, ok, at))
  {
    PostKeeps(b, Response(id, ok));
  }

  lemma UnclaimKeeps(b: Bridge, x: Sid)
    requires BridgeRight(b)
    ensures BridgeRight(Unclaim(b, x))
  {
    assert b.open || Unclaim(b, x).subs == map[];
  }

  lemma OnSubscribeKeeps(b: Bridge, id: ReqId, x: Sid, t: Target, at: nat, permitted: bool, max: nat, fate: Fate)
    requires BridgeRight(b) && b.open && Unused(b, id)
    ensures BridgeRight(OnSubscribe(b, id, x, t, at, permitted, max, fate))
  {
    if !permitted || |b.subs| >= max {
      AnswerKeeps(b, id, false, at);
    } else if x in b.subs {
      AnswerKeeps(b, id, true, at);
    } else {
      var b1 := Claim(b, x, t);
      match fate {
        case Now(true) => AnswerKeeps(b1, id, true, at);
        case Now(false) =>
          UnclaimKeeps(b1, x);
          AnswerKeeps(Unclaim(b1, x), id, false, at);
        case Later =>
        case Never =>
      }
    }
  }

  lemma HandlerDoneKeeps(b: Bridge, id: ReqId, ok: bool)
    requires BridgeRight(b) && id in b.handlers
    ensures BridgeRight(HandlerDone(b, id, ok))
  {
    var h := b.handlers[id];
    var b1 := b.(handlers := b.handlers - {id});
    if ok {
      AnswerKeeps(b1, id, true, h.at);
    } else {
      UnclaimKeeps(b1, h.sid);
      AnswerKeeps(Unclaim(b1, h.sid), id, false, h.at);
    }
  }

  lemma OnUnsubscribeKeeps(b: Bridge, id: ReqId, x: Sid, at: nat)
    requires BridgeRight(b) && Unused(b, id)
    ensures BridgeRight(OnUnsubscribe(b, id, x, at))
  {
    UnclaimKeeps(b, x);
    AnswerKeeps(Unclaim(b, x), id, true, at);
  }

  // ---------------------------------------------------------------- what a request comes to

  /** What is queued at once for a subscribe: a refusal if it is not permitted or the connection holds `max` ids;
      else an acknowledgement of an id that is claimed already; else what its handler says, if it has said it. */
  function SubscribeAnswer(b: Bridge, id: ReqId, x: Sid, permitted: bool, max: nat, fate: Fate): seq<Frame> {
    if permitted && |b.subs| < max then
      if x in b.subs then [Response(id, true)] else if fate.Now? then [Response(id, fate.ok)] else []
    else
      [Response(id, false)]
  }

  /** A subscribe claims an id exactly when it is permitted, below the limit and new, and its handler has not
      failed at once; an id claimed before keeps its first target, and the limit is never passed. */
  lemma SubscribeExactly(b: Bridge, id: ReqId, x: Sid, t: Target, at: nat, permitted: bool, max: nat, fate: Fate)
    requires b.subs == b.subscribers
    ensures var d := OnSubscribe(b, id, x, t, at, permitted, max, fate);
      var claims := permitted && |b.subs| < max && x !in b.subs && fate != Now(false);
      && d.subs == d.subscribers == (if claims then b.subs[x := t] else b.subs)
      && (|b.subs| <= max ==> |d.subs| <= max)
      && d.posted == b.posted + SubscribeAnswer(b, id, x, permitted, max, fate)
      && d.handlers == (if claims && fate.Later? then b.handlers[id := Handler(x, at)] else b.handlers)
      && d.calls == b.calls && d.open == b.open
  {
    hide Answer;
    AnswerIs(b, id, false, at);
    AnswerIs(b, id, true, at);
    var b1 := Claim(b, x, t);
    AnswerIs(b1, id, true, at);
    AnswerIs(Unclaim(b1, x), id, false, at);
    assert x !in b.subs ==> b.subs[x := t] - {x} == b.subs;
    assert b.posted + [] == b.posted;
  }

  lemma AnswerIs(b: Bridge, id: ReqId, ok: bool, at: nat)
    ensures Answer(b, id, ok, at) == b.(posted := b.posted + [Response(id, ok)], answered := b.answered[id := at])
  {
  }

  /** A delayed handler answers once, as it says; if it fails, and only then, its id is given back. */
  lemma HandlerExactly(b: Bridge, id: ReqId, ok: bool)
    requires id in b.handlers && b.subs == b.subscribers
    ensures var d, x := HandlerDone(b, id, ok), b.handlers[id].sid;
      && d.subs == d.subscribers && (forall y :: y in d.subs <==> y in b.subs && (ok || y != x))
      && (forall y :: y in d.subs ==> d.subs[y] == b.subs[y])
      && d.posted == b.posted + [Response(id, ok)] && id !in d.handlers
      && (forall r :: r != id ==> (r in d.handlers <==> r in b.handlers))
  {
  }

  /** An unsubscribe is acknowledged whether the id was claimed or not, and gives back that id only. */
  lemma UnsubscribeExactly(b: Bridge, id: ReqId, x: Sid, at: nat)
    requires b.subs == b.subscribers
    ensures var d := OnUnsubscribe(b, id, x, at);
      && d.subs == d.subscribers && (forall y :: y in d.subs <==> y in b.subs && y != x)
      && (forall y :: y in d.subs ==> d.subs[y] == b.subs[y])
      && d.posted == b.posted + [Response(id, true)] && d.handlers == b.handlers && d.calls == b.calls
  {
  }

  /** A termination drops the ids in `xs`, and those only, and tells the client of each, in order. */
  lemma TerminateExactly(b: Bridge, xs: seq<Sid>)
    ensures var d := TerminateAll(b, xs);
      && (forall y :: y in d.subs <==> y in b.subs && y !in xs)
      && (forall y :: y in d.subs ==> d.subs[y] == b.subs[y])
      && |d.posted| == |b.posted| + |xs| && d.posted[..|b.posted|] == b.posted
      && (forall i :: 0 <= i < |xs| ==> d.posted[|b.posted| + i] == TerminatedFrame(xs[i]))
  {
  }
}
