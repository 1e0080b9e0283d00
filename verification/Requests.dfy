/** Who completes a request's future (`src/logos_bridge/client.py`, `_send_request`, `_dispatch`,
`_expire`, `_on_disconnect`).

A future is made with its request, waits in the pending table, and is done once; whoever makes it done
is named here, and the request's coroutine leaves nothing pending behind. */
module Requests {
  import opened Wrappers
  import opened EventStream
  import opened ClientState
  import opened ClientInvariant
  import opened ClientRun
  import opened ClientSteps

  /** No future of `c` is touched. */
  ghost predicate Untouched(c: Client, d: Client) {
    forall id :: id in c.futures ==> id in d.futures && d.futures[id] == c.futures[id]
  }

  lemma AbortTouchesNone(c: Client, s: StreamId, maybe: bool)
    requires s in c.streams && !c.streams[s].task.Finished? && c.streams[s].task.k < |c.streams[s].sids|
    ensures AbortSubscribe(c, s, maybe).futures == c.futures
  {
  }

  lemma EndingTouchesNone(c: Client, s: StreamId, why: Cause, quiet: bool)
    requires s in c.streams
    ensures EndStream(c, s, why, quiet).futures == c.futures
  {
  }

  lemma {:induction false} LoopTouchesNone(c: Client, s: StreamId, refused: bool)
    requires AtLoop(c, s) && c.nextReq !in c.futures
    ensures Untouched(c, SubscribeLoop(c, s, refused))
    decreases |c.streams[s].sids| - c.streams[s].task.k
  {
    if AtEntry(c, s) {
      if !c.entries[Current(c, s)].state.Pending? {
        var d := SkipEntry(c, s);
        assert d.futures == c.futures && AtLoop(d, s);
        LoopTouchesNone(d, s, refused);
      } else if refused || !c.life.Open? {
        AbortTouchesNone(c, s, false);
      }
    }
  }

  lemma StartTouchesNone(c: Client, targets: seq<Target>, m: Option<nat>, refused: bool)
    requires c.nextReq !in c.futures
    ensures Untouched(c, StartSubscribe(c, targets, m, refused))
  {
    if c.life.Open? {
      LoopTouchesNone(NewStream(c, targets, m), c.nextStream, refused);
    }
  }

  /** A resumed `_subscribe` touches its own future only, and cancels it if it was still waiting. */
  lemma ResumeTouchesOwn(c: Client, id: ReqId, cancelled: bool, refused: bool)
    requires CanResumeSubscribe(c, id, cancelled) && c.nextReq !in c.futures
    ensures Untouched(FinishSend(c, id), ResumeSubscribe(c, id, cancelled, refused))
  {
    var s := c.waiting[id].stream;
    var c1 := Unsuspend(c, id);
    var outcome := if cancelled then Cancelled else c.futures[id];
    if outcome == Answered(true) {
      AckedTouchesNone(c1, s);
      LoopTouchesNone(Acked(c1, s), s, refused);
    } else {
      AbortTouchesNone(c1, s, outcome.Expired? || outcome.Cancelled?);
    }
  }

  lemma FramesTouch(c: Client, f: Frame)
    ensures !f.Response? ==> Dispatch(c, f).futures == c.futures
  {
    hide RouteEvent, RouteTermination;
    match f
    case Response(_, _) =>
    case EventFrame(x, data) => EventTouchesNone(c, x, data);
    case TerminatedFrame(x) => TerminationTouchesNone(c, x);
    case Uncorrelated =>
  }

  lemma EventTouchesNone(c: Client, x: Sid, data: nat)
    ensures RouteEvent(c, x, data).futures == c.futures
  {
    hide EndStream;
    if x in c.entries && c.entries[x].stream in c.streams {
      EndingTouchesNone(c, c.entries[x].stream, ByOverflow, true);
    }
  }

  lemma TerminationTouchesNone(c: Client, x: Sid)
    ensures RouteTermination(c, x).futures == c.futures
  {
    hide EndStream;
    if x in c.entries && c.entries[x].stream in c.streams {
      EndingTouchesNone(SetState(Unroute(c, x), x, Terminated), c.entries[x].stream, ByBridge(x), true);
    }
  }

  /** The step that completes a future with this outcome. */
  predicate Completes(step: Step, id: ReqId, outcome: Outcome) {
    match outcome
    case Waiting => false
    case Answered(ok) => step == Receive(Response(id, ok))
    case Expired => step == FireTimer(id)
    case Cut => step == Disconnect
    case Cancelled =>
      || step == CancelWait(id)
      || (step.Resume? && step.id == id && step.cancelled)
      || (step.FinishUnsubscribe? && step.id == id && step.cancelled)
      || (step.FinishCall? && step.id == id && step.cancelled)
      || step == SendFails(id)
  }

  /** A waiting future is completed only by its own response, its own timer, the disconnect, the
      cancellation of the coroutine that waits on it or the failure of its own send. */
  lemma CompletedOnlyBy(c: Client, step: Step, id: ReqId)
    requires Good(c) && Enabled(c, step) && id in c.futures && c.futures[id].Waiting?
    ensures var d := ClientState.Apply(c, step);
      id in d.futures && (d.futures[id].Waiting? || Completes(step, id, d.futures[id]))
  {
    NextUnused(c);
    StepTouches(c, step, id);
  }

  lemma NextUnused(c: Client)
    requires Good(c)
    ensures c.nextReq !in c.futures
  {
    GoodMeans(c);
    InvMeans(c);
  }

  lemma StepTouches(c: Client, step: Step, id: ReqId)
    requires Enabled(c, step) && id in c.futures && c.futures[id].Waiting? && c.nextReq !in c.futures
    ensures var d := ClientState.Apply(c, step);
      id in d.futures && (d.futures[id].Waiting? || Completes(step, id, d.futures[id]))
  {
    hide StartSubscribe, ResumeSubscribe, CloseStream, RunSpawned, ResumeUnsubscribe, Dispatch;
    hide OnDisconnect, CancelSpawned, SetQueue, SendRequest, Expire, CancelFuture, FinishSend;
    match step
    case SetLife(_) =>
    case Disconnect => DisconnectTouches(c, id);
    case Start(ts, m, refused) => StartTouchesNone(c, ts, m, refused);
    case Resume(r, cancelled, refused) => ResumeTouchesOwn(c, r, cancelled, refused); FinishTouches(c, r, id);
    case Close(s, nowait) => CloseTouchesNone(c, s, nowait);
    case RunTask(i) => RunTouchesNone(c, i);
    case CancelTask(i) => CancelTouchesNone(c, i);
    case FinishUnsubscribe(r, _) => ResumeUnsubscribeTouches(c, r); FinishTouches(c, r, id);
    case Call => SendTouchesNone(c, id);
    case FinishCall(r, _) => FinishTouches(c, r, id);
    case SendFails(r) =>
      FinishTouches(c, r, id);
      if !c.waiting[r].Caller? {
        ResumeUnsubscribeTouches(c, r);
      }
    case FireTimer(r) => ExpireTouches(c, r, id);
    case CancelWait(r) => CancelTouches(c, r, id);
    case Receive(f) => ReceiveTouches(c, f, id);
    case Take(s, expired, w) => QueueTouchesNone(c, s, EventStream.Apply(c.streams[s].queue, DoGet(expired, w)));
    case StopWaiting(s, w) => QueueTouchesNone(c, s, EventStream.Apply(c.streams[s].queue, DoUnwait(w)));
  }

  lemma SendTouchesNone(c: Client, id: ReqId)
    requires id in c.futures && id != c.nextReq
    ensures var d := SendRequest(c, Caller, Other(c.nextReq)); id in d.futures && d.futures[id] == c.futures[id]
  {
  }

  lemma FinishTouches(c: Client, r: ReqId, id: ReqId)
    requires r in c.futures && id in c.futures && c.futures[id].Waiting?
    ensures var d := FinishSend(c, r); id in d.futures && d.futures[id] == if r == id then Cancelled else Waiting
  {
  }

  lemma ExpireTouches(c: Client, r: ReqId, id: ReqId)
    requires id in c.futures && c.futures[id].Waiting?
    ensures var d := Expire(c, r); id in d.futures && (d.futures[id].Waiting? || (r == id && d.futures[id].Expired?))
  {
    if r in c.pending && r in c.futures && c.futures[r].Waiting? {
      assert Expire(c, r).futures == c.futures[r := Expired];
    } else {
      assert Expire(c, r).futures == c.futures;
    }
  }

  lemma CancelTouches(c: Client, r: ReqId, id: ReqId)
    requires r in c.waiting && id in c.futures && c.futures[id].Waiting?
    ensures var d := CancelFuture(c, r); id in d.futures && (d.futures[id].Waiting? || (r == id && d.futures[id].Cancelled?))
  {
  }

  lemma DisconnectTouches(c: Client, id: ReqId)
    requires id in c.futures && c.futures[id].Waiting?
    ensures var d := OnDisconnect(c); id in d.futures && (d.futures[id].Waiting? || d.futures[id].Cut?)
  {
  }

  lemma CancelTouchesNone(c: Client, i: nat)
    requires i < |c.spawned| && !c.spawned[i].quiet
    ensures CancelSpawned(c, i).futures == c.futures
  {
  }

  lemma QueueTouchesNone(c: Client, s: StreamId, q: Queue)
    requires s in c.streams
    ensures SetQueue(c, s, q).futures == c.futures
  {
  }

  lemma ResumeUnsubscribeTouches(c: Client, id: ReqId)
    requires id in c.futures && id in c.waiting && c.waiting[id].Unsubscriber?
    ensures ResumeUnsubscribe(c, id).futures == FinishSend(c, id).futures
  {
  }

  lemma ReceiveTouches(c: Client, f: Frame, id: ReqId)
    requires id in c.futures && c.futures[id].Waiting?
    ensures var d := Dispatch(c, f);
      id in d.futures && (d.futures[id].Waiting? || (d.futures[id].Answered? && f == Response(id, d.futures[id].ok)))
  {
    if f.Response? {
      AnswerTouches(c, f.id, f.ok, id);
    } else {
      hide Dispatch;
      FramesTouch(c, f);
    }
  }

  lemma AnswerTouches(c: Client, r: ReqId, ok: bool, id: ReqId)
    requires id in c.futures && c.futures[id].Waiting?
    ensures var d := RouteResponse(c, r, ok);
      id in d.futures && (d.futures[id].Waiting? || (r == id && d.futures[id] == Answered(ok)))
  {
    if r in c.pending && r in c.futures && c.futures[r].Waiting? {
      assert RouteResponse(c, r, ok).futures == c.futures[r := Answered(ok)];
    } else {
      assert RouteResponse(c, r, ok).futures == c.futures;
    }
  }

  lemma CloseTouchesNone(c: Client, s: StreamId, nowait: bool)
    requires s in c.streams
    ensures CloseStream(c, s, nowait).futures == c.futures
  {
  }

  lemma RunTouchesNone(c: Client, i: nat)
    requires i < |c.spawned| && c.nextReq !in c.futures
    ensures Untouched(c, RunSpawned(c, i))
  {
  }

  /** Whatever ends it, a request whose coroutine has returned is no longer pending. */
  lemma ReturnedNotPending(c: Client, step: Step)
    requires Good(c) && Enabled(c, step) && (step.Resume? || step.FinishUnsubscribe? || step.FinishCall? || step.SendFails?)
    ensures var d := ClientState.Apply(c, step);
      step.id !in d.pending && step.id !in d.waiting && step.id in d.futures && !d.futures[step.id].Waiting?
  {
    hide ResumeSubscribe, ResumeUnsubscribe, FinishSend, Good;
    NextUnused(c);
    if step.Resume? {
      ResumeLeaves(c, step.id, step.cancelled, step.refused);
      ResumeTouchesOwn(c, step.id, step.cancelled, step.refused);
      FinishLeaves(c, step.id);
    } else {
      FinishLeaves(c, step.id);
      if c.waiting[step.id].Unsubscriber? {
        UnsubscribeLeaves(c, step.id);
      }
    }
  }

  lemma FinishLeaves(c: Client, id: ReqId)
    requires id in c.futures
    ensures var d := FinishSend(c, id); id !in d.pending && id !in d.waiting && id in d.futures && !d.futures[id].Waiting?
  {
  }

  lemma UnsubscribeLeaves(c: Client, id: ReqId)
    requires id in c.futures && id in c.waiting && c.waiting[id].Unsubscriber?
    ensures var d, e := ResumeUnsubscribe(c, id), FinishSend(c, id);
      d.pending == e.pending && d.waiting == e.waiting && d.futures == e.futures
  {
  }

  lemma ResumeLeaves(c: Client, id: ReqId, cancelled: bool, refused: bool)
    requires CanResumeSubscribe(c, id, cancelled) && c.nextReq !in c.futures
    ensures var d := ResumeSubscribe(c, id, cancelled, refused); id !in d.pending && id !in d.waiting
  {
    var s := c.waiting[id].stream;
    var c1 := Unsuspend(c, id);
    var outcome := if cancelled then Cancelled else c.futures[id];
    if outcome == Answered(true) {
      AckedTouchesNone(c1, s);
      LoopLeaves(Acked(c1, s), s, refused, id);
    }
  }

  lemma {:induction false} LoopLeaves(c: Client, s: StreamId, refused: bool, id: ReqId)
    requires AtLoop(c, s) && id != c.nextReq && id !in c.pending && id !in c.waiting
    ensures var d := SubscribeLoop(c, s, refused); id !in d.pending && id !in d.waiting
    decreases |c.streams[s].sids| - c.streams[s].task.k
  {
    if AtEntry(c, s) && !c.entries[Current(c, s)].state.Pending? {
      LoopLeaves(SkipEntry(c, s), s, refused, id);
    }
  }
}
