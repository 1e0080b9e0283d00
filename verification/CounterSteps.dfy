/** What each step adds to the client's counters (`src/logos_bridge/client.py`, `_dispatch`, `_route_event`): a response
without a pending request and an event without a routed id add one each, and no other frame, step or part of a step
adds anything. */
module CounterSteps {
  import opened Wrappers
  import opened EventStream
  import opened ClientState
  import opened ClientInvariant
  import opened ClientRun
  import opened BridgeState
  import opened Joint
  import opened JointResults

  datatype Counts = Counts(late: nat, unrouted: nat)

  function CountsOf(c: Client): Counts {
    Counts(c.late, c.unrouted)
  }

  /** What one frame adds: a response whose request is not pending, an event whose id is not routed. */
  function Counted(c: Client, f: Frame): Counts {
    match f
    case Response(id, _) => Counts(if id in c.pending then 0 else 1, 0)
    case EventFrame(x, _) => Counts(0, if x in c.subs then 0 else 1)
    case _ => Counts(0, 0)
  }

  function Plus(a: Counts, b: Counts): Counts {
    Counts(a.late + b.late, a.unrouted + b.unrouted)
  }

  lemma EndCounts(c: Client, s: StreamId, why: Cause, quiet: bool)
    requires s in c.streams
    ensures CountsOf(EndStream(c, s, why, quiet)) == CountsOf(c)
  {
    hide Keep;
  }

  lemma AbortCounts(c: Client, s: StreamId, maybe: bool)
    requires s in c.streams && !c.streams[s].task.Finished? && c.streams[s].task.k < |c.streams[s].sids|
    ensures CountsOf(AbortSubscribe(c, s, maybe)) == CountsOf(c)
  {
    hide Keep;
  }

  lemma SkipCounts(c: Client, s: StreamId)
    requires AtEntry(c, s)
    ensures var d := SkipEntry(c, s); CountsOf(d) == CountsOf(c) && AtLoop(d, s)
    ensures var d := SkipEntry(c, s); d.streams[s].task.k == c.streams[s].task.k + 1 && d.streams[s].sids == c.streams[s].sids
  {
  }

  lemma SendCounts(c: Client, s: StreamId)
    requires AtEntry(c, s)
    ensures CountsOf(SendSubscribe(c, s)) == CountsOf(c)
  {
  }

  lemma {:induction false} LoopCounts(c: Client, s: StreamId, refused: bool)
    requires AtLoop(c, s)
    ensures CountsOf(SubscribeLoop(c, s, refused)) == CountsOf(c)
    decreases |c.streams[s].sids| - c.streams[s].task.k
  {
    hide AbortSubscribe, SendSubscribe, SkipEntry;
    if AtEntry(c, s) {
      if !c.entries[Current(c, s)].state.Pending? {
        SkipCounts(c, s);
        LoopCounts(SkipEntry(c, s), s, refused);
      } else {
        AbortCounts(c, s, false);
        SendCounts(c, s);
      }
    }
  }

  lemma StartCounts(c: Client, targets: seq<Target>, maxPending: Option<nat>, refused: bool)
    ensures CountsOf(StartSubscribe(c, targets, maxPending, refused)) == CountsOf(c)
  {
    hide SubscribeLoop;
    if c.life.Open? {
      LoopCounts(NewStream(c, targets, maxPending), c.nextStream, refused);
    }
  }

  lemma AckedCounts(c: Client, s: StreamId)
    requires s in c.streams && c.streams[s].task.Resumed? && c.streams[s].task.k < |c.streams[s].sids|
    requires Current(c, s) in c.entries
    ensures CountsOf(Acked(c, s)) == CountsOf(c) && AtLoop(Acked(c, s), s)
  {
    hide SpawnQuiet;
    var x := Current(c, s);
    SpawnCounts(SetState(Unroute(c, x), x, Released), [x]);
  }

  lemma SpawnCounts(c: Client, xs: seq<Sid>)
    ensures CountsOf(SpawnQuiet(c, xs)) == CountsOf(c) && SpawnQuiet(c, xs).streams == c.streams
  {
  }

  lemma ResumeCounts(c: Client, id: ReqId, cancelled: bool, refused: bool)
    requires CanResumeSubscribe(c, id, cancelled)
    ensures CountsOf(ResumeSubscribe(c, id, cancelled, refused)) == CountsOf(c)
  {
    hide SubscribeLoop, AbortSubscribe, Acked;
    var s, e := c.waiting[id].stream, Unsuspend(c, id);
    if !cancelled && c.futures[id] == Answered(true) {
      AckedCounts(e, s);
      LoopCounts(Acked(e, s), s, refused);
    } else {
      AbortCounts(e, s, true);
      AbortCounts(e, s, false);
    }
  }

  lemma FrameCounts(c: Client, f: Frame)
    requires Good(c)
    ensures CountsOf(Dispatch(c, f)) == Plus(CountsOf(c), Counted(c, f))
  {
    RoutedInTables(c);
    hide Good, RouteEvent, RouteTermination, RouteResponse;
    match f
    case EventFrame(x, data) => EventCounts(c, x, data);
    case TerminatedFrame(x) => TerminationCounts(c, x);
    case Response(id, ok) => ResponseCounts(c, id, ok);
    case Uncorrelated =>
  }

  lemma EventCounts(c: Client, x: Sid, data: nat)
    requires x in c.subs ==> x in c.entries
    ensures CountsOf(RouteEvent(c, x, data)) == Plus(CountsOf(c), Counted(c, EventFrame(x, data)))
  {
    hide EndStream;
    if x in c.entries && c.entries[x].stream in c.streams {
      EndCounts(c, c.entries[x].stream, ByOverflow, true);
    }
  }

  lemma TerminationCounts(c: Client, x: Sid)
    ensures CountsOf(RouteTermination(c, x)) == CountsOf(c)
  {
    hide EndStream;
    if x in c.entries && c.entries[x].stream in c.streams {
      EndCounts(SetState(Unroute(c, x), x, Terminated), c.entries[x].stream, ByBridge(x), true);
    }
  }

  lemma ResponseCounts(c: Client, id: ReqId, ok: bool)
    ensures CountsOf(RouteResponse(c, id, ok)) == Plus(CountsOf(c), Counted(c, Response(id, ok)))
  {
  }

  lemma RoutedInTables(c: Client)
    requires Good(c)
    ensures forall x :: x in c.subs ==> x in c.entries
  {
    GoodMeans(c);
    InvMeans(c);
  }

  lemma PlainCounts(c: Client, step: Step)
    requires Enabled(c, step) && !step.Start? && !step.Resume? && !step.Close? && !step.Receive?
    ensures CountsOf(ClientState.Apply(c, step)) == CountsOf(c)
  {
    hide RunSpawned, ResumeUnsubscribe, Expire, CancelFuture;
    match step
    case RunTask(i) => RunCounts(c, i);
    case FinishUnsubscribe(id, _) => ReturnCounts(c, id);
    case SendFails(id) =>
      if !c.waiting[id].Caller? {
        ReturnCounts(c, id);
      }
    case FireTimer(id) => ExpireCounts(c, id);
    case CancelWait(id) => CancelCounts(c, id);
    case _ =>
  }

  lemma RunCounts(c: Client, i: nat)
    requires i < |c.spawned|
    ensures CountsOf(RunSpawned(c, i)) == CountsOf(c)
  {
  }

  lemma ReturnCounts(c: Client, id: ReqId)
    requires id in c.futures && id in c.waiting && c.waiting[id].Unsubscriber?
    ensures CountsOf(ResumeUnsubscribe(c, id)) == CountsOf(c)
  {
  }

  lemma ExpireCounts(c: Client, id: ReqId)
    ensures CountsOf(Expire(c, id)) == CountsOf(c)
  {
  }

  lemma CancelCounts(c: Client, id: ReqId)
    requires id in c.waiting
    ensures CountsOf(CancelFuture(c, id)) == CountsOf(c)
  {
  }

  lemma CloseCounts(c: Client, s: StreamId, nowait: bool)
    requires s in c.streams
    ensures CountsOf(CloseStream(c, s, nowait)) == CountsOf(c)
  {
    hide EndStream;
    EndCounts(c, s, ByClient, nowait);
  }

  lemma StepCounts(c: Client, step: Step)
    requires Enabled(c, step) && !step.Receive?
    ensures CountsOf(ClientState.Apply(c, step)) == CountsOf(c)
  {
    hide StartSubscribe, ResumeSubscribe, CloseStream, RunSpawned, ResumeUnsubscribe, CountsOf;
    match step
    case Start(ts, m, refused) => StartCounts(c, ts, m, refused);
    case Resume(id, cancelled, refused) => ResumeCounts(c, id, cancelled, refused);
    case Close(s, nowait) => CloseCounts(c, s, nowait);
    case _ => PlainCounts(c, step);
  }
}
