/** Runs in which no gathered unsubscribe is cancelled before its first turn lose nothing
(`src/logos_bridge/client.py`, `_close_stream`).

An unsubscribe is lost when its task goes away before it has sent anything while the connection is
open; of all steps only `CancelTask` does that, so a run without it keeps the bridge's subscribers and
the client's active ids together. */
module Uncancelled {
  import opened Wrappers
  import opened EventStream
  import opened ClientState
  import opened BridgeState
  import opened Joint
  import opened JointResults

  /** No unsubscribe was cancelled before it ran. */
  ghost predicate NoneLost(es: map<Sid, Entry>) {
    forall x :: x in es ==> !es[x].hold.Lost?
  }

  predicate Cancels(m: Move) {
    m.ClientMove? && m.step.CancelTask?
  }

  ghost predicate LeadsQuietly(s: System, t: System) {
    exists m :: CanMove(s, m) && !Cancels(m) && t == After(s, m)
  }

  /** A run in which `unsubscribe()` is never cancelled while a request of its has not gone out. */
  ghost predicate QuietRun(trace: seq<System>) {
    && trace != [] && trace[0] == Joint.Start
    && forall i :: 0 <= i < |trace| - 1 ==> LeadsQuietly(trace[i], trace[i + 1])
  }

  // ---------------------------------------------------------------- the pieces of a step

  lemma SpawningLosesNone(c: Client, xs: seq<Sid>, quiet: bool)
    requires NoneLost(c.entries)
    ensures NoneLost(SpawnAll(c, xs, quiet).entries) && NoneLost(SpawnQuiet(c, xs).entries)
  {
  }

  lemma EndingLosesNone(c: Client, s: StreamId, why: Cause, quiet: bool)
    requires NoneLost(c.entries) && s in c.streams
    ensures NoneLost(EndStream(c, s, why, quiet).entries)
  {
    hide SpawnAll, SpawnQuiet;
    var c1 := EndQueue(c, s, why);
    assert NoneLost(Detach(c1, s).entries);
    SpawningLosesNone(Detach(c1, s), LiveSids(c1, s), false);
  }

  lemma AbortLosesNone(c: Client, s: StreamId, maybe: bool)
    requires NoneLost(c.entries) && s in c.streams && !c.streams[s].task.Finished? && c.streams[s].task.k < |c.streams[s].sids|
    ensures NoneLost(AbortSubscribe(c, s, maybe).entries)
  {
    forall x | x in AbortSubscribe(c, s, maybe).entries
      ensures !AbortSubscribe(c, s, maybe).entries[x].hold.Lost?
    {
    }
  }

  lemma SendLosesNone(c: Client, s: StreamId)
    requires NoneLost(c.entries) && AtEntry(c, s)
    ensures NoneLost(SendSubscribe(c, s).entries)
  {
  }

  lemma SkipLosesNone(c: Client, s: StreamId)
    requires NoneLost(c.entries) && AtEntry(c, s)
    ensures NoneLost(SkipEntry(c, s).entries)
  {
  }

  lemma {:induction false} LoopLosesNone(c: Client, s: StreamId, refused: bool)
    requires NoneLost(c.entries) && AtLoop(c, s)
    ensures NoneLost(SubscribeLoop(c, s, refused).entries)
    decreases |c.streams[s].sids| - c.streams[s].task.k
  {
    hide AbortSubscribe, SendSubscribe, NoneLost;
    if AtEntry(c, s) {
      if !c.entries[Current(c, s)].state.Pending? {
        SkipLosesNone(c, s);
        LoopLosesNone(SkipEntry(c, s), s, refused);
      } else {
        AbortLosesNone(c, s, false);
        SendLosesNone(c, s);
      }
    }
  }

  lemma NewLosesNone(c: Client, targets: seq<Target>, m: Option<nat>)
    requires NoneLost(c.entries)
    ensures NoneLost(NewStream(c, targets, m).entries)
  {
  }

  lemma AckedLosesNone(c: Client, s: StreamId)
    requires NoneLost(c.entries) && s in c.streams && c.streams[s].task.Resumed? && c.streams[s].task.k < |c.streams[s].sids|
    requires Current(c, s) in c.entries
    ensures NoneLost(Acked(c, s).entries)
  {
    hide SpawnQuiet;
    var x := Current(c, s);
    SpawningLosesNone(SetState(Unroute(c, x), x, Released), [x], true);
  }

  lemma ResumeLosesNone(c: Client, id: ReqId, cancelled: bool, refused: bool)
    requires NoneLost(c.entries) && CanResumeSubscribe(c, id, cancelled)
    ensures NoneLost(ResumeSubscribe(c, id, cancelled, refused).entries)
  {
    hide NoneLost, AbortSubscribe, SubscribeLoop;
    var s, c1 := c.waiting[id].stream, Unsuspend(c, id);
    AbortLosesNone(c1, s, true);
    AbortLosesNone(c1, s, false);
    AckedLosesNone(c1, s);
    LoopLosesNone(Acked(c1, s), s, refused);
  }

  lemma StartLosesNone(c: Client, targets: seq<Target>, m: Option<nat>, refused: bool)
    requires NoneLost(c.entries)
    ensures NoneLost(StartSubscribe(c, targets, m, refused).entries)
  {
    hide NoneLost, SubscribeLoop;
    NewLosesNone(c, targets, m);
    LoopLosesNone(NewStream(c, targets, m), c.nextStream, refused);
  }

  lemma RunLosesNone(c: Client, i: nat)
    requires NoneLost(c.entries) && i < |c.spawned|
    ensures NoneLost(RunSpawned(c, i).entries)
  {
    hide NoneLost;
    var x := c.spawned[i].sid;
    HoldLosesNone(c, x, Told(|c.sent|));
    HoldLosesNone(c, x, Moot);
    RunHeld(c, i);
  }

  lemma HoldLosesNone(c: Client, x: Sid, h: Hold)
    requires NoneLost(c.entries) && !h.Lost?
    ensures NoneLost(SetHold(c, x, h).entries)
  {
  }

  lemma RunHeld(c: Client, i: nat)
    requires i < |c.spawned|
    ensures RunSpawned(c, i).entries == SetHold(c, c.spawned[i].sid, if c.life.Open? then Told(|c.sent|) else Moot).entries
  {
  }

  lemma CloseLosesNone(c: Client, s: StreamId, nowait: bool)
    requires NoneLost(c.entries) && s in c.streams
    ensures NoneLost(CloseStream(c, s, nowait).entries)
  {
    hide NoneLost, EndStream;
    EndingLosesNone(c, s, ByClient, nowait);
  }

  lemma DisconnectLosesNone(c: Client)
    requires NoneLost(c.entries)
    ensures NoneLost(OnDisconnect(c).entries)
  {
  }

  lemma EventLosesNone(c: Client, x: Sid, data: nat)
    requires NoneLost(c.entries)
    ensures NoneLost(RouteEvent(c, x, data).entries)
  {
    hide NoneLost, EndStream;
    if x in c.entries && c.entries[x].stream in c.streams {
      EndingLosesNone(c, c.entries[x].stream, ByOverflow, true);
    }
  }

  lemma TerminationLosesNone(c: Client, x: Sid)
    requires NoneLost(c.entries)
    ensures NoneLost(RouteTermination(c, x).entries)
  {
    hide EndStream;
    if x in c.entries && c.entries[x].stream in c.streams {
      EndingLosesNone(SetState(Unroute(c, x), x, Terminated), c.entries[x].stream, ByBridge(x), true);
    }
  }

  lemma FrameLosesNone(c: Client, f: Frame)
    requires NoneLost(c.entries)
    ensures NoneLost(Dispatch(c, f).entries)
  {
    hide NoneLost, RouteEvent, RouteTermination;
    match f
    case Response(_, _) =>
    case EventFrame(x, data) => EventLosesNone(c, x, data);
    case TerminatedFrame(x) => TerminationLosesNone(c, x);
    case Uncorrelated =>
  }

  lemma ReturnLosesNone(c: Client, id: ReqId)
    requires NoneLost(c.entries) && id in c.futures && id in c.waiting && c.waiting[id].Unsubscriber?
    ensures NoneLost(ResumeUnsubscribe(c, id).entries)
  {
  }

  lemma StepLosesNone(c: Client, step: Step)
    requires NoneLost(c.entries) && Enabled(c, step) && !step.CancelTask?
    ensures NoneLost(ClientState.Apply(c, step).entries)
  {
    hide NoneLost, OnDisconnect, StartSubscribe, ResumeSubscribe, CloseStream, RunSpawned, ResumeUnsubscribe, Dispatch;
    match step
    case SetLife(_) =>
    case Disconnect => DisconnectLosesNone(c);
    case Start(ts, m, refused) => StartLosesNone(c, ts, m, refused);
    case Resume(id, cancelled, refused) => ResumeLosesNone(c, id, cancelled, refused);
    case Close(s, nowait) => CloseLosesNone(c, s, nowait);
    case RunTask(i) => RunLosesNone(c, i);
    case FinishUnsubscribe(id, _) => ReturnLosesNone(c, id);
    case SendFails(id) =>
      if !c.waiting[id].Caller? {
        ReturnLosesNone(c, id);
      }
    case Receive(f) => FrameLosesNone(c, f);
    case _ =>
  }

  // ---------------------------------------------------------------- runs

  lemma MoveLosesNone(s: System, m: Move)
    requires NoneLost(s.client.entries) && CanMove(s, m) && !Cancels(m)
    ensures NoneLost(After(s, m).client.entries)
  {
    hide NoneLost, ClientState.Apply, Enabled, Dispatch, ConsumeNext, HandlerDone, CallDone, TerminateAll;
    match m
    case ClientMove(step) => StepLosesNone(s.client, step);
    case Deliver => FrameLosesNone(s.client, s.bridge.posted[s.seen]);
    case _ =>
  }

  lemma {:induction false} QuietRunLosesNone(trace: seq<System>)
    requires QuietRun(trace)
    ensures NoneLost(Last(trace).client.entries)
  {
    if |trace| > 1 {
      var before := trace[..|trace| - 1];
      assert forall i :: 0 <= i < |before| - 1 ==> LeadsQuietly(before[i], before[i + 1]);
      QuietRunLosesNone(before);
      assert LeadsQuietly(trace[|trace| - 2], trace[|trace| - 1]);
      var m :| CanMove(Last(before), m) && !Cancels(m) && Last(trace) == After(Last(before), m);
      MoveLosesNone(Last(before), m);
    }
  }

  lemma QuietRunIsRun(trace: seq<System>)
    requires QuietRun(trace)
    ensures Run(trace)
  {
    forall i | 0 <= i < |trace| - 1
      ensures Leads(trace[i], trace[i + 1])
    {
      assert LeadsQuietly(trace[i], trace[i + 1]);
    }
  }

  /** While no gathered unsubscribe is cancelled before it has gone out, nothing leaks: whenever
      everything has settled, the bridge's subscribers are exactly the client's active ids. */
  lemma AtRestWithoutCancellation(trace: seq<System>)
    requires QuietRun(trace) && AtRest(Last(trace))
    ensures Last(trace).bridge.subscribers.Keys == ActiveIds(Last(trace).client)
  {
    hide AtRest, QuietRun, Run, ActiveIds, Leaked;
    QuietRunIsRun(trace);
    QuietRunLosesNone(trace);
    AtRestBridgeMatchesClient(trace);
  }
}
