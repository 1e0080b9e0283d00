/** Each step keeps every zombie's unsubscribe on its way (`src/logos_bridge/client.py`, `_unsubscribe_quietly`,
`_abort_subscribe`): a step makes a zombie only with its unsubscribe queued (`NoneMade`), ends no request but the one
that it resumes (`KeepsWaiting`), and who ends the request of a zombie's unsubscribe forgets the zombie. */
module ZombieSteps {
  import opened Wrappers
  import opened EventStream
  import opened ClientState
  import opened ClientInvariant
  import opened ClientSteps
  import opened ClientRun
  import opened BridgeState
  import opened Joint
  import opened JointResults
  import opened EntrySteps
  import opened IdFates

  predicate Kept(c: Client, x: Sid) {
    x in c.subs && x in c.entries && c.entries[x].state.Zombie?
  }

  /** The unsubscribe of `x` waits for its turn, or its request is under way. */
  predicate Parting(c: Client, x: Sid)
    requires x in c.entries
  {
    match c.entries[x].hold
    case Queued => true
    case Told(at) => at < |c.sent| && c.sent[at].id in c.waiting && c.waiting[c.sent[at].id] == Unsubscriber(x, true)
    case _ => false
  }

  ghost predicate Partings(c: Client) {
    c.life.Open? ==> forall x :: Kept(c, x) ==> Parting(c, x)
  }

  // ---------------------------------------------------------------- the ids

  /** Each zombie was one before, or has just been made one and is to be unsubscribed. */
  ghost predicate NoneMade(c: Client, d: Client) {
    forall x :: Kept(d, x) ==> d.entries[x].hold.Queued? || (Kept(c, x) && d.entries[x].hold == c.entries[x].hold)
  }

  lemma NoneMadeOn(c: Client, m: Client, d: Client)
    requires NoneMade(c, m) && NoneMade(m, d)
    ensures NoneMade(c, d)
  {
  }

  lemma EndedNone(c: Client, d: Client, s: StreamId, quiet: bool)
    requires Ended(c, d, s, quiet)
    ensures NoneMade(c, d)
  {
    hide Created;
  }

  lemma GivenUpNone(c: Client, d: Client, s: StreamId, cur: Sid, maybe: bool)
    requires GivenUp(c, d, s, cur, maybe) && c.life.Open?
    ensures NoneMade(c, d)
  {
    hide Created;
  }

  lemma PassedNone(c: Client, d: Client, s: StreamId, k: nat, j: nat)
    requires Passed(c, d, s, k, j)
    ensures NoneMade(c, d) && d.life == c.life
  {
  }

  lemma ReachesNone(c: Client, d: Client, s: StreamId, j: nat, refused: bool)
    requires Reaches(c, d, s, j, refused) && c.life.Open?
    ensures NoneMade(c, d)
  {
    hide GivenUp;
    if j < |c.streams[s].sids| && refused {
      GivenUpNone(c, d, s, c.streams[s].sids[j], false);
    }
  }

  lemma ConfirmsNone(c: Client, d: Client, x: Sid)
    requires Confirms(c, d, x)
    ensures NoneMade(c, d) && d.life == c.life
  {
  }

  lemma RegisteredNone(c: Client, d: Client, targets: seq<Target>, maxPending: Option<nat>)
    requires Registered(c, d, targets, maxPending)
    ensures NoneMade(c, d) && d.life == c.life
  {
    forall x | x in d.entries && x !in c.entries
      ensures d.entries[x].state.Pending?
    {
      var i :| 0 <= i < |d.streams[c.nextStream].sids| && d.streams[c.nextStream].sids[i] == x;
    }
  }

  lemma StartNone(c: Client, targets: seq<Target>, maxPending: Option<nat>, refused: bool)
    requires Inv(c) && targets != []
    ensures NoneMade(c, StartSubscribe(c, targets, maxPending, refused))
  {
    hide Inv, Registered, Reaches, StartSubscribe, NoneMade;
    var d := StartSubscribe(c, targets, maxPending, refused);
    StartFates(c, targets, maxPending, refused);
    if c.life.Open? {
      var m :| Registered(c, m, targets, maxPending) && Reaches(m, d, c.nextStream, 0, refused) && SameRow(m, d, c.nextStream);
      RegisteredNone(c, m, targets, maxPending);
      ReachesNone(m, d, c.nextStream, 0, refused);
      NoneMadeOn(c, m, d);
    } else {
      NoneItself(c);
    }
  }

  lemma NoneItself(c: Client)
    ensures NoneMade(c, c)
  {
  }

  lemma ResumeNone(c: Client, id: ReqId, cancelled: bool, refused: bool)
    requires Inv(c) && CanResumeSubscribe(c, id, cancelled) && c.life.Open?
    ensures NoneMade(c, ResumeSubscribe(c, id, cancelled, refused))
  {
    hide Inv, Reaches, Passed, GivenUp, Confirms, ResumeSubscribe, NoneMade;
    var s, d := c.waiting[id].stream, ResumeSubscribe(c, id, cancelled, refused);
    ResumeFates(c, id, cancelled, refused);
    if cancelled || c.futures[id].Expired? || c.futures[id].Cancelled? {
      GivenUpNone(c, d, s, Current(c, s), true);
    } else if c.futures[id] == Answered(false) || c.futures[id].Cut? {
      GivenUpNone(c, d, s, Current(c, s), false);
    } else {
      var e, m, j :| Confirms(c, e, Current(c, s)) && Passed(e, m, s, c.waiting[id].index + 1, j)
        && c.waiting[id].index + 1 <= j && Reaches(m, d, s, j, refused);
      ConfirmsNone(c, e, Current(c, s));
      PassedNone(e, m, s, c.waiting[id].index + 1, j);
      ReachesNone(m, d, s, j, refused);
      NoneMadeOn(c, e, m);
      NoneMadeOn(c, m, d);
    }
  }

  lemma FrameNone(c: Client, f: Frame)
    requires Inv(c)
    ensures NoneMade(c, Dispatch(c, f))
  {
    hide Inv, Ended, RouteEvent, RouteTermination, NoneMade;
    match f
    case EventFrame(x, data) =>
      EventFates(c, x, data);
      if Overflows(c, x) {
        EndedNone(c, RouteEvent(c, x, data), c.entries[x].stream, true);
      } else {
        AllSameNone(c, RouteEvent(c, x, data));
      }
    case TerminatedFrame(x) => TerminationNone(c, x);
    case Response(id, ok) => ResponseSame(c, id, ok); AllSameNone(c, RouteResponse(c, id, ok));
    case Uncorrelated => NoneItself(c);
  }

  lemma AllSameNone(c: Client, d: Client)
    requires AllSame(c, d)
    ensures NoneMade(c, d)
  {
  }

  lemma ResponseSame(c: Client, id: ReqId, ok: bool)
    ensures AllSame(c, RouteResponse(c, id, ok))
  {
    hide RouteResponse;
    ResponseFields(c, id, ok);
  }

  lemma ResponseFields(c: Client, id: ReqId, ok: bool)
    ensures var d := RouteResponse(c, id, ok);
      d.entries == c.entries && d.subs == c.subs && d.spawned == c.spawned && d.sent == c.sent && d.waiting == c.waiting
  {
    if id in c.pending && id in c.futures && c.futures[id].Waiting? {
      var popped := c.(pending := c.pending - {id});
      assert RouteResponse(c, id, ok) == popped.(futures := c.futures[id := Answered(ok)]);
    } else if id in c.pending {
      assert RouteResponse(c, id, ok) == c.(pending := c.pending - {id});
    } else {
      assert RouteResponse(c, id, ok) == c.(late := c.late + 1);
    }
  }

  lemma TerminationNone(c: Client, x: Sid)
    requires Inv(c)
    ensures NoneMade(c, RouteTermination(c, x))
  {
    hide Inv, Ended, RouteTermination, NoneMade, Terminates;
    var d := RouteTermination(c, x);
    TerminationFates(c, x);
    NoneItself(c);
    if x in c.subs {
      if TerminatesAll(c, d, x) {
        var m :| Terminates(c, m, x) && Ended(m, d, c.entries[x].stream, true);
        TerminatesNone(c, m, x);
        EndedNone(m, d, c.entries[x].stream, true);
        NoneMadeOn(c, m, d);
      } else {
        TerminatesNone(c, d, x);
      }
    }
  }

  lemma TerminatesNone(c: Client, d: Client, x: Sid)
    requires Terminates(c, d, x)
    ensures NoneMade(c, d)
  {
  }

  lemma CloseNone(c: Client, s: StreamId, nowait: bool)
    requires Inv(c) && s in c.streams
    ensures NoneMade(c, CloseStream(c, s, nowait))
  {
    hide Inv, Ended, CloseStream, NoneMade;
    CloseFates(c, s, nowait);
    if c.streams[s].queue.end.Some? {
      NoneItself(c);
    } else {
      EndedNone(c, CloseStream(c, s, nowait), s, nowait);
    }
  }

  // ---------------------------------------------------------------- the requests

  /** The request that a step brings to an end, if any. */
  function Finishes(step: Step): set<ReqId> {
    match step
    case Resume(id, _, _) => {id}
    case FinishUnsubscribe(id, _) => {id}
    case FinishCall(id, _) => {id}
    case SendFails(id) => {id}
    case _ => {}
  }

  /** Every other request stays under way. */
  ghost predicate KeepsWaiting(c: Client, d: Client, done: set<ReqId>) {
    forall id :: id in c.waiting && id !in done ==> id in d.waiting && d.waiting[id] == c.waiting[id]
  }

  lemma AbortWaits(c: Client, s: StreamId, maybe: bool)
    requires s in c.streams && !c.streams[s].task.Finished? && c.streams[s].task.k < |c.streams[s].sids|
    ensures AbortSubscribe(c, s, maybe).waiting == c.waiting
  {
    hide Keep;
  }

  lemma EndWaits(c: Client, s: StreamId, why: Cause, quiet: bool)
    requires s in c.streams
    ensures EndStream(c, s, why, quiet).waiting == c.waiting
  {
    hide Keep;
  }

  lemma SendWaits(c: Client, s: StreamId)
    requires AtEntry(c, s) && c.nextReq !in c.waiting
    ensures KeepsWaiting(c, SendSubscribe(c, s), {})
  {
  }

  lemma SkipWaits(c: Client, s: StreamId)
    requires AtEntry(c, s)
    ensures SkipEntry(c, s).waiting == c.waiting && SkipEntry(c, s).nextReq == c.nextReq
    ensures AtLoop(SkipEntry(c, s), s) && SkipEntry(c, s).streams[s].task.k == c.streams[s].task.k + 1
    ensures SkipEntry(c, s).streams[s].sids == c.streams[s].sids
  {
  }

  lemma {:induction false} LoopWaits(c: Client, s: StreamId, refused: bool)
    requires AtLoop(c, s) && c.nextReq !in c.waiting
    ensures KeepsWaiting(c, SubscribeLoop(c, s, refused), {})
    decreases |c.streams[s].sids| - c.streams[s].task.k
  {
    hide AbortSubscribe, SendSubscribe, SkipEntry;
    if AtEntry(c, s) {
      if !c.entries[Current(c, s)].state.Pending? {
        SkipWaits(c, s);
        LoopWaits(SkipEntry(c, s), s, refused);
      } else {
        AbortWaits(c, s, false);
        SendWaits(c, s);
      }
    }
  }

  lemma StartWaits(c: Client, targets: seq<Target>, maxPending: Option<nat>, refused: bool)
    requires c.nextReq !in c.waiting
    ensures KeepsWaiting(c, StartSubscribe(c, targets, maxPending, refused), {})
  {
    hide SubscribeLoop;
    if c.life.Open? {
      LoopWaits(NewStream(c, targets, maxPending), c.nextStream, refused);
    }
  }

  lemma AckedWaits(c: Client, s: StreamId)
    requires s in c.streams && c.streams[s].task.Resumed? && c.streams[s].task.k < |c.streams[s].sids|
    requires Current(c, s) in c.entries
    ensures Acked(c, s).waiting == c.waiting && Acked(c, s).nextReq == c.nextReq
  {
    hide SpawnQuiet;
    var x := Current(c, s);
    SpawnWaits(SetState(Unroute(c, x), x, Released), [x]);
  }

  lemma SpawnWaits(c: Client, xs: seq<Sid>)
    ensures SpawnQuiet(c, xs).waiting == c.waiting && SpawnQuiet(c, xs).nextReq == c.nextReq
  {
  }

  lemma ResumeWaits(c: Client, id: ReqId, cancelled: bool, refused: bool)
    requires Inv(c) && CanResumeSubscribe(c, id, cancelled) && c.nextReq !in c.waiting
    ensures KeepsWaiting(c, ResumeSubscribe(c, id, cancelled, refused), {id})
  {
    hide Inv, SubscribeLoop, AbortSubscribe, Acked, Unsuspend, RowRight, Confirms;
    var s, e := c.waiting[id].stream, Unsuspend(c, id);
    RowOf(c, s);
    UnsuspendSame(c, id);
    UnsuspendWaits(c, id);
    if !cancelled && c.futures[id] == Answered(true) {
      RowEntry(e, s);
      AckedConfirms(e, s);
      AckedWaits(e, s);
      LoopWaits(Acked(e, s), s, refused);
    } else {
      AbortWaits(e, s, true);
      AbortWaits(e, s, false);
    }
  }

  lemma RowEntry(c: Client, s: StreamId)
    requires RowRight(c, s) && c.streams[s].task.Resumed? && c.streams[s].task.k < |c.streams[s].sids|
    ensures Current(c, s) in c.entries
  {
  }

  lemma UnsuspendWaits(c: Client, id: ReqId)
    requires id in c.futures && id in c.waiting && c.waiting[id].Subscriber? && c.waiting[id].stream in c.streams
    ensures Unsuspend(c, id).waiting == c.waiting - {id}
  {
  }

  lemma FrameWaits(c: Client, f: Frame)
    ensures Dispatch(c, f).waiting == c.waiting
  {
    hide EndStream, RouteResponse;
    match f
    case EventFrame(x, data) =>
      if x in c.entries && c.entries[x].stream in c.streams {
        EndWaits(c, c.entries[x].stream, ByOverflow, true);
      }
    case TerminatedFrame(x) =>
      if x in c.entries && c.entries[x].stream in c.streams {
        EndWaits(SetState(Unroute(c, x), x, Terminated), c.entries[x].stream, ByBridge(x), true);
      }
    case Response(id, ok) => ResponseFields(c, id, ok);
    case Uncorrelated =>
  }

  // ---------------------------------------------------------------- every step

  /** What the proof needs of a client between two steps. */
  lemma GoodFacts(c: Client)
    requires Good(c)
    ensures Inv(c) && c.nextReq !in c.waiting
    ensures c.life.Rank() < 2 ==> c.entries == map[]
    ensures forall i :: 0 <= i < |c.spawned| ==>
      var sp := c.spawned[i]; sp.sid in c.entries && (c.entries[sp.sid].state.Zombie? ==> sp.quiet)
  {
    GoodMeans(c);
    InvMeans(c);
    forall i | 0 <= i < |c.spawned|
      ensures c.spawned[i].sid in c.entries
    {
      assert c.spawned[i].sid in QueuedSids(c.spawned);
    }
    if c.life.Rank() < 2 {
      assert c.life.New? || c.life.Connecting?;
    }
  }

  lemma OpenBefore(c: Client, step: Step)
    requires Good(c) && Enabled(c, step) && ClientState.Apply(c, step).life.Open?
    ensures c.life.Open? || c.entries == map[]
    ensures Extends(c.sent, ClientState.Apply(c, step).sent)
  {
    hide ClientState.Apply, Enabled, Inv;
    StepGood(c, step);
    GoodFacts(c);
    FollowsMeans(c, ClientState.Apply(c, step), News(step));
    EvolvesMeans(c, ClientState.Apply(c, step), News(step));
    hide Evolves, EntriesEvolve, FuturesEvolve, StreamsEvolve;
  }

  /** Steps that leave the entries and the requests alone. */
  predicate Plain(step: Step) {
    step.SetLife? || step.FireTimer? || step.CancelWait? || step.Take? || step.StopWaiting?
  }

  lemma PlainStep(c: Client, step: Step)
    requires Enabled(c, step) && Plain(step)
    ensures var d := ClientState.Apply(c, step); d.entries == c.entries && d.subs == c.subs && d.waiting == c.waiting
  {
    hide Expire, CancelFuture;
    match step
    case FireTimer(id) => TimerPlain(c, id);
    case CancelWait(id) => TimerPlain(c, id);
    case _ =>
  }

  lemma TimerPlain(c: Client, id: ReqId)
    ensures Expire(c, id).entries == c.entries && Expire(c, id).subs == c.subs && Expire(c, id).waiting == c.waiting
    ensures id in c.waiting ==>
      var d := CancelFuture(c, id); d.entries == c.entries && d.subs == c.subs && d.waiting == c.waiting
  {
    hide Expire, CancelFuture;
    ExpirePlain(c, id);
    if id in c.waiting {
      CancelPlain(c, id);
    }
  }

  lemma ExpirePlain(c: Client, id: ReqId)
    ensures Expire(c, id).entries == c.entries && Expire(c, id).subs == c.subs && Expire(c, id).waiting == c.waiting
  {
  }

  lemma CancelPlain(c: Client, id: ReqId)
    requires id in c.waiting
    ensures var d := CancelFuture(c, id); d.entries == c.entries && d.subs == c.subs && d.waiting == c.waiting
  {
  }

  lemma SameNone(c: Client, d: Client)
    requires d.entries == c.entries && d.subs <= c.subs
    ensures NoneMade(c, d)
  {
  }

  /** A request of `unsubscribe` ends: its zombie is forgotten. */
  lemma ReturnParts(c: Client, id: ReqId)
    requires id in c.futures && id in c.waiting && c.waiting[id].Unsubscriber?
    ensures var d := ResumeUnsubscribe(c, id); var o := c.waiting[id];
      && d.entries == c.entries && d.subs <= c.subs && d.waiting == c.waiting - {id}
      && (o.quiet ==> !Kept(d, o.sid))
  {
  }

  lemma FinishParts(c: Client, id: ReqId)
    requires id in c.futures
    ensures var d := FinishSend(c, id); d.entries == c.entries && d.subs == c.subs && d.waiting == c.waiting - {id}
  {
  }

  lemma SendParts(c: Client, owner: Owner, r: Request)
    requires c.nextReq !in c.waiting
    ensures var d := SendRequest(c, owner, r);
      d.entries == c.entries && d.subs == c.subs && d.waiting == c.waiting[c.nextReq := owner] && KeepsWaiting(c, d, {})
  {
  }

  lemma CancelParts(c: Client, i: nat)
    requires i < |c.spawned| && !c.spawned[i].quiet && c.spawned[i].sid in c.entries
    requires c.entries[c.spawned[i].sid].state.Zombie? ==> c.spawned[i].quiet
    ensures NoneMade(c, CancelSpawned(c, i)) && CancelSpawned(c, i).waiting == c.waiting
  {
  }

  lemma DisconnectParts(c: Client)
    ensures OnDisconnect(c).waiting == c.waiting
    ensures !c.hasCloseInfo ==> NoneMade(c, OnDisconnect(c))
  {
    if c.hasCloseInfo {
    } else {
      assert OnDisconnect(c).subs == {};
    }
  }

  lemma CloseWaits(c: Client, s: StreamId, nowait: bool)
    requires s in c.streams
    ensures CloseStream(c, s, nowait).waiting == c.waiting
  {
    hide EndStream;
    EndWaits(c, s, ByClient, nowait);
  }

  lemma StepWaits(c: Client, step: Step)
    requires Inv(c) && Enabled(c, step) && !step.RunTask? && c.nextReq !in c.waiting
    requires step.CancelTask? ==>
      var sp := c.spawned[step.index]; sp.sid in c.entries && (c.entries[sp.sid].state.Zombie? ==> sp.quiet)
    ensures KeepsWaiting(c, ClientState.Apply(c, step), Finishes(step))
  {
    hide Inv, StartSubscribe, ResumeSubscribe, CloseStream, ResumeUnsubscribe, Dispatch, OnDisconnect, CancelSpawned, SendRequest, FinishSend;
    match step
    case Disconnect => DisconnectParts(c);
    case Start(ts, m, refused) => StartWaits(c, ts, m, refused);
    case Resume(id, cancelled, refused) => ResumeWaits(c, id, cancelled, refused);
    case Close(s, nowait) => CloseWaits(c, s, nowait);
    case CancelTask(i) => CancelParts(c, i);
    case FinishUnsubscribe(id, _) => ReturnParts(c, id);
    case Call => SendParts(c, Caller, Other(c.nextReq));
    case FinishCall(id, _) => FinishParts(c, id);
    case SendFails(id) =>
      if c.waiting[id].Caller? {
        FinishParts(c, id);
      } else {
        ReturnParts(c, id);
      }
    case Receive(f) => FrameWaits(c, f);
    case _ => PlainStep(c, step);
  }

  lemma StepNone(c: Client, step: Step)
    requires Inv(c) && Enabled(c, step) && !step.RunTask? && c.nextReq !in c.waiting && (step.Resume? ==> c.life.Open?)
    requires step.CancelTask? ==>
      var sp := c.spawned[step.index]; sp.sid in c.entries && (c.entries[sp.sid].state.Zombie? ==> sp.quiet)
    ensures NoneMade(c, ClientState.Apply(c, step))
  {
    hide Inv, StartSubscribe, ResumeSubscribe, CloseStream, ResumeUnsubscribe, Dispatch, OnDisconnect, CancelSpawned, SendRequest, FinishSend;
    hide NoneMade;
    var d := ClientState.Apply(c, step);
    match step
    case Disconnect => DisconnectParts(c);
    case Start(ts, m, refused) => StartNone(c, ts, m, refused);
    case Resume(id, cancelled, refused) => ResumeNone(c, id, cancelled, refused);
    case Close(s, nowait) => CloseNone(c, s, nowait);
    case CancelTask(i) => CancelParts(c, i);
    case FinishUnsubscribe(id, _) => ReturnParts(c, id); SameNone(c, d);
    case Call => SendParts(c, Caller, Other(c.nextReq)); SameNone(c, d);
    case FinishCall(id, _) => FinishParts(c, id); SameNone(c, d);
    case SendFails(id) =>
      if c.waiting[id].Caller? {
        FinishParts(c, id);
      } else {
        ReturnParts(c, id);
      }
      SameNone(c, d);
    case Receive(f) => FrameNone(c, f);
    case _ => PlainStep(c, step); SameNone(c, d);
  }

  /** Whoever finishes the request of a zombie's unsubscribe forgets the zombie. */
  lemma FinishForgets(c: Client, step: Step, id: ReqId, x: Sid)
    requires Enabled(c, step) && id in Finishes(step) && id in c.waiting && c.waiting[id] == Unsubscriber(x, true)
    ensures !Kept(ClientState.Apply(c, step), x)
  {
    hide ResumeUnsubscribe, ResumeSubscribe, FinishSend;
    ReturnParts(c, id);
  }

  /** A zombie's unsubscribe takes its turn. */
  lemma RunParts(c: Client, i: nat)
    requires Inv(c) && i < |c.spawned| && c.nextReq !in c.waiting && c.life.Open? && Partings(c)
    requires c.spawned[i].sid in c.entries && (c.entries[c.spawned[i].sid].state.Zombie? ==> c.spawned[i].quiet)
    ensures Partings(RunSpawned(c, i))
  {
    hide Inv, RunSpawned;
    var d, sp := RunSpawned(c, i), c.spawned[i];
    UnsubscribeFates(c, i);
    RunWaits(c, i);
    forall x | Kept(d, x)
      ensures Parting(d, x)
    {
      if x == sp.sid {
        assert d.sent[|c.sent|] == Unsubscribe(c.nextReq, x);
      } else {
        assert Same(c, d, x) && Parting(c, x);
      }
    }
  }

  lemma RunWaits(c: Client, i: nat)
    requires i < |c.spawned| && c.life.Open? && c.spawned[i].sid in c.entries
    ensures RunSpawned(c, i).waiting == c.waiting[c.nextReq := Unsubscriber(c.spawned[i].sid, c.spawned[i].quiet)]
  {
  }

  lemma RunLife(c: Client, i: nat)
    requires i < |c.spawned|
    ensures RunSpawned(c, i).life == c.life
  {
  }

  /** Every step keeps every zombie's unsubscribe on its way. */
  lemma StepParts(c: Client, step: Step)
    requires Good(c) && Enabled(c, step) && Partings(c)
    ensures Partings(ClientState.Apply(c, step))
  {
    hide Good, Inv, ClientState.Apply, Enabled, NoneMade, KeepsWaiting;
    var d := ClientState.Apply(c, step);
    if d.life.Open? {
      OpenBefore(c, step);
      GoodFacts(c);
      if step.RunTask? {
        RunStep(c, step);
      } else {
        if step.Resume? {
          ResumesOpen(c, step);
        }
        CancelsIn(c, step);
        StepNone(c, step);
        StepWaits(c, step);
        forall x | Kept(d, x)
          ensures Parting(d, x)
        {
          StaysParting(c, d, step, x);
        }
      }
    }
  }

  lemma ResumesOpen(c: Client, step: Step)
    requires Enabled(c, step) && step.Resume? && (c.life.Open? || c.entries == map[])
    ensures c.life.Open?
  {
  }

  lemma CancelsIn(c: Client, step: Step)
    requires Enabled(c, step)
    ensures step.CancelTask? || step.RunTask? ==> step.index < |c.spawned|
  {
  }

  lemma RunStep(c: Client, step: Step)
    requires Inv(c) && Enabled(c, step) && step.RunTask? && ClientState.Apply(c, step).life.Open? && Partings(c)
    requires c.nextReq !in c.waiting
    requires forall i :: 0 <= i < |c.spawned| ==>
      var sp := c.spawned[i]; sp.sid in c.entries && (c.entries[sp.sid].state.Zombie? ==> sp.quiet)
    ensures Partings(ClientState.Apply(c, step))
  {
    hide Inv, RunSpawned, Partings;
    RunLife(c, step.index);
    RunParts(c, step.index);
  }

  lemma StaysParting(c: Client, d: Client, step: Step, x: Sid)
    requires Enabled(c, step) && d == ClientState.Apply(c, step) && Partings(c) && (c.life.Open? || c.entries == map[])
    requires NoneMade(c, d) && KeepsWaiting(c, d, Finishes(step)) && Extends(c.sent, d.sent) && Kept(d, x)
    ensures Parting(d, x)
  {
    hide ClientState.Apply, Enabled, Finishes;
    if !d.entries[x].hold.Queued? {
      assert Parting(c, x);
      var id := c.sent[c.entries[x].hold.at].id;
      if id in Finishes(step) {
        FinishForgets(c, step, id, x);
      }
    }
  }

  // ---------------------------------------------------------------- every run

  lemma MoveParts(a: System, m: Move)
    requires JointInv(a) && CanMove(a, m) && Partings(a.client)
    ensures Partings(After(a, m).client)
  {
    hide Partings, Dispatch, ClientState.Apply, Enabled, Knows, Ledger, Good;
    match m
    case ClientMove(step) => StepParts(a.client, step);
    case Deliver => DeliverParts(a);
    case _ => BridgeMoveKnows(a, m);
  }

  lemma DeliverParts(a: System)
    requires Good(a.client) && CanMove(a, Deliver) && Partings(a.client)
    ensures Partings(After(a, Deliver).client)
  {
    hide Partings, Dispatch, Good;
    StepParts(a.client, Receive(a.bridge.posted[a.seen]));
  }
}
