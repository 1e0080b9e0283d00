/** What each step does to what a subscriber is sent (`src/logos_bridge/client.py`, `_route_event`,
`_route_termination`, `_on_disconnect`, `_subscribe`, `_close_stream`).

A feed is what a stream has been pushed and why it has ended. A frame from the bridge pushes an event to one
stream at most and ends one at most; every other step pushes nothing, and ends only the stream that it gives up,
closes or cuts off. A move of the run that brings an event says where it stood among the frames posted; one that
ends a stream says why. */
module Feeds {
  import opened Wrappers
  import opened EventStream
  import opened ClientState
  import opened ClientInvariant
  import opened ClientSteps
  import opened ClientRun
  import opened BridgeState
  import opened Joint
  import opened JointResults

  // ---------------------------------------------------------------- one step

  /** What a subscriber has been sent and why its stream ended, if it did. */
  datatype Feed = Feed(pushed: seq<EventStream.Event>, end: Option<Cause>)

  function FeedOf(c: Client, s: StreamId): Feed
    requires s in c.streams
  {
    Feed(c.streams[s].queue.pushed, c.streams[s].queue.end)
  }

  function Ends(f: Feed, cause: Cause): Feed {
    if f.end.Some? then f else f.(end := Some(cause))
  }

  predicate Owns(c: Client, x: Sid, s: StreamId) {
    x in c.subs && x in c.entries && c.entries[x].stream == s
  }

  /** An event for `x` is for the subscriber of `s`: the id is pending or active there. */
  predicate Reaches(c: Client, x: Sid, s: StreamId) {
    Owns(c, x, s) && (c.entries[x].state.Pending? || c.entries[x].state.Active?) && s in c.streams && !c.streams[s].queue.Ended()
  }

  /** As many events are queued as the stream may hold. */
  predicate AtBound(q: Queue) {
    q.maxPending.Some? && |q.items| >= q.maxPending.value
  }

  /** What a frame from the bridge does to the feed of `s`. */
  function Fed(c: Client, frame: Frame, s: StreamId): Feed
    requires s in c.streams
  {
    var f := FeedOf(c, s);
    match frame
    case EventFrame(x, data) =>
      if !Reaches(c, x, s) then f
      else if AtBound(c.streams[s].queue) then Ends(f, ByOverflow)
      else f.(pushed := f.pushed + [Event(x, data)])
    case TerminatedFrame(x) => if Owns(c, x, s) && !c.entries[x].state.Zombie? then Ends(f, ByBridge(x)) else f
    case _ => f
  }

  /** What any other step may do to it. */
  ghost predicate StepFeeds(c: Client, step: Step, s: StreamId, f: Feed)
    requires s in c.streams
  {
    var before := FeedOf(c, s);
    match step
    case Disconnect => f == if !c.hasCloseInfo && exists x :: Owns(c, x, s) then Ends(before, ByDisconnect) else before
    case Close(t, _) => f == if t == s then Ends(before, ByClient) else before
    case Resume(id, _, _) =>
      f == before || (id in c.waiting && c.waiting[id].Subscriber? && c.waiting[id].stream == s && f == Ends(before, ByClient))
    case _ => f == before
  }

  ghost predicate SameFeeds(c: Client, d: Client) {
    forall s :: s in c.streams ==> s in d.streams && FeedOf(d, s) == FeedOf(c, s)
  }

  ghost predicate EndsOne(c: Client, d: Client, s: StreamId, cause: Cause) {
    forall t :: t in c.streams ==> t in d.streams && FeedOf(d, t) == if t == s then Ends(FeedOf(c, t), cause) else FeedOf(c, t)
  }

  /** Only streams that were there before. */
  predicate NoneNew(c: Client, d: Client) {
    d.streams.Keys == c.streams.Keys
  }

  lemma EndingFeeds(c: Client, s: StreamId, why: Cause, quiet: bool)
    requires s in c.streams
    ensures var d := EndStream(c, s, why, quiet); EndsOne(c, d, s, why) && NoneNew(c, d)
  {
    hide SpawnAll, SpawnQuiet, Detach, LiveSids;
    EndStreamStreams(c, s, why, quiet);
  }

  lemma EndStreamStreams(c: Client, s: StreamId, why: Cause, quiet: bool)
    requires s in c.streams
    ensures EndStream(c, s, why, quiet).streams == EndQueue(c, s, why).streams
  {
  }

  lemma AbortFeeds(c: Client, s: StreamId, maybe: bool)
    requires s in c.streams && !c.streams[s].task.Finished? && c.streams[s].task.k < |c.streams[s].sids|
    ensures var d := AbortSubscribe(c, s, maybe); EndsOne(c, d, s, ByClient) && NoneNew(c, d)
  {
    hide Keep;
    AbortStreams(c, s, maybe);
  }

  lemma AbortStreams(c: Client, s: StreamId, maybe: bool)
    requires s in c.streams && !c.streams[s].task.Finished? && c.streams[s].task.k < |c.streams[s].sids|
    ensures AbortSubscribe(c, s, maybe).streams == SetTask(EndQueue(c, s, ByClient), s, Finished).streams
  {
    hide Keep;
  }

  lemma SendFeeds(c: Client, s: StreamId)
    requires AtEntry(c, s)
    ensures SameFeeds(c, SendSubscribe(c, s)) && NoneNew(c, SendSubscribe(c, s))
  {
  }

  lemma SkipFeeds(c: Client, s: StreamId)
    requires AtEntry(c, s)
    ensures SameFeeds(c, SkipEntry(c, s)) && NoneNew(c, SkipEntry(c, s))
  {
  }

  lemma TaskFeeds(c: Client, s: StreamId, t: Task)
    requires s in c.streams
    ensures SameFeeds(c, SetTask(c, s, t)) && NoneNew(c, SetTask(c, s, t))
  {
  }

  lemma SameThen(c: Client, d: Client, e: Client, s: StreamId, cause: Cause)
    requires SameFeeds(c, d) && NoneNew(c, d) && NoneNew(d, e) && (SameFeeds(d, e) || EndsOne(d, e, s, cause))
    ensures NoneNew(c, e) && (SameFeeds(d, e) ==> SameFeeds(c, e)) && (EndsOne(d, e, s, cause) ==> EndsOne(c, e, s, cause))
  {
  }

  lemma {:induction false} LoopFeeds(c: Client, s: StreamId, refused: bool)
    requires AtLoop(c, s)
    ensures var d := SubscribeLoop(c, s, refused); NoneNew(c, d) && (SameFeeds(c, d) || EndsOne(c, d, s, ByClient))
    decreases |c.streams[s].sids| - c.streams[s].task.k
  {
    hide AbortSubscribe, SendSubscribe, SameFeeds, EndsOne, NoneNew;
    if !AtEntry(c, s) {
      TaskFeeds(c, s, Finished);
    } else if !c.entries[Current(c, s)].state.Pending? {
      SkipFeeds(c, s);
      LoopFeeds(SkipEntry(c, s), s, refused);
      SameThen(c, SkipEntry(c, s), SubscribeLoop(SkipEntry(c, s), s, refused), s, ByClient);
    } else if refused || !c.life.Open? {
      AbortFeeds(c, s, false);
    } else {
      SendFeeds(c, s);
    }
  }

  lemma AckedFeeds(c: Client, s: StreamId)
    requires s in c.streams && c.streams[s].task.Resumed? && c.streams[s].task.k < |c.streams[s].sids|
    requires Current(c, s) in c.entries
    ensures SameFeeds(c, Acked(c, s)) && NoneNew(c, Acked(c, s))
  {
    hide Acked, SameFeeds, NoneNew, SetTask;
    AckedStreams(c, s);
    TaskFeeds(c, s, Looping(c.streams[s].task.k + 1));
    SameStreams(c, SetTask(c, s, Looping(c.streams[s].task.k + 1)), Acked(c, s));
  }

  lemma SameStreams(c: Client, d: Client, e: Client)
    requires SameFeeds(c, d) && NoneNew(c, d) && e.streams == d.streams
    ensures SameFeeds(c, e) && NoneNew(c, e)
  {
  }

  lemma AckedStreams(c: Client, s: StreamId)
    requires s in c.streams && c.streams[s].task.Resumed? && c.streams[s].task.k < |c.streams[s].sids|
    requires Current(c, s) in c.entries
    ensures Acked(c, s).streams == SetTask(c, s, Looping(c.streams[s].task.k + 1)).streams
  {
    hide SpawnQuiet;
    var x := Current(c, s);
    SpawnStreams(SetState(Unroute(c, x), x, Released), [x]);
  }

  lemma SpawnStreams(c: Client, xs: seq<Sid>)
    ensures SpawnQuiet(c, xs).streams == c.streams
  {
  }

  lemma UnsuspendFeeds(c: Client, id: ReqId)
    requires id in c.futures && id in c.waiting && c.waiting[id].Subscriber? && c.waiting[id].stream in c.streams
    ensures SameFeeds(c, Unsuspend(c, id)) && NoneNew(c, Unsuspend(c, id))
  {
  }

  lemma ResumeFeeds(c: Client, id: ReqId, cancelled: bool, refused: bool)
    requires CanResumeSubscribe(c, id, cancelled)
    ensures var d := ResumeSubscribe(c, id, cancelled, refused);
      NoneNew(c, d) && (SameFeeds(c, d) || EndsOne(c, d, c.waiting[id].stream, ByClient))
  {
    hide AbortSubscribe, SubscribeLoop, SameFeeds, EndsOne, NoneNew, Acked;
    var s, c1 := c.waiting[id].stream, Unsuspend(c, id);
    var d := ResumeSubscribe(c, id, cancelled, refused);
    UnsuspendFeeds(c, id);
    if !cancelled && c.futures[id] == Answered(true) {
      ResumesAtLoop(c, id);
      AckedFeeds(c1, s);
      LoopFeeds(Acked(c1, s), s, refused);
      SameThen(c1, Acked(c1, s), d, s, ByClient);
    } else {
      AbortFeeds(c1, s, true);
      AbortFeeds(c1, s, false);
    }
    SameThen(c, c1, d, s, ByClient);
  }

  lemma ResumesAtLoop(c: Client, id: ReqId)
    requires CanResumeSubscribe(c, id, false) && c.futures[id] == Answered(true)
    ensures var s, c1 := c.waiting[id].stream, Unsuspend(c, id); AtLoop(Acked(c1, s), s)
  {
  }

  lemma StartFeeds(c: Client, targets: seq<Target>, m: Option<nat>, refused: bool)
    requires c.nextStream !in c.streams
    ensures var d := StartSubscribe(c, targets, m, refused);
      && SameFeeds(c, d)
      && forall s :: s in d.streams && s !in c.streams ==> NewFeed(FeedOf(d, s))
  {
    hide SubscribeLoop;
    if c.life.Open? {
      var c1 := NewStream(c, targets, m);
      LoopFeeds(c1, c.nextStream, refused);
      assert FeedOf(c1, c.nextStream) == Feed([], None);
    }
  }

  /** Nothing pushed; ended, if at all, because its subscription was refused. */
  predicate NewFeed(f: Feed) {
    f.pushed == [] && (f.end.None? || f.end == Some(ByClient))
  }

  lemma DisconnectFeeds(c: Client, s: StreamId)
    requires s in c.streams
    ensures NoneNew(c, OnDisconnect(c)) && StepFeeds(c, Disconnect, s, FeedOf(OnDisconnect(c), s))
  {
    if x :| x in c.subs && x in c.entries && c.entries[x].stream == s {
      assert Owns(c, x, s);
    }
    if x :| Owns(c, x, s) {
      assert HasRoutedEntry(c, s);
    }
  }

  lemma EventFeeds(c: Client, x: Sid, data: nat, s: StreamId)
    requires s in c.streams
    ensures var d := RouteEvent(c, x, data); NoneNew(c, d) && FeedOf(d, s) == Fed(c, EventFrame(x, data), s)
  {
    hide EndStream;
    if x in c.entries && c.entries[x].stream in c.streams {
      EndingFeeds(c, c.entries[x].stream, ByOverflow, true);
    }
  }

  lemma TerminationFeeds(c: Client, x: Sid, s: StreamId)
    requires s in c.streams
    ensures var d := RouteTermination(c, x); NoneNew(c, d) && FeedOf(d, s) == Fed(c, TerminatedFrame(x), s)
  {
    hide EndStream, SetState, Unroute;
    if x in c.entries {
      StateStreams(c, x);
      var c1 := SetState(Unroute(c, x), x, Terminated);
      if c.entries[x].stream in c.streams {
        EndingFeeds(c1, c.entries[x].stream, ByBridge(x), true);
      }
    }
  }

  lemma StateStreams(c: Client, x: Sid)
    requires x in c.entries
    ensures x in Unroute(c, x).entries && SetState(Unroute(c, x), x, Terminated).streams == c.streams
  {
  }

  lemma FrameFeeds(c: Client, frame: Frame, s: StreamId)
    requires s in c.streams
    ensures NoneNew(c, Dispatch(c, frame)) && FeedOf(Dispatch(c, frame), s) == Fed(c, frame, s)
  {
    hide RouteEvent, RouteTermination, NoneNew;
    match frame
    case EventFrame(x, data) => EventFeeds(c, x, data, s);
    case TerminatedFrame(x) => TerminationFeeds(c, x, s);
    case Response(id, ok) => AnswerFeeds(c, id, ok, s);
    case Uncorrelated => NoneNewItself(c);
  }

  lemma NoneNewItself(c: Client)
    ensures NoneNew(c, c)
  {
  }

  lemma AnswerFeeds(c: Client, id: ReqId, ok: bool, s: StreamId)
    requires s in c.streams
    ensures var d := RouteResponse(c, id, ok); NoneNew(c, d) && FeedOf(d, s) == FeedOf(c, s)
  {
  }

  // ---------------------------------------------------------------- every step

  ghost predicate NewAreEmpty(c: Client, d: Client) {
    forall s :: s in d.streams && s !in c.streams ==> NewFeed(FeedOf(d, s))
  }

  lemma NoneNewEmpty(c: Client, d: Client)
    requires NoneNew(c, d)
    ensures NewAreEmpty(c, d) && forall s :: s in c.streams ==> s in d.streams
  {
  }

  lemma CloseFeeds(c: Client, s: StreamId, nowait: bool)
    requires s in c.streams
    ensures var d := CloseStream(c, s, nowait); EndsOne(c, d, s, ByClient) && NoneNew(c, d)
  {
    hide EndStream;
    EndingFeeds(c, s, ByClient, nowait);
  }

  lemma RunFeeds(c: Client, i: nat)
    requires i < |c.spawned|
    ensures RunSpawned(c, i).streams == c.streams
  {
    hide SetHold, ForgetZombie, SendRequest;
    var sp := c.spawned[i];
    var c1 := c.(spawned := c.spawned[..i] + c.spawned[i + 1..]);
    HoldStreams(c1, sp.sid, Moot);
    ForgetStreams(SetHold(c1, sp.sid, Moot), sp.sid);
    SendStreams(c1, Unsubscriber(sp.sid, sp.quiet), Unsubscribe(c.nextReq, sp.sid));
    HoldStreams(SendRequest(c1, Unsubscriber(sp.sid, sp.quiet), Unsubscribe(c.nextReq, sp.sid)), sp.sid, Told(|c.sent|));
  }

  lemma HoldStreams(c: Client, x: Sid, h: Hold)
    ensures SetHold(c, x, h).streams == c.streams
  {
  }

  lemma ForgetStreams(c: Client, x: Sid)
    ensures ForgetZombie(c, x).streams == c.streams
  {
  }

  lemma SendStreams(c: Client, owner: Owner, r: Request)
    ensures SendRequest(c, owner, r).streams == c.streams
  {
  }

  lemma ReturnFeeds(c: Client, id: ReqId)
    requires id in c.futures && id in c.waiting && c.waiting[id].Unsubscriber?
    ensures ResumeUnsubscribe(c, id).streams == c.streams
  {
  }

  lemma QueueFeeds(c: Client, s: StreamId, q: Queue)
    requires s in c.streams && q.pushed == c.streams[s].queue.pushed && q.end == c.streams[s].queue.end
    ensures SameFeeds(c, SetQueue(c, s, q)) && NoneNew(c, SetQueue(c, s, q))
  {
  }

  lemma StreamsStay(c: Client, d: Client)
    requires d.streams == c.streams
    ensures SameFeeds(c, d) && NoneNew(c, d)
  {
  }

  /** Steps that leave all streams alone. */
  predicate Aloof(step: Step) {
    step.SetLife? || step.CancelTask? || step.RunTask? || step.FinishUnsubscribe? || step.Call? || step.FinishCall?
    || step.SendFails? || step.FireTimer? || step.CancelWait?
  }

  lemma AloofStep(c: Client, step: Step)
    requires Enabled(c, step) && Aloof(step)
    ensures ClientState.Apply(c, step).streams == c.streams
  {
    hide RunSpawned, ResumeUnsubscribe, CancelSpawned, SendRequest, FinishSend, Expire, CancelFuture;
    match step
    case RunTask(i) => RunFeeds(c, i);
    case FinishUnsubscribe(id, _) => ReturnFeeds(c, id);
    case CancelTask(i) => CancelStreams(c, i);
    case Call => SendStreams(c, Caller, Other(c.nextReq));
    case FinishCall(id, _) => FinishStreams(c, id);
    case FireTimer(id) => TimerStreams(c, id);
    case CancelWait(id) => TimerStreams(c, id);
    case SendFails(id) =>
      if c.waiting[id].Caller? {
        FinishStreams(c, id);
      } else {
        ReturnFeeds(c, id);
      }
    case _ =>
  }

  lemma CancelStreams(c: Client, i: nat)
    requires i < |c.spawned| && !c.spawned[i].quiet
    ensures CancelSpawned(c, i).streams == c.streams
  {
  }

  lemma FinishStreams(c: Client, id: ReqId)
    requires id in c.futures
    ensures FinishSend(c, id).streams == c.streams
  {
  }

  lemma TimerStreams(c: Client, id: ReqId)
    ensures Expire(c, id).streams == c.streams
    ensures id in c.waiting ==> CancelFuture(c, id).streams == c.streams
  {
  }

  /** Every step that is not a frame from the bridge. */
  lemma StepFeed(c: Client, step: Step, s: StreamId)
    requires Enabled(c, step) && !step.Receive? && c.nextStream !in c.streams && s in c.streams
    ensures var d := ClientState.Apply(c, step);
      NewAreEmpty(c, d) && s in d.streams && StepFeeds(c, step, s, FeedOf(d, s))
  {
    hide StartSubscribe, ResumeSubscribe, CloseStream, OnDisconnect, NewAreEmpty, NoneNew;
    var d := ClientState.Apply(c, step);
    match step
    case Start(ts, m, refused) => StartFeeds(c, ts, m, refused); StartedEmpty(c, d);
    case Resume(id, cancelled, refused) => ResumeFeeds(c, id, cancelled, refused); NoneNewEmpty(c, d);
    case Close(t, nowait) => CloseFeeds(c, t, nowait); NoneNewEmpty(c, d);
    case Disconnect => DisconnectFeeds(c, s); NoneNewEmpty(c, d);
    case Take(t, expired, w) => QueueFeeds(c, t, EventStream.Apply(c.streams[t].queue, DoGet(expired, w))); NoneNewEmpty(c, d);
    case StopWaiting(t, w) => QueueFeeds(c, t, EventStream.Apply(c.streams[t].queue, DoUnwait(w))); NoneNewEmpty(c, d);
    case _ => AloofFeeds(c, step); NoneNewEmpty(c, d);
  }

  lemma AloofFeeds(c: Client, step: Step)
    requires Enabled(c, step) && Aloof(step)
    ensures var d := ClientState.Apply(c, step); SameFeeds(c, d) && NoneNew(c, d)
  {
    hide ClientState.Apply;
    AloofStep(c, step);
    StreamsStay(c, ClientState.Apply(c, step));
  }

  lemma StartedEmpty(c: Client, d: Client)
    requires forall s :: s in d.streams && s !in c.streams ==> NewFeed(FeedOf(d, s))
    ensures NewAreEmpty(c, d)
  {
  }

  // ---------------------------------------------------------------- every run

  /** What the step from `a` to `b` brings the subscriber of `s`: the event that the client took, if it was
      for an id of `s` that is pending or active while `s` is neither ended nor full. */
  function Brought(a: System, b: System, s: StreamId): seq<EventStream.Event> {
    if b.seen == a.seen + 1 && a.seen < |a.bridge.posted| && a.bridge.posted[a.seen].EventFrame? then
      var frame := a.bridge.posted[a.seen];
      if Reaches(a.client, frame.sid, s) && !AtBound(a.client.streams[s].queue) then [Event(frame.sid, frame.data)] else []
    else
      []
  }

  lemma NextStreamNew(a: System)
    requires JointInv(a)
    ensures a.client.nextStream !in a.client.streams
  {
    GoodMeans(a.client);
    InvMeans(a.client);
  }

  lemma FrameNew(c: Client, frame: Frame)
    ensures NewAreEmpty(c, Dispatch(c, frame))
  {
    if s :| s in c.streams {
      FrameFeeds(c, frame, s);
    }
  }

  lemma NewItself(c: Client)
    ensures NewAreEmpty(c, c)
  {
  }

  /** What a frame does to a feed is what it brings, and maybe an end. */
  lemma FedBrings(a: System, b: System, s: StreamId)
    requires a.seen < |a.bridge.posted| && b.seen == a.seen + 1 && s in a.client.streams
    ensures Fed(a.client, a.bridge.posted[a.seen], s).pushed == FeedOf(a.client, s).pushed + Brought(a, b, s)
  {
  }

  lemma DeliverIs(a: System)
    requires CanMove(a, Deliver)
    ensures After(a, Deliver).client == Dispatch(a.client, a.bridge.posted[a.seen]) && After(a, Deliver).seen == a.seen + 1
    ensures After(a, Deliver).bridge == a.bridge
  {
    hide Dispatch;
  }

  lemma SeenStays(a: System, m: Move)
    requires CanMove(a, m) && !m.Deliver?
    ensures After(a, m).seen == a.seen && (m.ClientMove? ==> After(a, m).client == ClientState.Apply(a.client, m.step))
  {
    hide ClientState.Apply, Enabled, ConsumeNext, HandlerDone, CallDone, TerminateAll, CloseConnection;
  }

  /** What one move of the run does to the streams. */
  lemma MoveFeeds(a: System, m: Move, s: StreamId)
    requires JointInv(a) && CanMove(a, m)
    ensures var b := After(a, m);
      && NewAreEmpty(a.client, b.client)
      && (s in a.client.streams ==>
            s in b.client.streams && b.client.streams[s].queue.pushed == a.client.streams[s].queue.pushed + Brought(a, b, s))
      && (s !in a.client.streams ==> Brought(a, b, s) == [])
  {
    hide ClientState.Apply, Dispatch, NewAreEmpty, Enabled, After, JointInv, FeedOf, Fed;
    match m
    case ClientMove(step) =>
      SeenStays(a, m);
      ClientFeeds(a, step, s);
    case Deliver =>
      DeliverIs(a);
      DeliverFeeds(a, s);
    case _ =>
      SeenStays(a, m);
      JointKnows(a);
      BridgeMoveKnows(a, m);
      NewItself(a.client);
  }

  lemma JointKnows(a: System)
    requires JointInv(a)
    ensures Knows(a)
  {
  }

  lemma ClientFeeds(a: System, step: Step, s: StreamId)
    requires JointInv(a) && Enabled(a.client, step) && !step.Receive?
    ensures var d := ClientState.Apply(a.client, step);
      && NewAreEmpty(a.client, d)
      && (s in a.client.streams ==> s in d.streams && d.streams[s].queue.pushed == a.client.streams[s].queue.pushed)
  {
    hide ClientState.Apply, NewAreEmpty, Enabled, JointInv;
    NextStreamNew(a);
    StepNew(a.client, step);
    if s in a.client.streams {
      StepFeed(a.client, step, s);
    }
  }

  lemma StepNew(c: Client, step: Step)
    requires Enabled(c, step) && !step.Receive? && c.nextStream !in c.streams
    ensures NewAreEmpty(c, ClientState.Apply(c, step))
  {
    hide StartSubscribe, ResumeSubscribe, CloseStream, OnDisconnect, NewAreEmpty, NoneNew;
    var d := ClientState.Apply(c, step);
    match step
    case Start(ts, m, refused) => StartFeeds(c, ts, m, refused); StartedEmpty(c, d);
    case Resume(id, cancelled, refused) => ResumeFeeds(c, id, cancelled, refused); NoneNewEmpty(c, d);
    case Close(t, nowait) => CloseFeeds(c, t, nowait); NoneNewEmpty(c, d);
    case Disconnect => DisconnectNew(c); NoneNewEmpty(c, d);
    case Take(t, expired, w) => QueueFeeds(c, t, EventStream.Apply(c.streams[t].queue, DoGet(expired, w))); NoneNewEmpty(c, d);
    case StopWaiting(t, w) => QueueFeeds(c, t, EventStream.Apply(c.streams[t].queue, DoUnwait(w))); NoneNewEmpty(c, d);
    case _ => AloofFeeds(c, step); NoneNewEmpty(c, d);
  }

  lemma DisconnectNew(c: Client)
    ensures NoneNew(c, OnDisconnect(c))
  {
  }

  lemma DeliverFeeds(a: System, s: StreamId)
    requires a.seen < |a.bridge.posted|
    ensures var d := Dispatch(a.client, a.bridge.posted[a.seen]); var b := a.(client := d, seen := a.seen + 1);
      && NewAreEmpty(a.client, d)
      && (s in a.client.streams ==>
            s in d.streams && d.streams[s].queue.pushed == a.client.streams[s].queue.pushed + Brought(a, b, s))
  {
    hide Dispatch, NewAreEmpty, Fed, Brought;
    var frame := a.bridge.posted[a.seen];
    var d := Dispatch(a.client, frame);
    FrameNew(a.client, frame);
    if s in a.client.streams {
      FrameFeeds(a.client, frame, s);
      NoneNewEmpty(a.client, d);
      FedBrings(a, a.(client := d, seen := a.seen + 1), s);
    }
  }

  // ---------------------------------------------------------------- as a part of what was sent

  /** Where each pushed event stands among the frames that the client has taken. */
  ghost predicate StandsAt(a: System, s: StreamId, at: seq<nat>)
    requires s in a.client.streams
  {
    var pushed := a.client.streams[s].queue.pushed;
    && |at| == |pushed|
    && (forall i, j :: 0 <= i < j < |at| ==> at[i] < at[j])
    && (forall i :: 0 <= i < |at| ==> IsTaken(a, s, at[i], pushed[i]))
  }

  /** The frame at `k` has been taken; it is the event `e` of an id of `s`. */
  predicate IsTaken(a: System, s: StreamId, k: nat, e: EventStream.Event) {
    && k < a.seen && k < |a.bridge.posted| && a.bridge.posted[k] == EventFrame(e.sid, e.data)
    && e.sid in a.client.entries && a.client.entries[e.sid].stream == s
  }

  lemma PostedGrows(a: System, m: Move)
    requires CanMove(a, m)
    ensures a.bridge.posted <= After(a, m).bridge.posted && a.seen <= After(a, m).seen <= a.seen + 1
  {
    hide ClientState.Apply, Dispatch, Enabled, ConsumeNext;
    if m.Consume? {
      ConsumeGrows(a, m.permitted, m.max, m.fate);
    }
  }

  lemma ConsumeGrows(a: System, permitted: bool, max: nat, fate: Fate)
    requires a.consumed < |a.client.sent|
    ensures a.bridge.posted <= ConsumeNext(a, permitted, max, fate).posted
  {
    hide OnSubscribe, OnUnsubscribe, OnOther;
    match a.client.sent[a.consumed]
    case Subscribe(id, x, t) => SubscribeGrows(a.bridge, id, x, t, a.consumed, permitted, max, fate);
    case Unsubscribe(id, x) => UnsubscribeGrows(a.bridge, id, x, a.consumed);
    case Other(id) => OtherGrows(a.bridge, id, a.consumed, fate);
  }

  lemma AnswerGrows(b: Bridge, id: ReqId, ok: bool, at: nat)
    ensures b.posted <= Answer(b, id, ok, at).posted
  {
  }

  lemma SubscribeGrows(b: Bridge, id: ReqId, x: Sid, t: Target, at: nat, permitted: bool, max: nat, fate: Fate)
    ensures b.posted <= OnSubscribe(b, id, x, t, at, permitted, max, fate).posted
  {
    hide Answer;
    AnswerGrows(b, id, false, at);
    AnswerGrows(b, id, true, at);
    var b1 := Claim(b, x, t);
    AnswerGrows(b1, id, true, at);
    AnswerGrows(Unclaim(b1, x), id, false, at);
  }

  lemma UnsubscribeGrows(b: Bridge, id: ReqId, x: Sid, at: nat)
    ensures b.posted <= OnUnsubscribe(b, id, x, at).posted
  {
    AnswerGrows(Unclaim(b, x), id, true, at);
  }

  lemma OtherGrows(b: Bridge, id: ReqId, at: nat, fate: Fate)
    ensures b.posted <= OnOther(b, id, at, fate).posted
  {
  }

  lemma MoveOwns(a: System, m: Move)
    requires JointInv(a) && CanMove(a, m)
    ensures var c, d := a.client, After(a, m).client;
      forall x :: x in c.entries ==> x in d.entries && d.entries[x].stream == c.entries[x].stream
  {
    hide After, Follows, Dispatch, ClientState.Apply, Enabled, Knows;
    var d := After(a, m).client;
    match m
    case ClientMove(step) =>
      SeenStays(a, m);
      CanStep(a, m);
      StepGood(a.client, step);
      FollowsOwns(a.client, d, News(step));
    case Deliver =>
      var e := DispatchTo(a);
      FollowsOwns(a.client, d, a.bridge.posted[a.seen]);
    case _ =>
      BridgeMoveKnows(a, m);
  }

  lemma CanStep(a: System, m: Move)
    requires m.ClientMove? && CanMove(a, m)
    ensures Enabled(a.client, m.step)
  {
    hide Enabled;
  }

  lemma FollowsOwns(c: Client, d: Client, news: Frame)
    requires Follows(c, d, news)
    ensures forall x :: x in c.entries ==> x in d.entries && d.entries[x].stream == c.entries[x].stream
  {
    FollowsMeans(c, d, news);
    EvolvesMeans(c, d, news);
  }

  lemma TakenStays(a: System, b: System, s: StreamId, k: nat, e: EventStream.Event)
    requires IsTaken(a, s, k, e) && a.bridge.posted <= b.bridge.posted && a.seen <= b.seen
    requires forall x :: x in a.client.entries ==> x in b.client.entries && b.client.entries[x].stream == a.client.entries[x].stream
    ensures IsTaken(b, s, k, e)
  {
  }

  lemma BroughtTaken(a: System, b: System, s: StreamId)
    requires a.bridge.posted <= b.bridge.posted && Brought(a, b, s) != []
    requires forall x :: x in a.client.entries ==> x in b.client.entries && b.client.entries[x].stream == a.client.entries[x].stream
    ensures |Brought(a, b, s)| == 1 && b.seen == a.seen + 1 && IsTaken(b, s, a.seen, Brought(a, b, s)[0])
  {
  }

  /** One more move: the events pushed before stand where they stood, a new one where the client is. */
  lemma TakenMore(a: System, m: Move, s: StreamId, at: seq<nat>) returns (more: seq<nat>)
    requires JointInv(a) && CanMove(a, m) && s in a.client.streams && StandsAt(a, s, at)
    ensures s in After(a, m).client.streams && StandsAt(After(a, m), s, more)
  {
    hide After, CanMove, Brought, JointInv, IsTaken;
    var b := After(a, m);
    MoveFeeds(a, m, s);
    MoveOwns(a, m);
    PostedGrows(a, m);
    var pushed := a.client.streams[s].queue.pushed;
    forall i | 0 <= i < |at|
      ensures IsTaken(b, s, at[i], pushed[i]) && at[i] < a.seen
    {
      TakenStays(a, b, s, at[i], pushed[i]);
      TakenBefore(a, s, at[i], pushed[i]);
    }
    if Brought(a, b, s) == [] {
      more := at;
    } else {
      BroughtTaken(a, b, s);
      more := at + [a.seen];
    }
  }

  lemma TakenBefore(a: System, s: StreamId, k: nat, e: EventStream.Event)
    requires IsTaken(a, s, k, e)
    ensures k < a.seen
  {
  }

  // ---------------------------------------------------------------- why a stream ended

  /** What ended `s` between `a` and `b`, by the cause that its subscriber sees. */
  ghost predicate Explains(a: System, b: System, s: StreamId, cause: Cause) {
    match cause
    case ByOverflow =>
      && b.seen == a.seen + 1 && a.seen < |a.bridge.posted| && a.bridge.posted[a.seen].EventFrame?
      && Reaches(a.client, a.bridge.posted[a.seen].sid, s) && AtBound(a.client.streams[s].queue)
    case ByBridge(x) =>
      && b.seen == a.seen + 1 && a.seen < |a.bridge.posted| && a.bridge.posted[a.seen] == TerminatedFrame(x)
      && Owns(a.client, x, s) && !a.client.entries[x].state.Zombie?
    case ByDisconnect => !a.client.hasCloseInfo && b.client.hasCloseInfo && exists x :: Owns(a.client, x, s)
    case ByClient => exists step :: Enabled(a.client, step) && b.client == ClientState.Apply(a.client, step) && GivesUp(a.client, step, s)
  }

  /** The client closes `s`, or gives up the subscription that would open it. */
  predicate GivesUp(c: Client, step: Step, s: StreamId) {
    || (step.Close? && step.stream == s)
    || (step.Start? && s !in c.streams)
    || (step.Resume? && step.id in c.waiting && c.waiting[step.id].Subscriber? && c.waiting[step.id].stream == s)
  }

  predicate EndedBy(c: Client, s: StreamId, cause: Cause) {
    s in c.streams && c.streams[s].queue.end == Some(cause)
  }

  /** A move that ends a stream explains the cause. */
  lemma MoveExplains(a: System, m: Move, s: StreamId, cause: Cause)
    requires JointInv(a) && CanMove(a, m)
    requires EndedBy(After(a, m).client, s, cause) && !EndedBy(a.client, s, cause)
    ensures Explains(a, After(a, m), s, cause) && !(s in a.client.streams && a.client.streams[s].queue.Ended())
  {
    hide ClientState.Apply, Dispatch, Enabled, After, JointInv, Explains, Fed;
    match m
    case ClientMove(step) =>
      SeenStays(a, m);
      CanStep(a, m);
      ClientExplains(a, After(a, m), step, s, cause);
    case Deliver =>
      DeliverIs(a);
      FrameExplains(a, After(a, m), s, cause);
    case _ =>
      JointKnows(a);
      BridgeMoveKnows(a, m);
  }

  lemma FrameExplains(a: System, b: System, s: StreamId, cause: Cause)
    requires a.seen < |a.bridge.posted| && b.seen == a.seen + 1 && b.client == Dispatch(a.client, a.bridge.posted[a.seen])
    requires EndedBy(b.client, s, cause) && !EndedBy(a.client, s, cause)
    ensures Explains(a, b, s, cause) && !(s in a.client.streams && a.client.streams[s].queue.Ended())
  {
    hide Dispatch;
    var frame := a.bridge.posted[a.seen];
    FrameNew(a.client, frame);
    if s in a.client.streams {
      FrameFeeds(a.client, frame, s);
    } else {
      FrameAdds(a.client, frame, s);
    }
  }

  lemma FrameAdds(c: Client, frame: Frame, s: StreamId)
    requires s !in c.streams
    ensures s !in Dispatch(c, frame).streams
  {
    hide Dispatch;
    if t :| t in c.streams {
      FrameFeeds(c, frame, t);
    } else {
      FrameNone(c, frame);
    }
  }

  lemma FrameNone(c: Client, frame: Frame)
    requires c.streams == map[]
    ensures Dispatch(c, frame).streams == map[]
  {
  }

  lemma ClientExplains(a: System, b: System, step: Step, s: StreamId, cause: Cause)
    requires JointInv(a) && Enabled(a.client, step) && !step.Receive? && b.client == ClientState.Apply(a.client, step)
    requires EndedBy(b.client, s, cause) && !EndedBy(a.client, s, cause)
    ensures Explains(a, b, s, cause) && !(s in a.client.streams && a.client.streams[s].queue.Ended())
  {
    hide ClientState.Apply, Enabled, JointInv;
    NextStreamNew(a);
    if s in a.client.streams {
      StepFeed(a.client, step, s);
      if step.Disconnect? {
        DisconnectCloses(a.client);
      }
    } else {
      StepAdds(a.client, step, s);
    }
  }

  lemma DisconnectCloses(c: Client)
    requires Enabled(c, Disconnect)
    ensures ClientState.Apply(c, Disconnect).hasCloseInfo
  {
  }

  /** A stream that a step adds is the one that it subscribes. */
  lemma StepAdds(c: Client, step: Step, s: StreamId)
    requires Enabled(c, step) && !step.Receive? && c.nextStream !in c.streams && s !in c.streams
    ensures var d := ClientState.Apply(c, step);
      s in d.streams ==> step.Start? && NewFeed(FeedOf(d, s))
  {
    hide StartSubscribe, ResumeSubscribe, CloseStream, OnDisconnect;
    StepNew(c, step);
    match step
    case Start(ts, m, refused) =>
    case Resume(id, cancelled, refused) => ResumeFeeds(c, id, cancelled, refused);
    case Close(t, nowait) => CloseFeeds(c, t, nowait);
    case Disconnect => DisconnectNew(c);
    case Take(t, expired, w) =>
    case StopWaiting(t, w) =>
    case _ => AloofStep(c, step);
  }
}
