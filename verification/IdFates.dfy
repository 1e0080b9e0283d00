/** What becomes of each subscription id (`src/logos_bridge/client.py`). */
module IdFates {
  import opened Wrappers
  import opened EventStream
  import opened ClientState
  import opened ClientInvariant
  import opened EntrySteps

  // ---------------------------------------------------------------- a stream ends

  lemma EndingFates(c: Client, s: StreamId, why: Cause, quiet: bool)
    requires RowRight(c, s)
    ensures Ended(c, EndStream(c, s, why, quiet), s, quiet)
  {
    hide LiveSids, EndStream;
    LiveIs(c, s);
    EndingShape(c, s, why, quiet);
    SpawnsListed(c, LiveSids(c, s), quiet, Live(c, s));
  }

  // ---------------------------------------------------------------- a subscription starts

  /** One entry is registered for each target, in order; then the first is asked for, or the subscription is given up. */
  ghost predicate Starts(c: Client, d: Client, targets: seq<Target>, maxPending: Option<nat>, refused: bool) {
    exists m ::
      && Registered(c, m, targets, maxPending) && Reaches(m, d, c.nextStream, 0, refused)
      && SameRow(m, d, c.nextStream)
  }

  /** `_subscribe` up to its first await: nothing happens unless the connection is open. */
  lemma StartFates(c: Client, targets: seq<Target>, maxPending: Option<nat>, refused: bool)
    requires Inv(c) && targets != []
    ensures var d := StartSubscribe(c, targets, maxPending, refused);
      if c.life.Open? then Starts(c, d, targets, maxPending, refused) else d == c
  {
    InvMeans(c);
    hide Inv, Reaches, SubscribeLoop, Passed, Registered, RowRight;
    if c.life.Open? {
      var m := NewStream(c, targets, maxPending);
      NewRowIs(c, targets, maxPending);
      NewRegistered(c, targets, maxPending);
      NewRow(c, m, targets, maxPending);
      FirstOf(c, m, targets, maxPending);
      ReachesHere(m, c.nextStream, refused);
      FirstRow(m, c.nextStream, refused);
    }
  }

  lemma FirstOf(c: Client, m: Client, targets: seq<Target>, maxPending: Option<nat>)
    requires Registered(c, m, targets, maxPending) && targets != [] && AtLoop(m, c.nextStream) && m.streams[c.nextStream].task.k == 0
    ensures AtEntry(m, c.nextStream) && m.entries[Current(m, c.nextStream)].state.Pending?
  {
  }

  // ---------------------------------------------------------------- a request for an id comes back

  /** The id `x` is confirmed, and the loop goes on behind the `k`th entry. */
  ghost predicate GoesOn(c: Client, d: Client, s: StreamId, x: Sid, k: nat, refused: bool) {
    exists e, m, j ::
      Confirms(c, e, x) && Passed(e, m, s, k + 1, j) && k + 1 <= j && Reaches(m, d, s, j, refused)
  }

  /** `_subscribe` resumes from its request for `x`. An acknowledgement confirms the id and the loop goes on; a
      refusal or the disconnect gives the subscription up; a timeout or a cancellation does so while the bridge
      may have the id. */
  lemma ResumeFates(c: Client, id: ReqId, cancelled: bool, refused: bool)
    requires Inv(c) && CanResumeSubscribe(c, id, cancelled)
    ensures var s, d := c.waiting[id].stream, ResumeSubscribe(c, id, cancelled, refused);
      var x, answer := Current(c, s), c.futures[id];
      if cancelled || answer.Expired? || answer.Cancelled? then GivenUp(c, d, s, x, true)
      else if answer == Answered(false) || answer.Cut? then GivenUp(c, d, s, x, false)
      else answer == Answered(true) && GoesOn(c, d, s, x, c.waiting[id].index, refused)
  {
    hide Inv, Reaches, SubscribeLoop, Passed, AbortSubscribe, Acked, GivenUp, Confirms, Unsuspend, RowRight;
    var s, c1 := c.waiting[id].stream, Unsuspend(c, id);
    RowOf(c, s);
    ResumesDone(c, id, cancelled);
    UnsuspendSame(c, id);
    if !cancelled && c.futures[id] == Answered(true) {
      AckedConfirms(c1, s);
      ConfirmsFrom(c, c1, Acked(c1, s), Current(c, s));
      var j, m := LoopFates(Acked(c1, s), s, refused);
    } else {
      AbortFates(c1, s, cancelled || c.futures[id].Expired? || c.futures[id].Cancelled?);
      GivenUpFrom(c, c1, ResumeSubscribe(c, id, cancelled, refused), s, Current(c, s),
                  cancelled || c.futures[id].Expired? || c.futures[id].Cancelled?);
    }
  }

  // ---------------------------------------------------------------- frames, closing, the disconnect

  /** `x` is terminated, and then its stream ends. */
  ghost predicate TerminatesAll(c: Client, d: Client, x: Sid) {
    x in c.entries && exists m :: Terminates(c, m, x) && Ended(m, d, c.entries[x].stream, true)
  }

  /** A termination frame for a routed id: that id is terminated, and unless it was a zombie its stream ends. One
      for another id changes nothing. */
  lemma TerminationFates(c: Client, x: Sid)
    requires Inv(c)
    ensures var d := RouteTermination(c, x);
      if x !in c.subs then d == c
      else if x in c.entries && c.entries[x].state.Zombie? then Terminates(c, d, x)
      else TerminatesAll(c, d, x)
  {
    hide Inv, Ended, EndStream, Terminates, RowRight, SetState;
    if x in c.subs {
      RoutedRow(c, x);
      var s := c.entries[x].stream;
      var m := SetState(Unroute(c, x), x, Terminated);
      TerminatesRow(c, x, s);
      EndingFates(m, s, ByBridge(x), true);
    }
  }

  /** An event changes the ids of a stream only when it overflows: it is for one of its pending or active ids, and
      the stream has not ended and holds as much as it may. */
  lemma EventFates(c: Client, x: Sid, data: nat)
    requires Inv(c)
    ensures var d := RouteEvent(c, x, data);
      if Overflows(c, x) then Ended(c, d, c.entries[x].stream, true) else AllSame(c, d)
  {
    hide Inv, Ended, EndStream, RowRight;
    if x in c.subs {
      RoutedRow(c, x);
      EndingFates(c, c.entries[x].stream, ByOverflow, true);
    }
  }

  predicate Overflows(c: Client, x: Sid) {
    && x in c.subs && x in c.entries && c.entries[x].stream in c.streams
    && (c.entries[x].state.Pending? || c.entries[x].state.Active?)
    && var q := c.streams[c.entries[x].stream].queue; q.end.None? && q.maxPending.Some? && |q.items| >= q.maxPending.value
  }

  /** Closing a stream that has ended does nothing; closing another ends it. */
  lemma CloseFates(c: Client, s: StreamId, nowait: bool)
    requires Inv(c) && s in c.streams
    ensures var d := CloseStream(c, s, nowait); if c.streams[s].queue.end.Some? then d == c else Ended(c, d, s, nowait)
  {
    hide Inv, Ended, EndStream, RowRight;
    RowOf(c, s);
    EndingFates(c, s, ByClient, nowait);
  }

  /** The disconnect unroutes everything; what was still wanted is released, and nothing is unsubscribed. */
  lemma DisconnectFates(c: Client)
    requires Inv(c) && !c.hasCloseInfo
    ensures var d := OnDisconnect(c);
      && d.entries.Keys == c.entries.Keys && d.spawned == c.spawned && d.sent == c.sent && d.pending == {} && d.subs == {}
      && (forall x :: x in c.entries ==>
            Now(c, d, x, if x in c.subs && !c.entries[x].state.Zombie? then Released else c.entries[x].state, c.entries[x].hold, false))
      && (forall id :: id in c.futures ==>
            id in d.futures && d.futures[id] == if c.futures[id].Waiting? then Cut else c.futures[id])
  {
    hide Inv, HasRoutedEntry;
    RoutedStates(c);
  }

  /** An unsubscribe task takes its first turn: on an open connection its request is sent, once; else it comes to
      nothing, and a background one forgets its zombie. */
  lemma UnsubscribeFates(c: Client, i: nat)
    requires Inv(c) && i < |c.spawned|
    ensures var d, x := RunSpawned(c, i), c.spawned[i].sid;
      && x in c.entries && d.spawned == c.spawned[..i] + c.spawned[i + 1..] && d.entries.Keys == c.entries.Keys
      && (forall y :: y in c.entries && y != x ==> Same(c, d, y))
      && if c.life.Open? then
           && d.sent == c.sent + [Unsubscribe(c.nextReq, x)]
           && Now(c, d, x, c.entries[x].state, Told(|c.sent|), x in c.subs)
         else
           && d.sent == c.sent
           && Now(c, d, x, c.entries[x].state, Moot, x in c.subs && !(c.spawned[i].quiet && c.entries[x].state.Zombie?))
  {
    hide Inv, RunSpawned;
    SpawnedIn(c, i);
    if c.life.Open? {
      UnsubscribeSent(c, i);
    } else {
      UnsubscribeMoot(c, i);
    }
  }
}
