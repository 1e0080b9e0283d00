/** Whole steps and whole runs of the client (`src/logos_bridge/client.py`).

`StepKeeps` puts the small steps of `ClientSteps` together: whatever the event loop interleaves, a
step keeps the invariant, leaves every `_subscribe` coroutine suspended or finished, and undoes
nothing of what had happened. `Evolves` says what cannot be undone: the life of the connection goes
forward, a completed future keeps its outcome, an id that was given up stays given up, and the
history of each stream and of the requests only grows. */
module ClientRun {
  import opened Wrappers
  import opened EventStream
  import opened ClientState
  import opened ClientInvariant
  import opened ClientSteps

  // ---------------------------------------------------------------- what no step undoes

  /** An entry never comes back once given up, its history only grows, and it is terminated only by
      the frame that says so. */
  predicate EntryEvolves(e: Entry, f: Entry, x: Sid, news: Frame) {
    && f.stream == e.stream && f.index == e.index && f.target == e.target
    && (e.asking.Asked? ==> f.asking == e.asking)
    && (e.hold.Told? || e.hold.Lost? || e.hold.Moot? ==> f.hold == e.hold)
    && (!e.hold.Held? ==> !f.hold.Held?)
    && (Gone(e.state) ==> Gone(f.state))
    && (e.state.Terminated? ==> f.state.Terminated?)
    && (f.state.Terminated? && !e.state.Terminated? ==> news == TerminatedFrame(x))
  }

  predicate Gone(st: EntryState) {
    !st.Pending? && !st.Active? && !st.Doomed?
  }

  /** A future is completed at most once, and with an answer only by the response to its own id. */
  predicate FutureEvolves(o: Outcome, p: Outcome, id: ReqId, news: Frame) {
    && (!o.Waiting? ==> p == o)
    && (p.Answered? && o.Waiting? ==> news == Response(id, p.ok))
  }

  predicate Extends(a: seq<Request>, b: seq<Request>) {
    a <= b
  }

  ghost predicate EntriesEvolve(c: Client, d: Client, news: Frame) {
    && (forall x :: x in c.entries ==> x in d.entries && EntryEvolves(c.entries[x], d.entries[x], x, news))
    && (forall x :: x in d.entries && x !in c.entries && d.entries[x].state.Terminated? ==> news == TerminatedFrame(x))
  }

  ghost predicate FuturesEvolve(c: Client, d: Client, news: Frame) {
    && (forall id :: id in c.futures ==> id in d.futures && FutureEvolves(c.futures[id], d.futures[id], id, news))
    && (forall id :: id in d.futures && id !in c.futures && d.futures[id].Answered? ==>
          news == Response(id, d.futures[id].ok))
  }

  ghost predicate StreamsEvolve(c: Client, d: Client) {
    forall s :: s in c.streams ==>
      && s in d.streams && d.streams[s].sids == c.streams[s].sids
      && c.streams[s].queue.EvolvesTo(d.streams[s].queue)
  }

  predicate LifeEvolves(c: Client, d: Client) {
    && c.life.Rank() <= d.life.Rank()
    && (c.hasCloseInfo ==> d.hasCloseInfo) && (c.hasSocket ==> d.hasSocket)
    && Extends(c.sent, d.sent)
  }

  /** `d` can follow `c` when the only frame received in between is `news`; opened by `EvolvesMeans`. */
  ghost predicate Evolves(c: Client, d: Client, news: Frame) {
    forall k {:trigger Look(k)} :: Look(k) && k == 12 ==>
      LifeEvolves(c, d) && EntriesEvolve(c, d, news) && FuturesEvolve(c, d, news) && StreamsEvolve(c, d)
  }

  lemma EvolvesMeans(c: Client, d: Client, news: Frame)
    ensures Evolves(c, d, news) <==>
      LifeEvolves(c, d) && EntriesEvolve(c, d, news) && FuturesEvolve(c, d, news) && StreamsEvolve(c, d)
  {
    assert Look(12);
  }

  lemma EntriesEvolveOn(c: Client, d: Client, e: Client, news: Frame)
    requires EntriesEvolve(c, d, news) && EntriesEvolve(d, e, news)
    ensures EntriesEvolve(c, e, news)
  {
  }

  lemma FuturesEvolveOn(c: Client, d: Client, e: Client, news: Frame)
    requires FuturesEvolve(c, d, news) && FuturesEvolve(d, e, news)
    ensures FuturesEvolve(c, e, news)
  {
  }

  lemma StreamsEvolveOn(c: Client, d: Client, e: Client)
    requires StreamsEvolve(c, d) && StreamsEvolve(d, e)
    ensures StreamsEvolve(c, e)
  {
  }

  lemma EvolvesOn(c: Client, d: Client, e: Client, news: Frame)
    requires Evolves(c, d, news) && Evolves(d, e, news)
    ensures Evolves(c, e, news)
  {
    EvolvesMeans(c, d, news);
    EvolvesMeans(d, e, news);
    EvolvesMeans(c, e, news);
    EntriesEvolveOn(c, d, e, news);
    FuturesEvolveOn(c, d, e, news);
    StreamsEvolveOn(c, d, e);
  }

  /** Only entries and streams change. */
  lemma FromTables(c: Client, d: Client, news: Frame)
    requires d == c.(entries := d.entries, subs := d.subs, streams := d.streams, spawned := d.spawned)
    requires EntriesEvolve(c, d, news) && StreamsEvolve(c, d)
    ensures Evolves(c, d, news)
  {
  }

  /** Only requests change. */
  lemma FromRequests(c: Client, d: Client, news: Frame)
    requires d == c.(pending := d.pending, futures := d.futures, waiting := d.waiting, late := d.late)
    requires FuturesEvolve(c, d, news)
    ensures Evolves(c, d, news)
  {
  }

  /** At most one future changes. */
  lemma FromFuture(c: Client, d: Client, id: ReqId, news: Frame)
    requires d == c.(pending := d.pending, futures := d.futures, waiting := d.waiting, late := d.late)
    requires id in c.futures && id in d.futures && d.futures == c.futures[id := d.futures[id]]
    requires FutureEvolves(c.futures[id], d.futures[id], id, news)
    ensures Evolves(c, d, news)
  {
    FromRequests(c, d, news);
  }

  lemma FromPending(c: Client, d: Client, news: Frame)
    requires d == c.(pending := d.pending, late := d.late)
    ensures Evolves(c, d, news)
  {
    FromRequests(c, d, news);
  }

  lemma RouteResponseEvolves(c: Client, id: ReqId, ok: bool)
    ensures Evolves(c, RouteResponse(c, id, ok), Response(id, ok))
  {
    hide Evolves;
    if id in c.pending && id in c.futures && c.futures[id].Waiting? {
      FromFuture(c, RouteResponse(c, id, ok), id, Response(id, ok));
    } else {
      FromPending(c, RouteResponse(c, id, ok), Response(id, ok));
    }
  }

  lemma ExpireEvolves(c: Client, id: ReqId, news: Frame)
    ensures Evolves(c, Expire(c, id), news)
  {
    hide Evolves;
    if id in c.pending && id in c.futures && c.futures[id].Waiting? {
      FromFuture(c, Expire(c, id), id, news);
    } else {
      FromPending(c, Expire(c, id), news);
    }
  }

  lemma CancelFutureEvolves(c: Client, id: ReqId, news: Frame)
    requires id in c.waiting
    ensures Evolves(c, CancelFuture(c, id), news)
  {
    FromRequests(c, CancelFuture(c, id), news);
  }

  lemma FinishSendEvolves(c: Client, id: ReqId, news: Frame)
    requires id in c.futures
    ensures Evolves(c, FinishSend(c, id), news)
  {
    FromRequests(c, FinishSend(c, id), news);
  }

  lemma SetQueueEvolves(c: Client, s: StreamId, q: Queue, news: Frame)
    requires s in c.streams && c.streams[s].queue.EvolvesTo(q)
    ensures Evolves(c, SetQueue(c, s, q), news)
  {
    FromTables(c, SetQueue(c, s, q), news);
  }

  lemma ForgetZombieEvolves(c: Client, x: Sid, news: Frame)
    ensures Evolves(c, ForgetZombie(c, x), news)
  {
    hide Evolves, EntriesEvolve, StreamsEvolve;
    var d := ForgetZombie(c, x);
    SameEntriesEvolve(c, d, news);
    SameStreamsEvolve(c, d);
    FromTables(c, d, news);
  }

  lemma SetTaskEvolves(c: Client, s: StreamId, t: Task, news: Frame)
    requires s in c.streams
    ensures Evolves(c, SetTask(c, s, t), news)
  {
    FromTables(c, SetTask(c, s, t), news);
  }

  /** One entry and one stream's coroutine change. */
  lemma FromEntry(c: Client, d: Client, x: Sid, s: StreamId, news: Frame)
    requires d == c.(entries := d.entries, subs := d.subs, streams := d.streams, spawned := d.spawned)
    requires x in c.entries && x in d.entries && d.entries == c.entries[x := d.entries[x]]
    requires EntryEvolves(c.entries[x], d.entries[x], x, news)
    requires s in c.streams && s in d.streams && d.streams == c.streams[s := c.streams[s].(task := d.streams[s].task)]
    ensures Evolves(c, d, news)
  {
    FromTables(c, d, news);
  }

  lemma SkipEntryEvolves(c: Client, s: StreamId, news: Frame)
    requires AtEntry(c, s) && !c.entries[Current(c, s)].state.Pending?
    ensures Evolves(c, SkipEntry(c, s), news)
  {
    hide Evolves;
    FromEntry(c, SkipEntry(c, s), Current(c, s), s, news);
  }

  /** Ending a stream lets an entry evolve. */
  lemma EndedEvolves(e: Entry, routed: bool, row: StreamRow, futures: map<ReqId, Outcome>, open: bool, x: Sid, s: StreamId,
                     lets: bool, news: Frame)
    requires EntryRight(e, routed, row, futures, open)
    ensures EntryEvolves(e, EndedEntry(e, s, lets), x, news)
  {
  }

  lemma EndsEvolves(c: Client, d: Client, s: StreamId, lets: bool, news: Frame)
    requires Tables(c) && EntriesRight(c) && Ends(c, d, s, lets)
    ensures Evolves(c, d, news)
  {
    hide Evolves;
    forall x | x in c.entries
      ensures EntryEvolves(c.entries[x], d.entries[x], x, news)
    {
      hide EntryEvolves;
      EntryOf(c, x);
      EndedEvolves(c.entries[x], x in c.subs, c.streams[c.entries[x].stream], c.futures, c.life.Open?, x, s, lets, news);
    }
    EndsStreams(c, d, s, lets);
    FromTables(c, d, news);
  }

  lemma EndsStreams(c: Client, d: Client, s: StreamId, lets: bool)
    requires Ends(c, d, s, lets)
    ensures StreamsEvolve(c, d)
  {
  }

  lemma EndStreamEvolves(c: Client, s: StreamId, why: Cause, quiet: bool, news: Frame)
    requires Tables(c) && EntriesRight(c) && s in c.streams
    ensures Evolves(c, EndStream(c, s, why, quiet), news)
  {
    EndStreamEnds(c, s, why, quiet);
    EndsEvolves(c, EndStream(c, s, why, quiet), s, c.life.Open? || !quiet, news);
  }

  lemma MarkTerminatedEvolves(c: Client, x: Sid)
    requires x in c.entries
    ensures Evolves(c, MarkTerminated(c, x), TerminatedFrame(x))
  {
    FromTables(c, MarkTerminated(c, x), TerminatedFrame(x));
  }

  lemma AbortedEvolve(c: Client, d: Client, s: StreamId, maybe: bool, news: Frame)
    requires Tables(c) && EntriesRight(c) && CanAbort(c, s) && Aborts(c, d, s, Current(c, s), maybe)
    ensures EntriesEvolve(c, d, news)
  {
  }

  lemma AbortsEvolves(c: Client, d: Client, s: StreamId, maybe: bool, news: Frame)
    requires Tables(c) && EntriesRight(c) && CanAbort(c, s) && Aborts(c, d, s, Current(c, s), maybe)
    ensures Evolves(c, d, news)
  {
    hide Evolves, EntriesEvolve, StreamsEvolve;
    AbortedEvolve(c, d, s, maybe, news);
    AbortsStreams(c, d, s, Current(c, s), maybe);
    FromTables(c, d, news);
  }

  lemma AbortsStreams(c: Client, d: Client, s: StreamId, cur: Sid, maybe: bool)
    requires Aborts(c, d, s, cur, maybe)
    ensures StreamsEvolve(c, d)
  {
  }

  lemma AbortEvolves(c: Client, s: StreamId, maybe: bool, news: Frame)
    requires Tables(c) && EntriesRight(c) && CanAbort(c, s)
    ensures Evolves(c, AbortSubscribe(c, s, maybe), news)
  {
    AbortAborts(c, s, maybe);
    AbortsEvolves(c, AbortSubscribe(c, s, maybe), s, maybe, news);
  }

  lemma AckedEntryEvolves(e: Entry, routed: bool, row: StreamRow, futures: map<ReqId, Outcome>, open: bool, x: Sid, news: Frame)
    requires EntryRight(e, routed, row, futures, open)
    ensures EntryEvolves(e, AckedEntry(e, open), x, news)
  {
  }

  lemma AcksShape(c: Client, d: Client, s: StreamId)
    requires Acks(c, d, s)
    ensures var x := Current(c, s);
      && x in d.entries && d.entries[x] == AckedEntry(c.entries[x], c.life.Open?) && d.entries == c.entries[x := d.entries[x]]
      && s in d.streams && d.streams == c.streams[s := c.streams[s].(task := d.streams[s].task)]
  {
  }

  lemma AcksEvolves(c: Client, d: Client, s: StreamId, news: Frame)
    requires Tables(c) && EntriesRight(c) && Acks(c, d, s)
    ensures Evolves(c, d, news)
  {
    hide Evolves;
    var x := Current(c, s);
    EntryOf(c, x);
    AckedEntryEvolves(c.entries[x], x in c.subs, c.streams[c.entries[x].stream], c.futures, c.life.Open?, x, news);
    AcksShape(c, d, s);
    FromEntry(c, d, x, s, news);
  }

  lemma AckedEvolves(c: Client, s: StreamId, news: Frame)
    requires Tables(c) && EntriesRight(c) && JustAcked(c, s)
    ensures Evolves(c, Acked(c, s), news)
  {
    AckedAcks(c, s);
    AcksEvolves(c, Acked(c, s), s, news);
  }

  lemma OneEntryEvolves(c: Client, d: Client, x: Sid, news: Frame)
    requires x in c.entries && x in d.entries && d.entries == c.entries[x := d.entries[x]]
    requires EntryEvolves(c.entries[x], d.entries[x], x, news)
    ensures EntriesEvolve(c, d, news)
  {
  }

  lemma OneStreamEvolves(c: Client, d: Client, s: StreamId)
    requires s in c.streams && s in d.streams && d.streams == c.streams[s := c.streams[s].(task := d.streams[s].task)]
    ensures StreamsEvolve(c, d)
  {
  }

  lemma SameStreamsEvolve(c: Client, d: Client)
    requires d.streams == c.streams
    ensures StreamsEvolve(c, d)
  {
  }

  lemma SameEntriesEvolve(c: Client, d: Client, news: Frame)
    requires d.entries == c.entries
    ensures EntriesEvolve(c, d, news)
  {
  }

  lemma SendsEvolves(c: Client, d: Client, owner: Owner, r: Request, news: Frame)
    requires Futures(c) && Sends(c, d, owner, r)
    ensures FuturesEvolve(c, d, news) && LifeEvolves(c, d)
  {
  }

  lemma FinishedEvolves(c: Client, id: ReqId, news: Frame)
    requires id in c.futures
    ensures FuturesEvolve(c, FinishSend(c, id), news) && LifeEvolves(c, FinishSend(c, id))
  {
  }

  lemma SameLifeEvolves(c: Client, d: Client)
    requires d.life == c.life && d.hasCloseInfo == c.hasCloseInfo && d.hasSocket == c.hasSocket && d.sent == c.sent
    ensures LifeEvolves(c, d)
  {
  }

  lemma UnsuspendEvolves(c: Client, id: ReqId, cancelled: bool, news: Frame)
    requires CanResumeSubscribe(c, id, cancelled)
    ensures Evolves(c, Unsuspend(c, id), news)
  {
    hide EntriesEvolve, FuturesEvolve, StreamsEvolve, LifeEvolves;
    var d := Unsuspend(c, id);
    FinishedEvolves(c, id, news);
    SameEntriesEvolve(c, d, news);
    OneStreamEvolves(c, d, c.waiting[id].stream);
    SameLifeEvolves(c, d);
    SameFuturesEvolve(c, FinishSend(c, id), d, news);
  }

  lemma SameFuturesEvolve(c: Client, d: Client, e: Client, news: Frame)
    requires FuturesEvolve(c, d, news) && e.futures == d.futures
    ensures FuturesEvolve(c, e, news)
  {
  }

  lemma SendCallEvolves(c: Client, news: Frame)
    requires Futures(c)
    ensures Evolves(c, SendRequest(c, Caller, Other(c.nextReq)), news)
  {
    hide EntriesEvolve, FuturesEvolve, StreamsEvolve, LifeEvolves;
    var d := SendRequest(c, Caller, Other(c.nextReq));
    SendsEvolves(c, d, Caller, Other(c.nextReq), news);
    SameEntriesEvolve(c, d, news);
    SameStreamsEvolve(c, d);
  }

  /** Only how an entry is held changes. */
  lemma HoldEvolves(e: Entry, h: Hold, x: Sid, news: Frame)
    requires e.hold.Queued? && !h.Held?
    ensures EntryEvolves(e, e.(hold := h), x, news)
  {
  }

  lemma HeldEvolves(c: Client, x: Sid, h: Hold, news: Frame)
    requires x in c.entries && c.entries[x].hold.Queued? && !h.Held?
    ensures EntriesEvolve(c, SetHold(c, x, h), news)
  {
    HoldEvolves(c.entries[x], h, x, news);
    OneEntryEvolves(c, SetHold(c, x, h), x, news);
  }

  lemma AlikeEvolve(c: Client, d: Client, e: Client, news: Frame)
    requires EntriesEvolve(c, d, news) && e.entries == d.entries
    ensures EntriesEvolve(c, e, news)
  {
  }

  lemma CancelSpawnedEvolves(c: Client, i: nat, news: Frame)
    requires CanRun(c, i) && !c.spawned[i].quiet
    ensures Evolves(c, CancelSpawned(c, i), news)
  {
    hide Evolves, EntriesEvolve, StreamsEvolve;
    var d := CancelSpawned(c, i);
    HeldEvolves(c, c.spawned[i].sid, Lost, news);
    AlikeEvolve(c, SetHold(c, c.spawned[i].sid, Lost), d, news);
    SameStreamsEvolve(c, d);
    FromTables(c, d, news);
  }

  lemma RunHolds(c: Client, i: nat)
    requires CanRun(c, i) && c.life.Open?
    ensures RunSpawned(c, i).entries == SetHold(c, c.spawned[i].sid, Told(|c.sent|)).entries
    ensures RunSpawned(c, i).streams == c.streams
  {
  }

  lemma RunOpenEvolves(c: Client, i: nat, news: Frame)
    requires Futures(c) && CanRun(c, i) && c.life.Open?
    ensures Evolves(c, RunSpawned(c, i), news)
  {
    hide EntriesEvolve, FuturesEvolve, StreamsEvolve, LifeEvolves, RunSpawned;
    var d := RunSpawned(c, i);
    RunSends(c, i);
    SendsEvolves(c, d, RunOwner(c, i), RunRequest(c, i), news);
    HeldEvolves(c, c.spawned[i].sid, Told(|c.sent|), news);
    RunHolds(c, i);
    AlikeEvolve(c, SetHold(c, c.spawned[i].sid, Told(|c.sent|)), d, news);
    SameStreamsEvolve(c, d);
  }

  lemma DropEvolves(c: Client, i: nat, news: Frame)
    requires CanRun(c, i)
    ensures Evolves(c, DropSpawned(c, i), news)
  {
    hide Evolves, EntriesEvolve, StreamsEvolve;
    var d := DropSpawned(c, i);
    HeldEvolves(c, c.spawned[i].sid, Moot, news);
    AlikeEvolve(c, SetHold(c, c.spawned[i].sid, Moot), d, news);
    SameStreamsEvolve(c, d);
    FromTables(c, d, news);
  }

  lemma AskedEvolves(e: Entry, a: Asking, x: Sid, news: Frame)
    requires e.asking.NotAsked?
    ensures EntryEvolves(e, e.(asking := a), x, news)
  {
  }

  lemma SendSubscribeEvolves(c: Client, s: StreamId, news: Frame)
    requires Futures(c) && CanSendSubscribe(c, s) && c.entries[Current(c, s)].asking.NotAsked?
    ensures Evolves(c, SendSubscribe(c, s), news)
  {
    hide EntriesEvolve, FuturesEvolve, StreamsEvolve, LifeEvolves, EntryEvolves;
    var x, d := Current(c, s), SendSubscribe(c, s);
    SubscribeSends(c, s);
    SendsEvolves(c, d, Subscriber(s, c.streams[s].task.k), Subscribe(c.nextReq, x, c.entries[x].target), news);
    AskedEvolves(c.entries[x], Asked(|c.sent|, c.nextReq), x, news);
    OneEntryEvolves(c, d, x, news);
    OneStreamEvolves(c, d, s);
  }

  lemma NewStreamEntriesEvolve(c: Client, targets: seq<Target>, m: Option<nat>, news: Frame)
    requires Tables(c)
    ensures EntriesEvolve(c, NewStream(c, targets, m), news)
  {
    var d := NewStream(c, targets, m);
    forall x | x in c.entries
      ensures x in d.entries && d.entries[x] == c.entries[x]
    {
    }
    forall x | x in d.entries && x !in c.entries
      ensures d.entries[x].state.Pending?
    {
    }
  }

  lemma NewStreamStreamsEvolve(c: Client, targets: seq<Target>, m: Option<nat>)
    requires Tables(c)
    ensures StreamsEvolve(c, NewStream(c, targets, m))
  {
  }

  lemma NewStreamEvolves(c: Client, targets: seq<Target>, m: Option<nat>, news: Frame)
    requires Tables(c)
    ensures Evolves(c, NewStream(c, targets, m), news)
  {
    hide Evolves, EntriesEvolve, FuturesEvolve, StreamsEvolve, LifeEvolves;
    var d := NewStream(c, targets, m);
    assert d.sent == c.sent && d.futures == c.futures;
    NewStreamEntriesEvolve(c, targets, m, news);
    NewStreamStreamsEvolve(c, targets, m);
    SameLifeEvolves(c, d);
    UntouchedEvolve(c, d, news);
    EvolvesMeans(c, d, news);
  }

  lemma UntouchedEvolve(c: Client, d: Client, news: Frame)
    requires d.futures == c.futures
    ensures FuturesEvolve(c, d, news)
  {
  }

  lemma DisconnectEntriesEvolve(c: Client, news: Frame)
    requires !c.hasCloseInfo
    ensures EntriesEvolve(c, OnDisconnect(c), news)
  {
  }

  lemma DisconnectStreamsEvolve(c: Client)
    requires !c.hasCloseInfo
    ensures StreamsEvolve(c, OnDisconnect(c))
  {
  }

  lemma DisconnectFuturesEvolve(c: Client, news: Frame)
    requires !c.hasCloseInfo
    ensures FuturesEvolve(c, OnDisconnect(c), news) && LifeEvolves(c, OnDisconnect(c))
  {
  }

  lemma DisconnectEvolves(c: Client, news: Frame)
    requires !c.hasCloseInfo
    ensures Evolves(c, OnDisconnect(c), news)
  {
    hide Evolves, EntriesEvolve, FuturesEvolve, StreamsEvolve, LifeEvolves, OnDisconnect;
    DisconnectEntriesEvolve(c, news);
    DisconnectStreamsEvolve(c);
    DisconnectFuturesEvolve(c, news);
    EvolvesMeans(c, OnDisconnect(c), news);
  }

  lemma SetLifeEvolves(c: Client, l: Life, news: Frame)
    requires LifeMove(c, l)
    ensures Evolves(c, c.(life := l, hasSocket := c.hasSocket || l.Open?), news)
  {
  }

  // ---------------------------------------------------------------- the subscribe coroutine

  /** Only the coroutine of `s` moved. */
  ghost predicate OthersRest(c: Client, d: Client, s: StreamId) {
    forall t :: t in d.streams && t != s ==> t in c.streams && d.streams[t].task == c.streams[t].task
  }

  predicate Rests(c: Client, s: StreamId) {
    s in c.streams && (c.streams[s].task.Awaiting? || c.streams[s].task.Finished?)
  }

  lemma SkipEntryRests(c: Client, s: StreamId)
    requires AtEntry(c, s)
    ensures OthersRest(c, SkipEntry(c, s), s) && AtLoop(SkipEntry(c, s), s)
  {
  }

  lemma AbortRests(c: Client, s: StreamId, maybe: bool)
    requires CanAbort(c, s)
    ensures OthersRest(c, AbortSubscribe(c, s, maybe), s) && Rests(AbortSubscribe(c, s, maybe), s)
  {
  }

  lemma SendSubscribeRests(c: Client, s: StreamId)
    requires AtEntry(c, s)
    ensures OthersRest(c, SendSubscribe(c, s), s) && Rests(SendSubscribe(c, s), s)
  {
  }

  lemma AckedRests(c: Client, s: StreamId)
    requires JustAcked(c, s)
    ensures OthersRest(c, Acked(c, s), s) && AtLoop(Acked(c, s), s)
  {
    AckedAcks(c, s);
  }

  /** The loop of `_subscribe`, by induction over the entries still to treat. */
  lemma {:induction false} SubscribeLoopKeeps(c: Client, s: StreamId, refused: bool, news: Frame)
    requires Inv(c) && AtLoop(c, s)
    ensures var d := SubscribeLoop(c, s, refused);
      Inv(d) && Evolves(c, d, news) && OthersRest(c, d, s) && Rests(d, s)
    decreases if AtLoop(c, s) then |c.streams[s].sids| - c.streams[s].task.k else 0
  {
    hide Inv, Evolves, Tables, EntriesRight, Futures, RowsRight, WaitingRight, Sent, Linked, SpawnedRight;
    InvMeans(c);
    if !AtEntry(c, s) {
      FinishLoopKeeps(c, s);
      SetTaskEvolves(c, s, Finished, news);
    } else if !c.entries[Current(c, s)].state.Pending? {
      var c1 := SkipEntry(c, s);
      SkipEntryKeeps(c, s);
      SkipEntryEvolves(c, s, news);
      SkipEntryRests(c, s);
      SubscribeLoopKeeps(c1, s, refused, news);
      EvolvesOn(c, c1, SubscribeLoop(c1, s, refused), news);
    } else {
      CurrentUnasked(c, s);
      if refused || !c.life.Open? {
        AbortKeeps(c, s, false);
        AbortEvolves(c, s, false, news);
        AbortRests(c, s, false);
      } else {
        SendSubscribeKeeps(c, s);
        SendSubscribeEvolves(c, s, news);
        SendSubscribeRests(c, s);
      }
    }
  }

  lemma SettledAfter(c: Client, c1: Client, d: Client, s: StreamId)
    requires Settled(c) && OthersRest(c, c1, s) && OthersRest(c1, d, s) && Rests(d, s)
    ensures Settled(d)
  {
  }

  lemma NewStreamRests(c: Client, targets: seq<Target>, m: Option<nat>)
    ensures var c1 := NewStream(c, targets, m); OthersRest(c, c1, c.nextStream) && AtLoop(c1, c.nextStream)
  {
  }

  lemma StartOpenKeeps(c: Client, targets: seq<Target>, m: Option<nat>, refused: bool, news: Frame)
    requires Inv(c) && c.life.Open? && (m.Some? ==> m.value >= 1)
    ensures var c1 := NewStream(c, targets, m); var d := StartSubscribe(c, targets, m, refused);
      Inv(d) && Evolves(c, d, news) && OthersRest(c1, d, c.nextStream) && Rests(d, c.nextStream)
  {
    InvMeans(c);
    var c1 := NewStream(c, targets, m);
    NewStreamKeeps(c, targets, m);
    NewStreamEvolves(c, targets, m, news);
    NewStreamRests(c, targets, m);
    SubscribeLoopKeeps(c1, c.nextStream, refused, news);
    EvolvesOn(c, c1, SubscribeLoop(c1, c.nextStream, refused), news);
  }

  lemma StartKeeps(c: Client, targets: seq<Target>, m: Option<nat>, refused: bool, news: Frame)
    requires Inv(c) && Settled(c) && (m.Some? ==> m.value >= 1)
    ensures var d := StartSubscribe(c, targets, m, refused); Inv(d) && Settled(d) && Evolves(c, d, news)
  {
    if c.life.Open? {
      StartOpenKeeps(c, targets, m, refused, news);
      NewStreamRests(c, targets, m);
      SettledAfter(c, NewStream(c, targets, m), StartSubscribe(c, targets, m, refused), c.nextStream);
    } else {
      NothingEvolves(c, news);
    }
  }

  lemma NothingEvolves(c: Client, news: Frame)
    ensures Evolves(c, c, news)
  {
  }

  lemma ResumedFits(c: Client, id: ReqId, cancelled: bool)
    requires Inv(c) && CanResumeSubscribe(c, id, cancelled)
    ensures var s := c.waiting[id].stream; var c1 := Unsuspend(c, id);
      && OthersRest(c, c1, s) && c1.streams[s].task == Resumed(c.waiting[id].index, id)
      && AbortFits(c1, s, true)
      && (!cancelled && c.futures[id] == Answered(true) ==> JustAcked(c1, s))
      && (!cancelled && (c.futures[id] == Answered(false) || c.futures[id].Cut?) ==> AbortFits(c1, s, false))
  {
    InvMeans(c);
    var s := c.waiting[id].stream;
    assert TaskRight(c.streams[s], s, c.waiting, c.futures, c.entries);
  }

  lemma AnsweredKeeps(c: Client, s: StreamId, refused: bool, news: Frame)
    requires Inv(c) && JustAcked(c, s)
    ensures AtLoop(Acked(c, s), s)
    ensures var d := SubscribeLoop(Acked(c, s), s, refused);
      Inv(d) && Evolves(c, d, news) && OthersRest(Acked(c, s), d, s) && Rests(d, s)
  {
    InvMeans(c);
    AckedKeeps(c, s);
    AckedEvolves(c, s, news);
    AckedRests(c, s);
    SubscribeLoopKeeps(Acked(c, s), s, refused, news);
    EvolvesOn(c, Acked(c, s), SubscribeLoop(Acked(c, s), s, refused), news);
  }

  lemma AnsweredRests(c: Client, s: StreamId, refused: bool)
    requires JustAcked(c, s) && AtLoop(Acked(c, s), s)
    requires OthersRest(Acked(c, s), SubscribeLoop(Acked(c, s), s, refused), s)
    ensures OthersRest(c, SubscribeLoop(Acked(c, s), s, refused), s)
  {
    AckedRests(c, s);
  }

  lemma FailedKeeps(c: Client, s: StreamId, maybe: bool, news: Frame)
    requires Inv(c) && AbortFits(c, s, maybe) && !c.streams[s].task.Awaiting?
    ensures var d := AbortSubscribe(c, s, maybe);
      Inv(d) && Evolves(c, d, news) && OthersRest(c, d, s) && Rests(d, s)
  {
    InvMeans(c);
    AbortKeeps(c, s, maybe);
    AbortEvolves(c, s, maybe, news);
    AbortRests(c, s, maybe);
  }

  /** The state right after the coroutine resumed, and where it goes from there. */
  lemma ResumeGoesOn(c1: Client, s: StreamId, outcome: Outcome, refused: bool, news: Frame)
    requires Inv(c1) && s in c1.streams && c1.streams[s].task.Resumed?
    requires outcome == Answered(true) ==> JustAcked(c1, s)
    requires outcome != Answered(true) ==> AbortFits(c1, s, !(outcome == Answered(false) || outcome.Cut?))
    ensures outcome == Answered(true) ==> AtLoop(Acked(c1, s), s)
    ensures var d :=
        if outcome == Answered(true) then SubscribeLoop(Acked(c1, s), s, refused)
        else AbortSubscribe(c1, s, !(outcome == Answered(false) || outcome.Cut?));
      Inv(d) && Evolves(c1, d, news) && OthersRest(c1, d, s) && Rests(d, s)
  {
    if outcome == Answered(true) {
      AnsweredKeeps(c1, s, refused, news);
      AnsweredRests(c1, s, refused);
    } else {
      FailedKeeps(c1, s, !(outcome == Answered(false) || outcome.Cut?), news);
    }
  }

  lemma ResumeKeeps(c: Client, id: ReqId, cancelled: bool, refused: bool, news: Frame)
    requires Inv(c) && Settled(c) && CanResumeSubscribe(c, id, cancelled)
    ensures var d := ResumeSubscribe(c, id, cancelled, refused); Inv(d) && Settled(d) && Evolves(c, d, news)
  {
    var s := c.waiting[id].stream;
    var c1 := Unsuspend(c, id);
    UnsuspendKeeps(c, id, cancelled);
    UnsuspendEvolves(c, id, cancelled, news);
    ResumedFits(c, id, cancelled);
    ResumeGoesOn(c1, s, if cancelled then Cancelled else c.futures[id], refused, news);
    ResumeEnds(c, c1, ResumeSubscribe(c, id, cancelled, refused), s, news);
  }

  lemma ResumeEnds(c: Client, c1: Client, d: Client, s: StreamId, news: Frame)
    requires Settled(c) && Evolves(c, c1, news) && Evolves(c1, d, news)
    requires OthersRest(c, c1, s) && OthersRest(c1, d, s) && Rests(d, s)
    ensures Settled(d) && Evolves(c, d, news)
  {
    EvolvesOn(c, c1, d, news);
    SettledAfter(c, c1, d, s);
  }

  // ---------------------------------------------------------------- every step

  function News(step: Step): Frame {
    if step.Receive? then step.frame else Uncorrelated
  }

  ghost predicate SameTasks(c: Client, d: Client) {
    forall s :: s in d.streams ==> s in c.streams && d.streams[s].task == c.streams[s].task
  }

  lemma StaySettled(c: Client, d: Client)
    requires Settled(c) && SameTasks(c, d)
    ensures Settled(d)
  {
  }

  lemma EndStreamTasks(c: Client, s: StreamId, why: Cause, quiet: bool)
    requires s in c.streams
    ensures SameTasks(c, EndStream(c, s, why, quiet))
  {
  }

  lemma RowSound(c: Client, s: StreamId)
    requires RowsRight(c) && s in c.streams
    ensures c.streams[s].queue.Sound()
  {
  }

  lemma QueueStepKeeps(c: Client, s: StreamId, q: Queue, news: Frame)
    requires Inv(c) && s in c.streams && q.Sound() && q.Ended() == c.streams[s].queue.Ended()
    requires c.streams[s].queue.EvolvesTo(q)
    ensures var d := SetQueue(c, s, q); Inv(d) && SameTasks(c, d) && Evolves(c, d, news)
  {
    QueueKeeps(c, s, q);
    SetQueueEvolves(c, s, q, news);
  }

  lemma EndStreamStepKeeps(c: Client, s: StreamId, why: Cause, quiet: bool, news: Frame)
    requires Inv(c) && s in c.streams
    ensures var d := EndStream(c, s, why, quiet); Inv(d) && SameTasks(c, d) && Evolves(c, d, news)
  {
    InvMeans(c);
    EndStreamKeeps(c, s, why, quiet);
    EndStreamEvolves(c, s, why, quiet, news);
    EndStreamTasks(c, s, why, quiet);
  }

  lemma PushedSound(q: Queue, e: Event)
    requires q.Sound() && !q.Ended() && !q.Full()
    ensures Push(q, e).Sound() && !Push(q, e).Ended() && q.EvolvesTo(Push(q, e))
  {
    EventStream.ApplyKeeps(q, DoPush(e));
  }

  lemma ReceiveEventKeeps(c: Client, x: Sid, data: nat)
    requires Inv(c)
    ensures var d := RouteEvent(c, x, data); Inv(d) && SameTasks(c, d) && Evolves(c, d, EventFrame(x, data))
  {
    InvMeans(c);
    hide Inv, Evolves, EntriesRight, Futures, Tables, WaitingRight, Sent, Linked, SpawnedRight;
    if x !in c.subs || x !in c.entries {
      UnroutedKeeps(c, x, data);
      return;
    }
    var s := c.entries[x].stream;
    if !(c.entries[x].state.Pending? || c.entries[x].state.Active?) || s !in c.streams || c.streams[s].queue.Ended() {
      NothingEvolves(c, EventFrame(x, data));
      return;
    }
    RowSound(c, s);
    if c.streams[s].queue.Full() {
      EndStreamStepKeeps(c, s, ByOverflow, true, EventFrame(x, data));
    } else {
      PushedSound(c.streams[s].queue, Event(x, data));
      QueueStepKeeps(c, s, Push(c.streams[s].queue, Event(x, data)), EventFrame(x, data));
    }
  }

  lemma UnroutedKeeps(c: Client, x: Sid, data: nat)
    requires Inv(c)
    ensures var d := c.(unrouted := c.unrouted + 1); Inv(d) && SameTasks(c, d) && Evolves(c, d, EventFrame(x, data))
  {
    hide Inv, Evolves;
    CountedKeeps(c);
    CountedEvolves(c, EventFrame(x, data));
  }

  lemma CountedKeeps(c: Client)
    requires Inv(c)
    ensures Inv(c.(unrouted := c.unrouted + 1))
  {
    InvMeans(c);
    Moved(c, c.(unrouted := c.unrouted + 1));
  }

  lemma CountedEvolves(c: Client, news: Frame)
    ensures Evolves(c, c.(unrouted := c.unrouted + 1), news)
  {
  }

  lemma ReceiveTerminationKeeps(c: Client, x: Sid)
    requires Inv(c)
    ensures var d := RouteTermination(c, x);
      && Inv(d) && SameTasks(c, d) && Evolves(c, d, TerminatedFrame(x))
      && (x in d.entries ==> Gone(d.entries[x].state))
  {
    InvMeans(c);
    var news := TerminatedFrame(x);
    if x !in c.subs || x !in c.entries {
      NothingEvolves(c, news);
      UnroutedGone(c, x);
    } else {
      var s := c.entries[x].stream;
      var c1 := MarkTerminated(c, x);
      MarkTerminatedKeeps(c, x);
      MarkTerminatedEvolves(c, x);
      MarkTerminatedGone(c, x);
      if !c.entries[x].state.Zombie? && s in c.streams {
        TerminationEnds(c, c1, s, x);
      }
    }
  }

  lemma UnroutedGone(c: Client, x: Sid)
    requires Tables(c) && EntriesRight(c) && (x !in c.subs || x !in c.entries)
    ensures x in c.entries ==> Gone(c.entries[x].state)
  {
  }

  lemma MarkTerminatedGone(c: Client, x: Sid)
    requires x in c.entries
    ensures SameTasks(c, MarkTerminated(c, x)) && Gone(MarkTerminated(c, x).entries[x].state)
  {
  }

  lemma TerminationEnds(c: Client, c1: Client, s: StreamId, x: Sid)
    requires Inv(c1) && SameTasks(c, c1) && Evolves(c, c1, TerminatedFrame(x)) && s in c1.streams
    requires x in c1.entries && Gone(c1.entries[x].state)
    ensures var d := EndStream(c1, s, ByBridge(x), true);
      && Inv(d) && SameTasks(c, d) && Evolves(c, d, TerminatedFrame(x))
      && x in d.entries && Gone(d.entries[x].state)
  {
    InvMeans(c1);
    var d := EndStream(c1, s, ByBridge(x), true);
    EndStreamKeeps(c1, s, ByBridge(x), true);
    EndStreamEvolves(c1, s, ByBridge(x), true, TerminatedFrame(x));
    EndStreamTasks(c1, s, ByBridge(x), true);
    EvolvesOn(c, c1, d, TerminatedFrame(x));
    StaysGone(c1, d, x, TerminatedFrame(x));
  }

  lemma StaysGone(c: Client, d: Client, x: Sid, news: Frame)
    requires Evolves(c, d, news) && x in c.entries && Gone(c.entries[x].state)
    ensures x in d.entries && Gone(d.entries[x].state)
  {
    EvolvesMeans(c, d, news);
    assert EntryEvolves(c.entries[x], d.entries[x], x, news);
  }

  lemma RouteResponseTasks(c: Client, id: ReqId, ok: bool)
    ensures SameTasks(c, RouteResponse(c, id, ok))
  {
  }

  lemma ReceiveKeeps(c: Client, f: Frame)
    requires Inv(c)
    ensures var d := Dispatch(c, f); Inv(d) && SameTasks(c, d) && Evolves(c, d, f)
  {
    match f
    case Response(id, ok) =>
      AnswerKeeps(c, id, ok);
      RouteResponseEvolves(c, id, ok);
      RouteResponseTasks(c, id, ok);
    case EventFrame(x, data) => ReceiveEventKeeps(c, x, data);
    case TerminatedFrame(x) => ReceiveTerminationKeeps(c, x);
    case Uncorrelated => NothingEvolves(c, f);
  }

  lemma RunTaskKeeps(c: Client, i: nat, news: Frame)
    requires Inv(c) && i < |c.spawned|
    ensures var d := RunSpawned(c, i); Inv(d) && SameTasks(c, d) && Evolves(c, d, news)
  {
    InvMeans(c);
    RunSpawnedKeeps(c, i);
    SpawnedQueued(c, i);
    if c.life.Open? {
      RunOpenEvolves(c, i, news);
    } else {
      DropEvolves(c, i, news);
      if c.spawned[i].quiet {
        ForgetZombieEvolves(DropSpawned(c, i), c.spawned[i].sid, news);
        EvolvesOn(c, DropSpawned(c, i), ForgetZombie(DropSpawned(c, i), c.spawned[i].sid), news);
      }
    }
  }

  lemma FinishUnsubscribeKeeps(c: Client, id: ReqId, news: Frame)
    requires Inv(c) && id in c.waiting && c.waiting[id].Unsubscriber?
    ensures id in c.futures
    ensures var d := ResumeUnsubscribe(c, id); Inv(d) && SameTasks(c, d) && Evolves(c, d, news)
  {
    InvMeans(c);
    FinishSendKeeps(c, id);
    FinishSendEvolves(c, id, news);
    if c.waiting[id].quiet {
      ForgetZombieKeeps(FinishSend(c, id), c.waiting[id].sid);
      ForgetZombieEvolves(FinishSend(c, id), c.waiting[id].sid, news);
      EvolvesOn(c, FinishSend(c, id), ForgetZombie(FinishSend(c, id), c.waiting[id].sid), news);
    }
  }

  lemma CloseKeeps(c: Client, s: StreamId, nowait: bool, news: Frame)
    requires Inv(c) && s in c.streams
    ensures var d := CloseStream(c, s, nowait); Inv(d) && SameTasks(c, d) && Evolves(c, d, news)
  {
    if c.streams[s].queue.Ended() {
      NothingEvolves(c, news);
    } else {
      EndStreamStepKeeps(c, s, ByClient, nowait, news);
    }
  }

  lemma OpSound(q: Queue, op: Op)
    requires q.Sound() && (op.DoGet? || op.DoUnwait?)
    ensures var r := EventStream.Apply(q, op); r.Sound() && q.EvolvesTo(r) && r.Ended() == q.Ended()
  {
    EventStream.ApplyKeeps(q, op);
  }

  lemma TakeKeeps(c: Client, s: StreamId, op: Op, news: Frame)
    requires Inv(c) && s in c.streams && (op.DoGet? || op.DoUnwait?)
    ensures var d := SetQueue(c, s, EventStream.Apply(c.streams[s].queue, op));
      Inv(d) && SameTasks(c, d) && Evolves(c, d, news)
  {
    InvMeans(c);
    RowSound(c, s);
    OpSound(c.streams[s].queue, op);
    QueueStepKeeps(c, s, EventStream.Apply(c.streams[s].queue, op), news);
  }

  predicate IsSmall(step: Step) {
    step.Call? || step.FinishCall? || step.SendFails? || step.FireTimer? || step.CancelWait? || step.CancelTask?
  }

  lemma SmallStepKeeps(c: Client, step: Step)
    requires Inv(c) && ClientState.Enabled(c, step) && IsSmall(step)
    ensures var d := ClientState.Apply(c, step); Inv(d) && SameTasks(c, d) && Evolves(c, d, Uncorrelated)
  {
    hide Inv, Evolves, SameTasks, FinishSend, CancelSpawned, CancelFuture, Expire, SendRequest;
    match step
    case Call => CallKeeps(c);
    case FinishCall(id, _) => ReturnKeeps(c, id);
    case SendFails(id) =>
      if c.waiting[id].Caller? {
        ReturnKeeps(c, id);
      } else {
        FinishUnsubscribeKeeps(c, id, Uncorrelated);
      }
    case FireTimer(id) => ExpireKeeps(c, id); ExpireEvolves(c, id, Uncorrelated); ExpireTasks(c, id);
    case CancelWait(id) => CancelWaitKeeps(c, id);
    case CancelTask(i) => CancelTaskKeeps(c, i);
  }

  lemma CallKeeps(c: Client)
    requires Inv(c) && c.life.Open?
    ensures var d := SendRequest(c, Caller, Other(c.nextReq)); Inv(d) && SameTasks(c, d) && Evolves(c, d, Uncorrelated)
  {
    hide Inv, Evolves;
    InvMeans(c);
    SendCallKeeps(c);
    SendCallEvolves(c, Uncorrelated);
  }

  lemma ReturnKeeps(c: Client, id: ReqId)
    requires Inv(c) && id in c.waiting && !c.waiting[id].Subscriber? && id in c.futures
    ensures var d := FinishSend(c, id); Inv(d) && SameTasks(c, d) && Evolves(c, d, Uncorrelated)
  {
    hide Inv, Evolves;
    FinishSendKeeps(c, id);
    FinishSendEvolves(c, id, Uncorrelated);
  }

  lemma ExpireTasks(c: Client, id: ReqId)
    ensures SameTasks(c, Expire(c, id))
  {
  }

  lemma CancelWaitKeeps(c: Client, id: ReqId)
    requires Inv(c) && id in c.waiting
    ensures var d := CancelFuture(c, id); Inv(d) && SameTasks(c, d) && Evolves(c, d, Uncorrelated)
  {
    hide Inv, Evolves;
    CancelFutureKeeps(c, id);
    CancelFutureEvolves(c, id, Uncorrelated);
  }

  lemma CancelTaskKeeps(c: Client, i: nat)
    requires Inv(c) && i < |c.spawned| && !c.spawned[i].quiet
    ensures var d := CancelSpawned(c, i); Inv(d) && SameTasks(c, d) && Evolves(c, d, Uncorrelated)
  {
    hide Inv, Evolves;
    InvMeans(c);
    SpawnedQueued(c, i);
    CancelSpawnedKeeps(c, i);
    CancelSpawnedEvolves(c, i, Uncorrelated);
  }

  lemma LifeStepKeeps(c: Client, step: Step)
    requires Inv(c) && ClientState.Enabled(c, step) && (step.SetLife? || step.Disconnect?)
    ensures var d := ClientState.Apply(c, step); Inv(d) && SameTasks(c, d) && Evolves(c, d, Uncorrelated)
  {
    match step
    case SetLife(l) => SetLifeKeeps(c, l); SetLifeEvolves(c, l, Uncorrelated);
    case Disconnect => DisconnectKeeps(c); DisconnectEvolves(c, Uncorrelated);
  }

  /** Every step of the client, whatever it interleaves with, keeps the invariant, leaves each
      `_subscribe` coroutine suspended or finished, and undoes nothing. */
  lemma StepKeeps(c: Client, step: Step)
    requires Inv(c) && Settled(c) && ClientState.Enabled(c, step)
    ensures var d := ClientState.Apply(c, step); Inv(d) && Settled(d) && Evolves(c, d, News(step))
  {
    hide Inv, Evolves, Settled;
    match step
    case Start(ts, m, refused) => StartKeeps(c, ts, m, refused, Uncorrelated);
    case Resume(id, cancelled, refused) => ResumeKeeps(c, id, cancelled, refused, Uncorrelated);
    case _ => CalmStepKeeps(c, step); StaySettled(c, ClientState.Apply(c, step));
  }

  lemma CalmStepKeeps(c: Client, step: Step)
    requires Inv(c) && ClientState.Enabled(c, step) && !step.Start? && !step.Resume?
    ensures var d := ClientState.Apply(c, step); Inv(d) && SameTasks(c, d) && Evolves(c, d, News(step))
  {
    hide Inv, Evolves, SameTasks;
    match step
    case SetLife(_) => LifeStepKeeps(c, step);
    case Disconnect => LifeStepKeeps(c, step);
    case Receive(f) => ReceiveKeeps(c, f);
    case Call => SmallStepKeeps(c, step);
    case FinishCall(_, _) => SmallStepKeeps(c, step);
    case SendFails(_) => SmallStepKeeps(c, step);
    case FireTimer(_) => SmallStepKeeps(c, step);
    case CancelWait(_) => SmallStepKeeps(c, step);
    case CancelTask(_) => SmallStepKeeps(c, step);
    case _ => StreamStepKeeps(c, step);
  }

  lemma StreamStepKeeps(c: Client, step: Step)
    requires Inv(c) && ClientState.Enabled(c, step)
    requires step.Close? || step.RunTask? || step.FinishUnsubscribe? || step.Take? || step.StopWaiting?
    ensures var d := ClientState.Apply(c, step); Inv(d) && SameTasks(c, d) && Evolves(c, d, Uncorrelated)
  {
    hide Inv, Evolves, SameTasks;
    match step
    case Close(s, nowait) => CloseKeeps(c, s, nowait, Uncorrelated);
    case RunTask(i) => RunTaskKeeps(c, i, Uncorrelated);
    case FinishUnsubscribe(id, _) => FinishUnsubscribeKeeps(c, id, Uncorrelated);
    case Take(s, expired, w) => TakeKeeps(c, s, DoGet(expired, w), Uncorrelated);
    case StopWaiting(s, w) => TakeKeeps(c, s, DoUnwait(w), Uncorrelated);
  }

  // ---------------------------------------------------------------- the two results, sealed

  /** `Inv` and `Settled`, opened by `GoodMeans`. */
  ghost predicate Good(c: Client) {
    forall k {:trigger Look(k)} :: Look(k) && k == 10 ==> Inv(c) && Settled(c)
  }

  /** `Evolves`, opened by `FollowsMeans`. */
  ghost predicate Follows(c: Client, d: Client, news: Frame) {
    forall k {:trigger Look(k)} :: Look(k) && k == 10 ==> Evolves(c, d, news)
  }

  lemma GoodMeans(c: Client)
    ensures Good(c) <==> Inv(c) && Settled(c)
  {
    assert Look(10);
  }

  lemma FollowsMeans(c: Client, d: Client, news: Frame)
    ensures Follows(c, d, news) <==> Evolves(c, d, news)
  {
    assert Look(10);
  }

  lemma StepGood(c: Client, step: Step)
    requires Good(c) && ClientState.Enabled(c, step)
    ensures Good(ClientState.Apply(c, step)) && Follows(c, ClientState.Apply(c, step), News(step))
  {
    var d := ClientState.Apply(c, step);
    GoodMeans(c);
    StepKeeps(c, step);
    GoodMeans(d);
    FollowsMeans(c, d, News(step));
  }
}
