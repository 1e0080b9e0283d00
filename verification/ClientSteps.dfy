/** Each small step of the client keeps the invariant (`src/logos_bridge/client.py`).

The steps here are the pieces that the coroutines are made of: routing one response, ending one
stream, one turn of the subscribe loop, the disconnect. A lemma named after a step treats one part of
the invariant (`...Entries`, `...Rows`, `...Spawns`), and the lemma `...Keeps` puts the parts together.
`Restates` and `MovesRequests` name the two kinds of change that most steps are instances of. */
module ClientSteps {
  import opened Wrappers
  import opened EventStream
  import opened ClientState
  import opened ClientInvariant

  // ---------------------------------------------------------------- kinds of change

  predicate SameEntry(e: Entry, f: Entry) {
    && e.stream == f.stream && e.index == f.index && e.target == f.target && e.asking == f.asking
    && (e.hold.Told? || f.hold.Told? ==> e.hold == f.hold)
  }

  /** Entries change state, streams end or their coroutines move; the requests do not. */
  ghost predicate Restates(c: Client, d: Client) {
    && d == c.(entries := d.entries, subs := d.subs, streams := d.streams, spawned := d.spawned)
    && (forall x :: x in d.entries <==> x in c.entries)
    && (forall s :: s in d.streams <==> s in c.streams)
    && (forall x :: x in d.subs ==> x in c.subs)
    && (forall x :: x in c.entries ==> SameEntry(c.entries[x], d.entries[x]))
    && (forall s :: s in c.streams ==> d.streams[s].sids == c.streams[s].sids)
  }

  lemma RestatedTables(c: Client, d: Client)
    requires Tables(c) && Restates(c, d)
    ensures Tables(d)
  {
  }

  lemma RestatedLinked(c: Client, d: Client)
    requires Linked(c) && Restates(c, d)
    ensures Linked(d)
  {
    forall i | 0 <= i < |d.sent|
      ensures RequestRight(d.sent[i], i, d.entries)
    {
      assert RequestRight(c.sent[i], i, c.entries);
    }
  }

  lemma RestatedFutures(c: Client, d: Client)
    requires Futures(c) && Sent(c) && Restates(c, d)
    ensures Futures(d) && Sent(d)
  {
  }

  lemma Restated(c: Client, d: Client)
    requires Inv(c) && Restates(c, d)
    requires EntriesRight(d) && RowsRight(d) && WaitingRight(d) && SpawnedRight(d)
    ensures Inv(d)
  {
    InvMeans(c);
    RestatedTables(c, d);
    RestatedLinked(c, d);
    RestatedFutures(c, d);
  }

  /** Futures complete and coroutines that are not subscribing resume. */
  ghost predicate MovesRequests(c: Client, d: Client) {
    && d == c.(pending := d.pending, futures := d.futures, waiting := d.waiting, late := d.late, unrouted := d.unrouted)
    && (forall id :: id in d.futures <==> id in c.futures)
    && (forall id :: id in c.futures && !c.futures[id].Waiting? ==> d.futures[id] == c.futures[id])
    && (forall id :: id in c.waiting && c.waiting[id].Subscriber? ==> id in d.waiting)
    && (forall id :: id in d.waiting ==> id in c.waiting && d.waiting[id] == c.waiting[id])
  }

  lemma MovedRows(c: Client, d: Client)
    requires RowsRight(c) && MovesRequests(c, d)
    ensures RowsRight(d)
  {
    forall s | s in d.streams
      ensures d.streams[s].queue.Sound() && TaskRight(d.streams[s], s, d.waiting, d.futures, d.entries)
    {
      assert TaskRight(c.streams[s], s, c.waiting, c.futures, c.entries);
    }
  }

  lemma MovedEntries(c: Client, d: Client)
    requires EntriesRight(c) && SpawnedRight(c) && MovesRequests(c, d)
    ensures EntriesRight(d) && SpawnedRight(d)
  {
  }

  lemma Moved(c: Client, d: Client)
    requires Inv(c) && Futures(d) && MovesRequests(c, d)
    ensures Inv(d)
  {
    InvMeans(c);
    MovedRows(c, d);
    MovedEntries(c, d);
    assert Tables(d) && WaitingRight(d) && Sent(d) && Linked(d);
  }

  // ---------------------------------------------------------------- requests

  lemma LateKeeps(c: Client)
    requires Inv(c)
    ensures Inv(c.(late := c.late + 1))
  {
    InvMeans(c);
    Moved(c, c.(late := c.late + 1));
  }

  /** A request leaves the pending table; its future was done before. */
  lemma PopKeeps(c: Client, id: ReqId)
    requires Inv(c) && (id in c.futures ==> !c.futures[id].Waiting?)
    ensures Inv(c.(pending := c.pending - {id}))
  {
    InvMeans(c);
    Moved(c, c.(pending := c.pending - {id}));
  }

  lemma CompletedMoves(c: Client, d: Client, id: ReqId, o: Outcome)
    requires Futures(c) && id in c.futures && c.futures[id].Waiting? && !o.Waiting? && !o.Cut?
    requires d == c.(pending := c.pending - {id}, futures := c.futures[id := o])
    ensures MovesRequests(c, d) && Futures(d)
  {
  }

  /** A request leaves the pending table and its future is done. */
  lemma CompleteKeeps(c: Client, id: ReqId, o: Outcome)
    requires Inv(c) && id in c.futures && c.futures[id].Waiting? && !o.Waiting? && !o.Cut?
    ensures Inv(c.(pending := c.pending - {id}, futures := c.futures[id := o]))
  {
    InvMeans(c);
    var d := c.(pending := c.pending - {id}, futures := c.futures[id := o]);
    CompletedMoves(c, d, id, o);
    Moved(c, d);
  }

  lemma AnswerKeeps(c: Client, id: ReqId, ok: bool)
    requires Inv(c)
    ensures Inv(RouteResponse(c, id, ok))
  {
    hide Inv;
    if id !in c.pending {
      LateKeeps(c);
    } else if id in c.futures && c.futures[id].Waiting? {
      CompleteKeeps(c, id, Answered(ok));
    } else {
      PopKeeps(c, id);
    }
  }

  lemma ExpireKeeps(c: Client, id: ReqId)
    requires Inv(c)
    ensures Inv(Expire(c, id))
  {
    if id in c.pending {
      if id in c.futures && c.futures[id].Waiting? {
        CompleteKeeps(c, id, Expired);
      } else {
        PopKeeps(c, id);
      }
    }
  }

  lemma CancelFutureKeeps(c: Client, id: ReqId)
    requires Inv(c) && id in c.waiting
    ensures Inv(CancelFuture(c, id))
  {
    InvMeans(c);
    Moved(c, CancelFuture(c, id));
  }

  lemma FinishSendKeeps(c: Client, id: ReqId)
    requires Inv(c) && id in c.waiting && !c.waiting[id].Subscriber?
    ensures id in c.futures
    ensures Inv(FinishSend(c, id))
  {
    InvMeans(c);
    Moved(c, FinishSend(c, id));
  }

  // ---------------------------------------------------------------- queues and zombies

  lemma QueueEntries(c: Client, s: StreamId, q: Queue)
    requires EntriesRight(c) && SpawnedRight(c) && s in c.streams && q.Ended() == c.streams[s].queue.Ended()
    ensures EntriesRight(SetQueue(c, s, q)) && SpawnedRight(SetQueue(c, s, q))
  {
    var d := SetQueue(c, s, q);
    forall x | x in d.entries && d.entries[x].stream in d.streams
      ensures EntryRight(d.entries[x], x in d.subs, d.streams[d.entries[x].stream], d.futures, d.life.Open?)
    {
      assert EntryRight(c.entries[x], x in c.subs, c.streams[c.entries[x].stream], c.futures, c.life.Open?);
    }
  }

  lemma QueueRows(c: Client, s: StreamId, q: Queue)
    requires RowsRight(c) && WaitingRight(c) && s in c.streams && q.Sound()
    ensures RowsRight(SetQueue(c, s, q)) && WaitingRight(SetQueue(c, s, q))
  {
    var d := SetQueue(c, s, q);
    forall t | t in d.streams
      ensures d.streams[t].queue.Sound() && TaskRight(d.streams[t], t, d.waiting, d.futures, d.entries)
    {
      assert TaskRight(c.streams[t], t, c.waiting, c.futures, c.entries);
    }
  }

  lemma QueueParts(c: Client, s: StreamId, q: Queue)
    requires EntriesRight(c) && RowsRight(c) && WaitingRight(c) && SpawnedRight(c)
    requires s in c.streams && q.Sound() && q.Ended() == c.streams[s].queue.Ended()
    ensures var d := SetQueue(c, s, q);
      Restates(c, d) && EntriesRight(d) && RowsRight(d) && WaitingRight(d) && SpawnedRight(d)
  {
    hide EntriesRight, RowsRight, WaitingRight, SpawnedRight, SameEntry;
    QueueEntries(c, s, q);
    QueueRows(c, s, q);
    SameItself(c);
  }

  lemma QueueKeeps(c: Client, s: StreamId, q: Queue)
    requires Inv(c) && s in c.streams && q.Sound() && q.Ended() == c.streams[s].queue.Ended()
    ensures Inv(SetQueue(c, s, q))
  {
    InvMeans(c);
    QueueParts(c, s, q);
    Restated(c, SetQueue(c, s, q));
  }

  lemma UnrouteEntries(c: Client, x: Sid)
    requires EntriesRight(c) && x in c.entries && c.entries[x].state.Zombie?
    ensures EntriesRight(Unroute(c, x))
  {
    var d := Unroute(c, x);
    forall y | y in d.entries && d.entries[y].stream in d.streams
      ensures EntryRight(d.entries[y], y in d.subs, d.streams[d.entries[y].stream], d.futures, d.life.Open?)
    {
      assert EntryRight(c.entries[y], y in c.subs, c.streams[c.entries[y].stream], c.futures, c.life.Open?);
    }
  }

  lemma UnrouteParts(c: Client, x: Sid)
    requires RowsRight(c) && WaitingRight(c) && SpawnedRight(c)
    ensures var d := Unroute(c, x); Restates(c, d) && RowsRight(d) && WaitingRight(d) && SpawnedRight(d)
  {
    var d := Unroute(c, x);
    forall t | t in d.streams
      ensures d.streams[t].queue.Sound() && TaskRight(d.streams[t], t, d.waiting, d.futures, d.entries)
    {
      assert TaskRight(c.streams[t], t, c.waiting, c.futures, c.entries);
    }
  }

  lemma UnrouteKeeps(c: Client, x: Sid)
    requires Inv(c) && x in c.entries && c.entries[x].state.Zombie?
    ensures Inv(Unroute(c, x))
  {
    InvMeans(c);
    UnrouteEntries(c, x);
    UnrouteParts(c, x);
    Restated(c, Unroute(c, x));
  }

  lemma ForgetZombieKeeps(c: Client, x: Sid)
    requires Inv(c)
    ensures Inv(ForgetZombie(c, x))
  {
    if x in c.subs && x in c.entries && c.entries[x].state.Zombie? {
      UnrouteKeeps(c, x);
    }
  }

  // ---------------------------------------------------------------- the subscribe coroutine

  lemma FinishLoopEntries(c: Client, s: StreamId)
    requires Tables(c) && EntriesRight(c) && AtLoop(c, s) && !AtEntry(c, s)
    ensures EntriesRight(SetTask(c, s, Finished))
  {
  }

  lemma FinishLoopParts(c: Client, s: StreamId)
    requires RowsRight(c) && WaitingRight(c) && SpawnedRight(c) && AtLoop(c, s)
    ensures var d := SetTask(c, s, Finished); Restates(c, d) && RowsRight(d) && WaitingRight(d) && SpawnedRight(d)
  {
    FinishLoopRows(c, s);
    FinishLoopWaits(c, s);
    SpawnedSame(c, SetTask(c, s, Finished));
  }

  lemma FinishLoopRows(c: Client, s: StreamId)
    requires RowsRight(c) && AtLoop(c, s)
    ensures RowsRight(SetTask(c, s, Finished))
  {
    var d := SetTask(c, s, Finished);
    forall t | t in d.streams
      ensures d.streams[t].queue.Sound() && TaskRight(d.streams[t], t, d.waiting, d.futures, d.entries)
    {
      assert TaskRight(c.streams[t], t, c.waiting, c.futures, c.entries);
    }
  }

  lemma FinishLoopWaits(c: Client, s: StreamId)
    requires WaitingRight(c) && AtLoop(c, s)
    ensures WaitingRight(SetTask(c, s, Finished))
  {
  }

  lemma FinishLoopKeeps(c: Client, s: StreamId)
    requires Inv(c) && AtLoop(c, s) && !AtEntry(c, s)
    ensures Inv(SetTask(c, s, Finished))
  {
    InvMeans(c);
    FinishLoopEntries(c, s);
    FinishLoopParts(c, s);
    Restated(c, SetTask(c, s, Finished));
  }

  lemma SkipEntryRestates(c: Client, s: StreamId)
    requires AtEntry(c, s)
    ensures Restates(c, SkipEntry(c, s))
  {
    hide SameEntry;
    var x := Current(c, s);
    if c.entries[x].state.Doomed? {
      SameButState(c.entries[x], Released);
    }
    SameItself(c);
  }

  lemma SameButState(e: Entry, st: EntryState)
    ensures SameEntry(e, e.(state := st))
  {
  }

  lemma SameItself(c: Client)
    ensures forall x :: x in c.entries ==> SameEntry(c.entries[x], c.entries[x])
  {
  }

  lemma SkipEntryParts(c: Client, s: StreamId)
    requires AtEntry(c, s) && WaitingRight(c) && SpawnedRight(c)
    ensures WaitingRight(SkipEntry(c, s)) && SpawnedRight(SkipEntry(c, s))
  {
    SkipEntryWaits(c, s);
    SkipEntrySpawned(c, s);
  }

  lemma SkipEntryWaits(c: Client, s: StreamId)
    requires AtEntry(c, s) && WaitingRight(c)
    ensures WaitingRight(SkipEntry(c, s))
  {
    SkipEntryShape(c, s);
  }

  lemma SkipEntrySpawned(c: Client, s: StreamId)
    requires AtEntry(c, s) && SpawnedRight(c)
    ensures SpawnedRight(SkipEntry(c, s))
  {
    SpawnedSame(c, SkipEntry(c, s));
  }

  lemma SkipEntryEntries(c: Client, s: StreamId)
    requires Tables(c) && EntriesRight(c) && AtEntry(c, s) && !c.entries[Current(c, s)].state.Pending?
    requires c.entries[Current(c, s)].asking.NotAsked?
    ensures EntriesRight(SkipEntry(c, s))
  {
    SkipEntryShape(c, s);
    var d := SkipEntry(c, s);
    forall y | y in d.entries && d.entries[y].stream in d.streams
      ensures EntryRight(d.entries[y], y in d.subs, d.streams[d.entries[y].stream], d.futures, d.life.Open?)
    {
      hide SkipEntry, EntryRight;
      SkippedEntry(c, d, s, y);
    }
  }

  /** `d` is `c` with the loop of `s` one entry further; a doomed entry has been let go. */
  predicate Skips(c: Client, d: Client, s: StreamId)
    requires AtEntry(c, s)
  {
    var x := Current(c, s);
    && d.futures == c.futures && d.waiting == c.waiting && d.life == c.life
    && d.streams == c.streams[s := c.streams[s].(task := Looping(c.streams[s].task.k + 1))]
    && d.entries == (if c.entries[x].state.Doomed? then c.entries[x := c.entries[x].(state := Released)] else c.entries)
    && d.subs == (if c.entries[x].state.Doomed? then c.subs - {x} else c.subs)
  }

  lemma SkipEntryShape(c: Client, s: StreamId)
    requires AtEntry(c, s)
    ensures Skips(c, SkipEntry(c, s), s)
  {
  }

  lemma SkippedEntry(c: Client, d: Client, s: StreamId, y: Sid)
    requires Tables(c) && EntriesRight(c) && AtEntry(c, s) && !c.entries[Current(c, s)].state.Pending? && Skips(c, d, s)
    requires c.entries[Current(c, s)].asking.NotAsked? && y in d.entries
    ensures d.entries[y].stream in d.streams
    ensures EntryRight(d.entries[y], y in d.subs, d.streams[d.entries[y].stream], d.futures, d.life.Open?)
  {
    hide EntryRight;
    EntryOf(c, y);
    OwnPlace(c, s, y);
    if y == Current(c, s) && c.entries[y].state.Doomed? {
      LetGoUnasked(c.entries[y], y in c.subs, c.streams[s], c.futures, c.life.Open?);
    }
    if c.entries[y].stream == s {
      PassedBy(d.entries[y], y in d.subs, c.streams[s], c.futures, c.life.Open?);
    }
  }

  lemma EntryOf(c: Client, x: Sid)
    requires Tables(c) && EntriesRight(c) && x in c.entries
    ensures c.entries[x].stream in c.streams
    ensures EntryRight(c.entries[x], x in c.subs, c.streams[c.entries[x].stream], c.futures, c.life.Open?)
  {
  }

  lemma OwnPlace(c: Client, s: StreamId, y: Sid)
    requires Tables(c) && CanAbort(c, s) && y in c.entries
    ensures Current(c, s) in c.entries && c.entries[Current(c, s)].stream == s
    ensures c.entries[Current(c, s)].index == c.streams[s].task.k
    ensures c.entries[y].stream == s && y != Current(c, s) ==> c.entries[y].index != c.streams[s].task.k
  {
  }

  lemma LetGoUnasked(e: Entry, routed: bool, row: StreamRow, futures: map<ReqId, Outcome>, open: bool)
    requires EntryRight(e, routed, row, futures, open) && e.state.Doomed? && e.asking.NotAsked?
    ensures EntryRight(e.(state := Released), false, row, futures, open)
  {
  }

  /** The loop passes an entry by, or is still before it. */
  lemma PassedBy(e: Entry, routed: bool, row: StreamRow, futures: map<ReqId, Outcome>, open: bool)
    requires EntryRight(e, routed, row, futures, open) && row.task.Looping?
    requires e.index == row.task.k ==> !e.state.Unacked()
    ensures EntryRight(e, routed, row.(task := Looping(row.task.k + 1)), futures, open)
  {
  }

  /** The entry after the current one has not been sent. */
  lemma NextUnasked(c: Client, s: StreamId)
    requires Tables(c) && EntriesRight(c) && AtEntry(c, s)
    ensures var xs, k := c.streams[s].sids, c.streams[s].task.k + 1;
      k < |xs| ==> xs[k] in c.entries && c.entries[xs[k]].asking.NotAsked?
  {
    var xs, k := c.streams[s].sids, c.streams[s].task.k + 1;
    if k < |xs| {
      assert c.entries[xs[k]].stream == s && c.entries[xs[k]].index == k;
      assert EntryRight(c.entries[xs[k]], xs[k] in c.subs, c.streams[s], c.futures, c.life.Open?);
    }
  }

  ghost predicate SameAsking(es: map<Sid, Entry>, fs: map<Sid, Entry>) {
    && (forall x :: x in fs <==> x in es)
    && (forall x :: x in es ==> fs[x].asking == es[x].asking)
  }

  lemma SameTask(row: StreamRow, s: StreamId, waiting: map<ReqId, Owner>, futures: map<ReqId, Outcome>,
                 es: map<Sid, Entry>, fs: map<Sid, Entry>)
    requires TaskRight(row, s, waiting, futures, es) && SameAsking(es, fs)
    ensures TaskRight(row, s, waiting, futures, fs)
  {
  }

  lemma SkipEntryAsking(c: Client, s: StreamId)
    requires AtEntry(c, s)
    ensures SameAsking(c.entries, SkipEntry(c, s).entries)
  {
    SkipEntryShape(c, s);
  }

  /** The loop of `s` goes on to an entry that has not been sent; everything else stays. */
  lemma LoopsOn(c: Client, d: Client, s: StreamId, k: nat)
    requires RowsRight(c) && s in c.streams && SameAsking(c.entries, d.entries)
    requires d.streams == c.streams[s := c.streams[s].(task := Looping(k))]
    requires d.waiting == c.waiting && d.futures == c.futures && k <= |c.streams[s].sids|
    requires var xs := c.streams[s].sids; k < |xs| ==> xs[k] in c.entries && c.entries[xs[k]].asking.NotAsked?
    ensures RowsRight(d)
  {
    forall t | t in d.streams
      ensures d.streams[t].queue.Sound() && TaskRight(d.streams[t], t, d.waiting, d.futures, d.entries)
    {
      if t != s {
        SameTask(c.streams[t], t, c.waiting, c.futures, c.entries, d.entries);
      }
    }
  }

  lemma SkipEntryRows(c: Client, s: StreamId)
    requires Tables(c) && EntriesRight(c) && RowsRight(c) && AtEntry(c, s)
    ensures RowsRight(SkipEntry(c, s))
  {
    NextUnasked(c, s);
    SkipEntryAsking(c, s);
    SkipEntryShape(c, s);
    LoopsOn(c, SkipEntry(c, s), s, c.streams[s].task.k + 1);
  }

  lemma CurrentUnasked(c: Client, s: StreamId)
    requires RowsRight(c) && AtEntry(c, s)
    ensures c.entries[Current(c, s)].asking.NotAsked?
  {
    assert TaskRight(c.streams[s], s, c.waiting, c.futures, c.entries);
  }

  lemma SkipEntryKeeps(c: Client, s: StreamId)
    requires Inv(c) && AtEntry(c, s) && !c.entries[Current(c, s)].state.Pending?
    ensures Inv(SkipEntry(c, s))
  {
    InvMeans(c);
    CurrentUnasked(c, s);
    SkipEntryRestates(c, s);
    SkipEntryParts(c, s);
    SkipEntryEntries(c, s);
    SkipEntryRows(c, s);
    Restated(c, SkipEntry(c, s));
  }

  // ---------------------------------------------------------------- ending a stream

  /** `d` is `c` with stream `s` ended and each entry changed as `EndedEntry` says. */
  ghost predicate Ends(c: Client, d: Client, s: StreamId, lets: bool) {
    && s in c.streams
    && d == c.(entries := d.entries, subs := d.subs, streams := d.streams, spawned := d.spawned)
    && (forall x :: x in d.entries <==> x in c.entries)
    && (forall x :: x in c.entries ==> d.entries[x] == EndedEntry(c.entries[x], s, lets))
    && (forall x :: x in d.subs <==> x in c.subs && x in c.entries && !(c.entries[x].stream == s && c.entries[x].state.Active?))
    && (exists why :: d.streams == c.streams[s := c.streams[s].(queue := End(c.streams[s].queue, why))])
  }

  function EndedEntry(e: Entry, s: StreamId, lets: bool): Entry {
    if e.stream != s then e
    else e.(state := DetachState(e.state), hold := if e.state.Active? && lets then Queued else e.hold)
  }

  lemma OwnSids(c: Client, s: StreamId)
    requires Tables(c) && s in c.streams
    ensures Distinct(c.streams[s].sids)
    ensures forall x :: x in c.streams[s].sids <==> x in c.entries && c.entries[x].stream == s
  {
    var xs := c.streams[s].sids;
    forall x | x in xs
      ensures x in c.entries && c.entries[x].stream == s
    {
      var i :| 0 <= i < |xs| && xs[i] == x;
    }
    forall i, j | 0 <= i < j < |xs|
      ensures xs[i] != xs[j]
    {
      assert c.entries[xs[i]].index == i;
    }
  }

  /** The ids that `_detach` returns are the stream's active ones, once each. */
  lemma LiveSidsAre(c: Client, s: StreamId, why: Cause)
    requires Tables(c) && s in c.streams
    ensures var live := LiveSids(EndQueue(c, s, why), s);
      && Distinct(live)
      && forall x :: x in live <==> x in c.entries && c.entries[x].stream == s && c.entries[x].state.Active?
  {
    OwnSids(c, s);
    var xs := c.streams[s].sids;
    KeepMembers(xs, InState(EndQueue(c, s, why), xs, Active));
    KeepDistinct(xs, InState(EndQueue(c, s, why), xs, Active));
  }

  lemma EndStreamEntry(c: Client, s: StreamId, why: Cause, quiet: bool, x: Sid)
    requires s in c.streams
    requires x in c.entries ==> (x in c.streams[s].sids <==> c.entries[x].stream == s)
    requires var live := LiveSids(EndQueue(c, s, why), s);
      x in live <==> x in c.entries && c.entries[x].stream == s && c.entries[x].state.Active?
    ensures var d := EndStream(c, s, why, quiet);
      && (x in d.entries <==> x in c.entries)
      && (x in c.entries ==> d.entries[x] == EndedEntry(c.entries[x], s, c.life.Open? || !quiet))
      && (x in c.entries ==>
           (x in d.subs <==> x in c.subs && !(c.entries[x].stream == s && c.entries[x].state.Active?)))
  {
  }

  lemma EndStreamShape(c: Client, s: StreamId, why: Cause, quiet: bool)
    requires s in c.streams
    ensures var d := EndStream(c, s, why, quiet);
      && d == c.(entries := d.entries, subs := d.subs, streams := d.streams, spawned := d.spawned)
      && d.streams == c.streams[s := c.streams[s].(queue := End(c.streams[s].queue, why))]
      && (forall x :: x in d.subs ==> x in c.subs)
  {
  }

  lemma EndStreamEnds(c: Client, s: StreamId, why: Cause, quiet: bool)
    requires Tables(c) && s in c.streams
    ensures Ends(c, EndStream(c, s, why, quiet), s, c.life.Open? || !quiet)
  {
    OwnSids(c, s);
    LiveSidsAre(c, s, why);
    var d := EndStream(c, s, why, quiet);
    EndStreamShape(c, s, why, quiet);
    hide EndStream;
    forall x
      ensures x in d.entries <==> x in c.entries
      ensures x in c.entries ==> d.entries[x] == EndedEntry(c.entries[x], s, c.life.Open? || !quiet)
      ensures x in d.subs <==> x in c.subs && x in c.entries && !(c.entries[x].stream == s && c.entries[x].state.Active?)
    {
      EndStreamEntry(c, s, why, quiet, x);
    }
  }

  lemma EndsEntries(c: Client, d: Client, s: StreamId, lets: bool)
    requires EntriesRight(c) && Ends(c, d, s, lets) && (c.life.Open? ==> lets)
    ensures EntriesRight(d)
  {
  }

  lemma EndsRows(c: Client, d: Client, s: StreamId, lets: bool)
    requires RowsRight(c) && WaitingRight(c) && Ends(c, d, s, lets)
    ensures RowsRight(d) && WaitingRight(d)
  {
    EndsAsking(c, d, s, lets);
    forall t | t in d.streams
      ensures d.streams[t].queue.Sound() && TaskRight(d.streams[t], t, d.waiting, d.futures, d.entries)
    {
      SameTask(c.streams[t], t, c.waiting, c.futures, c.entries, d.entries);
    }
  }

  lemma EndsAsking(c: Client, d: Client, s: StreamId, lets: bool)
    requires Ends(c, d, s, lets)
    ensures SameAsking(c.entries, d.entries) && d.waiting == c.waiting && d.futures == c.futures
  {
  }

  /** What ending a stream does to one right entry. */
  lemma EndedIs(e: Entry, routed: bool, row: StreamRow, futures: map<ReqId, Outcome>, open: bool, s: StreamId, lets: bool)
    requires EntryRight(e, routed, row, futures, open)
    ensures var f := EndedEntry(e, s, lets);
      && SameEntry(e, f)
      && (e.state.Active? ==> e.hold.Held?)
      && (f.hold == if lets && e.stream == s && e.state.Active? then Queued else e.hold)
      && (Confirmed(e, futures) ==> Confirmed(f, futures))
      && (e.stream == s && e.state.Active? ==> Confirmed(f, futures))
  {
  }

  lemma EndsRestates(c: Client, d: Client, s: StreamId, lets: bool)
    requires Tables(c) && EntriesRight(c) && Ends(c, d, s, lets)
    ensures Restates(c, d)
  {
    forall x | x in c.entries
      ensures SameEntry(c.entries[x], d.entries[x])
    {
      EntryOf(c, x);
      EndedIs(c.entries[x], x in c.subs, c.streams[c.entries[x].stream], c.futures, c.life.Open?, s, lets);
    }
  }

  lemma EndsSpawns(c: Client, d: Client, s: StreamId, live: seq<Sid>, quiet: bool)
    requires EntriesRight(c) && Tables(c) && SpawnedRight(c) && Ends(c, d, s, c.life.Open? || !quiet)
    requires Distinct(live)
    requires forall x :: x in live <==> x in c.entries && c.entries[x].stream == s && c.entries[x].state.Active?
    requires d.spawned == c.spawned + (if c.life.Open? || !quiet then Spawns(live, quiet) else [])
    ensures SpawnedRight(d)
  {
    var lets := c.life.Open? || !quiet;
    forall x | x in c.entries
      ensures c.entries[x].state.Active? ==> c.entries[x].hold.Held?
      ensures d.entries[x].hold == if lets && x in live then Queued else c.entries[x].hold
      ensures Confirmed(c.entries[x], c.futures) || x in live ==> Confirmed(d.entries[x], d.futures)
    {
      EntryOf(c, x);
      EndedIs(c.entries[x], x in c.subs, c.streams[c.entries[x].stream], c.futures, c.life.Open?, s, lets);
    }
    if lets {
      SpawnedGrows(c, d, live, quiet);
    } else {
      SpawnedSame(c, d);
    }
  }

  lemma EndStreamSpawns(c: Client, s: StreamId, why: Cause, quiet: bool)
    requires Tables(c) && EntriesRight(c) && SpawnedRight(c) && s in c.streams
    requires Ends(c, EndStream(c, s, why, quiet), s, c.life.Open? || !quiet)
    ensures SpawnedRight(EndStream(c, s, why, quiet))
  {
    LiveSidsAre(c, s, why);
    EndsSpawns(c, EndStream(c, s, why, quiet), s, LiveSids(EndQueue(c, s, why), s), quiet);
  }

  lemma EndStreamKeeps(c: Client, s: StreamId, why: Cause, quiet: bool)
    requires Inv(c) && s in c.streams
    ensures Inv(EndStream(c, s, why, quiet))
  {
    InvMeans(c);
    var d := EndStream(c, s, why, quiet);
    var lets := c.life.Open? || !quiet;
    EndStreamEnds(c, s, why, quiet);
    EndsEntries(c, d, s, lets);
    EndsRows(c, d, s, lets);
    EndsRestates(c, d, s, lets);
    EndStreamSpawns(c, s, why, quiet);
    Restated(c, d);
  }

  lemma SpawnedSame(c: Client, d: Client)
    requires SpawnedRight(c) && d.spawned == c.spawned
    requires forall x :: x in d.entries <==> x in c.entries
    requires forall x :: x in c.entries ==> (d.entries[x].hold.Queued? <==> c.entries[x].hold.Queued?)
    requires forall x :: x in c.entries && Confirmed(c.entries[x], c.futures) ==> Confirmed(d.entries[x], d.futures)
    ensures SpawnedRight(d)
  {
  }

  // ---------------------------------------------------------------- termination

  function MarkTerminated(c: Client, x: Sid): Client
    requires x in c.entries
  {
    SetState(Unroute(c, x), x, Terminated)
  }

  lemma MarkTerminatedRestates(c: Client, x: Sid)
    requires x in c.entries
    ensures Restates(c, MarkTerminated(c, x))
  {
  }

  lemma MarkTerminatedEntries(c: Client, x: Sid)
    requires EntriesRight(c) && x in c.entries && x in c.subs && c.entries[x].stream in c.streams
    ensures EntriesRight(MarkTerminated(c, x))
    ensures !Confirmed(c.entries[x], c.futures)
  {
    assert EntryRight(c.entries[x], true, c.streams[c.entries[x].stream], c.futures, c.life.Open?);
  }

  lemma MarkTerminatedRows(c: Client, x: Sid)
    requires RowsRight(c) && WaitingRight(c) && x in c.entries
    ensures RowsRight(MarkTerminated(c, x)) && WaitingRight(MarkTerminated(c, x))
  {
    var d := MarkTerminated(c, x);
    forall t | t in d.streams
      ensures TaskRight(d.streams[t], t, d.waiting, d.futures, d.entries)
    {
      assert TaskRight(c.streams[t], t, c.waiting, c.futures, c.entries);
    }
  }

  lemma MarkTerminatedKeeps(c: Client, x: Sid)
    requires Inv(c) && x in c.entries && x in c.subs
    ensures Inv(MarkTerminated(c, x))
  {
    InvMeans(c);
    MarkTerminatedRestates(c, x);
    MarkTerminatedEntries(c, x);
    MarkTerminatedRows(c, x);
    MarkTerminatedSpawned(c, x);
    Restated(c, MarkTerminated(c, x));
  }

  lemma MarkTerminatedSpawned(c: Client, x: Sid)
    requires SpawnedRight(c) && x in c.entries && !Confirmed(c.entries[x], c.futures)
    ensures SpawnedRight(MarkTerminated(c, x))
  {
    SpawnedSame(c, MarkTerminated(c, x));
  }

  // ---------------------------------------------------------------- giving up a subscribe

  function AbortedEntry(e: Entry, s: StreamId, current: bool, maybe: bool, open: bool): Entry {
    if e.stream != s then e
    else e.(state := AbortState(e.state, current, maybe),
            hold := if AbortSpawns(e.state, current, maybe) && open then Queued else e.hold)
  }

  predicate AbortDrops(e: Entry, s: StreamId, current: bool, maybe: bool, open: bool) {
    e.stream == s && AbortUnroutes(e.state, current, maybe, open)
  }

  ghost predicate Aborts(c: Client, d: Client, s: StreamId, cur: Sid, maybe: bool) {
    && s in c.streams
    && d == c.(entries := d.entries, subs := d.subs, streams := d.streams, spawned := d.spawned)
    && (forall x :: x in d.entries <==> x in c.entries)
    && (forall x :: x in c.entries ==> d.entries[x] == AbortedEntry(c.entries[x], s, x == cur, maybe, c.life.Open?))
    && (forall x :: x in d.subs <==> x in c.subs && x in c.entries && !AbortDrops(c.entries[x], s, x == cur, maybe, c.life.Open?))
    && d.streams == c.streams[s := c.streams[s].(queue := End(c.streams[s].queue, ByClient), task := Finished)]
  }

  predicate CanAbort(c: Client, s: StreamId) {
    s in c.streams && !c.streams[s].task.Finished? && c.streams[s].task.k < |c.streams[s].sids|
  }

  /** The ids whose unsubscribe `_abort_subscribe` sends are those the bridge may know, once each. */
  lemma AbortLiveAre(c: Client, s: StreamId, maybe: bool)
    requires Tables(c) && CanAbort(c, s)
    ensures var xs := c.streams[s].sids; var cur := Current(c, s); var live := Keep(xs, AbortLive(c, xs, cur, maybe));
      && Distinct(live)
      && forall x :: x in live <==>
           x in c.entries && c.entries[x].stream == s && AbortSpawns(c.entries[x].state, x == cur, maybe)
  {
    OwnSids(c, s);
    var xs := c.streams[s].sids;
    KeepMembers(xs, AbortLive(c, xs, Current(c, s), maybe));
    KeepDistinct(xs, AbortLive(c, xs, Current(c, s), maybe));
  }

  lemma AbortEntry(c: Client, s: StreamId, maybe: bool, x: Sid)
    requires CanAbort(c, s)
    requires x in c.entries ==> (x in c.streams[s].sids <==> c.entries[x].stream == s)
    requires var xs := c.streams[s].sids; var cur := Current(c, s);
      x in Keep(xs, AbortLive(c, xs, cur, maybe)) <==>
        x in c.entries && c.entries[x].stream == s && AbortSpawns(c.entries[x].state, x == cur, maybe)
    ensures var d := AbortSubscribe(c, s, maybe); var cur := Current(c, s);
      && (x in d.entries <==> x in c.entries)
      && (x in c.entries ==> d.entries[x] == AbortedEntry(c.entries[x], s, x == cur, maybe, c.life.Open?))
      && (x in c.entries ==>
            (x in d.subs <==> x in c.subs && !AbortDrops(c.entries[x], s, x == cur, maybe, c.life.Open?)))
      && (x !in c.entries ==> (x in d.subs <==> x in c.subs))
  {
  }

  lemma AbortShape(c: Client, s: StreamId, maybe: bool)
    requires CanAbort(c, s)
    ensures var d := AbortSubscribe(c, s, maybe);
      && d == c.(entries := d.entries, subs := d.subs, streams := d.streams, spawned := d.spawned)
      && d.streams == c.streams[s := c.streams[s].(queue := End(c.streams[s].queue, ByClient), task := Finished)]
  {
  }

  lemma AbortAborts(c: Client, s: StreamId, maybe: bool)
    requires Tables(c) && CanAbort(c, s)
    ensures Aborts(c, AbortSubscribe(c, s, maybe), s, Current(c, s), maybe)
  {
    OwnSids(c, s);
    AbortLiveAre(c, s, maybe);
    AbortShape(c, s, maybe);
    var d := AbortSubscribe(c, s, maybe);
    forall x
      ensures x in d.entries <==> x in c.entries
      ensures x in c.entries ==>
        d.entries[x] == AbortedEntry(c.entries[x], s, x == Current(c, s), maybe, c.life.Open?)
      ensures x in d.subs <==>
        (x in c.subs && x in c.entries && !AbortDrops(c.entries[x], s, x == Current(c, s), maybe, c.life.Open?))
    {
      AbortEntry(c, s, maybe, x);
    }
  }

  /** What the exception says about the entry whose request failed. */
  predicate AbortFits(c: Client, s: StreamId, maybe: bool) {
    && CanAbort(c, s) && Current(c, s) in c.entries
    && var e := c.entries[Current(c, s)];
    && (maybe ==> e.asking.Asked?)
    && (!maybe && c.life.Open? && e.asking.Asked? ==> Heard(e, c.futures, false))
  }

  lemma AbortsEntries(c: Client, d: Client, s: StreamId, maybe: bool)
    requires Tables(c) && EntriesRight(c) && AbortFits(c, s, maybe) && Aborts(c, d, s, Current(c, s), maybe)
    ensures EntriesRight(d)
  {
    forall x | x in d.entries && d.entries[x].stream in d.streams
      ensures EntryRight(d.entries[x], x in d.subs, d.streams[d.entries[x].stream], d.futures, d.life.Open?)
    {
      hide Tables, EntriesRight, Aborts, EntryRight;
      AbortsAt(c, d, s, Current(c, s), maybe, x);
      AbortsEntry(c, d, s, maybe, x);
    }
  }

  lemma AbortsAt(c: Client, d: Client, s: StreamId, cur: Sid, maybe: bool, x: Sid)
    requires Aborts(c, d, s, cur, maybe) && x in d.entries
    ensures x in c.entries && d.entries[x] == AbortedEntry(c.entries[x], s, x == cur, maybe, c.life.Open?)
    ensures x in d.subs <==> x in c.subs && !AbortDrops(c.entries[x], s, x == cur, maybe, c.life.Open?)
    ensures s in c.streams && d.life == c.life && d.futures == c.futures
    ensures d.streams == c.streams[s := c.streams[s].(queue := End(c.streams[s].queue, ByClient), task := Finished)]
  {
  }

  lemma AbortsEntry(c: Client, d: Client, s: StreamId, maybe: bool, x: Sid)
    requires Tables(c) && EntriesRight(c) && AbortFits(c, s, maybe) && Aborts(c, d, s, Current(c, s), maybe) && x in d.entries
    ensures d.entries[x].stream in d.streams
    ensures EntryRight(d.entries[x], x in d.subs, d.streams[d.entries[x].stream], d.futures, d.life.Open?)
  {
    hide Aborts, EntryRight, AbortState, AbortUnroutes, AbortSpawns, Heard, End;
    AbortsAt(c, d, s, Current(c, s), maybe, x);
    EntryOf(c, x);
    OwnPlace(c, s, x);
    var e := c.entries[x];
    if e.stream == s {
      if x != Current(c, s) {
        UnsentLater(e, x in c.subs, c.streams[s], c.futures, c.life.Open?);
      }
      AbortedRight(e, x in c.subs, c.streams[s], c.futures, c.life.Open?, s, x == Current(c, s), maybe);
    }
  }

  /** An unacknowledged entry after the one in treatment has not been sent. */
  lemma UnsentLater(e: Entry, routed: bool, row: StreamRow, futures: map<ReqId, Outcome>, open: bool)
    requires EntryRight(e, routed, row, futures, open) && !row.task.Finished? && e.index != row.task.k
    ensures e.state.Unacked() ==> e.asking.NotAsked?
  {
  }

  lemma AbortedRight(e: Entry, routed: bool, row: StreamRow, futures: map<ReqId, Outcome>, open: bool, s: StreamId,
                     current: bool, maybe: bool)
    requires EntryRight(e, routed, row, futures, open) && e.stream == s
    requires current ==> (maybe ==> e.asking.Asked?) && (!maybe && open && e.asking.Asked? ==> Heard(e, futures, false))
    requires !current && e.state.Unacked() ==> e.asking.NotAsked?
    ensures EntryRight(AbortedEntry(e, s, current, maybe, open), routed && !AbortUnroutes(e.state, current, maybe, open),
                       row.(queue := End(row.queue, ByClient), task := Finished), futures, open)
  {
  }

  lemma AbortsRows(c: Client, d: Client, s: StreamId, cur: Sid, maybe: bool)
    requires RowsRight(c) && Aborts(c, d, s, cur, maybe)
    ensures RowsRight(d)
  {
    forall t | t in d.streams
      ensures d.streams[t].queue.Sound() && TaskRight(d.streams[t], t, d.waiting, d.futures, d.entries)
    {
      assert TaskRight(c.streams[t], t, c.waiting, c.futures, c.entries);
    }
  }

  lemma AbortsWaiting(c: Client, d: Client, s: StreamId, cur: Sid, maybe: bool)
    requires WaitingRight(c) && Aborts(c, d, s, cur, maybe) && !c.streams[s].task.Awaiting?
    ensures WaitingRight(d)
  {
  }

  lemma AbortsRestates(c: Client, d: Client, s: StreamId, maybe: bool)
    requires Tables(c) && EntriesRight(c) && CanAbort(c, s) && Aborts(c, d, s, Current(c, s), maybe)
    ensures Restates(c, d)
  {
    forall x | x in c.entries
      ensures SameEntry(c.entries[x], d.entries[x])
    {
      EntryOf(c, x);
      AbortedIs(c.entries[x], x in c.subs, c.streams[c.entries[x].stream], c.futures, c.life.Open?, s, x == Current(c, s), maybe);
    }
  }

  /** What giving up does to one right entry. */
  lemma AbortedIs(e: Entry, routed: bool, row: StreamRow, futures: map<ReqId, Outcome>, open: bool, s: StreamId,
                  current: bool, maybe: bool)
    requires EntryRight(e, routed, row, futures, open)
    ensures var f := AbortedEntry(e, s, current, maybe, open);
      && SameEntry(e, f)
      && (e.state.Active? || e.state.Unacked() ==> e.hold.Held?)
      && (f.hold == if open && e.stream == s && AbortSpawns(e.state, current, maybe) then Queued else e.hold)
      && (Confirmed(e, futures) ==> Confirmed(f, futures))
  {
  }

  lemma AbortsSpawns(c: Client, d: Client, s: StreamId, live: seq<Sid>, maybe: bool)
    requires EntriesRight(c) && Tables(c) && SpawnedRight(c) && AbortFits(c, s, maybe) && Aborts(c, d, s, Current(c, s), maybe)
    requires Distinct(live)
    requires forall x :: x in live <==>
      x in c.entries && c.entries[x].stream == s && AbortSpawns(c.entries[x].state, x == Current(c, s), maybe)
    requires d.spawned == c.spawned + (if c.life.Open? then Spawns(live, true) else [])
    ensures SpawnedRight(d)
  {
    var cur := Current(c, s);
    forall x | x in c.entries
      ensures x in live ==> c.entries[x].hold.Held?
      ensures d.entries[x].hold == if c.life.Open? && x in live then Queued else c.entries[x].hold
      ensures Confirmed(c.entries[x], c.futures) ==> Confirmed(d.entries[x], d.futures)
    {
      EntryOf(c, x);
      AbortedIs(c.entries[x], x in c.subs, c.streams[c.entries[x].stream], c.futures, c.life.Open?, s, x == cur, maybe);
    }
    if c.life.Open? {
      SpawnedGrows(c, d, live, true);
    } else {
      SpawnedSame(c, d);
    }
  }

  lemma AbortsKeeps(c: Client, d: Client, s: StreamId, live: seq<Sid>, maybe: bool)
    requires Inv(c) && AbortFits(c, s, maybe) && !c.streams[s].task.Awaiting? && Aborts(c, d, s, Current(c, s), maybe)
    requires Distinct(live)
    requires forall x :: x in live <==>
      x in c.entries && c.entries[x].stream == s && AbortSpawns(c.entries[x].state, x == Current(c, s), maybe)
    requires d.spawned == c.spawned + (if c.life.Open? then Spawns(live, true) else [])
    ensures Inv(d)
  {
    InvMeans(c);
    AbortsEntries(c, d, s, maybe);
    AbortsRows(c, d, s, Current(c, s), maybe);
    AbortsRestates(c, d, s, maybe);
    AbortsSpawns(c, d, s, live, maybe);
    AbortsWaiting(c, d, s, Current(c, s), maybe);
    Restated(c, d);
  }

  lemma AbortSpawned(c: Client, s: StreamId, maybe: bool, live: seq<Sid>)
    requires CanAbort(c, s) && live == Keep(c.streams[s].sids, AbortLive(c, c.streams[s].sids, Current(c, s), maybe))
    ensures AbortSubscribe(c, s, maybe).spawned == c.spawned + (if c.life.Open? then Spawns(live, true) else [])
  {
  }

  lemma AbortKeeps(c: Client, s: StreamId, maybe: bool)
    requires Inv(c) && AbortFits(c, s, maybe) && !c.streams[s].task.Awaiting?
    ensures Inv(AbortSubscribe(c, s, maybe))
  {
    InvMeans(c);
    var live := Keep(c.streams[s].sids, AbortLive(c, c.streams[s].sids, Current(c, s), maybe));
    AbortAborts(c, s, maybe);
    AbortLiveAre(c, s, maybe);
    AbortSpawned(c, s, maybe, live);
    AbortsKeeps(c, AbortSubscribe(c, s, maybe), s, live, maybe);
  }

  // ---------------------------------------------------------------- acknowledgements

  predicate JustAcked(c: Client, s: StreamId) {
    && s in c.streams && c.streams[s].task.Resumed? && c.streams[s].task.k < |c.streams[s].sids|
    && Current(c, s) in c.entries && Heard(c.entries[Current(c, s)], c.futures, true)
  }

  function AckedEntry(e: Entry, open: bool): Entry {
    match e.state
    case Pending => e.(state := Active)
    case Doomed => e.(state := Released, hold := if open then Queued else e.hold)
    case _ => e
  }

  ghost predicate Acks(c: Client, d: Client, s: StreamId) {
    && JustAcked(c, s)
    && d == c.(entries := d.entries, subs := d.subs, streams := d.streams, spawned := d.spawned)
    && var x := Current(c, s);
    && d.entries == c.entries[x := AckedEntry(c.entries[x], c.life.Open?)]
    && d.subs == (if c.entries[x].state.Doomed? then c.subs - {x} else c.subs)
    && d.streams == c.streams[s := c.streams[s].(task := Looping(c.streams[s].task.k + 1))]
    && d.spawned == c.spawned + (if c.entries[x].state.Doomed? && c.life.Open? then Spawns([x], true) else [])
  }

  lemma AckedAcks(c: Client, s: StreamId)
    requires JustAcked(c, s)
    ensures Acks(c, Acked(c, s), s)
  {
    var x := Current(c, s);
    var d := Acked(c, s);
    if c.entries[x].state.Doomed? && c.life.Open? {
      assert d.entries == c.entries[x := AckedEntry(c.entries[x], c.life.Open?)];
    } else {
      assert d.entries == c.entries[x := AckedEntry(c.entries[x], c.life.Open?)];
      assert d.spawned == c.spawned + [];
    }
  }

  lemma AcksRestates(c: Client, d: Client, s: StreamId)
    requires Tables(c) && EntriesRight(c) && Acks(c, d, s)
    ensures Restates(c, d)
  {
    hide Tables, EntriesRight, EntryRight, Heard;
    var x := Current(c, s);
    EntryOf(c, x);
    AckedSame(c.entries[x], x in c.subs, c.streams[c.entries[x].stream], c.futures, c.life.Open?);
  }

  lemma AckedSame(e: Entry, routed: bool, row: StreamRow, futures: map<ReqId, Outcome>, open: bool)
    requires EntryRight(e, routed, row, futures, open)
    ensures SameEntry(e, AckedEntry(e, open))
  {
  }

  lemma AcksEntries(c: Client, d: Client, s: StreamId)
    requires Tables(c) && EntriesRight(c) && Acks(c, d, s)
    ensures EntriesRight(d)
  {
    var x := Current(c, s);
    assert c.entries[x].stream == s && c.entries[x].index == c.streams[s].task.k;
    forall y | y in d.entries && d.entries[y].stream in d.streams
      ensures EntryRight(d.entries[y], y in d.subs, d.streams[d.entries[y].stream], d.futures, d.life.Open?)
    {
      assert EntryRight(c.entries[y], y in c.subs, c.streams[c.entries[y].stream], c.futures, c.life.Open?);
      assert c.entries[y].stream == s && y != x ==> c.entries[y].index != c.entries[x].index;
    }
  }

  lemma AcksRows(c: Client, d: Client, s: StreamId)
    requires Tables(c) && EntriesRight(c) && RowsRight(c) && Acks(c, d, s)
    ensures RowsRight(d)
  {
    forall t | t in d.streams
      ensures d.streams[t].queue.Sound() && TaskRight(d.streams[t], t, d.waiting, d.futures, d.entries)
    {
      assert TaskRight(c.streams[t], t, c.waiting, c.futures, c.entries);
    }
  }

  lemma AcksWaiting(c: Client, d: Client, s: StreamId)
    requires WaitingRight(c) && Acks(c, d, s)
    ensures WaitingRight(d)
  {
  }

  lemma AcksSpawns(c: Client, d: Client, s: StreamId)
    requires Tables(c) && EntriesRight(c) && SpawnedRight(c) && Acks(c, d, s)
    ensures SpawnedRight(d)
  {
    var x := Current(c, s);
    hide Tables, EntriesRight, EntryRight, SpawnedRight;
    EntryOf(c, x);
    AckedHold(c.entries[x], x in c.subs, c.streams[c.entries[x].stream], c.futures, c.life.Open?);
    if c.entries[x].state.Doomed? && c.life.Open? {
      AcksGrow(c, d, s);
    } else {
      AcksSame(c, d, s);
    }
  }

  lemma AcksGrow(c: Client, d: Client, s: StreamId)
    requires SpawnedRight(c) && Acks(c, d, s) && c.entries[Current(c, s)].state.Doomed? && c.life.Open?
    requires c.entries[Current(c, s)].hold.Held?
    ensures SpawnedRight(d)
  {
    hide SpawnedRight, Confirmed;
    var x := Current(c, s);
    AckedConfirmed(c.entries[x], c.futures, true);
    SpawnedGrows(c, d, [x], true);
  }

  lemma AcksSame(c: Client, d: Client, s: StreamId)
    requires SpawnedRight(c) && Acks(c, d, s) && !(c.entries[Current(c, s)].state.Doomed? && c.life.Open?)
    ensures SpawnedRight(d)
  {
    hide SpawnedRight, Confirmed;
    AckedConfirmed(c.entries[Current(c, s)], c.futures, c.life.Open?);
    assert d.spawned == c.spawned;
    SpawnedSame(c, d);
  }

  lemma AckedConfirmed(e: Entry, futures: map<ReqId, Outcome>, open: bool)
    ensures Confirmed(e, futures) ==> Confirmed(AckedEntry(e, open), futures)
  {
  }

  lemma AckedHold(e: Entry, routed: bool, row: StreamRow, futures: map<ReqId, Outcome>, open: bool)
    requires EntryRight(e, routed, row, futures, open)
    ensures e.state.Doomed? ==> e.hold.Held?
  {
  }

  lemma AckedKeeps(c: Client, s: StreamId)
    requires Inv(c) && JustAcked(c, s)
    ensures Inv(Acked(c, s))
  {
    InvMeans(c);
    var d := Acked(c, s);
    AckedAcks(c, s);
    AcksRestates(c, d, s);
    AcksEntries(c, d, s);
    AcksRows(c, d, s);
    AcksWaiting(c, d, s);
    AcksSpawns(c, d, s);
    Restated(c, d);
  }

  lemma SpawningTouchesNone(c: Client, xs: seq<Sid>)
    ensures var d := SpawnQuiet(c, xs);
      && d.futures == c.futures && d.nextReq == c.nextReq && d.pending == c.pending && d.waiting == c.waiting
      && d.streams == c.streams
  {
  }

  lemma AckedTouchesNone(c: Client, s: StreamId)
    requires s in c.streams && c.streams[s].task.Resumed? && c.streams[s].task.k < |c.streams[s].sids|
    requires Current(c, s) in c.entries
    ensures Acked(c, s).futures == c.futures && Acked(c, s).nextReq == c.nextReq
    ensures Acked(c, s).pending == c.pending && Acked(c, s).waiting == c.waiting && AtLoop(Acked(c, s), s)
  {
    hide SpawnQuiet;
    var x := Current(c, s);
    SpawningTouchesNone(SetState(Unroute(c, x), x, Released), [x]);
  }

  // ---------------------------------------------------------------- resuming

  lemma UnsuspendRows(c: Client, id: ReqId, cancelled: bool)
    requires RowsRight(c) && CanResumeSubscribe(c, id, cancelled)
    requires forall i :: i in c.pending ==> i in c.waiting
    ensures RowsRight(Unsuspend(c, id))
  {
    var d := Unsuspend(c, id);
    forall t | t in d.streams
      ensures d.streams[t].queue.Sound() && TaskRight(d.streams[t], t, d.waiting, d.futures, d.entries)
    {
      assert TaskRight(c.streams[t], t, c.waiting, c.futures, c.entries);
    }
  }

  lemma UnsuspendEntries(c: Client, id: ReqId, cancelled: bool)
    requires EntriesRight(c) && SpawnedRight(c) && CanResumeSubscribe(c, id, cancelled)
    ensures EntriesRight(Unsuspend(c, id)) && SpawnedRight(Unsuspend(c, id))
  {
    var d := Unsuspend(c, id);
    forall y | y in d.entries && d.entries[y].stream in d.streams
      ensures EntryRight(d.entries[y], y in d.subs, d.streams[d.entries[y].stream], d.futures, d.life.Open?)
    {
      assert EntryRight(c.entries[y], y in c.subs, c.streams[c.entries[y].stream], c.futures, c.life.Open?);
    }
  }

  lemma UnsuspendFutures(c: Client, id: ReqId, cancelled: bool)
    requires Futures(c) && Sent(c) && CanResumeSubscribe(c, id, cancelled)
    ensures Futures(Unsuspend(c, id)) && Sent(Unsuspend(c, id))
  {
  }

  lemma UnsuspendTables(c: Client, id: ReqId, cancelled: bool)
    requires Tables(c) && WaitingRight(c) && Linked(c) && CanResumeSubscribe(c, id, cancelled)
    ensures Tables(Unsuspend(c, id)) && WaitingRight(Unsuspend(c, id)) && Linked(Unsuspend(c, id))
  {
  }

  lemma UnsuspendKeeps(c: Client, id: ReqId, cancelled: bool)
    requires Inv(c) && CanResumeSubscribe(c, id, cancelled)
    ensures Inv(Unsuspend(c, id))
  {
    InvMeans(c);
    UnsuspendRows(c, id, cancelled);
    UnsuspendEntries(c, id, cancelled);
    UnsuspendFutures(c, id, cancelled);
    UnsuspendTables(c, id, cancelled);
  }

  // ---------------------------------------------------------------- sending

  /** One request more: a fresh id, pending, its future waiting. */
  ghost predicate Sends(c: Client, d: Client, owner: Owner, r: Request) {
    && d.life == c.life && d.hasSocket == c.hasSocket && d.hasCloseInfo == c.hasCloseInfo
    && d.nextSid == c.nextSid && d.nextStream == c.nextStream && d.subs == c.subs
    && d.nextReq == c.nextReq + 1 && r.id == c.nextReq
    && d.pending == c.pending + {c.nextReq}
    && d.futures == c.futures[c.nextReq := Waiting]
    && d.waiting == c.waiting[c.nextReq := owner]
    && d.sent == c.sent + [r]
  }

  lemma SendsFutures(c: Client, d: Client, owner: Owner, r: Request)
    requires Futures(c) && Sent(c) && Sends(c, d, owner, r) && c.life.Open?
    requires (forall x :: x in d.entries <==> x in c.entries)
    ensures Futures(d) && Sent(d)
  {
  }

  ghost predicate SameRows(c: Client, d: Client) {
    && (forall x :: x in d.entries <==> x in c.entries)
    && (forall s :: s in d.streams <==> s in c.streams)
    && (forall s :: s in c.streams ==> d.streams[s].sids == c.streams[s].sids && d.streams[s].queue == c.streams[s].queue)
    && (forall x :: x in c.entries ==> d.entries[x].stream == c.entries[x].stream && d.entries[x].index == c.entries[x].index)
    && d.subs == c.subs && d.nextSid == c.nextSid && d.nextStream == c.nextStream
  }

  lemma SameTables(c: Client, d: Client)
    requires Tables(c) && SameRows(c, d)
    ensures Tables(d)
  {
  }

  lemma SendsRows(c: Client, d: Client, owner: Owner, r: Request)
    requires RowsRight(c) && Futures(c) && WaitingRight(c) && Sends(c, d, owner, r)
    requires d.streams == c.streams && !owner.Subscriber?
    requires forall x :: x in c.entries ==> x in d.entries && d.entries[x].asking == c.entries[x].asking
    requires forall x :: x in d.entries ==> x in c.entries
    ensures RowsRight(d) && WaitingRight(d)
  {
    forall t | t in d.streams
      ensures d.streams[t].queue.Sound() && TaskRight(d.streams[t], t, d.waiting, d.futures, d.entries)
    {
      assert TaskRight(c.streams[t], t, c.waiting, c.futures, c.entries);
    }
  }

  lemma SendCallLinked(c: Client)
    requires Futures(c) && EntriesRight(c) && SpawnedRight(c) && Linked(c)
    ensures var d := SendRequest(c, Caller, Other(c.nextReq)); Linked(d) && EntriesRight(d) && SpawnedRight(d)
  {
  }

  lemma SendCallKeeps(c: Client)
    requires Inv(c) && c.life.Open?
    ensures Inv(SendRequest(c, Caller, Other(c.nextReq)))
  {
    InvMeans(c);
    var r := Other(c.nextReq);
    var d := SendRequest(c, Caller, r);
    SendsFutures(c, d, Caller, r);
    SameTables(c, d);
    SendsRows(c, d, Caller, r);
    SendCallLinked(c);
  }

  // ---------------------------------------------------------------- unsubscribe tasks

  predicate CanRun(c: Client, i: nat) {
    i < |c.spawned| && c.spawned[i].sid in c.entries && c.entries[c.spawned[i].sid].hold.Queued?
  }

  lemma SpawnedQueued(c: Client, i: nat)
    requires SpawnedRight(c) && i < |c.spawned|
    ensures CanRun(c, i)
  {
    assert c.spawned[i].sid in QueuedSids(c.spawned);
  }

  /** One task leaves the list, its entry no longer queued. */
  lemma SpawnedShrinks(c: Client, d: Client, i: nat)
    requires SpawnedRight(c) && CanRun(c, i) && d.spawned == c.spawned[..i] + c.spawned[i + 1..]
    requires forall x :: x in d.entries <==> x in c.entries
    requires forall x :: x in c.entries ==>
      (d.entries[x].hold.Queued? <==> c.entries[x].hold.Queued? && x != c.spawned[i].sid)
    requires forall x :: x in c.entries && Confirmed(c.entries[x], c.futures) ==> Confirmed(d.entries[x], d.futures)
    ensures SpawnedRight(d)
  {
    QueuedRemove(c.spawned, i);
    forall j | 0 <= j < |d.spawned|
      ensures d.spawned[j] == c.spawned[if j < i then j else j + 1]
    {
    }
  }

  lemma CancelSpawnedEntries(c: Client, i: nat)
    requires EntriesRight(c) && SpawnedRight(c) && CanRun(c, i) && !c.spawned[i].quiet
    ensures EntriesRight(CancelSpawned(c, i))
  {
  }

  lemma CancelSpawnedParts(c: Client, i: nat)
    requires RowsRight(c) && WaitingRight(c) && CanRun(c, i) && !c.spawned[i].quiet
    ensures var d := CancelSpawned(c, i); Restates(c, d) && RowsRight(d) && WaitingRight(d)
  {
    var d := CancelSpawned(c, i);
    forall t | t in d.streams
      ensures TaskRight(d.streams[t], t, d.waiting, d.futures, d.entries)
    {
      assert TaskRight(c.streams[t], t, c.waiting, c.futures, c.entries);
    }
  }

  lemma CancelSpawnedKeeps(c: Client, i: nat)
    requires Inv(c) && i < |c.spawned| && !c.spawned[i].quiet
    ensures Inv(CancelSpawned(c, i))
  {
    InvMeans(c);
    var d := CancelSpawned(c, i);
    SpawnedQueued(c, i);
    CancelSpawnedEntries(c, i);
    CancelSpawnedParts(c, i);
    CancelSpawnedShrinks(c, i);
    Restated(c, d);
  }

  lemma CancelSpawnedShrinks(c: Client, i: nat)
    requires SpawnedRight(c) && CanRun(c, i) && !c.spawned[i].quiet
    ensures SpawnedRight(CancelSpawned(c, i))
  {
    SpawnedShrinks(c, CancelSpawned(c, i), i);
  }

  function RunRequest(c: Client, i: nat): Request
    requires i < |c.spawned|
  {
    Unsubscribe(c.nextReq, c.spawned[i].sid)
  }

  function RunOwner(c: Client, i: nat): Owner
    requires i < |c.spawned|
  {
    Unsubscriber(c.spawned[i].sid, c.spawned[i].quiet)
  }

  lemma RunSends(c: Client, i: nat)
    requires CanRun(c, i) && c.life.Open?
    ensures Sends(c, RunSpawned(c, i), RunOwner(c, i), RunRequest(c, i)) && SameRows(c, RunSpawned(c, i))
    ensures RunSpawned(c, i).streams == c.streams && SameAsking(c.entries, RunSpawned(c, i).entries)
  {
  }

  lemma RunEntries(c: Client, i: nat)
    requires Futures(c) && EntriesRight(c) && CanRun(c, i) && c.life.Open?
    ensures EntriesRight(RunSpawned(c, i))
  {
    var d := RunSpawned(c, i);
    forall y | y in d.entries && d.entries[y].stream in d.streams
      ensures EntryRight(d.entries[y], y in d.subs, d.streams[d.entries[y].stream], d.futures, d.life.Open?)
    {
      assert EntryRight(c.entries[y], y in c.subs, c.streams[c.entries[y].stream], c.futures, c.life.Open?);
    }
  }

  lemma RunLinked(c: Client, i: nat)
    requires Linked(c) && CanRun(c, i) && c.life.Open?
    requires c.entries[c.spawned[i].sid].asking.Asked?
    ensures Linked(RunSpawned(c, i))
  {
    var d := RunSpawned(c, i);
    forall j | 0 <= j < |d.sent|
      ensures RequestRight(d.sent[j], j, d.entries)
    {
      assert j < |c.sent| ==> RequestRight(c.sent[j], j, c.entries);
    }
    forall y | y in d.entries
      ensures EntrySent(d.entries[y], y, d.sent)
    {
      assert EntrySent(c.entries[y], y, c.sent);
    }
  }

  lemma RunShrinks(c: Client, i: nat)
    requires SpawnedRight(c) && Futures(c) && CanRun(c, i) && c.life.Open?
    ensures SpawnedRight(RunSpawned(c, i))
  {
    var d := RunSpawned(c, i);
    forall x | x in c.entries && Confirmed(c.entries[x], c.futures)
      ensures Confirmed(d.entries[x], d.futures)
    {
      assert c.entries[x].asking.req != c.nextReq;
    }
    SpawnedShrinks(c, d, i);
  }

  lemma RunAsked(c: Client, i: nat)
    requires Tables(c) && EntriesRight(c) && CanRun(c, i)
    ensures c.entries[c.spawned[i].sid].asking.Asked?
  {
  }

  lemma RunOpenParts(c: Client, d: Client, owner: Owner, r: Request)
    requires Inv(c) && Sends(c, d, owner, r) && SameRows(c, d) && c.life.Open? && !owner.Subscriber?
    requires d.streams == c.streams && SameAsking(c.entries, d.entries)
    ensures Futures(d) && Sent(d) && Tables(d) && RowsRight(d) && WaitingRight(d)
  {
    InvMeans(c);
    SendsFutures(c, d, owner, r);
    SameTables(c, d);
    SendsRows(c, d, owner, r);
  }

  lemma RunOpenKeeps(c: Client, i: nat)
    requires Inv(c) && CanRun(c, i) && c.life.Open?
    ensures Inv(RunSpawned(c, i))
  {
    InvMeans(c);
    RunSends(c, i);
    RunAsked(c, i);
    RunEntries(c, i);
    RunLinked(c, i);
    RunShrinks(c, i);
    RunOpenParts(c, RunSpawned(c, i), RunOwner(c, i), RunRequest(c, i));
  }

  /** Off an open connection the task goes away and nothing is sent. */
  function DropSpawned(c: Client, i: nat): Client
    requires i < |c.spawned|
  {
    SetHold(c.(spawned := c.spawned[..i] + c.spawned[i + 1..]), c.spawned[i].sid, Moot)
  }

  lemma DropEntries(c: Client, i: nat)
    requires EntriesRight(c) && SpawnedRight(c) && CanRun(c, i) && !c.life.Open?
    ensures EntriesRight(DropSpawned(c, i))
  {
  }

  lemma DropParts(c: Client, i: nat)
    requires RowsRight(c) && WaitingRight(c) && CanRun(c, i)
    ensures var d := DropSpawned(c, i); Restates(c, d) && RowsRight(d) && WaitingRight(d)
  {
    var d := DropSpawned(c, i);
    forall t | t in d.streams
      ensures TaskRight(d.streams[t], t, d.waiting, d.futures, d.entries)
    {
      assert TaskRight(c.streams[t], t, c.waiting, c.futures, c.entries);
    }
  }

  lemma DropKeeps(c: Client, i: nat)
    requires Inv(c) && CanRun(c, i) && !c.life.Open?
    ensures Inv(DropSpawned(c, i))
  {
    InvMeans(c);
    DropEntries(c, i);
    DropParts(c, i);
    DropShrinks(c, i);
    Restated(c, DropSpawned(c, i));
  }

  lemma DropShrinks(c: Client, i: nat)
    requires SpawnedRight(c) && CanRun(c, i)
    ensures SpawnedRight(DropSpawned(c, i))
  {
    SpawnedShrinks(c, DropSpawned(c, i), i);
  }

  lemma RunSpawnedKeeps(c: Client, i: nat)
    requires Inv(c) && i < |c.spawned|
    ensures Inv(RunSpawned(c, i))
  {
    InvMeans(c);
    SpawnedQueued(c, i);
    if c.life.Open? {
      RunOpenKeeps(c, i);
    } else {
      DropKeeps(c, i);
      if c.spawned[i].quiet {
        ForgetZombieKeeps(DropSpawned(c, i), c.spawned[i].sid);
      }
    }
  }

  // ---------------------------------------------------------------- subscribe requests

  predicate CanSendSubscribe(c: Client, s: StreamId) {
    AtEntry(c, s) && c.life.Open? && c.entries[Current(c, s)].state.Pending?
  }

  lemma SubscribeSends(c: Client, s: StreamId)
    requires CanSendSubscribe(c, s)
    ensures var x := Current(c, s); var d := SendSubscribe(c, s);
      && Sends(c, d, Subscriber(s, c.streams[s].task.k), Subscribe(c.nextReq, x, c.entries[x].target))
      && SameRows(c, d)
  {
  }

  lemma SubscribeEntries(c: Client, s: StreamId)
    requires Tables(c) && Futures(c) && EntriesRight(c) && CanSendSubscribe(c, s)
    requires c.entries[Current(c, s)].asking.NotAsked?
    ensures EntriesRight(SendSubscribe(c, s))
  {
    var d := SendSubscribe(c, s);
    SubscribeShape(c, s);
    FutureUnused(c);
    forall y | y in d.entries && d.entries[y].stream in d.streams
      ensures EntryRight(d.entries[y], y in d.subs, d.streams[d.entries[y].stream], d.futures, d.life.Open?)
    {
      hide SendSubscribe, EntriesRight, EntryRight, Futures;
      SubscribedEntry(c, d, s, y);
    }
  }

  /** `d` is `c` with the current entry of `s` sent. */
  predicate Asks(c: Client, d: Client, s: StreamId)
    requires AtEntry(c, s)
  {
    var x := Current(c, s);
    && d.entries == c.entries[x := c.entries[x].(asking := Asked(|c.sent|, c.nextReq))]
    && d.streams == c.streams[s := c.streams[s].(task := Awaiting(c.streams[s].task.k, c.nextReq))]
    && d.futures == c.futures[c.nextReq := Waiting] && d.subs == c.subs && d.life == c.life
    && d.waiting == c.waiting[c.nextReq := Subscriber(s, c.streams[s].task.k)]
  }

  lemma SubscribeShape(c: Client, s: StreamId)
    requires AtEntry(c, s)
    ensures Asks(c, SendSubscribe(c, s), s)
  {
  }

  lemma FutureUnused(c: Client)
    requires Futures(c)
    ensures c.nextReq !in c.futures && c.nextReq !in c.waiting
  {
  }

  lemma SubscribedEntry(c: Client, d: Client, s: StreamId, y: Sid)
    requires Tables(c) && EntriesRight(c) && CanSendSubscribe(c, s) && Asks(c, d, s) && y in d.entries
    requires c.entries[Current(c, s)].asking.NotAsked? && c.nextReq !in c.futures
    ensures d.entries[y].stream in d.streams
    ensures EntryRight(d.entries[y], y in d.subs, d.streams[d.entries[y].stream], d.futures, d.life.Open?)
  {
    hide Tables, EntriesRight, EntryRight;
    EntryOf(c, y);
    OwnPlace(c, s, y);
    var e := c.entries[y];
    MoreFutures(e, y in c.subs, c.streams[e.stream], c.futures, c.life.Open?, c.nextReq);
    if y == Current(c, s) {
      JustAsked(e, y in c.subs, c.streams[s], d.futures, |c.sent|, c.nextReq);
    } else if e.stream == s {
      AwaitsOther(e, y in c.subs, c.streams[s], d.futures, c.nextReq);
    }
  }

  lemma MoreFutures(e: Entry, routed: bool, row: StreamRow, futures: map<ReqId, Outcome>, open: bool, id: ReqId)
    requires EntryRight(e, routed, row, futures, open) && id !in futures
    ensures EntryRight(e, routed, row, futures[id := Waiting], open)
  {
  }

  lemma JustAsked(e: Entry, routed: bool, row: StreamRow, futures: map<ReqId, Outcome>, at: nat, id: ReqId)
    requires EntryRight(e, routed, row, futures, true) && e.state.Pending? && row.task.Looping? && row.task.k == e.index
    requires e.asking.NotAsked?
    ensures EntryRight(e.(asking := Asked(at, id)), routed, row.(task := Awaiting(e.index, id)), futures, true)
  {
  }

  lemma AwaitsOther(e: Entry, routed: bool, row: StreamRow, futures: map<ReqId, Outcome>, id: ReqId)
    requires EntryRight(e, routed, row, futures, true) && row.task.Looping?
    ensures EntryRight(e, routed, row.(task := Awaiting(row.task.k, id)), futures, true)
  {
  }

  lemma SubscribeRows(c: Client, s: StreamId)
    requires Tables(c) && Futures(c) && RowsRight(c) && CanSendSubscribe(c, s)
    requires c.entries[Current(c, s)].asking.NotAsked?
    ensures RowsRight(SendSubscribe(c, s))
  {
    var d := SendSubscribe(c, s);
    SubscribeShape(c, s);
    FutureUnused(c);
    forall t | t in d.streams
      ensures d.streams[t].queue.Sound() && TaskRight(d.streams[t], t, d.waiting, d.futures, d.entries)
    {
      hide SendSubscribe, Futures, Tables, TaskRight, RowsRight;
      SubscribedRow(c, d, s, t);
    }
  }

  lemma SubscribedRow(c: Client, d: Client, s: StreamId, t: StreamId)
    requires Tables(c) && RowsRight(c) && CanSendSubscribe(c, s) && Asks(c, d, s) && t in d.streams
    requires c.nextReq !in c.futures && c.nextReq !in c.waiting
    ensures d.streams[t].queue.Sound() && TaskRight(d.streams[t], t, d.waiting, d.futures, d.entries)
  {
    if t != s {
      assert TaskRight(c.streams[t], t, c.waiting, c.futures, c.entries);
      hide TaskRight, RowsRight;
      NotListed(c, s, t);
      TaskElsewhere(c.streams[t], t, c.waiting, c.futures, c.entries, Current(c, s), d.entries[Current(c, s)], c.nextReq,
                    d.waiting[c.nextReq]);
    }
  }

  lemma NotListed(c: Client, s: StreamId, t: StreamId)
    requires Tables(c) && CanAbort(c, s) && t in c.streams && t != s
    ensures Current(c, s) !in c.streams[t].sids
  {
    forall i | 0 <= i < |c.streams[t].sids|
      ensures c.streams[t].sids[i] != Current(c, s)
    {
      assert c.entries[c.streams[t].sids[i]].stream == t && c.entries[Current(c, s)].stream == s;
    }
  }

  /** A coroutine does not notice another stream's entry nor a new request of another. */
  lemma TaskElsewhere(row: StreamRow, t: StreamId, waiting: map<ReqId, Owner>, futures: map<ReqId, Outcome>,
                      entries: map<Sid, Entry>, x: Sid, e: Entry, id: ReqId, owner: Owner)
    requires TaskRight(row, t, waiting, futures, entries) && x !in row.sids && id !in futures && id !in waiting
    ensures TaskRight(row, t, waiting[id := owner], futures[id := Waiting], entries[x := e])
  {
  }

  lemma SubscribeWaiting(c: Client, s: StreamId)
    requires Futures(c) && WaitingRight(c) && CanSendSubscribe(c, s)
    ensures WaitingRight(SendSubscribe(c, s))
  {
  }

  lemma SubscribeLinked(c: Client, s: StreamId)
    requires Linked(c) && EntriesRight(c) && CanSendSubscribe(c, s)
    requires c.entries[Current(c, s)].asking.NotAsked?
    ensures Linked(SendSubscribe(c, s))
  {
    var d := SendSubscribe(c, s);
    forall j | 0 <= j < |d.sent|
      ensures RequestRight(d.sent[j], j, d.entries)
    {
      assert j < |c.sent| ==> RequestRight(c.sent[j], j, c.entries);
    }
    forall y | y in d.entries
      ensures EntrySent(d.entries[y], y, d.sent)
    {
      assert EntrySent(c.entries[y], y, c.sent);
    }
  }

  lemma SubscribeSpawned(c: Client, s: StreamId)
    requires SpawnedRight(c) && Futures(c) && CanSendSubscribe(c, s)
    requires c.entries[Current(c, s)].asking.NotAsked?
    ensures SpawnedRight(SendSubscribe(c, s))
  {
    var d := SendSubscribe(c, s);
    forall x | x in c.entries && Confirmed(c.entries[x], c.futures)
      ensures Confirmed(d.entries[x], d.futures)
    {
      assert c.entries[x].asking.req != c.nextReq;
    }
    SpawnedSame(c, d);
  }

  lemma SendSubscribeKeeps(c: Client, s: StreamId)
    requires Inv(c) && CanSendSubscribe(c, s)
    ensures Inv(SendSubscribe(c, s))
  {
    InvMeans(c);
    var x := Current(c, s);
    CurrentUnasked(c, s);
    SubscribeSends(c, s);
    SendsFutures(c, SendSubscribe(c, s), Subscriber(s, c.streams[s].task.k), Subscribe(c.nextReq, x, c.entries[x].target));
    SameTables(c, SendSubscribe(c, s));
    SubscribeEntries(c, s);
    SubscribeRows(c, s);
    SubscribeWaiting(c, s);
    SubscribeLinked(c, s);
    SubscribeSpawned(c, s);
  }

  // ---------------------------------------------------------------- new streams

  lemma NewStreamTables(c: Client, targets: seq<Target>, m: Option<nat>)
    requires Tables(c)
    ensures Tables(NewStream(c, targets, m))
  {
    var d := NewStream(c, targets, m);
    NewStreamLists(c, d, targets, m);
    forall x | x in d.entries
      ensures x < d.nextSid && d.entries[x].stream in d.streams
      ensures Lists(d.streams[d.entries[x].stream].sids, d.entries[x].index, x)
    {
    }
  }

  lemma NewStreamLists(c: Client, d: Client, targets: seq<Target>, m: Option<nat>)
    requires Tables(c) && d == NewStream(c, targets, m)
    ensures forall s, i :: s in d.streams && 0 <= i < |d.streams[s].sids| ==>
      var x := d.streams[s].sids[i]; x in d.entries && d.entries[x].stream == s && d.entries[x].index == i
  {
    forall s, i | s in d.streams && 0 <= i < |d.streams[s].sids|
      ensures var x := d.streams[s].sids[i]; x in d.entries && d.entries[x].stream == s && d.entries[x].index == i
    {
      assert s != c.nextStream ==> d.streams[s].sids[i] in c.entries;
    }
  }

  lemma NewStreamEntries(c: Client, targets: seq<Target>, m: Option<nat>)
    requires Tables(c) && EntriesRight(c) && (m.Some? ==> m.value >= 1)
    ensures EntriesRight(NewStream(c, targets, m))
  {
    var d := NewStream(c, targets, m);
    forall y | y in d.entries && d.entries[y].stream in d.streams
      ensures EntryRight(d.entries[y], y in d.subs, d.streams[d.entries[y].stream], d.futures, d.life.Open?)
    {
      if y < c.nextSid {
        assert EntryRight(c.entries[y], y in c.subs, c.streams[c.entries[y].stream], c.futures, c.life.Open?);
      } else {
        assert SidRange(c.nextSid, |targets|)[y - c.nextSid] == y;
      }
    }
  }

  lemma NewStreamRows(c: Client, targets: seq<Target>, m: Option<nat>)
    requires Tables(c) && RowsRight(c) && WaitingRight(c)
    ensures RowsRight(NewStream(c, targets, m)) && WaitingRight(NewStream(c, targets, m))
  {
    var d := NewStream(c, targets, m);
    forall t | t in d.streams
      ensures d.streams[t].queue.Sound() && TaskRight(d.streams[t], t, d.waiting, d.futures, d.entries)
    {
      assert t != c.nextStream ==> TaskRight(c.streams[t], t, c.waiting, c.futures, c.entries);
    }
  }

  lemma NewStreamLinked(c: Client, targets: seq<Target>, m: Option<nat>)
    requires Tables(c) && Linked(c)
    ensures Linked(NewStream(c, targets, m))
  {
    var d := NewStream(c, targets, m);
    forall j | 0 <= j < |d.sent|
      ensures RequestRight(d.sent[j], j, d.entries)
    {
      assert RequestRight(c.sent[j], j, c.entries);
    }
  }

  lemma NewStreamFutures(c: Client, targets: seq<Target>, m: Option<nat>)
    requires Futures(c) && Sent(c) && c.life.Open?
    ensures Futures(NewStream(c, targets, m)) && Sent(NewStream(c, targets, m))
  {
  }

  lemma NewStreamSpawned(c: Client, targets: seq<Target>, m: Option<nat>)
    requires Tables(c) && SpawnedRight(c)
    ensures SpawnedRight(NewStream(c, targets, m))
  {
    var d := NewStream(c, targets, m);
    assert forall x :: x in c.entries ==> x in d.entries && d.entries[x] == c.entries[x];
  }

  lemma NewStreamKeeps(c: Client, targets: seq<Target>, m: Option<nat>)
    requires Inv(c) && c.life.Open? && (m.Some? ==> m.value >= 1)
    ensures Inv(NewStream(c, targets, m))
  {
    InvMeans(c);
    NewStreamTables(c, targets, m);
    NewStreamEntries(c, targets, m);
    NewStreamRows(c, targets, m);
    NewStreamLinked(c, targets, m);
    NewStreamFutures(c, targets, m);
    NewStreamSpawned(c, targets, m);
  }

  // ---------------------------------------------------------------- the connection

  lemma DisconnectTables(c: Client)
    requires Tables(c) && !c.hasCloseInfo
    ensures Tables(OnDisconnect(c))
  {
  }

  lemma DisconnectEntries(c: Client)
    requires Tables(c) && EntriesRight(c) && !c.hasCloseInfo
    ensures EntriesRight(OnDisconnect(c))
  {
    var d := OnDisconnect(c);
    forall y | y in d.entries && d.entries[y].stream in d.streams
      ensures EntryRight(d.entries[y], y in d.subs, d.streams[d.entries[y].stream], d.futures, d.life.Open?)
    {
      assert EntryRight(c.entries[y], y in c.subs, c.streams[c.entries[y].stream], c.futures, c.life.Open?);
    }
  }

  lemma DisconnectRows(c: Client)
    requires RowsRight(c) && WaitingRight(c) && !c.hasCloseInfo
    ensures RowsRight(OnDisconnect(c)) && WaitingRight(OnDisconnect(c))
  {
    var d := OnDisconnect(c);
    forall t | t in d.streams
      ensures d.streams[t].queue.Sound() && TaskRight(d.streams[t], t, d.waiting, d.futures, d.entries)
    {
      assert TaskRight(c.streams[t], t, c.waiting, c.futures, c.entries);
    }
  }

  lemma DisconnectLinked(c: Client)
    requires Linked(c) && !c.hasCloseInfo
    ensures Linked(OnDisconnect(c))
  {
    var d := OnDisconnect(c);
    forall j | 0 <= j < |d.sent|
      ensures RequestRight(d.sent[j], j, d.entries)
    {
      assert RequestRight(c.sent[j], j, c.entries);
    }
  }

  lemma DisconnectFutures(c: Client)
    requires Futures(c) && Sent(c) && Reading(c)
    ensures Futures(OnDisconnect(c)) && Sent(OnDisconnect(c))
  {
  }

  lemma DisconnectSpawned(c: Client)
    requires SpawnedRight(c) && !c.hasCloseInfo
    ensures SpawnedRight(OnDisconnect(c))
  {
  }

  lemma DisconnectKeeps(c: Client)
    requires Inv(c) && Reading(c)
    ensures Inv(OnDisconnect(c))
  {
    InvMeans(c);
    DisconnectTables(c);
    DisconnectEntries(c);
    DisconnectRows(c);
    DisconnectLinked(c);
    DisconnectFutures(c);
    DisconnectSpawned(c);
  }

  lemma SetLifeKeeps(c: Client, l: Life)
    requires Inv(c) && LifeMove(c, l)
    ensures Inv(c.(life := l, hasSocket := c.hasSocket || l.Open?))
  {
    InvMeans(c);
    var d := c.(life := l, hasSocket := c.hasSocket || l.Open?);
    SetLifeFutures(c, d, l);
    SetLifeEntries(c, d);
    SetLifeParts(c, d);
    InvMeans(d);
  }

  lemma SetLifeFutures(c: Client, d: Client, l: Life)
    requires Futures(c) && LifeMove(c, l) && d == c.(life := l, hasSocket := c.hasSocket || l.Open?)
    ensures Futures(d)
  {
  }

  lemma SetLifeEntries(c: Client, d: Client)
    requires Tables(c) && EntriesRight(c) && Futures(c) && d == c.(life := d.life, hasSocket := d.hasSocket)
    requires d.life.Open? ==> !c.hasSocket
    ensures EntriesRight(d)
  {
  }

  lemma SetLifeParts(c: Client, d: Client)
    requires Tables(c) && RowsRight(c) && WaitingRight(c) && Sent(c) && Linked(c) && SpawnedRight(c)
    requires d == c.(life := d.life, hasSocket := d.hasSocket)
    ensures Tables(d) && RowsRight(d) && WaitingRight(d) && Sent(d) && Linked(d) && SpawnedRight(d)
  {
  }
}
