/** What every step of the client keeps (`src/logos_bridge/client.py`). */
module ClientInvariant {
  import opened Wrappers
  import opened EventStream
  import opened ClientState

  predicate Lists(xs: seq<Sid>, i: nat, x: Sid) {
    i < |xs| && xs[i] == x
  }

  /** The entry and stream tables agree: ids are never reused, an entry is listed once, by its own
      stream. */
  ghost predicate Tables(c: Client) {
    && (forall x :: x in c.subs ==> x in c.entries)
    && (forall x :: x in c.entries ==> x < c.nextSid && c.entries[x].stream in c.streams)
    && (forall x :: x in c.entries && c.entries[x].stream in c.streams ==>
          Lists(c.streams[c.entries[x].stream].sids, c.entries[x].index, x))
    && (forall s :: s in c.streams ==> s < c.nextStream)
    && (forall s, i :: s in c.streams && 0 <= i < |c.streams[s].sids| ==>
          var x := c.streams[s].sids[i]; x in c.entries && c.entries[x].stream == s && c.entries[x].index == i)
  }

  /** An entry's state is right for its routing, its stream, the coroutine that treats it and the
      answers seen so far. */
  ghost predicate EntriesRight(c: Client) {
    forall x :: x in c.entries && c.entries[x].stream in c.streams ==>
      EntryRight(c.entries[x], x in c.subs, c.streams[c.entries[x].stream], c.futures, c.life.Open?)
  }

  predicate EntryRight(e: Entry, routed: bool, row: StreamRow, futures: map<ReqId, Outcome>, open: bool) {
    RoutedRight(e.state, routed) && EndedRight(e.state, row.queue.Ended()) && TaskCovers(e, row.task) && Stands(e, futures, open)
  }

  /** `_subs` holds exactly the pending, active and doomed entries and some zombies. */
  predicate RoutedRight(st: EntryState, routed: bool) {
    && (routed ==> st.Routed())
    && (st.Routed() && !st.Zombie? ==> routed)
  }

  /** An ended stream has no pending or active entry; only an ended stream has doomed or zombie ones. */
  predicate EndedRight(st: EntryState, ended: bool) {
    && (st.Pending? || st.Active? ==> !ended)
    && (st.Doomed? || st.Zombie? ==> ended)
  }

  /** An unacknowledged entry is treated now or later by its stream's running coroutine; the later
      ones have not been sent. */
  predicate TaskCovers(e: Entry, t: Task) {
    && (e.state.Unacked() ==> !t.Finished? && t.k <= e.index)
    && (!t.Finished? && t.k < e.index ==> e.asking.NotAsked?)
  }

  /** How one id stands: let go only after it was subscribed and given up; active only after its
      acknowledgement; and, on an open connection, given up after it was subscribed only by letting
      it go or because the bridge refused it. */
  predicate Stands(e: Entry, futures: map<ReqId, Outcome>, open: bool) {
    && (!e.hold.Held? ==> e.asking.Asked? && (e.state.Released? || e.state.Zombie? || e.state.Terminated?))
    && (e.hold.Lost? ==> Confirmed(e, futures))
    && (open ==> !e.hold.Moot?)
    && (e.state.Active? ==> Heard(e, futures, true))
    && (open && e.asking.Asked? ==>
          && (e.state.Released? || e.state.Zombie? ==> !e.hold.Held?)
          && (e.state.Failed? ==> Heard(e, futures, false)))
  }

  predicate Heard(e: Entry, futures: map<ReqId, Outcome>, ok: bool) {
    e.asking.Asked? && e.asking.req in futures && futures[e.asking.req] == Answered(ok)
  }

  /** Released after a successful acknowledgement. */
  predicate Confirmed(e: Entry, futures: map<ReqId, Outcome>) {
    e.state.Released? && Heard(e, futures, true)
  }

  /** An id is pending from its send until it is answered, timed out or given up; its future waits
      no longer than that. Before and after the open connection nothing is pending or routed. */
  ghost predicate Futures(c: Client) {
    && (forall id :: id in c.futures ==> id < c.nextReq)
    && (forall id :: id in c.pending ==> id in c.futures && (c.futures[id].Waiting? || c.futures[id].Cancelled?))
    && (forall id :: id in c.futures && c.futures[id].Waiting? ==> id in c.pending)
    && (forall id :: id in c.pending ==> id in c.waiting)
    && (forall id :: id in c.waiting ==> id in c.futures)
    && (forall id :: id in c.futures && c.futures[id].Cut? ==> c.life.Closed?)
    && (c.hasCloseInfo ==> c.life.Closed?)
    && (c.life.Closed? || !c.hasSocket ==> NothingPending(c))
    && (c.life.New? || c.life.Connecting? ==> !c.hasSocket)
    && (c.life.Open? ==> c.hasSocket)
    && (!c.hasSocket ==> forall x :: x !in c.entries)
  }

  ghost predicate NothingPending(c: Client) {
    (forall id :: id !in c.pending) && (forall x :: x !in c.subs)
  }

  predicate AskedAs(e: Entry, id: ReqId) {
    e.asking.Asked? && e.asking.req == id
  }

  ghost predicate TaskRight(row: StreamRow, s: StreamId, waiting: map<ReqId, Owner>, futures: map<ReqId, Outcome>,
                           entries: map<Sid, Entry>) {
    var xs := row.sids;
    match row.task
    case Looping(k) => k <= |xs| && (k < |xs| && xs[k] in entries ==> entries[xs[k]].asking.NotAsked?)
    case Awaiting(k, id) =>
      k < |xs| && id in waiting && waiting[id] == Subscriber(s, k) && xs[k] in entries && AskedAs(entries[xs[k]], id)
    case Resumed(k, id) =>
      && k < |xs| && id !in waiting && id in futures && !futures[id].Waiting?
      && xs[k] in entries && AskedAs(entries[xs[k]], id)
    case Finished => true
  }

  ghost predicate RowsRight(c: Client) {
    forall s :: s in c.streams ==>
      c.streams[s].queue.Sound() && TaskRight(c.streams[s], s, c.waiting, c.futures, c.entries)
  }

  ghost predicate WaitingRight(c: Client) {
    forall id :: id in c.waiting && c.waiting[id].Subscriber? ==>
      c.waiting[id].stream in c.streams &&
      c.streams[c.waiting[id].stream].task == Awaiting(c.waiting[id].index, id)
  }

  /** Request ids are fresh, and the history of each entry agrees with the requests sent: an id is
      subscribed at most once and unsubscribed at most once, later. */
  ghost predicate Sent(c: Client) {
    && (forall i :: 0 <= i < |c.sent| ==> c.sent[i].id in c.futures)
    && (forall i, j :: 0 <= i < j < |c.sent| ==> c.sent[i].id != c.sent[j].id)
  }

  ghost predicate Linked(c: Client) {
    && (forall x :: x in c.entries ==> EntrySent(c.entries[x], x, c.sent))
    && (forall i :: 0 <= i < |c.sent| ==> RequestRight(c.sent[i], i, c.entries))
  }

  predicate EntrySent(e: Entry, x: Sid, sent: seq<Request>) {
    && (e.asking.Asked? ==> e.asking.at < |sent| && sent[e.asking.at] == Subscribe(e.asking.req, x, e.target))
    && (e.hold.Told? ==>
          && e.hold.at < |sent| && sent[e.hold.at].Unsubscribe? && sent[e.hold.at].sid == x
          && e.asking.Asked? && e.asking.at < e.hold.at)
  }

  predicate RequestRight(r: Request, i: nat, entries: map<Sid, Entry>) {
    match r
    case Subscribe(id, x, t) => x in entries && entries[x].asking == Asked(i, id)
    case Unsubscribe(id, x) => x in entries && entries[x].hold == Told(i)
    case Other(_) => true
  }

  function QueuedSids(spawned: seq<Spawn>): set<Sid> {
    set i | 0 <= i < |spawned| :: spawned[i].sid
  }

  /** The unsubscribe tasks waiting to run are exactly those of the queued entries, one each; a
      gathered one is for an id that was acknowledged. */
  ghost predicate SpawnedRight(c: Client) {
    && (forall i, j :: 0 <= i < j < |c.spawned| ==> c.spawned[i].sid != c.spawned[j].sid)
    && (forall x :: x in QueuedSids(c.spawned) <==> x in c.entries && c.entries[x].hold.Queued?)
    && (forall i :: 0 <= i < |c.spawned| && !c.spawned[i].quiet && c.spawned[i].sid in c.entries ==>
          Confirmed(c.entries[c.spawned[i].sid], c.futures))
  }

  /** Opened by `InvMeans`. */
  ghost predicate Inv(c: Client) {
    forall k {:trigger Look(k)} :: Look(k) && k == 11 ==>
      && Tables(c) && EntriesRight(c) && RowsRight(c) && WaitingRight(c)
      && Futures(c) && Sent(c) && Linked(c) && SpawnedRight(c)
  }

  lemma InvMeans(c: Client)
    ensures Inv(c) <==>
      && Tables(c) && EntriesRight(c) && RowsRight(c) && WaitingRight(c)
      && Futures(c) && Sent(c) && Linked(c) && SpawnedRight(c)
  {
    assert Look(11);
  }

  /** No coroutine is in the middle of a step. */
  ghost predicate Settled(c: Client) {
    forall s :: s in c.streams ==> c.streams[s].task.Awaiting? || c.streams[s].task.Finished?
  }

  lemma InitHolds()
    ensures Inv(NewClient) && Settled(NewClient)
  {
  }

  // ---------------------------------------------------------------- sequences of ids

  lemma {:induction false} KeepMembers(xs: seq<Sid>, keep: set<Sid>)
    ensures forall x :: x in Keep(xs, keep) <==> x in xs && x in keep
  {
    if xs != [] {
      KeepMembers(xs[1..], keep);
    }
  }

  predicate Distinct(xs: seq<Sid>) {
    forall i, j :: 0 <= i < j < |xs| ==> xs[i] != xs[j]
  }

  lemma {:induction false} KeepDistinct(xs: seq<Sid>, keep: set<Sid>)
    requires Distinct(xs)
    ensures Distinct(Keep(xs, keep))
  {
    if xs != [] {
      KeepDistinct(xs[1..], keep);
      KeepMembers(xs[1..], keep);
      var ys := Keep(xs[1..], keep);
      forall i | 0 <= i < |ys|
        ensures ys[i] != xs[0]
      {
        assert ys[i] in ys;
        assert ys[i] in xs[1..];
      }
    }
  }

  lemma QueuedAppend(a: seq<Spawn>, xs: seq<Sid>, quiet: bool)
    ensures forall x :: x in QueuedSids(a + Spawns(xs, quiet)) <==> x in QueuedSids(a) || x in xs
  {
    var b := a + Spawns(xs, quiet);
    forall x
      ensures x in QueuedSids(b) <==> x in QueuedSids(a) || x in xs
    {
      if x in QueuedSids(b) {
        var i :| 0 <= i < |b| && b[i].sid == x;
        if i >= |a| { assert b[i].sid == xs[i - |a|]; } else { assert a[i].sid == x; }
      }
      if x in QueuedSids(a) {
        var i :| 0 <= i < |a| && a[i].sid == x;
        assert b[i].sid == x;
      }
      if x in xs {
        var i :| 0 <= i < |xs| && xs[i] == x;
        assert b[|a| + i].sid == x;
      }
    }
  }

  lemma QueuedRemove(a: seq<Spawn>, k: nat)
    requires k < |a|
    requires forall i, j :: 0 <= i < j < |a| ==> a[i].sid != a[j].sid
    ensures forall x :: x in QueuedSids(a[..k] + a[k + 1..]) <==> x in QueuedSids(a) && x != a[k].sid
  {
    var b := a[..k] + a[k + 1..];
    forall x
      ensures x in QueuedSids(b) <==> x in QueuedSids(a) && x != a[k].sid
    {
      if x in QueuedSids(b) {
        var i :| 0 <= i < |b| && b[i].sid == x;
        assert b[i] == if i < k then a[i] else a[i + 1];
      }
      if x in QueuedSids(a) && x != a[k].sid {
        var i :| 0 <= i < |a| && a[i].sid == x;
        assert b[if i < k then i else i - 1] == a[i];
      }
    }
  }

  lemma SpawnedGrows(c: Client, d: Client, xs: seq<Sid>, quiet: bool)
    requires SpawnedRight(c) && Distinct(xs) && d.spawned == c.spawned + Spawns(xs, quiet)
    requires forall x :: x in d.entries <==> x in c.entries
    requires forall x :: x in xs ==> x in c.entries && c.entries[x].hold.Held?
    requires forall x :: x in c.entries ==> d.entries[x].hold == if x in xs then Queued else c.entries[x].hold
    requires forall x :: x in c.entries && Confirmed(c.entries[x], c.futures) ==> Confirmed(d.entries[x], d.futures)
    requires !quiet ==> forall x :: x in xs ==> Confirmed(d.entries[x], d.futures)
    ensures SpawnedRight(d)
  {
    QueuedAppend(c.spawned, xs, quiet);
    forall i, j | 0 <= i < j < |d.spawned|
      ensures d.spawned[i].sid != d.spawned[j].sid
    {
      if i < |c.spawned| <= j {
        assert d.spawned[j].sid == xs[j - |c.spawned|];
        assert c.spawned[i].sid in QueuedSids(c.spawned);
      }
    }
  }
}
