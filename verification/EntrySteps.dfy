/** What the parts of a step do to the subscription ids (`src/logos_bridge/client.py`, `_detach`, `_subscribe`,
`_abort_subscribe`): each entry's state, its route and its unsubscribe.

`Ended` is the end of a stream, `GivenUp` that of a subscription; `Registered`, `Passed`, `Asks`, `Reaches` and
`Confirms` are the parts of `_subscribe`. Each is proved of the function that does it, entry by entry. */
module EntrySteps {
  import opened Wrappers
  import opened EventStream
  import opened ClientState
  import opened ClientInvariant

  predicate Of(c: Client, x: Sid, s: StreamId) {
    x in c.entries && c.entries[x].stream == s
  }

  /** The entry of `x` is untouched, and so is its route. */
  predicate Same(c: Client, d: Client, x: Sid) {
    x in c.entries && x in d.entries && d.entries[x] == c.entries[x] && (x in d.subs <==> x in c.subs)
  }

  /** `x` now has this state and this hold; nothing else of its entry has changed. */
  predicate Now(c: Client, d: Client, x: Sid, st: EntryState, hold: Hold, routed: bool) {
    && x in c.entries && x in d.entries
    && d.entries[x] == c.entries[x].(state := st, hold := hold)
    && (x in d.subs <==> routed)
  }

  /** The unsubscribe tasks created: one for each of `ids`, in the order of their entries. */
  ghost predicate Created(c: Client, d: Client, quiet: bool, ids: set<Sid>) {
    |d.spawned| >= |c.spawned| && d.spawned[..|c.spawned|] == c.spawned && Listed(c, d.spawned[|c.spawned|..], quiet, ids)
  }

  ghost predicate Listed(c: Client, news: seq<Spawn>, quiet: bool, ids: set<Sid>) {
    && (forall i :: 0 <= i < |news| ==> news[i].sid in ids && news[i].quiet == quiet)
    && (forall x :: x in ids ==> Spawn(x, quiet) in news)
    && (forall i, j :: 0 <= i < j < |news| ==> Earlier(c, news[i].sid, news[j].sid))
  }

  ghost function Live(c: Client, s: StreamId): set<Sid> {
    set x | x in c.entries && c.entries[x].stream == s && c.entries[x].state.Active?
  }

  // ---------------------------------------------------------------- order

  /** `ys` is a part of `xs`, in order: `at` says where. */
  predicate Within(xs: seq<Sid>, ys: seq<Sid>, at: seq<nat>) {
    && |at| == |ys|
    && (forall i :: 0 <= i < |at| ==> at[i] < |xs| && xs[at[i]] == ys[i])
    && (forall i, j :: 0 <= i < j < |at| ==> at[i] < at[j])
  }

  lemma {:induction false} KeepWithin(xs: seq<Sid>, keep: set<Sid>) returns (at: seq<nat>)
    ensures Within(xs, Keep(xs, keep), at)
  {
    if xs == [] {
      at := [];
    } else {
      hide Within;
      at := KeepWithin(xs[1..], keep);
      at := WithinLater(xs, Keep(xs[1..], keep), at);
      if xs[0] in keep {
        WithinFirst(xs, Keep(xs[1..], keep), at);
        at := [0] + at;
      } else {
        assert [] + Keep(xs[1..], keep) == Keep(xs[1..], keep);
      }
    }
  }

  lemma WithinFirst(xs: seq<Sid>, ys: seq<Sid>, at: seq<nat>)
    requires xs != [] && Within(xs, ys, at) && forall i :: 0 <= i < |at| ==> at[i] > 0
    ensures Within(xs, [xs[0]] + ys, [0] + at)
  {
  }

  lemma WithinLater(xs: seq<Sid>, ys: seq<Sid>, at: seq<nat>) returns (later: seq<nat>)
    requires xs != [] && Within(xs[1..], ys, at)
    ensures Within(xs, ys, later) && forall i :: 0 <= i < |later| ==> later[i] > 0
  {
    later := seq(|at|, i requires 0 <= i < |at| => at[i] + 1);
  }

  predicate Increasing(c: Client, xs: seq<Sid>) {
    && (forall i :: 0 <= i < |xs| ==> xs[i] in c.entries)
    && (forall i, j :: 0 <= i < j < |xs| ==> Earlier(c, xs[i], xs[j]))
  }

  predicate Earlier(c: Client, x: Sid, y: Sid) {
    x in c.entries && y in c.entries && c.entries[x].index < c.entries[y].index
  }

  /** The row of `s` lists exactly its entries, each at its index. */
  ghost predicate RowRight(c: Client, s: StreamId) {
    && s in c.streams
    && (forall i :: 0 <= i < |c.streams[s].sids| ==> Of(c, c.streams[s].sids[i], s) && c.entries[c.streams[s].sids[i]].index == i)
    && (forall x :: Of(c, x, s) ==> x in c.streams[s].sids)
  }

  lemma RowIs(c: Client, s: StreamId)
    requires Tables(c) && s in c.streams
    ensures RowRight(c, s)
  {
    forall x | Of(c, x, s)
      ensures x in c.streams[s].sids
    {
      assert Lists(c.streams[s].sids, c.entries[x].index, x);
    }
  }

  lemma RowOf(c: Client, s: StreamId)
    requires Inv(c) && s in c.streams
    ensures RowRight(c, s)
  {
    InvMeans(c);
    RowIs(c, s);
  }

  lemma RoutedRow(c: Client, x: Sid)
    requires Inv(c) && x in c.subs
    ensures x in c.entries && c.entries[x].stream in c.streams && RowRight(c, c.entries[x].stream)
  {
    InvMeans(c);
    RowIs(c, c.entries[x].stream);
  }

  lemma RowStays(c: Client, d: Client, s: StreamId)
    requires RowRight(c, s) && s in d.streams && d.streams[s].sids == c.streams[s].sids && d.entries.Keys == c.entries.Keys
    requires forall x :: x in c.entries ==> d.entries[x].stream == c.entries[x].stream && d.entries[x].index == c.entries[x].index
    ensures RowRight(d, s)
  {
    forall x | Of(d, x, s)
      ensures x in d.streams[s].sids
    {
      assert Of(c, x, s);
    }
  }

  lemma KeepIncreasing(c: Client, xs: seq<Sid>, keep: set<Sid>)
    requires forall i :: 0 <= i < |xs| ==> xs[i] in c.entries && c.entries[xs[i]].index == i
    ensures Increasing(c, Keep(xs, keep))
  {
    var at := KeepWithin(xs, keep);
  }

  lemma SpawnsListed(c: Client, xs: seq<Sid>, quiet: bool, ids: set<Sid>)
    requires Increasing(c, xs) && forall x :: x in xs <==> x in ids
    ensures Listed(c, Spawns(xs, quiet), quiet, ids)
  {
    var news := Spawns(xs, quiet);
    forall i | 0 <= i < |news|
      ensures news[i].sid in ids
    {
      assert xs[i] in xs;
    }
    forall x | x in ids
      ensures Spawn(x, quiet) in news
    {
      var i :| 0 <= i < |xs| && xs[i] == x;
      assert news[i] == Spawn(x, quiet);
    }
  }

  // ---------------------------------------------------------------- a stream ends

  /** The tasks are created: by `unsubscribe()` on any connection, in the background on an open one. */
  predicate Spawning(c: Client, quiet: bool) {
    c.life.Open? || !quiet
  }

  /** What the end of stream `s` does to the ids: the acknowledged ones are released, unrouted and, where tasks
      are created, unsubscribed in order; the pending ones are doomed; nothing else changes. */
  ghost predicate Ended(c: Client, d: Client, s: StreamId, quiet: bool) {
    && (forall x :: Of(c, x, s) && c.entries[x].state.Active? ==>
          Now(c, d, x, Released, if Spawning(c, quiet) then Queued else c.entries[x].hold, false))
    && (forall x :: Of(c, x, s) && c.entries[x].state.Pending? ==> Now(c, d, x, Doomed, c.entries[x].hold, x in c.subs))
    && (forall x :: x in c.entries && !(Of(c, x, s) && (c.entries[x].state.Active? || c.entries[x].state.Pending?)) ==> Same(c, d, x))
    && Created(c, d, quiet, if Spawning(c, quiet) then Live(c, s) else {})
    && d.entries.Keys == c.entries.Keys && d.sent == c.sent
  }

  lemma LiveIs(c: Client, s: StreamId)
    requires RowRight(c, s)
    ensures Increasing(c, LiveSids(c, s)) && forall x :: x in LiveSids(c, s) <==> x in Live(c, s)
  {
    var xs := c.streams[s].sids;
    KeepIncreasing(c, xs, InState(c, xs, Active));
    KeepMembers(xs, InState(c, xs, Active));
  }

  lemma EndingShape(c: Client, s: StreamId, why: Cause, quiet: bool)
    requires s in c.streams
    ensures var d := EndStream(c, s, why, quiet); var xs := c.streams[s].sids; var live := LiveSids(c, s);
      && d.entries.Keys == c.entries.Keys && d.sent == c.sent
      && d.subs == c.subs - InState(c, xs, Active)
      && d.spawned == c.spawned + (if Spawning(c, quiet) then Spawns(live, quiet) else [])
      && forall x :: x in c.entries ==>
           d.entries[x] == c.entries[x].(
             state := if x in xs then DetachState(c.entries[x].state) else c.entries[x].state,
             hold := if Spawning(c, quiet) && x in live then Queued else c.entries[x].hold)
  {
    hide LiveSids, Detach, SpawnAll;
    var e := EndQueue(c, s, why);
    EndQueueSame(c, s, why);
    DetachShape(e, s);
    SpawnShape(Detach(e, s), LiveSids(e, s), quiet);
  }

  lemma EndQueueSame(c: Client, s: StreamId, why: Cause)
    requires s in c.streams
    ensures var e := EndQueue(c, s, why);
      && s in e.streams && e.streams[s].sids == c.streams[s].sids && e.entries == c.entries && e.subs == c.subs
      && e.spawned == c.spawned && e.life == c.life && e.sent == c.sent
      && LiveSids(e, s) == LiveSids(c, s) && InState(e, c.streams[s].sids, Active) == InState(c, c.streams[s].sids, Active)
  {
    hide Keep;
    var e := EndQueue(c, s, why);
    assert InState(e, c.streams[s].sids, Active) == InState(c, c.streams[s].sids, Active);
  }

  lemma DetachShape(c: Client, s: StreamId)
    requires s in c.streams
    ensures var d := Detach(c, s); var xs := c.streams[s].sids;
      && d.entries.Keys == c.entries.Keys && d.subs == c.subs - InState(c, xs, Active)
      && d.spawned == c.spawned && d.life == c.life && d.sent == c.sent && s in d.streams
      && forall x :: x in c.entries ==>
           d.entries[x] == c.entries[x].(state := if x in xs then DetachState(c.entries[x].state) else c.entries[x].state)
  {
  }

  lemma SpawnShape(c: Client, xs: seq<Sid>, quiet: bool)
    ensures var d := SpawnAll(c, xs, quiet);
      && d.entries.Keys == c.entries.Keys && d.subs == c.subs && d.spawned == c.spawned + Spawns(xs, quiet)
      && d.sent == c.sent && d.life == c.life && d.nextReq == c.nextReq
      && forall x :: x in c.entries ==> d.entries[x] == c.entries[x].(hold := if x in xs then Queued else c.entries[x].hold)
  {
  }

  // ---------------------------------------------------------------- a subscription is given up

  /** What giving up the subscription of `s` does to the ids, `cur` being the one whose request failed or could
      not be sent: the acknowledged ones are released and unsubscribed; `cur` becomes a zombie that is
      unsubscribed if the bridge `maybe` has it; every other unacknowledged one has failed. */
  ghost predicate GivenUp(c: Client, d: Client, s: StreamId, cur: Sid, maybe: bool) {
    && (forall x :: Of(c, x, s) && c.entries[x].state.Active? ==>
          Now(c, d, x, Released, if c.life.Open? then Queued else c.entries[x].hold, false))
    && (forall x :: Of(c, x, s) && c.entries[x].state.Unacked() && !(x == cur && maybe) ==> Now(c, d, x, Failed, c.entries[x].hold, false))
    && (Of(c, cur, s) && c.entries[cur].state.Unacked() && maybe ==>
          Now(c, d, cur, Zombie, if c.life.Open? then Queued else c.entries[cur].hold, c.life.Open? && cur in c.subs))
    && (forall x :: x in c.entries && !(Of(c, x, s) && (c.entries[x].state.Active? || c.entries[x].state.Unacked())) ==> Same(c, d, x))
    && Created(c, d, true, if c.life.Open? then Dropped(c, s, cur, maybe) else {})
    && d.entries.Keys == c.entries.Keys && d.sent == c.sent
  }

  ghost function Dropped(c: Client, s: StreamId, cur: Sid, maybe: bool): set<Sid> {
    set x | x in c.entries && c.entries[x].stream == s &&
      (c.entries[x].state.Active? || (x == cur && maybe && c.entries[x].state.Unacked()))
  }

  lemma AbortFates(c: Client, s: StreamId, maybe: bool)
    requires RowRight(c, s) && !c.streams[s].task.Finished? && c.streams[s].task.k < |c.streams[s].sids|
    ensures GivenUp(c, AbortSubscribe(c, s, maybe), s, Current(c, s), maybe)
  {
    hide AbortSubscribe, Created, Now, Same, Dropped;
    AbortShape(c, s, maybe);
    AbortSpawned(c, s, maybe);
    forall x | x in c.entries
      ensures AbortedTo(c, AbortSubscribe(c, s, maybe), x, s, Current(c, s), maybe)
    {
      AbortEntry(c, s, maybe, x);
    }
  }

  /** `GivenUp` of one entry. */
  ghost predicate AbortedTo(c: Client, d: Client, x: Sid, s: StreamId, cur: Sid, maybe: bool)
    requires x in c.entries
  {
    var e := c.entries[x];
    if !Of(c, x, s) then Same(c, d, x)
    else if e.state.Active? then Now(c, d, x, Released, if c.life.Open? then Queued else e.hold, false)
    else if !e.state.Unacked() then Same(c, d, x)
    else if x == cur && maybe then Now(c, d, x, Zombie, if c.life.Open? then Queued else e.hold, c.life.Open? && x in c.subs)
    else Now(c, d, x, Failed, e.hold, false)
  }

  lemma AbortEntry(c: Client, s: StreamId, maybe: bool, x: Sid)
    requires RowRight(c, s) && !c.streams[s].task.Finished? && c.streams[s].task.k < |c.streams[s].sids| && x in c.entries
    ensures AbortedTo(c, AbortSubscribe(c, s, maybe), x, s, Current(c, s), maybe)
  {
    hide AbortSubscribe, Keep;
    var xs := c.streams[s].sids;
    AbortShape(c, s, maybe);
    KeepMembers(xs, AbortLive(c, xs, Current(c, s), maybe));
  }

  lemma AbortSpawned(c: Client, s: StreamId, maybe: bool)
    requires RowRight(c, s) && !c.streams[s].task.Finished? && c.streams[s].task.k < |c.streams[s].sids|
    ensures Created(c, AbortSubscribe(c, s, maybe), true, if c.life.Open? then Dropped(c, s, Current(c, s), maybe) else {})
  {
    hide AbortSubscribe, Keep, Listed;
    var xs, cur := c.streams[s].sids, Current(c, s);
    AbortShape(c, s, maybe);
    var keep := AbortLive(c, xs, cur, maybe);
    KeepIncreasing(c, xs, keep);
    AbortedAre(c, s, cur, maybe);
    SpawnsListed(c, Keep(xs, keep), true, Dropped(c, s, cur, maybe));
    ListedNone(c);
  }

  lemma ListedNone(c: Client)
    ensures Listed(c, [], true, {})
  {
  }

  lemma AbortedAre(c: Client, s: StreamId, cur: Sid, maybe: bool)
    requires RowRight(c, s)
    ensures var xs := c.streams[s].sids;
      forall x :: x in Keep(xs, AbortLive(c, xs, cur, maybe)) <==> x in Dropped(c, s, cur, maybe)
  {
    KeepMembers(c.streams[s].sids, AbortLive(c, c.streams[s].sids, cur, maybe));
  }

  lemma AbortShape(c: Client, s: StreamId, maybe: bool)
    requires s in c.streams && !c.streams[s].task.Finished? && c.streams[s].task.k < |c.streams[s].sids|
    ensures var d := AbortSubscribe(c, s, maybe); var xs, cur := c.streams[s].sids, Current(c, s);
      var live := Keep(xs, AbortLive(c, xs, cur, maybe));
      && d.entries.Keys == c.entries.Keys && d.sent == c.sent
      && d.spawned == c.spawned + (if c.life.Open? then Spawns(live, true) else [])
      && (forall x :: x in d.subs <==>
            x in c.subs && !(x in xs && x in c.entries && AbortUnroutes(c.entries[x].state, x == cur, maybe, c.life.Open?)))
      && (forall x :: x in c.entries ==>
           d.entries[x] == c.entries[x].(
             state := if x in xs then AbortState(c.entries[x].state, x == cur, maybe) else c.entries[x].state,
             hold := if c.life.Open? && x in live then Queued else c.entries[x].hold))
  {
    hide Keep, AbortState, AbortUnroutes, AbortSpawns;
  }

  // ---------------------------------------------------------------- the loop of a subscription

  /** From `c` to `d` the loop has passed the entries of `s` from the `k`th on and before the `j`th: none of them
      was pending, the doomed ones have been released. */
  ghost predicate Passed(c: Client, d: Client, s: StreamId, k: nat, j: nat) {
    && (forall x :: Of(c, x, s) && k <= c.entries[x].index < j ==> !c.entries[x].state.Pending?)
    && (forall x :: Of(c, x, s) && k <= c.entries[x].index < j && c.entries[x].state.Doomed? ==>
          Now(c, d, x, Released, c.entries[x].hold, false))
    && (forall x :: x in c.entries && !(Of(c, x, s) && k <= c.entries[x].index < j && c.entries[x].state.Doomed?) ==> Same(c, d, x))
    && d.entries.Keys == c.entries.Keys && d.spawned == c.spawned && d.sent == c.sent && d.life == c.life && d.nextReq == c.nextReq
    && s in c.streams && s in d.streams && d.streams[s].sids == c.streams[s].sids
  }

  lemma PassedOn(c: Client, m: Client, d: Client, s: StreamId, k: nat, j: nat)
    requires k < j && Passed(c, m, s, k, k + 1) && Passed(m, d, s, k + 1, j)
    ensures Passed(c, d, s, k, j)
  {
  }

  lemma SkipPasses(c: Client, s: StreamId)
    requires RowRight(c, s) && AtEntry(c, s) && !c.entries[Current(c, s)].state.Pending?
    ensures Passed(c, SkipEntry(c, s), s, c.streams[s].task.k, c.streams[s].task.k + 1)
    ensures RowRight(SkipEntry(c, s), s) && AtLoop(SkipEntry(c, s), s) && SkipEntry(c, s).streams[s].task.k == c.streams[s].task.k + 1
    ensures SkipEntry(c, s).streams[s].sids == c.streams[s].sids
  {
    hide SkipEntry;
    SkipShape(c, s);
    RowStays(c, SkipEntry(c, s), s);
    forall x | Of(c, x, s) && c.entries[x].index == c.streams[s].task.k
      ensures x == Current(c, s)
    {
      assert x in c.streams[s].sids;
    }
  }

  lemma SkipShape(c: Client, s: StreamId)
    requires AtEntry(c, s)
    ensures var d := SkipEntry(c, s); var x := Current(c, s);
      && d.entries.Keys == c.entries.Keys && d.spawned == c.spawned && d.sent == c.sent && d.life == c.life && d.nextReq == c.nextReq
      && s in d.streams && d.streams[s].sids == c.streams[s].sids && d.streams[s].task == Looping(c.streams[s].task.k + 1)
      && (forall y :: y in d.subs <==> y in c.subs && !(y == x && c.entries[x].state.Doomed?))
      && (forall y :: y in c.entries ==>
           d.entries[y] == c.entries[y].(state := if y == x && c.entries[x].state.Doomed? then Released else c.entries[y].state))
  {
  }

  /** The `j`th entry of `s` has been asked for, with the next request; nothing else has changed. */
  ghost predicate Asks(c: Client, d: Client, s: StreamId, x: Sid) {
    && Of(c, x, s) && x in d.entries
    && d.sent == c.sent + [Subscribe(c.nextReq, x, c.entries[x].target)]
    && d.entries[x] == c.entries[x].(asking := Asked(|c.sent|, c.nextReq)) && (x in d.subs <==> x in c.subs)
    && (forall y :: y in c.entries && y != x ==> Same(c, d, y))
    && d.entries.Keys == c.entries.Keys && d.spawned == c.spawned
  }

  lemma SendAsks(c: Client, s: StreamId)
    requires RowRight(c, s) && AtEntry(c, s)
    ensures Asks(c, SendSubscribe(c, s), s, Current(c, s))
  {
  }

  /** What the loop comes to at the first entry, the `j`th, that is still pending: it asks for it, or gives the
      subscription up if that cannot be sent; with none left it is done. */
  ghost predicate Reaches(c: Client, d: Client, s: StreamId, j: nat, refused: bool) {
    && s in c.streams && j <= |c.streams[s].sids|
    && if j == |c.streams[s].sids| then
         && (forall x :: x in c.entries ==> Same(c, d, x))
         && d.entries.Keys == c.entries.Keys && d.spawned == c.spawned && d.sent == c.sent
       else
         var x := c.streams[s].sids[j];
         && x in c.entries && c.entries[x].state.Pending?
         && if refused || !c.life.Open? then GivenUp(c, d, s, x, false) else Asks(c, d, s, x)
  }

  lemma {:induction false} LoopFates(c: Client, s: StreamId, refused: bool) returns (j: nat, m: Client)
    requires RowRight(c, s) && AtLoop(c, s)
    ensures c.streams[s].task.k <= j && Passed(c, m, s, c.streams[s].task.k, j)
    ensures Reaches(m, SubscribeLoop(c, s, refused), s, j, refused)
    decreases |c.streams[s].sids| - c.streams[s].task.k
  {
    hide Passed, Reaches, AbortSubscribe, SendSubscribe, SkipEntry;
    var k := c.streams[s].task.k;
    if k < |c.streams[s].sids| {
      AtEntryOf(c, s);
      if !c.entries[Current(c, s)].state.Pending? {
        SkipPasses(c, s);
        var next := SkipEntry(c, s);
        j, m := LoopFates(next, s, refused);
        PassedOn(c, next, m, s, k, j);
        return;
      }
    }
    j, m := k, c;
    PassesNone(c, s, k);
    ReachesHere(c, s, refused);
  }

  lemma AtEntryOf(c: Client, s: StreamId)
    requires RowRight(c, s) && AtLoop(c, s) && c.streams[s].task.k < |c.streams[s].sids|
    ensures AtEntry(c, s)
  {
  }

  lemma PassesNone(c: Client, s: StreamId, k: nat)
    requires s in c.streams
    ensures Passed(c, c, s, k, k)
  {
  }

  lemma ReachesHere(c: Client, s: StreamId, refused: bool)
    requires RowRight(c, s) && AtLoop(c, s)
    requires AtEntry(c, s) ==> c.entries[Current(c, s)].state.Pending?
    ensures Reaches(c, SubscribeLoop(c, s, refused), s, c.streams[s].task.k, refused)
  {
    hide AbortSubscribe, SendSubscribe, GivenUp, Asks;
    if c.streams[s].task.k < |c.streams[s].sids| {
      AtEntryOf(c, s);
      AbortFates(c, s, false);
      SendAsks(c, s);
    }
  }

  // ---------------------------------------------------------------- a subscription starts

  /** The entries of a new stream: one for each target, in order, with fresh ids, pending and routed. */
  ghost predicate Registered(c: Client, d: Client, targets: seq<Target>, maxPending: Option<nat>) {
    var s := c.nextStream;
    && s in d.streams && |d.streams[s].sids| == |targets|
    && d.streams[s].queue == Queue(maxPending, [], 0, 0, None, [], [], [])
    && (forall i :: 0 <= i < |targets| ==>
          var x := d.streams[s].sids[i];
          x !in c.entries && x in d.subs && x in d.entries && d.entries[x] == Entry(s, i, targets[i], Pending, NotAsked, Held))
    && (forall x :: x in c.entries ==> Same(c, d, x))
    && (forall x :: x in d.entries ==> x in c.entries || x in d.streams[s].sids)
    && d.spawned == c.spawned && d.sent == c.sent && d.life == c.life && d.nextReq == c.nextReq
  }

  lemma NewRegistered(c: Client, targets: seq<Target>, maxPending: Option<nat>)
    requires Tables(c)
    ensures Registered(c, NewStream(c, targets, maxPending), targets, maxPending)
  {
    hide NewStream, SidRange, Same;
    var d := NewStream(c, targets, maxPending);
    NewRowIs(c, targets, maxPending);
    RangeAt(c.nextSid, |targets|);
    forall i | 0 <= i < |targets|
      ensures var x := d.streams[c.nextStream].sids[i];
        x !in c.entries && x in d.subs && x in d.entries && d.entries[x] == Entry(c.nextStream, i, targets[i], Pending, NotAsked, Held)
    {
      NewId(c, targets, maxPending, i);
    }
    forall x | x in c.entries
      ensures Same(c, d, x)
    {
      OldId(c, targets, maxPending, x);
    }
    forall x | x in d.entries
      ensures x in c.entries || x in d.streams[c.nextStream].sids
    {
      RangeHas(c.nextSid, |targets|, x);
      NewEntriesAre(c, targets, maxPending);
    }
  }

  lemma NewId(c: Client, targets: seq<Target>, maxPending: Option<nat>, i: nat)
    requires Tables(c) && i < |targets|
    ensures var d := NewStream(c, targets, maxPending); var x := c.nextSid + i;
      x !in c.entries && x in d.subs && x in d.entries && d.entries[x] == Entry(c.nextStream, i, targets[i], Pending, NotAsked, Held)
  {
    hide NewStream, SidRange;
    RangeHas(c.nextSid, |targets|, c.nextSid + i);
    NewRowIs(c, targets, maxPending);
    NewEntriesAre(c, targets, maxPending);
  }

  lemma OldId(c: Client, targets: seq<Target>, maxPending: Option<nat>, x: Sid)
    requires Tables(c) && x in c.entries
    ensures Same(c, NewStream(c, targets, maxPending), x)
  {
    hide NewStream, SidRange;
    RangeHas(c.nextSid, |targets|, x);
    NewRowIs(c, targets, maxPending);
    NewEntriesAre(c, targets, maxPending);
  }

  lemma RangeAt(first: Sid, n: nat)
    ensures var xs := SidRange(first, n); |xs| == n && forall i :: 0 <= i < n ==> xs[i] == first + i
  {
  }

  lemma RangeHas(first: Sid, n: nat, x: Sid)
    ensures x in SidRange(first, n) <==> first <= x < first + n
  {
    if first <= x < first + n {
      assert SidRange(first, n)[x - first] == x;
    }
  }

  lemma NewRowIs(c: Client, targets: seq<Target>, maxPending: Option<nat>)
    ensures var d := NewStream(c, targets, maxPending); var s := c.nextStream;
      && s in d.streams && d.streams[s].sids == SidRange(c.nextSid, |targets|) && d.streams[s].task == Looping(0)
      && d.streams[s].queue == Queue(maxPending, [], 0, 0, None, [], [], [])
      && d.spawned == c.spawned && d.sent == c.sent && d.life == c.life && d.nextReq == c.nextReq
      && (forall x :: x in d.subs <==> x in c.subs || x in SidRange(c.nextSid, |targets|))
  {
    hide SidRange;
  }

  lemma NewEntriesAre(c: Client, targets: seq<Target>, maxPending: Option<nat>)
    ensures var d := NewStream(c, targets, maxPending);
      forall x :: x in d.entries <==>
        (x in c.entries && x < c.nextSid) || c.nextSid <= x < c.nextSid + |targets|
    ensures var d := NewStream(c, targets, maxPending);
      forall x :: x in d.entries ==>
        d.entries[x] == if x < c.nextSid then c.entries[x]
                        else Entry(c.nextStream, x - c.nextSid, targets[x - c.nextSid], Pending, NotAsked, Held)
  {
    hide SidRange;
  }

  lemma NewRow(c: Client, d: Client, targets: seq<Target>, maxPending: Option<nat>)
    requires Tables(c) && Registered(c, d, targets, maxPending)
    ensures RowRight(d, c.nextStream)
  {
    var s := c.nextStream;
    assert s !in c.streams;
    forall x | Of(d, x, s)
      ensures x in d.streams[s].sids
    {
      assert x in c.entries ==> Same(c, d, x);
    }
  }

  predicate SameRow(c: Client, d: Client, s: StreamId) {
    && s in c.streams && s in d.streams && d.streams[s].sids == c.streams[s].sids
    && d.streams[s].queue.maxPending == c.streams[s].queue.maxPending
  }

  lemma FirstRow(c: Client, s: StreamId, refused: bool)
    requires AtEntry(c, s) && c.entries[Current(c, s)].state.Pending?
    ensures SameRow(c, SubscribeLoop(c, s, refused), s)
  {
    hide AbortSubscribe;
    AbortRow(c, s, false);
  }

  lemma AbortRow(c: Client, s: StreamId, maybe: bool)
    requires s in c.streams && !c.streams[s].task.Finished? && c.streams[s].task.k < |c.streams[s].sids|
    ensures SameRow(c, AbortSubscribe(c, s, maybe), s)
  {
    hide Keep;
  }

  // ---------------------------------------------------------------- a request for an id comes back

  /** What a successful acknowledgement does to the id that was asked for: pending becomes active, doomed is
      released and unsubscribed. */
  ghost predicate Confirms(c: Client, d: Client, x: Sid) {
    && x in c.entries
    && (match c.entries[x].state
        case Pending => Now(c, d, x, Active, c.entries[x].hold, x in c.subs)
        case Doomed => Now(c, d, x, Released, if c.life.Open? then Queued else c.entries[x].hold, false)
        case _ => Same(c, d, x))
    && (forall y :: y in c.entries && y != x ==> Same(c, d, y))
    && d.spawned == c.spawned + (if c.entries[x].state.Doomed? && c.life.Open? then [Spawn(x, true)] else [])
    && d.entries.Keys == c.entries.Keys && d.sent == c.sent && d.life == c.life && d.nextReq == c.nextReq
  }

  lemma AckedConfirms(c: Client, s: StreamId)
    requires RowRight(c, s) && c.streams[s].task.Resumed? && c.streams[s].task.k < |c.streams[s].sids|
    ensures Current(c, s) in c.entries && Confirms(c, Acked(c, s), Current(c, s))
    ensures RowRight(Acked(c, s), s) && AtLoop(Acked(c, s), s) && Acked(c, s).streams[s].sids == c.streams[s].sids
    ensures Acked(c, s).streams[s].task.k == c.streams[s].task.k + 1
  {
    hide Acked;
    AckedShape(c, s);
    AckedRow(c, s);
    RowStays(c, Acked(c, s), s);
  }

  lemma AckedRow(c: Client, s: StreamId)
    requires s in c.streams && c.streams[s].task.Resumed? && c.streams[s].task.k < |c.streams[s].sids| && Current(c, s) in c.entries
    ensures var d := Acked(c, s);
      s in d.streams && d.streams[s].sids == c.streams[s].sids && d.streams[s].task == Looping(c.streams[s].task.k + 1)
  {
    hide SpawnQuiet;
    var x := Current(c, s);
    SpawnRows(SetState(Unroute(c, x), x, Released), [x]);
  }

  lemma SpawnRows(c: Client, xs: seq<Sid>)
    ensures SpawnQuiet(c, xs).streams == c.streams
  {
  }

  lemma AckedShape(c: Client, s: StreamId)
    requires s in c.streams && c.streams[s].task.Resumed? && c.streams[s].task.k < |c.streams[s].sids| && Current(c, s) in c.entries
    ensures Confirms(c, Acked(c, s), Current(c, s))
  {
    hide Acked;
    if c.entries[Current(c, s)].state.Doomed? {
      AckedDoomed(c, s);
    } else {
      AckedOther(c, s);
      assert c.spawned + [] == c.spawned;
    }
  }

  lemma AckedOther(c: Client, s: StreamId)
    requires s in c.streams && c.streams[s].task.Resumed? && c.streams[s].task.k < |c.streams[s].sids| && Current(c, s) in c.entries
    requires !c.entries[Current(c, s)].state.Doomed?
    ensures var d := Acked(c, s); var x := Current(c, s);
      && d.spawned == c.spawned && d.sent == c.sent && d.life == c.life && d.nextReq == c.nextReq && d.subs == c.subs
      && d.entries == if c.entries[x].state.Pending? then c.entries[x := c.entries[x].(state := Active)] else c.entries
  {
    hide SpawnQuiet;
  }

  lemma AckedDoomed(c: Client, s: StreamId)
    requires s in c.streams && c.streams[s].task.Resumed? && c.streams[s].task.k < |c.streams[s].sids| && Current(c, s) in c.entries
    requires c.entries[Current(c, s)].state.Doomed?
    ensures Confirms(c, Acked(c, s), Current(c, s))
  {
    hide SpawnAll;
    var x := Current(c, s);
    SpawnShape(SetState(Unroute(c, x), x, Released), [x], true);
    assert Spawns([x], true) == [Spawn(x, true)] && c.spawned + [] == c.spawned;
  }

  lemma UnsuspendSame(c: Client, id: ReqId)
    requires id in c.futures && id in c.waiting && c.waiting[id].Subscriber? && RowRight(c, c.waiting[id].stream)
    ensures var d := Unsuspend(c, id); var s := c.waiting[id].stream;
      && d.entries == c.entries && d.subs == c.subs && d.spawned == c.spawned && d.sent == c.sent && d.life == c.life
      && d.nextReq == c.nextReq && RowRight(d, s) && d.streams[s].sids == c.streams[s].sids
      && d.streams[s].task == Resumed(c.waiting[id].index, id)
  {
    RowStays(c, Unsuspend(c, id), c.waiting[id].stream);
  }

  /** What a finished request has come to. */
  lemma ResumesDone(c: Client, id: ReqId, cancelled: bool)
    requires CanResumeSubscribe(c, id, cancelled)
    ensures var k := c.waiting[id].index;
      k < |c.streams[c.waiting[id].stream].sids| && (cancelled || !c.futures[id].Waiting?)
  {
  }

  predicate SameIds(c: Client, d: Client) {
    d.entries == c.entries && d.subs == c.subs && d.spawned == c.spawned && d.sent == c.sent && d.life == c.life && d.nextReq == c.nextReq
  }

  lemma GivenUpFrom(c: Client, c1: Client, d: Client, s: StreamId, cur: Sid, maybe: bool)
    requires SameIds(c, c1) && GivenUp(c1, d, s, cur, maybe)
    ensures GivenUp(c, d, s, cur, maybe)
  {
    hide Now, Same, Listed, Dropped;
    DroppedFrom(c, c1, s, cur, maybe);
    forall x
      ensures Same(c1, d, x) <==> Same(c, d, x)
    {
      SameFrom(c, c1, d, x);
    }
    NowFrom(c, c1, d);
    ListedFrom(c, c1, d.spawned[|c.spawned|..], if c.life.Open? then Dropped(c, s, cur, maybe) else {});
  }

  lemma DroppedFrom(c: Client, c1: Client, s: StreamId, cur: Sid, maybe: bool)
    requires SameIds(c, c1)
    ensures Dropped(c, s, cur, maybe) == Dropped(c1, s, cur, maybe)
  {
  }

  lemma SameFrom(c: Client, c1: Client, d: Client, x: Sid)
    requires SameIds(c, c1)
    ensures Same(c1, d, x) <==> Same(c, d, x)
  {
  }

  lemma NowFrom(c: Client, c1: Client, d: Client)
    requires SameIds(c, c1)
    ensures forall x, st, hold, routed :: Now(c1, d, x, st, hold, routed) <==> Now(c, d, x, st, hold, routed)
  {
  }

  lemma ListedFrom(c: Client, c1: Client, news: seq<Spawn>, ids: set<Sid>)
    requires SameIds(c, c1)
    ensures Listed(c1, news, true, ids) <==> Listed(c, news, true, ids)
  {
  }

  lemma ConfirmsFrom(c: Client, c1: Client, d: Client, x: Sid)
    requires SameIds(c, c1) && Confirms(c1, d, x)
    ensures Confirms(c, d, x)
  {
  }

  // ---------------------------------------------------------------- frames, closing, the disconnect

  ghost predicate AllSame(c: Client, d: Client) {
    (forall x :: x in c.entries ==> Same(c, d, x)) && d.entries.Keys == c.entries.Keys && d.spawned == c.spawned && d.sent == c.sent
  }

  /** `x` has been terminated by the bridge; nothing else has changed. */
  ghost predicate Terminates(c: Client, d: Client, x: Sid) {
    && x in c.entries && Now(c, d, x, Terminated, c.entries[x].hold, false)
    && (forall y :: y in c.entries && y != x ==> Same(c, d, y))
    && d.entries.Keys == c.entries.Keys && d.spawned == c.spawned && d.sent == c.sent && d.life == c.life
  }

  lemma TerminatesRow(c: Client, x: Sid, s: StreamId)
    requires RowRight(c, s) && x in c.entries
    ensures var d := SetState(Unroute(c, x), x, Terminated); Terminates(c, d, x) && RowRight(d, s) && d.streams == c.streams
  {
    RowStays(c, SetState(Unroute(c, x), x, Terminated), s);
  }

  lemma RoutedStates(c: Client)
    requires Inv(c)
    ensures forall x :: x in c.subs ==> x in c.entries && c.entries[x].state.Routed()
    ensures forall id :: id in c.futures && c.futures[id].Waiting? ==> id in c.pending
  {
    InvMeans(c);
  }

  lemma SpawnedIn(c: Client, i: nat)
    requires Inv(c) && i < |c.spawned|
    ensures c.spawned[i].sid in c.entries
  {
    InvMeans(c);
    assert c.spawned[i].sid in QueuedSids(c.spawned);
  }

  lemma UnsubscribeSent(c: Client, i: nat)
    requires i < |c.spawned| && c.spawned[i].sid in c.entries && c.life.Open?
    ensures var d, x := RunSpawned(c, i), c.spawned[i].sid;
      && d.entries == c.entries[x := c.entries[x].(hold := Told(|c.sent|))] && d.subs == c.subs
      && d.spawned == c.spawned[..i] + c.spawned[i + 1..] && d.sent == c.sent + [Unsubscribe(c.nextReq, x)]
  {
  }

  lemma UnsubscribeMoot(c: Client, i: nat)
    requires i < |c.spawned| && c.spawned[i].sid in c.entries && !c.life.Open?
    ensures var d, x := RunSpawned(c, i), c.spawned[i].sid;
      && d.entries == c.entries[x := c.entries[x].(hold := Moot)]
      && d.subs == c.subs - (if c.spawned[i].quiet && c.entries[x].state.Zombie? then {x} else {})
      && d.spawned == c.spawned[..i] + c.spawned[i + 1..] && d.sent == c.sent
  {
    hide SetHold;
    var c1 := c.(spawned := c.spawned[..i] + c.spawned[i + 1..]);
    HoldIs(c1, c.spawned[i].sid, Moot);
  }

  lemma HoldIs(c: Client, x: Sid, h: Hold)
    requires x in c.entries
    ensures SetHold(c, x, h) == c.(entries := c.entries[x := c.entries[x].(hold := h)])
  {
  }
}
