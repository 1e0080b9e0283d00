/** What holds in every run of the client and the bridge over one connection. */
module JointResults {
  import opened Wrappers
  import opened EventStream
  import opened ClientState
  import opened ClientInvariant
  import opened ClientSteps
  import opened ClientRun
  import opened BridgeState
  import opened Joint

  // A run is any interleaving of events, acknowledgements, refusals, terminations, timeouts, cancellations,
  // overflows, unsubscribes and the disconnect.

  ghost predicate Leads(s: System, t: System) {
    exists m :: CanMove(s, m) && t == After(s, m)
  }

  ghost predicate Run(trace: seq<System>) {
    && trace != [] && trace[0] == Joint.Start
    && forall i :: 0 <= i < |trace| - 1 ==> Leads(trace[i], trace[i + 1])
  }

  function Last(trace: seq<System>): System
    requires trace != []
  {
    trace[|trace| - 1]
  }

  lemma {:induction false} RunKeeps(trace: seq<System>)
    requires Run(trace)
    ensures JointInv(Last(trace))
  {
    if |trace| == 1 {
      StartHolds();
    } else {
      var before := trace[..|trace| - 1];
      assert forall i :: 0 <= i < |before| - 1 ==> Leads(before[i], before[i + 1]);
      RunKeeps(before);
      assert Leads(trace[|trace| - 2], trace[|trace| - 1]);
      var m :| CanMove(Last(before), m) && Last(trace) == After(Last(before), m);
      MoveKeeps(Last(before), m);
    }
  }

  // ---------------------------------------------------------------- who holds which id

  /** An unsubscribe for `x` is on its way to the bridge: its task has not run yet, or its request is
      in the channel. */
  ghost predicate UnsubscribeInFlight(s: System, x: Sid) {
    || (exists i :: 0 <= i < |s.client.spawned| && s.client.spawned[i].sid == x)
    || (exists i :: s.consumed <= i < |s.client.sent| && s.client.sent[i].Unsubscribe? && s.client.sent[i].sid == x)
  }

  ghost predicate TerminationInFlight(s: System, x: Sid) {
    exists i :: s.seen <= i < |s.bridge.posted| && s.bridge.posted[i] == TerminatedFrame(x)
  }

  /** A gathered unsubscribe of `x` was cancelled before it ran. */
  predicate LostUnsubscribe(s: System, x: Sid) {
    x in s.client.entries && s.client.entries[x].hold.Lost?
  }

  lemma ClaimedIdAccounted(s: System, x: Sid)
    requires Inv(s.client) && Knows(s) && Claims(s) && s.client.life.Open? && x in s.bridge.subs
    ensures x in s.client.entries
    ensures s.client.entries[x].state.Routed() || UnsubscribeInFlight(s, x) || LostUnsubscribe(s, x)
  {
    InvMeans(s.client);
    var c := s.client;
    var e := c.entries[x];
    assert ClaimRight(e, x, s.bridge, s.consumed);
    assert EntryRight(e, x in c.subs, c.streams[e.stream], c.futures, true);
    if !e.state.Routed() {
      assert !e.state.Terminated?;
      assert !Heard(e, c.futures, false);
      if e.hold.Queued? {
        assert x in QueuedSids(c.spawned);
      } else if e.hold.Told? {
        assert EntrySent(e, x, c.sent);
        assert s.consumed <= e.hold.at < |c.sent| && c.sent[e.hold.at].Unsubscribe?;
      }
    }
  }

  lemma ActiveHeard(c: Client, x: Sid)
    requires Inv(c) && x in c.entries && c.entries[x].state.Active?
    ensures Heard(c.entries[x], c.futures, true) && c.entries[x].hold.Held?
  {
    InvMeans(c);
    EntryOf(c, x);
  }

  lemma ActiveIdServed(s: System, x: Sid)
    requires Inv(s.client) && Knows(s) && Claims(s) && Owed(s) && s.bridge.open
    requires x in s.client.entries && s.client.entries[x].state.Active?
    ensures x in s.bridge.subs || TerminationInFlight(s, x)
  {
    hide Inv;
    ActiveHeard(s.client, x);
    var e := s.client.entries[x];
    assert Received(s, Response(e.asking.req, true));
    assert AckRight(e, x, s.bridge, s.consumed);
    forall i | 0 <= i < s.seen
      ensures s.bridge.posted[i] != TerminatedFrame(x)
    {
      assert s.bridge.posted[..s.seen][i] == s.bridge.posted[i];
    }
  }

  /** In every run, while the client's connection is open, every id that the bridge has claimed is
      still routed at the client (pending, active, doomed or zombie), or its unsubscribe is on the
      way, or that unsubscribe was cancelled before it ran. */
  lemma ClaimedIdsAccounted(trace: seq<System>)
    requires Run(trace) && Last(trace).client.life.Open?
    ensures var s := Last(trace);
      forall x :: x in s.bridge.subs ==>
        && x in s.client.entries
        && (s.client.entries[x].state.Routed() || UnsubscribeInFlight(s, x) || LostUnsubscribe(s, x))
  {
    var s := Last(trace);
    RunKeeps(trace);
    GoodMeans(s.client);
    LedgerMeans(s);
    forall x | x in s.bridge.subs
      ensures x in s.client.entries
      ensures s.client.entries[x].state.Routed() || UnsubscribeInFlight(s, x) || LostUnsubscribe(s, x)
    {
      ClaimedIdAccounted(s, x);
    }
  }

  /** In every run, while the bridge's side is open, every id that is active at the client is claimed
      at the bridge or its termination is on the way. */
  lemma ActiveIdsServed(trace: seq<System>)
    requires Run(trace) && Last(trace).bridge.open
    ensures var s := Last(trace);
      forall x :: x in s.client.entries && s.client.entries[x].state.Active? ==>
        x in s.bridge.subs || TerminationInFlight(s, x)
  {
    var s := Last(trace);
    RunKeeps(trace);
    GoodMeans(s.client);
    LedgerMeans(s);
    forall x | x in s.client.entries && s.client.entries[x].state.Active?
      ensures x in s.bridge.subs || TerminationInFlight(s, x)
    {
      ActiveIdServed(s, x);
    }
  }

  // ---------------------------------------------------------------- at rest

  /** Both channels are drained, no task waits to run and no request is outstanding. */
  predicate AtRest(s: System) {
    && s.client.life.Open? && s.bridge.open
    && s.consumed == |s.client.sent| && s.seen == |s.bridge.posted|
    && s.client.spawned == [] && s.client.waiting == map[]
  }

  function ActiveIds(c: Client): set<Sid> {
    set x | x in c.entries && c.entries[x].state.Active?
  }

  /** The ids whose gathered unsubscribe never ran and which the bridge did not terminate. */
  function Leaked(s: System): set<Sid> {
    set x | x in s.client.entries && s.client.entries[x].hold.Lost? && TerminatedFrame(x) !in s.bridge.posted
  }

  /** At rest an unsubscribed id that the bridge knows is either told or lost. */
  lemma RestingId(s: System, x: Sid)
    requires Inv(s.client) && Settled(s.client) && Knows(s) && Claims(s) && AtRest(s) && x in s.bridge.subs
    ensures x in ActiveIds(s.client) || x in Leaked(s)
  {
    InvMeans(s.client);
    var c := s.client;
    ClaimedIdAccounted(s, x);
    var e := c.entries[x];
    assert ClaimRight(e, x, s.bridge, s.consumed);
    assert EntryRight(e, x in c.subs, c.streams[e.stream], c.futures, true);
    assert TaskRight(c.streams[e.stream], e.stream, c.waiting, c.futures, c.entries);
    assert EntrySent(e, x, c.sent);
    assert x in QueuedSids(c.spawned) <==> e.hold.Queued?;
  }

  lemma RestingActive(s: System, x: Sid)
    requires Inv(s.client) && Knows(s) && Claims(s) && Owed(s) && AtRest(s)
    requires x in ActiveIds(s.client) || x in Leaked(s)
    ensures x in s.bridge.subs
  {
    InvMeans(s.client);
    var c := s.client;
    var e := c.entries[x];
    if x in ActiveIds(c) {
      ActiveIdServed(s, x);
    } else {
      assert EntryRight(e, x in c.subs, c.streams[e.stream], c.futures, true);
      assert Received(s, Response(e.asking.req, true));
      assert AckRight(e, x, s.bridge, s.consumed);
    }
  }

  /** In every run, once everything has settled on an open connection, the bridge's subscribers are
      exactly the client's active ids and the leaked ones. They are exactly the active ids if and
      only if every unsubscribe that was cancelled before it ran was for an id the bridge has since
      terminated. */
  lemma AtRestBridgeMatchesClient(trace: seq<System>)
    requires Run(trace) && AtRest(Last(trace))
    ensures var s := Last(trace);
      && s.bridge.subs.Keys == s.bridge.subscribers.Keys
      && s.bridge.subscribers.Keys == ActiveIds(s.client) + Leaked(s)
      && (s.bridge.subscribers.Keys == ActiveIds(s.client) <==>
           forall x :: LostUnsubscribe(s, x) ==> TerminatedFrame(x) in s.bridge.posted)
  {
    RunKeeps(trace);
    RestingShape(Last(trace));
    RestingSubs(Last(trace));
    LeakedNone(Last(trace));
  }

  lemma LeakedNone(s: System)
    requires forall x :: x in s.client.entries && s.client.entries[x].hold.Lost? ==> !s.client.entries[x].state.Active?
    ensures ActiveIds(s.client) + Leaked(s) == ActiveIds(s.client) <==>
      forall x :: LostUnsubscribe(s, x) ==> TerminatedFrame(x) in s.bridge.posted
  {
    if ActiveIds(s.client) + Leaked(s) == ActiveIds(s.client) {
      forall x | LostUnsubscribe(s, x)
        ensures TerminatedFrame(x) in s.bridge.posted
      {
        assert x in Leaked(s) ==> x in ActiveIds(s.client) + Leaked(s);
      }
    }
  }

  lemma RestingSubs(s: System)
    requires JointInv(s) && AtRest(s)
    ensures forall x :: x in s.bridge.subs <==> x in ActiveIds(s.client) || x in Leaked(s)
  {
    GoodMeans(s.client);
    LedgerMeans(s);
    hide Inv, Settled, Knows, Claims, Owed, Answers, AtRest, Ledger, ActiveIds, Leaked, Linked, Sent;
    forall x
      ensures x in s.bridge.subs <==> x in ActiveIds(s.client) || x in Leaked(s)
    {
      if x in s.bridge.subs {
        RestingId(s, x);
      }
      if x in ActiveIds(s.client) || x in Leaked(s) {
        RestingActive(s, x);
      }
    }
  }

  lemma RestingShape(s: System)
    requires JointInv(s)
    ensures s.bridge.subs == s.bridge.subscribers
    ensures forall x :: x in s.client.entries && s.client.entries[x].hold.Lost? ==> !s.client.entries[x].state.Active?
  {
    GoodMeans(s.client);
    InvMeans(s.client);
    LedgerMeans(s);
    LostNotActive(s.client);
  }

  lemma LostNotActive(c: Client)
    requires Tables(c) && EntriesRight(c)
    ensures forall x :: x in c.entries && c.entries[x].hold.Lost? ==> !c.entries[x].state.Active?
  {
  }

  // ---------------------------------------------------------------- over time

  /** What stays as it was from one moment of a client to any later one: the connection's life never
      goes back, a completed future keeps its outcome, an entry given up stays so, and what a stream
      pushed, handed out and ended with stays. */
  ghost predicate Lasts(c: Client, d: Client) {
    && c.life.Rank() <= d.life.Rank()
    && (c.hasCloseInfo ==> d.hasCloseInfo)
    && (forall id :: id in c.futures && !c.futures[id].Waiting? ==> id in d.futures && d.futures[id] == c.futures[id])
    && (forall x :: x in c.entries && Gone(c.entries[x].state) ==> x in d.entries && Gone(d.entries[x].state))
    && (forall s :: s in c.streams ==> s in d.streams && c.streams[s].queue.EvolvesTo(d.streams[s].queue))
  }

  lemma LastsOn(c: Client, d: Client, e: Client)
    requires Lasts(c, d) && Lasts(d, e)
    ensures Lasts(c, e)
  {
  }

  lemma MoveLasts(s: System, m: Move)
    requires JointInv(s) && CanMove(s, m)
    ensures Lasts(s.client, After(s, m).client)
  {
    hide Lasts, Good, Follows, Ledger, Knows;
    match m
    case ClientMove(step) =>
      StepGood(s.client, step);
      FollowsLasts(s.client, ClientState.Apply(s.client, step), Uncorrelated);
    case Deliver =>
      var d := DispatchTo(s);
      FollowsLasts(s.client, d, s.bridge.posted[s.seen]);
    case _ =>
      BridgeMoveKnows(s, m);
      LastsItself(s.client);
  }

  lemma LastsItself(c: Client)
    ensures Lasts(c, c)
  {
  }

  lemma FollowsLasts(c: Client, d: Client, news: Frame)
    requires Follows(c, d, news)
    ensures Lasts(c, d)
  {
    FollowsMeans(c, d, news);
    EvolvesMeans(c, d, news);
  }

  lemma {:induction false} RunLasts(trace: seq<System>, i: nat)
    requires Run(trace) && i < |trace|
    ensures Lasts(trace[i].client, Last(trace).client)
    decreases |trace|
  {
    if i < |trace| - 1 {
      var before := trace[..|trace| - 1];
      assert forall j :: 0 <= j < |before| - 1 ==> Leads(before[j], before[j + 1]);
      RunLasts(before, i);
      RunKeeps(before);
      assert Leads(trace[|trace| - 2], trace[|trace| - 1]);
      var m :| CanMove(Last(before), m) && Last(trace) == After(Last(before), m);
      MoveLasts(Last(before), m);
      LastsOn(trace[i].client, Last(before).client, Last(trace).client);
    }
  }

  /** Once the connection has gone nothing is pending and nothing is routed, now or later. */
  lemma NothingAfterDisconnect(trace: seq<System>, i: nat)
    requires Run(trace) && i < |trace| && trace[i].client.hasCloseInfo
    ensures var c := Last(trace).client; c.life.Closed? && c.pending == {} && c.subs == {}
  {
    RunLasts(trace, i);
    RunKeeps(trace);
    GoodMeans(Last(trace).client);
    InvMeans(Last(trace).client);
  }

  /** In every run each stream hands out, in order, a prefix of what was pushed to it, never holds
      more than its bound, and an ended one has no active entry. */
  lemma StreamsSound(trace: seq<System>, t: StreamId)
    requires Run(trace) && t in Last(trace).client.streams
    ensures var c := Last(trace).client; var q := c.streams[t].queue;
      && q.handed <= q.pushed && q.received == |q.handed| + |q.items|
      && (q.maxPending.Some? ==> |q.items| <= q.highWater <= q.maxPending.value)
      && (q.items != [] || q.Ended() ==> q.waiters == [])
      && (q.Ended() ==> forall x :: x in c.entries && c.entries[x].stream == t ==>
           !c.entries[x].state.Active? && !c.entries[x].state.Pending?)
  {
    RunKeeps(trace);
    var c := Last(trace).client;
    GoodMeans(c);
    InvMeans(c);
    assert c.streams[t].queue.Sound();
  }
}
