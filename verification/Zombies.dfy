/** Nothing is routed for nothing (`src/logos_bridge/client.py`). */
module Zombies {
  import opened Wrappers
  import opened EventStream
  import opened ClientState
  import opened ClientInvariant
  import opened ClientSteps
  import opened ClientRun
  import opened BridgeState
  import opened Joint
  import opened JointResults
  import opened EntrySteps
  import opened IdFates
  import opened ZombieSteps

  // ---------------------------------------------------------------- every run

  lemma {:induction false} RunParting(trace: seq<System>)
    requires Run(trace)
    ensures Partings(Last(trace).client)
  {
    hide After, CanMove, JointInv, Partings;
    if |trace| == 1 {
      NoneParting();
    } else {
      var last := |trace| - 1;
      var before := trace[..last];
      assert forall i :: 0 <= i < |before| - 1 ==> Leads(before[i], before[i + 1]);
      RunParting(before);
      RunKeeps(before);
      assert Leads(trace[last - 1], trace[last - 1 + 1]);
      var m :| CanMove(trace[last - 1], m) && trace[last] == After(trace[last - 1], m);
      MoveParts(trace[last - 1], m);
    }
  }

  lemma NoneParting()
    ensures Partings(Joint.Start.client)
  {
  }

  /** In every run, while the connection is open, an id kept as a zombie has its unsubscribe queued or under way. */
  lemma ZombiesPart(trace: seq<System>)
    requires Run(trace) && Last(trace).client.life.Open?
    ensures var c := Last(trace).client; forall x :: Kept(c, x) ==> Parting(c, x)
  {
    RunParting(trace);
  }

  /** In every run, once everything has settled on an open connection, the client routes exactly its active ids, and the
      bridge serves exactly those and the leaked ones. */
  lemma AtRestTablesAgree(trace: seq<System>)
    requires Run(trace) && AtRest(Last(trace))
    ensures var s := Last(trace);
      && s.client.subs == ActiveIds(s.client)
      && s.bridge.subscribers.Keys == s.client.subs + Leaked(s)
  {
    hide Good, Leads, Leaked;
    RunKeeps(trace);
    AtRestBridgeMatchesClient(trace);
    ZombiesPart(trace);
    RestingRoutes(Last(trace));
  }

  lemma RestingRoutes(s: System)
    requires JointInv(s) && AtRest(s) && forall x :: Kept(s.client, x) ==> Parting(s.client, x)
    ensures s.client.subs == ActiveIds(s.client)
  {
    var c := s.client;
    GoodMeans(c);
    forall x
      ensures x in c.subs <==> x in ActiveIds(c)
    {
      if x in c.entries {
        RestingEntry(c, x);
      }
      if x in c.subs {
        RoutedIn(c, x);
      }
    }
  }

  lemma RoutedIn(c: Client, x: Sid)
    requires Inv(c) && x in c.subs
    ensures x in c.entries
  {
    InvMeans(c);
  }

  lemma RestingEntry(c: Client, x: Sid)
    requires Inv(c) && Settled(c) && c.spawned == [] && c.waiting == map[] && x in c.entries && (Kept(c, x) ==> Parting(c, x))
    ensures x in c.subs <==> c.entries[x].state.Active?
  {
    InvMeans(c);
    var e := c.entries[x];
    assert EntryRight(e, x in c.subs, c.streams[e.stream], c.futures, c.life.Open?);
    assert TaskRight(c.streams[e.stream], e.stream, c.waiting, c.futures, c.entries);
    assert x in QueuedSids(c.spawned) <==> e.hold.Queued?;
  }
}
