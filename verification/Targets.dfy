/** Which event each id stands for (`src/logos_bridge/client.py`). */
module Targets {
  import opened Wrappers
  import opened EventStream
  import opened ClientState
  import opened ClientInvariant
  import opened ClientRun
  import opened BridgeState
  import opened Joint
  import opened JointResults
  import opened EntrySteps
  import opened IdFates

  // Over every run of `Joint`, the bridge (`src/logos_bridge/testing/_fake.py`, `_subscribe`) serves an id with the
  // target that `subscribe` was called with for it.

  ghost predicate TargetsAgree(c: Client, b: Bridge) {
    forall x :: x in b.subs ==> x in c.entries && b.subs[x] == c.entries[x].target
  }

  ghost predicate KeepTargets(c: Client, d: Client) {
    forall x :: x in c.entries ==> x in d.entries && d.entries[x].target == c.entries[x].target
  }

  lemma FollowsTargets(c: Client, d: Client, news: Frame)
    requires Follows(c, d, news)
    ensures KeepTargets(c, d)
    ensures forall s :: s in c.streams ==> s in d.streams && d.streams[s].queue.maxPending == c.streams[s].queue.maxPending
  {
    FollowsMeans(c, d, news);
    EvolvesMeans(c, d, news);
  }

  lemma MoveTargets(a: System, m: Move)
    requires JointInv(a) && CanMove(a, m)
    ensures KeepTargets(a.client, After(a, m).client)
    ensures forall s :: s in a.client.streams ==>
      s in After(a, m).client.streams && After(a, m).client.streams[s].queue.maxPending == a.client.streams[s].queue.maxPending
    ensures m.ClientMove? || m.Deliver? ==> After(a, m).bridge == a.bridge
  {
    hide Follows, Dispatch, ClientState.Apply, Enabled, Knows, Ledger;
    match m
    case ClientMove(step) =>
      StepGood(a.client, step);
      FollowsTargets(a.client, ClientState.Apply(a.client, step), News(step));
    case Deliver =>
      var e := DispatchTo(a);
      FollowsTargets(a.client, e, a.bridge.posted[a.seen]);
    case _ =>
      BridgeMoveKnows(a, m);
  }

  /** The bridge takes a subscribe request: it can only claim the id for the target that it was registered with. */
  lemma ConsumeTargets(a: System, permitted: bool, max: nat, fate: Fate)
    requires Linked(a.client) && a.bridge.subs == a.bridge.subscribers
    requires a.consumed < |a.client.sent| && TargetsAgree(a.client, a.bridge)
    ensures TargetsAgree(a.client, ConsumeNext(a, permitted, max, fate))
  {
    hide OnSubscribe;
    var r := a.client.sent[a.consumed];
    assert RequestRight(r, a.consumed, a.client.entries);
    if r.Subscribe? {
      assert EntrySent(a.client.entries[r.sid], r.sid, a.client.sent);
      SubscribeTargets(a.bridge, r.id, r.sid, r.target, a.consumed, permitted, max, fate);
    }
  }

  lemma SubscribeTargets(b: Bridge, id: ReqId, x: Sid, t: Target, at: nat, permitted: bool, max: nat, fate: Fate)
    requires b.subs == b.subscribers
    ensures var d := OnSubscribe(b, id, x, t, at, permitted, max, fate);
      forall y :: y in d.subs ==> (y in b.subs || y == x) && d.subs[y] == if y in b.subs then b.subs[y] else t
  {
    hide OnSubscribe;
    SubscribeExactly(b, id, x, t, at, permitted, max, fate);
  }

  lemma BridgeTargets(a: System, m: Move)
    requires Linked(a.client) && a.bridge.subs == a.bridge.subscribers && CanMove(a, m) && !m.ClientMove? && !m.Deliver? && TargetsAgree(a.client, a.bridge)
    ensures After(a, m).client == a.client && TargetsAgree(a.client, After(a, m).bridge)
  {
    hide ConsumeNext;
    if m.Consume? {
      ConsumeTargets(a, m.permitted, m.max, m.fate);
    }
  }

  lemma JointLinked(a: System)
    requires JointInv(a)
    ensures Linked(a.client) && a.bridge.subs == a.bridge.subscribers
  {
    LedgerMeans(a);
  }

  lemma AgreeOn(a: System, m: Move)
    requires JointInv(a) && CanMove(a, m) && TargetsAgree(a.client, a.bridge)
    ensures TargetsAgree(After(a, m).client, After(a, m).bridge)
  {
    hide After, CanMove, JointInv;
    MoveTargets(a, m);
    if !m.ClientMove? && !m.Deliver? {
      JointLinked(a);
      BridgeTargets(a, m);
    }
  }

  /** In every run the bridge serves each id with the target of the client's entry. */
  lemma {:induction false} ClaimedTargets(trace: seq<System>)
    requires Run(trace)
    ensures TargetsAgree(Last(trace).client, Last(trace).bridge)
  {
    hide After, CanMove, JointInv, TargetsAgree;
    if |trace| == 1 {
      NoneClaimed();
    } else {
      var last := |trace| - 1;
      var before := trace[..last];
      assert forall i :: 0 <= i < |before| - 1 ==> Leads(before[i], before[i + 1]);
      ClaimedTargets(before);
      RunKeeps(before);
      assert Leads(trace[last - 1], trace[last - 1 + 1]);
      var m :| CanMove(trace[last - 1], m) && trace[last] == After(trace[last - 1], m);
      AgreeOn(trace[last - 1], m);
    }
  }

  lemma NoneClaimed()
    ensures TargetsAgree(Joint.Start.client, Joint.Start.bridge)
  {
  }

  // ---------------------------------------------------------------- from the call on

  /** From here on: the entries' targets and the streams' bounds stay. */
  ghost predicate KeepsAsked(c: Client, d: Client) {
    && KeepTargets(c, d)
    && forall s :: s in c.streams ==> s in d.streams && d.streams[s].queue.maxPending == c.streams[s].queue.maxPending
  }

  lemma {:induction false} RunTargets(trace: seq<System>, i: nat)
    requires Run(trace) && i < |trace|
    ensures KeepsAsked(trace[i].client, Last(trace).client)
    decreases |trace|
  {
    hide After, CanMove, JointInv;
    if i < |trace| - 1 {
      var last := |trace| - 1;
      var before := trace[..last];
      assert forall j :: 0 <= j < |before| - 1 ==> Leads(before[j], before[j + 1]);
      RunTargets(before, i);
      RunKeeps(before);
      assert Leads(trace[last - 1], trace[last - 1 + 1]);
      var m :| CanMove(trace[last - 1], m) && trace[last] == After(trace[last - 1], m);
      MoveTargets(trace[last - 1], m);
    }
  }

  /** What `subscribe(targets, max_pending)` has registered, on an open connection: the stream with its bound, and
      for the `k`th target an id of its own. */
  ghost predicate Subscribed(c: Client, d: Client, targets: seq<Target>, maxPending: Option<nat>) {
    var s := c.nextStream;
    && s in d.streams && |d.streams[s].sids| == |targets| && d.streams[s].queue.maxPending == maxPending
    && (forall k :: 0 <= k < |targets| ==>
          var x := d.streams[s].sids[k];
          x !in c.entries && x in d.entries && d.entries[x].target == targets[k] && d.entries[x].stream == s)
    && (forall j, k :: 0 <= j < k < |targets| ==> d.streams[s].sids[j] != d.streams[s].sids[k])
  }

  lemma StartSubscribes(c: Client, targets: seq<Target>, maxPending: Option<nat>, refused: bool)
    requires Good(c) && c.life.Open? && targets != [] && ClientState.Enabled(c, ClientState.Start(targets, maxPending, refused))
    ensures Subscribed(c, ClientState.Apply(c, ClientState.Start(targets, maxPending, refused)), targets, maxPending)
  {
    hide Inv, Evolves, Registered;
    var d := ClientState.Apply(c, ClientState.Start(targets, maxPending, refused));
    GoodMeans(c);
    StepGood(c, ClientState.Start(targets, maxPending, refused));
    StartFates(c, targets, maxPending, refused);
    var m :| Registered(c, m, targets, maxPending) && Reaches(m, d, c.nextStream, 0, refused) && SameRow(m, d, c.nextStream);
    ReachesTargets(m, d, c.nextStream, refused);
    SubscribedFrom(c, m, d, targets, maxPending);
  }

  lemma ReachesTargets(c: Client, d: Client, s: StreamId, refused: bool)
    requires Reaches(c, d, s, 0, refused)
    ensures forall x :: x in c.entries ==>
      x in d.entries && d.entries[x].target == c.entries[x].target && d.entries[x].stream == c.entries[x].stream
  {
  }

  lemma SubscribedFrom(c: Client, m: Client, d: Client, targets: seq<Target>, maxPending: Option<nat>)
    requires Registered(c, m, targets, maxPending) && SameRow(m, d, c.nextStream)
    requires forall x :: x in m.entries ==>
      x in d.entries && d.entries[x].target == m.entries[x].target && d.entries[x].stream == m.entries[x].stream
    ensures Subscribed(c, d, targets, maxPending)
  {
    var s := c.nextStream;
    forall j, k | 0 <= j < k < |targets|
      ensures d.streams[s].sids[j] != d.streams[s].sids[k]
    {
      assert m.entries[m.streams[s].sids[j]].index == j;
      assert m.entries[m.streams[s].sids[k]].index == k;
    }
  }

  /** From the call of `subscribe` on, whatever happens: the stream keeps its bound and each of its ids its
      target, and if the bridge serves the id of the `k`th target, it serves it with that target. */
  lemma ServedAsAsked(trace: seq<System>, i: nat, targets: seq<Target>, maxPending: Option<nat>, refused: bool, k: nat)
    requires Run(trace) && i + 1 < |trace| && trace[i].client.life.Open?
    requires CanMove(trace[i], ClientMove(ClientState.Start(targets, maxPending, refused)))
    requires trace[i + 1] == After(trace[i], ClientMove(ClientState.Start(targets, maxPending, refused)))
    requires k < |targets|
    ensures var c, d, s := trace[i].client, trace[i + 1].client, trace[i].client.nextStream;
      && Subscribed(c, d, targets, maxPending)
      && var x, last := d.streams[s].sids[k], Last(trace);
         && s in last.client.streams && last.client.streams[s].queue.maxPending == maxPending
         && x in last.client.entries && last.client.entries[x].target == targets[k]
         && (x in last.bridge.subs ==> last.bridge.subs[x] == targets[k])
  {
    hide ClientState.Apply, Registered, Good, Enabled;
    var a, step := trace[i], ClientState.Start(targets, maxPending, refused);
    var before := trace[..i + 1];
    assert forall j :: 0 <= j < |before| - 1 ==> Leads(before[j], before[j + 1]) by {
      forall j | 0 <= j < |before| - 1
        ensures Leads(before[j], before[j + 1])
      {
        assert Leads(trace[j], trace[j + 1]);
      }
    }
    RunKeeps(before);
    StartMoves(a, step);
    StartSubscribes(a.client, targets, maxPending, refused);
    RunTargets(trace, i + 1);
    ClaimedTargets(trace);
  }

  lemma StartMoves(a: System, step: Step)
    requires JointInv(a) && CanMove(a, ClientMove(step))
    ensures Good(a.client) && Enabled(a.client, step) && After(a, ClientMove(step)).client == ClientState.Apply(a.client, step)
  {
    hide ClientState.Apply, Enabled;
  }
}
