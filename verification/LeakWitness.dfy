/** A run after which the bridge still serves an id that the client has given up
(`src/logos_bridge/client.py`, `_close_stream`).

A subscription is acknowledged, `unsubscribe()` ends its stream and creates the task that would tell the
bridge, and is cancelled before that task's first turn; both channels are then empty. */
module LeakWitness {
  import opened Wrappers
  import opened EventStream
  import opened ClientState
  import opened BridgeState
  import opened Joint
  import opened JointResults

  const TARGET := Target("m", "e")

  const OPENED := NewClient.(life := Open, hasSocket := true)

  /** The subscribe of id 1 has been sent as request 1. */
  const ASKED := OPENED.(
    nextReq := 2, nextSid := 2, nextStream := 1, pending := {1}, subs := {1},
    futures := map[1 := Waiting],
    waiting := map[1 := Subscriber(0, 0)],
    entries := map[1 := Entry(0, 0, TARGET, Pending, Asked(0, 1), Held)],
    streams := map[0 := StreamRow([1], NewQueue(None), Awaiting(0, 1))],
    sent := [Subscribe(1, 1, TARGET)])

  const ACKED := ASKED.(pending := {}, futures := map[1 := Answered(true)])

  const SUBSCRIBED := ACKED.(
    waiting := map[],
    entries := map[1 := Entry(0, 0, TARGET, Active, Asked(0, 1), Held)],
    streams := map[0 := StreamRow([1], NewQueue(None), Finished)])

  const CLOSING := SUBSCRIBED.(
    subs := {},
    entries := map[1 := Entry(0, 0, TARGET, Released, Asked(0, 1), Queued)],
    streams := map[0 := StreamRow([1], NewQueue(None).(end := Some(ByClient)), Finished)],
    spawned := [Spawn(1, false)])

  const CANCELLED := CLOSING.(
    entries := map[1 := Entry(0, 0, TARGET, Released, Asked(0, 1), Lost)],
    spawned := [])

  const SERVED := NewBridge.(
    subs := map[1 := TARGET], subscribers := map[1 := TARGET],
    posted := [Response(1, true)], answered := map[1 := 0])

  lemma Subscribes()
    ensures ClientState.Apply(OPENED, Step.Start([TARGET], None, false)) == ASKED
  {
    var c := NewStream(OPENED, [TARGET], None);
    assert SidRange(1, 1) == [1];
    assert c.entries == map[1 := Entry(0, 0, TARGET, Pending, NotAsked, Held)];
    assert c.streams == map[0 := StreamRow([1], NewQueue(None), Looping(0))];
    assert c.subs == {1};
    assert AtEntry(c, 0) && Current(c, 0) == 1;
    assert SubscribeLoop(c, 0, false) == SendSubscribe(c, 0);
    assert SendSubscribe(c, 0) == ASKED;
  }

  lemma Hears()
    ensures Dispatch(ASKED, Response(1, true)) == ACKED
  {
  }

  lemma Confirms()
    ensures Enabled(ACKED, Resume(1, false, false)) && ClientState.Apply(ACKED, Resume(1, false, false)) == SUBSCRIBED
  {
    var c1 := Unsuspend(ACKED, 1);
    assert c1 == ACKED.(waiting := map[], streams := map[0 := StreamRow([1], NewQueue(None), Resumed(0, 1))]);
    var c2 := Acked(c1, 0);
    assert c2.entries == SUBSCRIBED.entries;
    assert c2.streams == map[0 := StreamRow([1], NewQueue(None), Looping(1))];
    assert SubscribeLoop(c2, 0, false) == SetTask(c2, 0, Finished);
    assert SetTask(c2, 0, Finished).streams == SUBSCRIBED.streams;
  }

  lemma Unsubscribes()
    ensures ClientState.Apply(SUBSCRIBED, Close(0, false)) == CLOSING
  {
    var c1 := EndQueue(SUBSCRIBED, 0, ByClient);
    assert c1.streams == CLOSING.streams;
    var c2 := Detach(c1, 0);
    assert InState(c1, [1], Active) == {1};
    assert c2.entries == map[1 := Entry(0, 0, TARGET, Released, Asked(0, 1), Held)];
    assert c2.subs == {};
    assert LiveSids(c1, 0) == [1];
    assert SpawnAll(c2, [1], false).entries == CLOSING.entries;
    assert SpawnAll(c2, [1], false).spawned == CLOSING.spawned;
  }

  lemma Cancels()
    ensures ClientState.Apply(CLOSING, CancelTask(0)) == CANCELLED
  {
    assert CLOSING.spawned[..0] + CLOSING.spawned[1..] == [];
  }

  lemma Serves()
    ensures OnSubscribe(NewBridge, 1, 1, TARGET, 0, true, 1, Now(true)) == SERVED
  {
  }

  const RUN := [
    System(NewClient, NewBridge, 0, 0),
    System(NewClient.(life := Connecting), NewBridge, 0, 0),
    System(OPENED, NewBridge, 0, 0),
    System(ASKED, NewBridge, 0, 0),
    System(ASKED, SERVED, 1, 0),
    System(ACKED, SERVED, 1, 1),
    System(SUBSCRIBED, SERVED, 1, 1),
    System(CLOSING, SERVED, 1, 1),
    System(CANCELLED, SERVED, 1, 1)]

  lemma ClientLeads(c: Client, d: Client, b: Bridge, consumed: nat, seen: nat, step: Step)
    requires Enabled(c, step) && !step.Receive? && d == ClientState.Apply(c, step)
    ensures Leads(System(c, b, consumed, seen), System(d, b, consumed, seen))
  {
    assert CanMove(System(c, b, consumed, seen), ClientMove(step));
    assert After(System(c, b, consumed, seen), ClientMove(step)) == System(d, b, consumed, seen);
  }

  lemma Connects()
    ensures Leads(System(NewClient, NewBridge, 0, 0), System(NewClient.(life := Connecting), NewBridge, 0, 0))
    ensures Leads(System(NewClient.(life := Connecting), NewBridge, 0, 0), System(OPENED, NewBridge, 0, 0))
  {
    ClientLeads(NewClient, NewClient.(life := Connecting), NewBridge, 0, 0, SetLife(Connecting));
    ClientLeads(NewClient.(life := Connecting), OPENED, NewBridge, 0, 0, SetLife(Open));
  }

  lemma Asks()
    ensures Leads(System(OPENED, NewBridge, 0, 0), System(ASKED, NewBridge, 0, 0))
  {
    hide ClientState.Apply, Leads;
    Subscribes();
    ClientLeads(OPENED, ASKED, NewBridge, 0, 0, Step.Start([TARGET], None, false));
  }

  lemma Answers()
    ensures Leads(System(ASKED, NewBridge, 0, 0), System(ASKED, SERVED, 1, 0))
  {
    Serves();
    var s := System(ASKED, NewBridge, 0, 0);
    assert CanMove(s, Consume(true, 1, Now(true)));
    assert After(s, Consume(true, 1, Now(true))) == System(ASKED, SERVED, 1, 0);
  }

  lemma Delivers()
    ensures Leads(System(ASKED, SERVED, 1, 0), System(ACKED, SERVED, 1, 1))
  {
    Hears();
    var s := System(ASKED, SERVED, 1, 0);
    assert CanMove(s, Deliver);
    assert After(s, Deliver) == System(ACKED, SERVED, 1, 1);
  }

  lemma Goes()
    ensures Leads(System(ACKED, SERVED, 1, 1), System(SUBSCRIBED, SERVED, 1, 1))
  {
    hide ClientState.Apply, Enabled, Leads;
    Confirms();
    ClientLeads(ACKED, SUBSCRIBED, SERVED, 1, 1, Resume(1, false, false));
  }

  lemma Leaves()
    ensures Leads(System(SUBSCRIBED, SERVED, 1, 1), System(CLOSING, SERVED, 1, 1))
    ensures Leads(System(CLOSING, SERVED, 1, 1), System(CANCELLED, SERVED, 1, 1))
  {
    hide ClientState.Apply, Leads;
    Unsubscribes();
    ClientLeads(SUBSCRIBED, CLOSING, SERVED, 1, 1, Close(0, false));
    Cancels();
    ClientLeads(CLOSING, CANCELLED, SERVED, 1, 1, CancelTask(0));
  }

  lemma RunLeads(i: nat)
    requires i < |RUN| - 1
    ensures Leads(RUN[i], RUN[i + 1])
  {
    hide Leads;
    Connects();
    Asks();
    Answers();
    Delivers();
    Goes();
    Leaves();
    assert i == 0 || i == 1 || i == 2 || i == 3 || i == 4 || i == 5 || i == 6 || i == 7;
  }

  lemma EndsAtRest()
    ensures AtRest(RUN[8]) && RUN[8].bridge.subscribers.Keys == {1} && ActiveIds(RUN[8].client) == {}
  {
  }

  /** The bridge's subscribers and the client's active ids can differ for good: `unsubscribe()` gathers
      its requests (`src/logos_bridge/client.py`, `_close_stream`), and a task that is cancelled before
      its first turn never sends anything. No later step makes up for it; the id stays in the bridge's
      subscribers until the connection closes. */
  lemma GatheredUnsubscribeCanLeak()
    ensures Run(RUN) && AtRest(Last(RUN))
    ensures Last(RUN).bridge.subscribers.Keys == {1} && ActiveIds(Last(RUN).client) == {}
  {
    hide Leads, AtRest, ActiveIds;
    forall i | 0 <= i < |RUN| - 1
      ensures Leads(RUN[i], RUN[i + 1])
    {
      RunLeads(i);
    }
    EndsAtRest();
  }
}
