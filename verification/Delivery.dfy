/** What reaches a subscriber, and why it ends (`src/logos_bridge/client.py`). */
module Delivery {
  import opened Wrappers
  import opened EventStream
  import opened ClientState
  import opened ClientInvariant
  import opened ClientSteps
  import opened ClientRun
  import opened BridgeState
  import opened Joint
  import opened JointResults
  import opened Feeds

  // ---------------------------------------------------------------- every run

  /** What a whole run has brought it. */
  function Delivered(trace: seq<System>, s: StreamId): seq<EventStream.Event> {
    if |trace| <= 1 then []
    else
      var last := |trace| - 1;
      Delivered(trace[..last], s) + Brought(trace[last - 1], trace[last], s)
  }

  /** In every run each stream has been pushed exactly what the run has delivered to it. */
  lemma {:induction false} FedExactly(trace: seq<System>, s: StreamId)
    requires Run(trace)
    ensures s in Last(trace).client.streams ==> Last(trace).client.streams[s].queue.pushed == Delivered(trace, s)
    ensures s !in Last(trace).client.streams ==> Delivered(trace, s) == []
    decreases |trace|
  {
    hide After, CanMove, Brought, JointInv;
    if |trace| > 1 {
      var last := |trace| - 1;
      var before := trace[..last];
      assert forall i :: 0 <= i < |before| - 1 ==> Leads(before[i], before[i + 1]);
      FedExactly(before, s);
      RunKeeps(before);
      assert Leads(trace[last - 1], trace[last - 1 + 1]);
      var m :| CanMove(trace[last - 1], m) && trace[last] == After(trace[last - 1], m);
      MoveFeeds(trace[last - 1], m, s);
    }
  }

  // ---------------------------------------------------------------- as a part of what was sent

  /** In every run, what each stream has been pushed is, in order, event frames that the bridge has
      sent for its own ids, each once. */
  lemma {:induction false} FedInOrder(trace: seq<System>, s: StreamId) returns (at: seq<nat>)
    requires Run(trace) && s in Last(trace).client.streams
    ensures StandsAt(Last(trace), s, at)
    decreases |trace|
  {
    hide After, CanMove, StandsAt, JointInv;
    if |trace| == 1 {
      at := [];
      FirstHasNone(trace, s);
    } else {
      var last := |trace| - 1;
      var before := trace[..last];
      assert forall i :: 0 <= i < |before| - 1 ==> Leads(before[i], before[i + 1]);
      RunKeeps(before);
      assert Leads(trace[last - 1], trace[last - 1 + 1]);
      var m :| CanMove(trace[last - 1], m) && trace[last] == After(trace[last - 1], m);
      if s in trace[last - 1].client.streams {
        at := FedInOrder(before, s);
        at := TakenMore(trace[last - 1], m, s, at);
      } else {
        at := [];
        MoveFeeds(trace[last - 1], m, s);
        NothingTaken(trace[last], s);
      }
    }
  }

  lemma FirstHasNone(trace: seq<System>, s: StreamId)
    requires Run(trace) && |trace| == 1
    ensures s !in Last(trace).client.streams
  {
  }

  lemma NothingTaken(a: System, s: StreamId)
    requires s in a.client.streams && a.client.streams[s].queue.pushed == []
    ensures StandsAt(a, s, [])
  {
  }

  // ---------------------------------------------------------------- why a stream ended

  /** In every run a stream that has ended was ended, once, by what its cause says: its client, an event that
      found it full, a termination of one of its ids, or the disconnect. */
  lemma {:induction false} EndExplained(trace: seq<System>, s: StreamId, cause: Cause) returns (j: nat)
    requires Run(trace) && EndedBy(Last(trace).client, s, cause)
    ensures j < |trace| - 1 && Explains(trace[j], trace[j + 1], s, cause)
    ensures !(s in trace[j].client.streams && trace[j].client.streams[s].queue.Ended())
    decreases |trace|
  {
    hide After, CanMove, Explains, JointInv;
    if |trace| == 1 {
      FirstHasNone(trace, s);
    } else {
      var last := |trace| - 1;
      var before := trace[..last];
      assert forall i :: 0 <= i < |before| - 1 ==> Leads(before[i], before[i + 1]);
      RunKeeps(before);
      assert Leads(trace[last - 1], trace[last - 1 + 1]);
      var m :| CanMove(trace[last - 1], m) && trace[last] == After(trace[last - 1], m);
      if EndedBy(trace[last - 1].client, s, cause) {
        j := EndExplained(before, s, cause);
      } else {
        j := last - 1;
        MoveExplains(trace[last - 1], m, s, cause);
      }
    }
  }
}
