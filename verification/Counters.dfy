/** What the client counts (`src/logos_bridge/client.py`). */
module Counters {
  import opened Wrappers
  import opened EventStream
  import opened ClientState
  import opened ClientInvariant
  import opened ClientRun
  import opened BridgeState
  import opened Joint
  import opened JointResults
  import opened CounterSteps

  // ---------------------------------------------------------------- every run

  /** What the client takes in from `a` to `b`, counted. */
  function Taken(a: System, b: System): Counts {
    if b.seen == a.seen + 1 && a.seen < |a.bridge.posted| then Counted(a.client, a.bridge.posted[a.seen]) else Counts(0, 0)
  }

  function AllTaken(trace: seq<System>): Counts {
    if |trace| <= 1 then Counts(0, 0)
    else Plus(AllTaken(trace[..|trace| - 1]), Taken(trace[|trace| - 2], trace[|trace| - 1]))
  }

  lemma MoveCounts(a: System, m: Move)
    requires JointInv(a) && CanMove(a, m)
    ensures CountsOf(After(a, m).client) == Plus(CountsOf(a.client), Taken(a, After(a, m)))
  {
    hide Dispatch, ClientState.Apply, Enabled, Knows, Ledger, Good, CountsOf, Counted;
    match m
    case ClientMove(step) => StepCounts(a.client, step);
    case Deliver => FrameCounts(a.client, a.bridge.posted[a.seen]);
    case _ => BridgeMoveKnows(a, m);
  }

  /** In every run the counters are the numbers of responses that came for no pending request and of events that
      came for no routed id. */
  lemma {:induction false} CountsExactly(trace: seq<System>)
    requires Run(trace)
    ensures CountsOf(Last(trace).client) == AllTaken(trace)
  {
    hide After, CanMove, JointInv, CountsOf, Taken, Plus;
    if |trace| == 1 {
      NothingCounted();
    } else {
      var last := |trace| - 1;
      var before := trace[..last];
      assert forall i :: 0 <= i < |before| - 1 ==> Leads(before[i], before[i + 1]);
      CountsExactly(before);
      RunKeeps(before);
      assert Leads(trace[last - 1], trace[last - 1 + 1]);
      var m :| CanMove(trace[last - 1], m) && trace[last] == After(trace[last - 1], m);
      MoveCounts(trace[last - 1], m);
    }
  }

  lemma NothingCounted()
    ensures CountsOf(Joint.Start.client) == Counts(0, 0)
  {
  }
}
