/** Every item and every failure reaches its callback (`src/logos_bridge/portal.py`). */
module PumpReports {
  import opened Wrappers
  import opened Pump
  import opened PumpRuns
  import opened PumpAccounts

  // ---------------------------------------------------------------- every run

  /** The item that the source has yielded and `_run` has not dispatched yet. */
  function Undecided(source: Source): seq<nat> {
    if source.Holding? then [source.item] else []
  }

  /** In every run in which the pump has been neither cancelled nor stopped, every item that the source
      has yielded, in order and once, has been started, is in hand, is queued or is about to be. */
  lemma NoItemIsLost(trace: seq<State>, i: nat)
    requires Run(trace) && i < |trace| && !trace[i].cancelled && !trace[i].stopped
    ensures var s := trace[i];
      ItemsStarted(s.started) + InHand(s.place) + ItemsOf(s.queue) + Undecided(s.source) == UpTo(0, s.yielded)
  {
    var s := trace[i];
    RunKeeps(trace, i);
    RunAccounts(trace, i);
    assert Look(0);
    assert s.source.Holding? ==> UpTo(0, s.next) + [s.next] == UpTo(0, s.next + 1);
  }

  /** In every run in which the source has failed and the pump has been neither cancelled nor stopped,
      the failure is reported once: the error callback has started, or its job is in hand, queued or about to be. */
  lemma FailureIsReported(trace: seq<State>, i: nat)
    requires Run(trace) && i < |trace| && trace[i].hasErrorCallback && !trace[i].cancelled && !trace[i].stopped
    ensures ReportsAnywhere(trace[i]) == if trace[i].failed then 1 else 0
    ensures trace[i].failed ==>
      || ErrorCallback(None) in trace[i].started
      || ReportFailure in trace[i].queue || ReportInHand(trace[i].place) == 1
      || trace[i].source.Failing?
  {
    RunAccounts(trace, i);
    var s := trace[i];
    if FailuresStarted(s.started) > 0 {
      StartedHas(s.started);
    }
    if ReportsIn(s.queue) > 0 {
      QueueHas(s.queue);
    }
  }

  lemma {:induction false} StartedHas(started: seq<Started>)
    requires FailuresStarted(started) > 0
    ensures ErrorCallback(None) in started
  {
    if started[|started| - 1] != ErrorCallback(None) {
      StartedHas(started[..|started| - 1]);
    }
  }

  lemma {:induction false} QueueHas(jobs: seq<Job>)
    requires ReportsIn(jobs) > 0
    ensures ReportFailure in jobs
  {
    if !jobs[0].ReportFailure? {
      QueueHas(jobs[1..]);
    }
  }

  /** In every run, cancelled or not, each callback that raised is reported, once and in order, but for
      one that has just raised. */
  lemma RaisedAreReported(trace: seq<State>, i: nat)
    requires Run(trace) && i < |trace| && trace[i].hasErrorCallback
    ensures ErrorsStarted(trace[i].started) + RaisedNow(trace[i].place) == trace[i].raised
  {
    RunAccounts(trace, i);
  }

  /** In every run `finished` is set, or the job that sets it is queued, exactly when `_run` has come to
      its end; unless the portal was stopped no callback of this pump is then queued, in hand or running. */
  lemma FinishedMeansDone(trace: seq<State>, i: nat)
    requires Run(trace) && i < |trace|
    ensures trace[i].finished ==> trace[i].source.Gone?
    ensures trace[i].source.Gone? ==> trace[i].finished || SetFinished in trace[i].queue
    ensures trace[i].finished && !trace[i].stopped ==> NoneOwn(trace[i].queue) && !Busy(trace[i].place)
  {
    RunAccounts(trace, i);
    if trace[i].source.Gone? && !trace[i].finished {
      FinishHas(trace[i].queue);
    }
  }

  /** In every run a stopped portal's dispatch thread has ended, or the job that ends it is queued, once. */
  lemma StopEndsDispatch(trace: seq<State>, i: nat)
    requires Run(trace) && i < |trace|
    ensures trace[i].stopped <==> trace[i].place.Dead? || Stop in trace[i].queue
  {
    RunAccounts(trace, i);
    if trace[i].stopped && !trace[i].place.Dead? {
      StopHas(trace[i].queue);
    }
    if Stop in trace[i].queue {
      HasStop(trace[i].queue);
    }
  }

  lemma {:induction false} StopHas(jobs: seq<Job>)
    requires StopsIn(jobs) > 0
    ensures Stop in jobs
  {
    if !jobs[0].Stop? {
      StopHas(jobs[1..]);
    }
  }

  lemma {:induction false} HasStop(jobs: seq<Job>)
    requires Stop in jobs
    ensures StopsIn(jobs) > 0
  {
    if !jobs[0].Stop? {
      HasStop(jobs[1..]);
    }
  }

  lemma {:induction false} FinishHas(jobs: seq<Job>)
    requires FinishesIn(jobs) > 0
    ensures SetFinished in jobs
  {
    if !jobs[0].SetFinished? {
      FinishHas(jobs[1..]);
    }
  }
}
