/** What a pump owes its callbacks (`src/logos_bridge/portal.py`, `_run`, `_deliver`, `_report_failure`, `_report`).

`Accounted` says, of one state, where each yielded item, the failure of the source and each callback's own failure is:
started, in hand, queued or still to be decided; and what has been queued once `_run` has come to its end or the
portal has stopped. Every thread's step keeps it. */
module PumpAccounts {
  import opened Wrappers
  import opened Pump
  import opened PumpRuns

  // ---------------------------------------------------------------- what is queued, in hand and started

  /** Reports of the source's failure among the jobs. */
  function ReportsIn(jobs: seq<Job>): nat {
    if jobs == [] then 0 else (if jobs[0].ReportFailure? then 1 else 0) + ReportsIn(jobs[1..])
  }

  /** Jobs that set `finished`. */
  function FinishesIn(jobs: seq<Job>): nat {
    if jobs == [] then 0 else (if jobs[0].SetFinished? then 1 else 0) + FinishesIn(jobs[1..])
  }

  /** Jobs that end the dispatch thread. */
  function StopsIn(jobs: seq<Job>): nat {
    if jobs == [] then 0 else (if jobs[0].Stop? then 1 else 0) + StopsIn(jobs[1..])
  }

  function ReportInHand(p: Place): nat {
    if (p.Taken? || p.Locked? || p.Cleared?) && p.job.ReportFailure? then 1 else 0
  }

  /** Error callbacks about the source. */
  function FailuresStarted(started: seq<Started>): nat {
    if started == [] then 0
    else FailuresStarted(started[..|started| - 1]) + if started[|started| - 1] == ErrorCallback(None) then 1 else 0
  }

  /** The items that error callbacks were about, in order. */
  function ErrorsStarted(started: seq<Started>): seq<nat> {
    if started == [] then []
    else
      var last := started[|started| - 1];
      ErrorsStarted(started[..|started| - 1]) + if last.ErrorCallback? && last.about.Some? then [last.about.value] else []
  }

  function RaisedNow(p: Place): seq<nat> {
    if p.Raised? then [p.item] else []
  }

  // ---------------------------------------------------------------- the account

  /** What the source yielded has been decided, but for the item it holds. */
  predicate ItemsRight(s: State) {
    !s.cancelled && !s.stopped ==> s.yielded == s.next + if s.source.Holding? then 1 else 0
  }

  /** Where the report of the source's failure is: not decided yet, queued, in hand or started. */
  function ReportsAnywhere(s: State): nat {
    (if s.source.Failing? then 1 else 0) + ReportsIn(s.queue) + ReportInHand(s.place) + FailuresStarted(s.started)
  }

  predicate FailureRight(s: State) {
    && (!s.failed ==> ReportsAnywhere(s) == 0)
    && ReportsAnywhere(s) <= 1
    && (s.failed && !s.cancelled && !s.stopped && s.hasErrorCallback ==> ReportsAnywhere(s) == 1)
    && (s.source.Waiting? || s.source.Holding? ==> !s.failed)
  }

  /** Every callback that raised has been reported, but for the one that has just raised. */
  predicate RaisedRight(s: State) {
    s.hasErrorCallback ==> ErrorsStarted(s.started) + RaisedNow(s.place) == s.raised
  }

  /** A job of this pump. */
  predicate Own(job: Job) {
    job.Deliver? || job.ReportFailure?
  }

  /** The dispatch thread is doing a job of this pump. */
  predicate Busy(p: Place) {
    p.Taken? || Critical(p)
  }

  /** `finished` is set, or about to be, exactly once the source has gone; unless the portal was stopped
      nothing of this pump is then left to do. */
  predicate FinishedRight(s: State) {
    && FinishesIn(s.queue) + (if s.finished then 1 else 0) == (if s.source.Gone? then 1 else 0)
    && NoneAfter(s.queue)
    && (s.finished && !s.stopped ==> !Busy(s.place) && NoneOwn(s.queue))
  }

  predicate NoneOwn(jobs: seq<Job>) {
    forall i :: 0 <= i < |jobs| ==> !Own(jobs[i])
  }

  /** Nothing of this pump is queued behind the job that sets `finished`. */
  predicate NoneAfter(jobs: seq<Job>) {
    forall i, j :: 0 <= i < j < |jobs| && jobs[i].SetFinished? ==> !Own(jobs[j])
  }

  /** A stopped portal's dispatch thread has ended or will, at the job that says so. */
  predicate StopRight(s: State) {
    StopsIn(s.queue) + (if s.place.Dead? then 1 else 0) == (if s.stopped then 1 else 0)
  }

  ghost predicate Accounted(s: State) {
    ItemsRight(s) && FailureRight(s) && RaisedRight(s) && FinishedRight(s) && StopRight(s)
  }

  // ---------------------------------------------------------------- lists

  lemma {:induction false} JobsPut(jobs: seq<Job>, job: Job)
    ensures ReportsIn(jobs + [job]) == ReportsIn(jobs) + if job.ReportFailure? then 1 else 0
    ensures FinishesIn(jobs + [job]) == FinishesIn(jobs) + if job.SetFinished? then 1 else 0
    ensures StopsIn(jobs + [job]) == StopsIn(jobs) + if job.Stop? then 1 else 0
  {
    if jobs == [] {
      assert jobs + [job] == [job];
      assert ReportsIn([job][1..]) == 0 && FinishesIn([job][1..]) == 0 && StopsIn([job][1..]) == 0;
    } else {
      assert (jobs + [job])[1..] == jobs[1..] + [job];
      JobsPut(jobs[1..], job);
    }
  }

  lemma {:induction false} NoFinish(jobs: seq<Job>, i: nat)
    requires i < |jobs| && jobs[i].SetFinished?
    ensures FinishesIn(jobs) > 0
  {
    if i > 0 {
      NoFinish(jobs[1..], i - 1);
    }
  }

  lemma StartedMore(started: seq<Started>, x: Started)
    ensures FailuresStarted(started + [x]) == FailuresStarted(started) + if x == ErrorCallback(None) then 1 else 0
    ensures ErrorsStarted(started + [x]) ==
      ErrorsStarted(started) + if x.ErrorCallback? && x.about.Some? then [x.about.value] else []
  {
    assert (started + [x])[..|started|] == started;
  }

  // ---------------------------------------------------------------- what the steps change

  /** The source, the queue and the callbacks started stay as they are. */
  predicate Same(s: State, d: State) {
    && d.hasErrorCallback == s.hasErrorCallback && d.finished == s.finished && d.stopped == s.stopped
    && d.queue == s.queue && d.source == s.source && d.next == s.next && d.started == s.started
    && d.yielded == s.yielded && d.failed == s.failed && (s.cancelled ==> d.cancelled)
  }

  lemma LeaveIs(s: State)
    ensures Same(s, Leave(s)) && Leave(s).place == Idle && Leave(s).raised == s.raised
  {
  }

  lemma ReportIs(s: State, about: Option<nat>)
    ensures var d := Report(s, about);
      && Same(s.(started := if s.hasErrorCallback then s.started + [ErrorCallback(about)] else s.started), d)
      && d.place == (if s.hasErrorCallback then InError(about) else Idle) && d.raised == s.raised
  {
    hide Leave, Same;
    LeaveIs(s);
    assert s.started == s.(started := s.started).started;
    SameSelf(s.(place := InError(about), started := s.started + [ErrorCallback(about)]), s.(started := s.started + [ErrorCallback(about)]));
  }

  lemma SameSelf(d: State, s: State)
    requires d == s.(place := d.place)
    ensures Same(s, d)
  {
  }

  lemma CancelSame(s: State, step: Step)
    requires Enabled(s, step) && OnCancel(step)
    ensures var d := Apply(s, step); Same(s, d) && d.place == s.place && d.raised == s.raised
  {
    hide Apply;
    CancelIs(s, step);
  }

  lemma CheckIs(s: State)
    requires Enabled(s, CheckCancelled)
    ensures var d := Apply(s, CheckCancelled);
      && Same(s, d) && d.raised == s.raised && d.place == if s.cancelled then Idle else Cleared(s.place.job)
  {
    hide Leave, Same;
    LeaveIs(s);
    SameSelf(s.(place := Cleared(s.place.job)), s);
  }

  lemma MovesOn(s: State, step: Step)
    requires Enabled(s, step)
    requires step.LockForJob? || step.CallbackReturns? || step.ErrorReturns? || step.OtherJobEnds?
    ensures var d := Apply(s, step);
      && Same(s, d) && d.raised == s.raised && d.place == if step.LockForJob? then Locked(s.place.job) else Idle
  {
    hide Apply;
    match step
    case LockForJob => LocksIs(s);
    case OtherJobEnds => EndsIs(s);
    case _ => ReturnsIs(s, step);
  }

  lemma LocksIs(s: State)
    requires Enabled(s, LockForJob)
    ensures var d := Apply(s, LockForJob); Same(s, d) && d.raised == s.raised && d.place == Locked(s.place.job)
  {
  }

  lemma EndsIs(s: State)
    requires Enabled(s, OtherJobEnds)
    ensures var d := Apply(s, OtherJobEnds); Same(s, d) && d.raised == s.raised && d.place == Idle
  {
  }

  lemma ReturnsIs(s: State, step: Step)
    requires Enabled(s, step) && (step.CallbackReturns? || step.ErrorReturns?)
    ensures var d := Apply(s, step); Same(s, d) && d.raised == s.raised && d.place == Idle
  {
    hide Leave, Same;
    LeaveIs(s);
  }

  /** Steps that start nothing, take no job and queue none. */
  predicate Still(step: Step) {
    step.LockForJob? || step.CheckCancelled? || step.CallbackReturns? || step.ErrorReturns? || step.OtherJobEnds? || OnCancel(step)
  }

  lemma StillIs(s: State, step: Step)
    requires Enabled(s, step) && Still(step)
    ensures var d := Apply(s, step);
      && Same(s, d) && d.raised == s.raised && (Busy(d.place) ==> Busy(s.place)) && d.place.Dead? == s.place.Dead? && RaisedNow(d.place) == RaisedNow(s.place)
      && ReportInHand(d.place) <= ReportInHand(s.place)
      && (d.cancelled || ReportInHand(d.place) == ReportInHand(s.place))
  {
    hide Apply, Same;
    if OnCancel(step) {
      CancelSame(s, step);
    } else if step.CheckCancelled? {
      CheckIs(s);
      CancelledStays(s);
    } else {
      MovesOn(s, step);
    }
  }

  lemma CancelledStays(s: State)
    requires Enabled(s, CheckCancelled)
    ensures Apply(s, CheckCancelled).cancelled == s.cancelled
  {
  }

  lemma RaiseIs(s: State)
    requires Enabled(s, CallbackRaises)
    ensures var d := Apply(s, CallbackRaises);
      Same(s, d) && d.place == Raised(s.place.item) && d.raised == s.raised + [s.place.item]
  {
  }

  lemma StartIs(s: State)
    requires Enabled(s, StartCallback) && s.place.job.Deliver?
    ensures var d := Apply(s, StartCallback); var x := s.place.job.item;
      Same(s.(started := s.started + [ItemCallback(x)]), d) && d.place == InCallback(x) && d.raised == s.raised
  {
  }

  lemma TakeIsAll(s: State)
    requires Enabled(s, TakeJob)
    ensures var d := Apply(s, TakeJob); var job := s.queue[0];
      && Same(s.(queue := s.queue[1..], finished := s.finished || job.SetFinished?), d) && d.raised == s.raised
      && d.place == Destination(job)
  {
  }

  lemma SourceIs(s: State, step: Step)
    requires Enabled(s, step) && (step.Yield? || step.SourceRaises? || step.SourceEnds? || step.TaskCancelled?)
    ensures var d := Apply(s, step);
      && Same(s.(source := d.source, yielded := d.yielded, failed := d.failed), d)
      && d.place == s.place && d.raised == s.raised && !d.source.Gone?
      && d.yielded == (if step.Yield? then s.yielded + 1 else s.yielded)
      && d.failed == (s.failed || step.SourceRaises?)
      && (d.source.Holding? <==> step.Yield? && !s.cancelled) && (d.source.Failing? <==> step.SourceRaises? && !s.cancelled)
      && !d.source.Waiting?
  {
    hide Leave, Report, Acquire, Release, Destination, Put;
    var d := Apply(s, step);
    assert d == s.(source := d.source, yielded := d.yielded, failed := d.failed);
  }

  lemma DecideIs(s: State)
    requires Enabled(s, Decide)
    ensures var d := Apply(s, Decide); var accepted := s.source.Holding? && !s.stopped;
      && Same(s.(source := if accepted then Waiting else Ending, queue := d.queue, next := if accepted then s.next + 1 else s.next), d)
      && d.place == s.place && d.raised == s.raised
      && d.queue == if s.stopped then s.queue else s.queue + [if s.source.Failing? then ReportFailure else Deliver(s.source.item)]
  {
    hide Apply;
    if s.source.Failing? {
      DecidesFailure(s);
    } else {
      DecidesItem(s);
    }
  }

  lemma DecidesFailure(s: State)
    requires Enabled(s, Decide) && s.source.Failing?
    ensures var d := Apply(s, Decide);
      && Same(s.(source := Ending, queue := d.queue), d) && d.place == s.place && d.raised == s.raised
      && d.queue == if s.stopped then s.queue else s.queue + [ReportFailure]
  {
  }

  lemma DecidesItem(s: State)
    requires Enabled(s, Decide) && s.source.Holding?
    ensures var d := Apply(s, Decide);
      && Same(s.(source := if s.stopped then Ending else Waiting, queue := d.queue, next := if s.stopped then s.next else s.next + 1), d)
      && d.place == s.place && d.raised == s.raised
      && d.queue == if s.stopped then s.queue else s.queue + [Deliver(s.source.item)]
  {
  }

  lemma QueuesIs(s: State, step: Step)
    requires Enabled(s, step) && (step.Dispatch? || step.Shutdown? || step.Enqueue?)
    ensures var d := Apply(s, step);
      && Same(s.(source := if step.Dispatch? then Gone else s.source, queue := d.queue, stopped := s.stopped || step.Shutdown?,
                 finished := s.finished || (step.Dispatch? && s.stopped)), d)
      && d.place == s.place && d.raised == s.raised
      && d.queue == if s.stopped then s.queue else s.queue + [if step.Dispatch? then SetFinished else if step.Shutdown? then Stop else Foreign]
  {
  }

  // ---------------------------------------------------------------- every step

  lemma SourceLeavesFlag(s: State, step: Step)
    requires Enabled(s, step) && (step.Yield? || step.SourceRaises? || step.SourceEnds? || step.TaskCancelled?)
    ensures Apply(s, step).cancelled == s.cancelled
  {
  }

  lemma ItemsKept(s: State, step: Step)
    requires ItemsRight(s) && Enabled(s, step)
    ensures ItemsRight(Apply(s, step))
  {
    hide Apply, ItemsRight, Same;
    match step
    case Decide => ItemsDecided(s);
    case TakeJob => TakeIsAll(s); SameItems(s, s.(queue := s.queue[1..], finished := s.finished || s.queue[0].SetFinished?), Apply(s, step));
    case CallbackRaises => RaiseIs(s); SameItems(s, s, Apply(s, step));
    case StartCallback => ItemsStart(s);
    case StartError => ItemsError(s);
    case _ =>
      if Still(step) {
        StillIs(s, step);
        SameItems(s, s, Apply(s, step));
      } else if step.Dispatch? || step.Shutdown? || step.Enqueue? {
        ItemsQueued(s, step);
      } else {
        ItemsSource(s, step);
      }
  }

  /** `e` is `s` but for the queue, what has started and where the dispatch thread is. */
  lemma SameItems(s: State, e: State, d: State)
    requires ItemsRight(s) && Same(e, d)
    requires e.cancelled == s.cancelled && e.stopped == s.stopped && e.yielded == s.yielded && e.next == s.next && e.source == s.source
    ensures ItemsRight(d)
  {
  }

  lemma ItemsDecided(s: State)
    requires ItemsRight(s) && Enabled(s, Decide)
    ensures ItemsRight(Apply(s, Decide))
  {
    hide Apply;
    DecideIs(s);
  }

  lemma ItemsQueued(s: State, step: Step)
    requires ItemsRight(s) && Enabled(s, step) && (step.Dispatch? || step.Shutdown? || step.Enqueue?)
    ensures ItemsRight(Apply(s, step))
  {
    hide Apply;
    QueuesIs(s, step);
  }

  lemma ItemsSource(s: State, step: Step)
    requires ItemsRight(s) && Enabled(s, step) && (step.Yield? || step.SourceRaises? || step.SourceEnds? || step.TaskCancelled?)
    ensures ItemsRight(Apply(s, step))
  {
    hide Apply;
    SourceIs(s, step);
    SourceLeavesFlag(s, step);
  }

  lemma ItemsStart(s: State)
    requires ItemsRight(s) && Enabled(s, StartCallback)
    ensures ItemsRight(Apply(s, StartCallback))
  {
    hide Apply;
    StartsIs(s);
  }

  lemma ItemsError(s: State)
    requires ItemsRight(s) && Enabled(s, StartError)
    ensures ItemsRight(Apply(s, StartError))
  {
    hide Apply;
    StartErrorIs(s);
  }

  /** The error callback about `about` has been started, or its failure logged. */
  predicate ReportsNow(s: State, d: State, about: Option<nat>) {
    && Same(s.(started := if s.hasErrorCallback then s.started + [ErrorCallback(about)] else s.started), d)
    && d.place == (if s.hasErrorCallback then InError(about) else Idle) && d.raised == s.raised
  }

  lemma StartErrorIs(s: State)
    requires Enabled(s, StartError)
    ensures ReportsNow(s, Apply(s, StartError), Some(s.place.item))
  {
    hide Report;
    ReportIs(s, Some(s.place.item));
  }

  lemma StartsIs(s: State)
    requires Enabled(s, StartCallback)
    ensures var d := Apply(s, StartCallback);
      if s.place.job.Deliver? then
        var x := s.place.job.item;
        Same(s.(started := s.started + [ItemCallback(x)]), d) && d.place == InCallback(x) && d.raised == s.raised
      else
        ReportsNow(s, d, None)
  {
    hide Report, ReportsNow;
    if s.place.job.Deliver? {
      StartIs(s);
    } else {
      ReportFailureIs(s);
    }
  }

  lemma ReportFailureIs(s: State)
    requires Enabled(s, StartCallback) && !s.place.job.Deliver?
    ensures ReportsNow(s, Apply(s, StartCallback), None)
  {
    hide Report;
    ReportIs(s, None);
  }

  lemma FailureKept(s: State, step: Step)
    requires FailureRight(s) && InOrder(s) && Enabled(s, step)
    ensures FailureRight(Apply(s, step))
  {
    hide FailureRight, Apply, InOrder;
    match step
    case Decide => FailureDecided(s);
    case Dispatch => FailureQueued(s, SetFinished, step);
    case Shutdown => FailureQueued(s, Stop, step);
    case Enqueue => FailureQueued(s, Foreign, step);
    case TakeJob => FailureTaken(s);
    case StartCallback => FailureReported(s);
    case StartError => FailureStartsOther(s);
    case CallbackRaises => FailureRaises(s);
    case _ =>
      if Still(step) {
        FailureStill(s, step);
      } else {
        FailureSource(s, step);
      }
  }

  lemma FailureDecided(s: State)
    requires FailureRight(s) && Enabled(s, Decide)
    ensures FailureRight(Apply(s, Decide))
  {
    hide Apply;
    DecideIs(s);
    if s.source.Holding? {
      JobsPut(s.queue, Deliver(s.source.item));
    } else {
      JobsPut(s.queue, ReportFailure);
    }
  }

  lemma FailureQueued(s: State, job: Job, step: Step)
    requires FailureRight(s) && Enabled(s, step)
    requires (step.Dispatch? && job.SetFinished?) || (step.Shutdown? && job.Stop?) || (step.Enqueue? && job.Foreign?)
    ensures FailureRight(Apply(s, step))
  {
    hide Apply;
    QueuesIs(s, step);
    JobsPut(s.queue, job);
  }

  lemma FailureTaken(s: State)
    requires FailureRight(s) && Enabled(s, TakeJob)
    ensures FailureRight(Apply(s, TakeJob))
  {
    hide Apply;
    TakeIsAll(s);
  }

  lemma FailureReported(s: State)
    requires FailureRight(s) && InOrder(s) && Enabled(s, StartCallback)
    ensures FailureRight(Apply(s, StartCallback))
  {
    hide Apply, FailuresStarted, ReportsIn, OrderRight, SourceRight;
    StartsIs(s);
    if s.place.job.Deliver? {
      StartedMore(s.started, ItemCallback(s.place.job.item));
    } else {
      StartedMore(s.started, ErrorCallback(None));
    }
  }

  lemma FailureStartsOther(s: State)
    requires FailureRight(s) && Enabled(s, StartError)
    ensures FailureRight(Apply(s, StartError))
  {
    hide Apply, FailuresStarted, ReportsIn;
    StartErrorIs(s);
    StartedMore(s.started, ErrorCallback(Some(s.place.item)));
  }

  lemma FailureRaises(s: State)
    requires FailureRight(s) && Enabled(s, CallbackRaises)
    ensures FailureRight(Apply(s, CallbackRaises))
  {
    hide Apply, FailuresStarted, ReportsIn;
    RaiseIs(s);
  }

  lemma FailureStill(s: State, step: Step)
    requires FailureRight(s) && Enabled(s, step) && Still(step)
    ensures FailureRight(Apply(s, step))
  {
    hide Apply, FailuresStarted, ReportsIn, ReportInHand;
    StillIs(s, step);
  }

  lemma FailureSource(s: State, step: Step)
    requires FailureRight(s) && Enabled(s, step) && (step.Yield? || step.SourceRaises? || step.SourceEnds? || step.TaskCancelled?)
    ensures FailureRight(Apply(s, step))
  {
    hide Apply, FailuresStarted, ReportsIn, ReportInHand;
    SourceIs(s, step);
  }

  lemma RaisedKept(s: State, step: Step)
    requires RaisedRight(s) && InOrder(s) && Enabled(s, step)
    ensures RaisedRight(Apply(s, step))
  {
    hide InOrder, Apply, RaisedRight;
    match step
    case StartCallback => RaisedStarts(s);
    case StartError => RaisedReported(s);
    case CallbackRaises => RaisedRaises(s);
    case _ => StartsNone(s, step); RaisedStays(s, Apply(s, step));
  }

  lemma RaisedStays(s: State, d: State)
    requires RaisedRight(s) && d.hasErrorCallback == s.hasErrorCallback && d.started == s.started && d.raised == s.raised
    requires RaisedNow(d.place) == RaisedNow(s.place)
    ensures RaisedRight(d)
  {
  }

  lemma StartsNone(s: State, step: Step)
    requires Enabled(s, step) && !step.StartCallback? && !step.StartError? && !step.CallbackRaises?
    ensures var d := Apply(s, step);
      && d.hasErrorCallback == s.hasErrorCallback && d.started == s.started && d.raised == s.raised
      && RaisedNow(d.place) == RaisedNow(s.place)
  {
    hide Apply;
    if OnLoop(step) {
      LoopIsAside(s, step);
    } else if step.TakeJob? {
      TakeIsAll(s);
    } else {
      StillIs(s, step);
    }
  }

  lemma RaisedReported(s: State)
    requires RaisedRight(s) && Enabled(s, StartError)
    ensures RaisedRight(Apply(s, StartError))
  {
    hide Apply, ErrorsStarted;
    StartErrorIs(s);
    StartedMore(s.started, ErrorCallback(Some(s.place.item)));
  }

  lemma RaisedRaises(s: State)
    requires RaisedRight(s) && Enabled(s, CallbackRaises)
    ensures RaisedRight(Apply(s, CallbackRaises))
  {
    hide Apply, ErrorsStarted;
    RaiseIs(s);
  }

  lemma RaisedStarts(s: State)
    requires RaisedRight(s) && InOrder(s) && Enabled(s, StartCallback)
    ensures RaisedRight(Apply(s, StartCallback))
  {
    hide Apply, ErrorsStarted, OrderRight, SourceRight;
    StartsIs(s);
    if s.place.job.Deliver? {
      StartedMore(s.started, ItemCallback(s.place.job.item));
    } else {
      StartedMore(s.started, ErrorCallback(None));
    }
  }

  lemma PutNoneAfter(jobs: seq<Job>, job: Job)
    requires NoneAfter(jobs) && (Own(job) ==> FinishesIn(jobs) == 0)
    ensures NoneAfter(jobs + [job])
    ensures FinishesIn(jobs + [job]) == FinishesIn(jobs) + if job.SetFinished? then 1 else 0
    ensures NoneOwn(jobs) && !Own(job) ==> NoneOwn(jobs + [job])
  {
    JobsPut(jobs, job);
    if Own(job) {
      forall i | 0 <= i < |jobs|
        ensures !jobs[i].SetFinished?
      {
        if jobs[i].SetFinished? {
          NoFinish(jobs, i);
        }
      }
    }
  }

  lemma FinishedDecided(s: State)
    requires FinishedRight(s) && Enabled(s, Decide)
    ensures FinishedRight(Apply(s, Decide))
  {
    hide NoneAfter, NoneOwn, Apply;
    DecideIs(s);
    PutNoneAfter(s.queue, ReportFailure);
    if s.source.Holding? {
      PutNoneAfter(s.queue, Deliver(s.source.item));
    }
  }

  lemma FinishedQueued(s: State, job: Job, step: Step)
    requires FinishedRight(s) && Enabled(s, step)
    requires (step.Dispatch? && job.SetFinished?) || (step.Shutdown? && job.Stop?) || (step.Enqueue? && job.Foreign?)
    ensures FinishedRight(Apply(s, step))
  {
    hide NoneAfter, NoneOwn, Apply;
    QueuesIs(s, step);
    PutNoneAfter(s.queue, job);
  }

  lemma FinishedTaken(s: State)
    requires FinishedRight(s) && Enabled(s, TakeJob)
    ensures FinishedRight(Apply(s, TakeJob))
  {
    hide Apply;
    TakeIsAll(s);
    assert NoneAfter(s.queue[1..]);
    assert s.queue[0].SetFinished? ==> NoneOwn(s.queue[1..]);
    assert NoneOwn(s.queue) ==> !Own(s.queue[0]) && NoneOwn(s.queue[1..]);
  }

  lemma FinishedStays(s: State, step: Step)
    requires FinishedRight(s) && Enabled(s, step) && !OnLoop(step) && !step.TakeJob?
    ensures FinishedRight(Apply(s, step))
  {
    hide NoneAfter, NoneOwn, Apply, FinishesIn;
    match step
    case StartCallback => StartsIs(s);
    case StartError => StartErrorIs(s);
    case CallbackRaises => RaiseIs(s);
    case _ => StillIs(s, step);
  }

  lemma FinishedSource(s: State, step: Step)
    requires FinishedRight(s) && Enabled(s, step)
    requires step.Yield? || step.SourceRaises? || step.SourceEnds? || step.TaskCancelled?
    ensures FinishedRight(Apply(s, step))
  {
    hide NoneAfter, NoneOwn, Apply, FinishesIn;
    SourceIs(s, step);
  }

  lemma FinishedKept(s: State, step: Step)
    requires FinishedRight(s) && Enabled(s, step)
    ensures FinishedRight(Apply(s, step))
  {
    hide FinishedRight, Apply;
    match step
    case Decide => FinishedDecided(s);
    case Dispatch => FinishedQueued(s, SetFinished, step);
    case Shutdown => FinishedQueued(s, Stop, step);
    case Enqueue => FinishedQueued(s, Foreign, step);
    case TakeJob => FinishedTaken(s);
    case _ =>
      if OnLoop(step) {
        FinishedSource(s, step);
      } else {
        FinishedStays(s, step);
      }
  }

  lemma StopKept(s: State, step: Step)
    requires StopRight(s) && Enabled(s, step)
    ensures StopRight(Apply(s, step))
  {
    hide Apply, StopRight;
    match step
    case Decide => StopQueued(s, step, if s.source.Failing? then ReportFailure else Deliver(s.source.item));
    case Dispatch => StopQueued(s, step, SetFinished);
    case Shutdown => StopQueued(s, step, Stop);
    case Enqueue => StopQueued(s, step, Foreign);
    case TakeJob => StopTaken(s);
    case _ => StopStays(s, step);
  }

  lemma StopQueued(s: State, step: Step, job: Job)
    requires StopRight(s) && Enabled(s, step)
    requires (step.Decide? && job == if s.source.Failing? then ReportFailure else Deliver(s.source.item))
      || (step.Dispatch? && job.SetFinished?) || (step.Shutdown? && job.Stop?) || (step.Enqueue? && job.Foreign?)
    ensures StopRight(Apply(s, step))
  {
    hide Apply;
    JobsPut(s.queue, job);
    if step.Decide? {
      DecideIs(s);
    } else {
      QueuesIs(s, step);
    }
  }

  lemma StopTaken(s: State)
    requires StopRight(s) && Enabled(s, TakeJob)
    ensures StopRight(Apply(s, TakeJob))
  {
    hide Apply;
    TakeIsAll(s);
  }

  lemma StopStays(s: State, step: Step)
    requires StopRight(s) && Enabled(s, step)
    requires !step.Decide? && !step.Dispatch? && !step.Shutdown? && !step.Enqueue? && !step.TakeJob?
    ensures StopRight(Apply(s, step))
  {
    hide Apply, StopRight;
    match step
    case StartCallback => StopStarts(s);
    case StartError => StopReports(s);
    case CallbackRaises => RaiseIs(s); SameStop(s, s, Apply(s, step));
    case _ =>
      if Still(step) {
        StopStill(s, step);
      } else {
        StopSource(s, step);
      }
  }

  lemma SameStop(s: State, e: State, d: State)
    requires StopRight(s) && Same(e, d) && e.queue == s.queue && e.stopped == s.stopped && d.place.Dead? == s.place.Dead?
    ensures StopRight(d)
  {
  }

  lemma StopStarts(s: State)
    requires StopRight(s) && Enabled(s, StartCallback)
    ensures StopRight(Apply(s, StartCallback))
  {
    hide Apply;
    StartsIs(s);
  }

  lemma StopReports(s: State)
    requires StopRight(s) && Enabled(s, StartError)
    ensures StopRight(Apply(s, StartError))
  {
    hide Apply;
    StartErrorIs(s);
  }

  lemma StopStill(s: State, step: Step)
    requires StopRight(s) && Enabled(s, step) && Still(step)
    ensures StopRight(Apply(s, step))
  {
    hide Apply;
    StillIs(s, step);
  }

  lemma StopSource(s: State, step: Step)
    requires StopRight(s) && Enabled(s, step) && (step.Yield? || step.SourceRaises? || step.SourceEnds? || step.TaskCancelled?)
    ensures StopRight(Apply(s, step))
  {
    hide Apply;
    SourceIs(s, step);
  }

  lemma StepAccounts(s: State, step: Step)
    requires Inv(s) && Accounted(s) && Enabled(s, step)
    ensures Accounted(Apply(s, step))
  {
    hide Apply, ItemsRight, FailureRight, RaisedRight, FinishedRight, StopRight;
    StopKept(s, step);
    ItemsKept(s, step);
    FailureKept(s, step);
    RaisedKept(s, step);
    FinishedKept(s, step);
  }

  // ---------------------------------------------------------------- every run

  lemma {:induction false} RunAccounts(trace: seq<State>, i: nat)
    requires Run(trace) && i < |trace|
    ensures Accounted(trace[i])
  {
    hide Inv, Apply, Enabled, Accounted;
    if i == 0 {
      NewAccounted(trace[0].hasErrorCallback);
    } else {
      RunAccounts(trace, i - 1);
      RunKeeps(trace, i - 1);
      assert Leads(trace[i - 1], trace[i - 1 + 1]);
      var step :| Enabled(trace[i - 1], step) && trace[i] == Apply(trace[i - 1], step);
      StepAccounts(trace[i - 1], step);
    }
  }

  lemma NewAccounted(hasErrorCallback: bool)
    ensures Accounted(New(hasErrorCallback))
  {
  }
}
