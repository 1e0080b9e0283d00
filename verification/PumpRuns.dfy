/** What holds in every run of a pump, and what `cancel` guarantees (`src/logos_bridge/portal.py`). */
module PumpRuns {
  import opened Wrappers
  import opened Pump

  ghost predicate Leads(s: State, d: State) {
    exists step :: Enabled(s, step) && d == Apply(s, step)
  }

  ghost predicate Run(trace: seq<State>) {
    && trace != [] && trace[0] == New(trace[0].hasErrorCallback)
    && forall i :: 0 <= i < |trace| - 1 ==> Leads(trace[i], trace[i + 1])
  }

  lemma {:induction false} RunKeeps(trace: seq<State>, i: nat)
    requires Run(trace) && i < |trace|
    ensures Inv(trace[i])
  {
    if i == 0 {
      NewIsRight(trace[0].hasErrorCallback);
    } else {
      RunKeeps(trace, i - 1);
      assert Leads(trace[i - 1], trace[i - 1 + 1]);
      var step :| Enabled(trace[i - 1], step) && trace[i] == Apply(trace[i - 1], step);
      StepKeeps(trace[i - 1], step);
    }
  }

  /** In every run the callback sees the items of the source in order and without a gap. */
  lemma CallbacksSeeAPrefix(trace: seq<State>, i: nat)
    requires Run(trace) && i < |trace|
    ensures var seen := ItemsStarted(trace[i].started); seen == UpTo(0, |seen|)
  {
    RunKeeps(trace, i);
    assert Look(0);
  }

  /** A callback of this pump is running, or is about to report its failure. */
  predicate Active(p: Place) {
    p.InCallback? || p.Raised? || p.InError?
  }

  /** The callback of an item is running, or has just raised. */
  predicate InItem(p: Place) {
    p.InCallback? || p.Raised?
  }

  predicate SameCallback(p: Place, q: Place) {
    p == q || (p.InCallback? && q == Raised(p.item))
  }

  /** What can have happened since `s`, in which some `cancel` had returned: nothing has been started,
      but for the error callback of a callback that was running then. */
  predicate OnlyItsError(s: State, d: State) {
    && d.returned && d.hasErrorCallback == s.hasErrorCallback
    && (|| (d.started == s.started && (Active(d.place) ==> SameCallback(s.place, d.place)))
        || (s.hasErrorCallback && InItem(s.place)
            && d.started == s.started + [ErrorCallback(Some(s.place.item))]
            && (Active(d.place) ==> d.place == InError(Some(s.place.item)))))
  }

  /** `e` may follow `d` without any callback having been started. */
  predicate StartsNothing(d: State, e: State) {
    && e.returned && e.started == d.started && e.hasErrorCallback == d.hasErrorCallback
    && (Active(e.place) ==> e.place == d.place || (d.place.InCallback? && e.place == Raised(d.place.item)))
  }

  lemma StillOnlyItsError(s: State, d: State, e: State)
    requires OnlyItsError(s, d) && StartsNothing(d, e)
    ensures OnlyItsError(s, e)
  {
  }

  lemma ReportOnlyItsError(s: State, d: State)
    requires OnlyItsError(s, d) && Enabled(d, StartError)
    ensures OnlyItsError(s, Apply(d, StartError))
  {
  }

  lemma CancelStartsNothing(d: State, step: Step)
    requires d.returned && Enabled(d, step) && OnCancel(step)
    ensures StartsNothing(d, Apply(d, step))
  {
    hide Apply;
    CancelIs(d, step);
  }

  /** Once some `cancel` has returned, the dispatch thread starts nothing but an error callback. */
  lemma DispatchStartsNothing(d: State, step: Step)
    requires d.returned && Quiet(d) && Enabled(d, step) && step != StartError && !OnLoop(step) && !OnCancel(step)
    ensures StartsNothing(d, Apply(d, step))
  {
  }

  lemma OnlyItsErrorOn(s: State, d: State, step: Step)
    requires OnlyItsError(s, d) && Quiet(d) && Enabled(d, step)
    ensures OnlyItsError(s, Apply(d, step))
  {
    if step == StartError {
      ReportOnlyItsError(s, d);
    } else {
      if OnLoop(step) {
        LoopIsAside(d, step);
      } else if OnCancel(step) {
        CancelStartsNothing(d, step);
      } else {
        DispatchStartsNothing(d, step);
      }
      hide Apply;
      StillOnlyItsError(s, d, Apply(d, step));
    }
  }

  lemma {:induction false} AfterCancel(trace: seq<State>, i: nat, j: nat)
    requires Run(trace) && i <= j < |trace| && trace[i].returned
    ensures OnlyItsError(trace[i], trace[j])
    decreases j
  {
    if i < j {
      AfterCancel(trace, i, j - 1);
      OnlyItsErrorNext(trace, trace[i], j - 1, j);
    }
  }

  lemma OnlyItsErrorNext(trace: seq<State>, s: State, j: nat, k: nat)
    requires Run(trace) && k == j + 1 && k < |trace| && OnlyItsError(s, trace[j])
    ensures OnlyItsError(s, trace[k])
  {
    RunKeeps(trace, j);
    OnlyItsErrorLeads(s, trace[j], trace[j + 1]);
  }

  lemma OnlyItsErrorLeads(s: State, d: State, e: State)
    requires OnlyItsError(s, d) && Inv(d) && Leads(d, e)
    ensures OnlyItsError(s, e)
  {
    hide Enabled, Apply, OnlyItsError;
    var step :| Enabled(d, step) && e == Apply(d, step);
    OnlyItsErrorOn(s, d, step);
  }

  /** Once `cancel` has returned on a thread other than the loop's, a callback is running only if it
      called `cancel` itself; no item callback ever starts again, and an error callback starts only for
      such a callback, at most once. */
  lemma CancelStopsCallbacks(trace: seq<State>, i: nat, j: nat)
    requires Run(trace) && i <= j < |trace| && trace[i].returned
    ensures Active(trace[i].place) ==> trace[i].inside
    ensures !Active(trace[i].place) ==> trace[j].started == trace[i].started && !Active(trace[j].place)
    ensures ItemsStarted(trace[j].started) == ItemsStarted(trace[i].started)
    ensures trace[j].started == trace[i].started || (
      && trace[i].hasErrorCallback && trace[i].inside && InItem(trace[i].place)
      && trace[j].started == trace[i].started + [ErrorCallback(Some(trace[i].place.item))])
  {
    RunKeeps(trace, i);
    AfterCancel(trace, i, j);
    if trace[j].started != trace[i].started {
      StartedPut(trace[i].started, ErrorCallback(Some(trace[i].place.item)));
    }
  }

  // ---------------------------------------------------------------- exactly when the promise holds

  function Play(s: State, steps: seq<Step>): Option<State>
    decreases |steps|
  {
    if steps == [] then Some(s)
    else if Enabled(s, steps[0]) then Play(Apply(s, steps[0]), steps[1..])
    else None
  }

  /** Whatever the threads do from here on, no callback starts. */
  ghost predicate StartsNoMore(s: State) {
    forall steps {:trigger Play(s, steps)} :: Play(s, steps).Some? ==> Play(s, steps).value.started == s.started
  }

  lemma {:induction false} PlayKeeps(s: State, d: State, steps: seq<Step>)
    requires OnlyItsError(s, d) && Inv(d) && Play(d, steps).Some?
    ensures OnlyItsError(s, Play(d, steps).value)
    decreases |steps|
  {
    hide OnlyItsError, Inv, Apply, Enabled;
    if steps != [] {
      PlayOne(d, steps);
      Quieted(d);
      OnlyItsErrorOn(s, d, steps[0]);
      StepKeeps(d, steps[0]);
      PlayKeeps(s, Apply(d, steps[0]), steps[1..]);
    }
  }

  lemma Quieted(s: State)
    requires Inv(s)
    ensures Quiet(s) && LockRight(s)
  {
  }

  lemma PlayOne(s: State, steps: seq<Step>)
    requires steps != []
    ensures Play(s, steps) == if Enabled(s, steps[0]) then Play(Apply(s, steps[0]), steps[1..]) else None
  {
  }

  lemma PlayLast(s: State, step: Step)
    requires Enabled(s, step)
    ensures Play(s, [step]) == Some(Apply(s, step))
  {
    PlayOne(s, [step]);
  }

  /** From `s` the steps lead on to the error callback of the item whose callback is running. */
  predicate LeadToItsError(s: State, steps: seq<Step>)
    requires InItem(s.place)
  {
    Play(s, steps).Some? && Play(s, steps).value.started == s.started + [ErrorCallback(Some(s.place.item))]
  }

  /** One step of the way there. */
  lemma OnTheWay(s: State, step: Step, rest: seq<Step>)
    requires InItem(s.place) && Enabled(s, step) && InItem(Apply(s, step).place) && Apply(s, step).place.item == s.place.item
    requires Apply(s, step).started == s.started && LeadToItsError(Apply(s, step), rest)
    ensures LeadToItsError(s, [step] + rest)
  {
    hide Apply, Enabled;
    PlayOne(s, [step] + rest);
    assert ([step] + rest)[1..] == rest;
  }

  lemma RaisedReports(s: State) returns (steps: seq<Step>)
    requires s.hasErrorCallback && s.place.Raised?
    ensures LeadToItsError(s, steps)
  {
    steps := [StartError];
    PlayLast(s, StartError);
  }

  lemma CallbackReports(s: State) returns (steps: seq<Step>)
    requires s.hasErrorCallback && s.place.InCallback? && DispatchThread !in s.cancelling
    ensures LeadToItsError(s, steps)
  {
    hide LeadToItsError;
    var rest := RaisedReports(Apply(s, CallbackRaises));
    OnTheWay(s, CallbackRaises, rest);
    steps := [CallbackRaises] + rest;
  }

  lemma ReturningReports(s: State) returns (steps: seq<Step>)
    requires s.hasErrorCallback && s.place.InCallback? && HasLock(s, DispatchThread)
    ensures LeadToItsError(s, steps)
  {
    hide LeadToItsError;
    var step := ReleaseAfterCancel(DispatchThread);
    var rest := CallbackReports(Apply(s, step));
    OnTheWay(s, step, rest);
    steps := [step] + rest;
  }

  lemma CancellingReports(s: State) returns (steps: seq<Step>)
    requires LockRight(s) && s.hasErrorCallback && s.place.InCallback? && DispatchThread in s.cancelling
    requires !HasLock(s, DispatchThread)
    ensures LeadToItsError(s, steps)
  {
    hide LeadToItsError;
    var step := AcquireForCancel(DispatchThread);
    var rest := ReturningReports(Apply(s, step));
    OnTheWay(s, step, rest);
    steps := [step] + rest;
  }

  /** A pump with an error callback can always go on from an item's callback to report its failure. */
  lemma ErrorCanStart(s: State) returns (steps: seq<Step>)
    requires Inv(s) && s.hasErrorCallback && InItem(s.place)
    ensures LeadToItsError(s, steps)
  {
    hide LeadToItsError, LockRight, InOrder;
    Quieted(s);
    if s.place.Raised? {
      steps := RaisedReports(s);
    } else if DispatchThread !in s.cancelling {
      steps := CallbackReports(s);
    } else if HasLock(s, DispatchThread) {
      steps := ReturningReports(s);
    } else {
      steps := CancellingReports(s);
    }
  }

  lemma StopsUnlessInside(s: State)
    requires Inv(s) && s.returned
    ensures StartsNoMore(s) <==> !(s.hasErrorCallback && InItem(s.place))
  {
    hide Inv;
    if s.hasErrorCallback && InItem(s.place) {
      var steps := ErrorCanStart(s);
      assert Play(s, steps).value.started != s.started;
    } else {
      forall steps | Play(s, steps).Some?
        ensures Play(s, steps).value.started == s.started
      {
        PlayKeeps(s, s, steps);
      }
    }
  }

  /** Once `cancel` has returned on a thread other than the loop's, no callback ever starts if and only
      if the pump has no error callback, or no item's callback, which has then called `cancel` itself,
      is running. */
  lemma CancelStopsExactly(trace: seq<State>, i: nat)
    requires Run(trace) && i < |trace| && trace[i].returned
    ensures StartsNoMore(trace[i]) <==> !(trace[i].hasErrorCallback && InItem(trace[i].place))
  {
    RunKeeps(trace, i);
    StopsUnlessInside(trace[i]);
  }

  /** The same for the caller: a call of `cancel` that returns on thread `t` stops all callbacks if and
      only if the pump has no error callback or the call was not made in an item's callback. */
  lemma ReturnStopsExactly(trace: seq<State>, i: nat, t: Thread)
    requires Run(trace) && i < |trace| && Enabled(trace[i], ReleaseAfterCancel(t))
    ensures StartsNoMore(Apply(trace[i], ReleaseAfterCancel(t))) <==>
      !(trace[i].hasErrorCallback && t.DispatchThread? && trace[i].place.InCallback?)
  {
    hide StartsNoMore, InOrder, Quiet;
    RunKeeps(trace, i);
    StepKeeps(trace[i], ReleaseAfterCancel(t));
    assert HasLock(trace[i], t);
    StopsUnlessInside(Apply(trace[i], ReleaseAfterCancel(t)));
  }

  // ---------------------------------------------------------------- a run that breaks it

  /** The callback of item 0 is running and has called `cancel`, which has returned. */
  const INSIDE := New(true).(
    cancelled := true, owner := Some(DispatchThread), depth := 1, next := 1, place := InCallback(0),
    started := [ItemCallback(0)], returned := true, inside := true, yielded := 1)

  const RUNNING := New(true).(
    owner := Some(DispatchThread), depth := 1, next := 1, place := InCallback(0), started := [ItemCallback(0)], yielded := 1)

  const REACH := [Yield, Decide, TakeJob, LockForJob, CheckCancelled, StartCallback]

  const CANCEL := [MarkCancelled(DispatchThread), AcquireForCancel(DispatchThread), ReleaseAfterCancel(DispatchThread)]

  const HOLDING := New(true).(source := Holding(0), yielded := 1)

  const QUEUED := New(true).(queue := [Deliver(0)], next := 1, yielded := 1)

  const TAKEN := New(true).(next := 1, place := Taken(Deliver(0)), yielded := 1)

  const LOCKED := TAKEN.(owner := Some(DispatchThread), depth := 1, place := Locked(Deliver(0)))

  const CLEARED := LOCKED.(place := Cleared(Deliver(0)))

  lemma SourceSteps()
    ensures Enabled(New(true), Yield) && Apply(New(true), Yield) == HOLDING
    ensures Enabled(HOLDING, Decide) && Apply(HOLDING, Decide) == QUEUED
  {
  }

  lemma TakeStep()
    ensures Enabled(QUEUED, TakeJob) && Apply(QUEUED, TakeJob) == TAKEN
  {
    hide Leave, Report, Put, Acquire;
  }

  lemma LockStep()
    ensures Enabled(TAKEN, LockForJob) && Apply(TAKEN, LockForJob) == LOCKED
  {
    hide Leave, Report, Put;
  }

  lemma CheckSteps()
    ensures Enabled(LOCKED, CheckCancelled) && Apply(LOCKED, CheckCancelled) == CLEARED
    ensures Enabled(CLEARED, StartCallback) && Apply(CLEARED, StartCallback) == RUNNING
  {
    hide Leave, Report, Put, Acquire;
  }

  lemma ReachesCallback()
    ensures Play(New(true), REACH) == Some(RUNNING)
  {
    hide Apply, Enabled, Play, HOLDING, QUEUED, TAKEN, LOCKED, CLEARED, RUNNING;
    SourceSteps();
    TakeStep();
    LockStep();
    CheckSteps();
    PlayLast(CLEARED, StartCallback);
    PlayOne(LOCKED, REACH[4..]);
    PlayOne(TAKEN, REACH[3..]);
    PlayOne(QUEUED, REACH[2..]);
    PlayOne(HOLDING, REACH[1..]);
    PlayOne(New(true), REACH);
  }

  lemma CancelsInside()
    ensures Play(RUNNING, CANCEL) == Some(INSIDE)
  {
    var t := DispatchThread;
    var s1 := RUNNING.(cancelled := true, cancelling := map[t := Wants]);
    assert Apply(RUNNING, MarkCancelled(t)) == s1;
    var s2 := s1.(depth := 2, cancelling := map[t := Has]);
    assert Apply(s1, AcquireForCancel(t)) == s2;
    assert s2.cancelling - {t} == map[];
    assert Apply(s2, ReleaseAfterCancel(t)) == INSIDE;
    PlayLast(s2, ReleaseAfterCancel(t));
    PlayOne(s1, CANCEL[1..]);
    PlayOne(RUNNING, CANCEL);
  }

  lemma {:induction false} PlayOn(s: State, a: seq<Step>, b: seq<Step>)
    requires Play(s, a).Some?
    ensures Play(s, a + b) == Play(Play(s, a).value, b)
    decreases |a|
  {
    if a == [] {
      assert a + b == b;
    } else {
      PlayOn(Apply(s, a[0]), a[1..], b);
      assert (a + b)[0] == a[0] && (a + b)[1..] == a[1..] + b;
    }
  }

  lemma ReachesInside()
    ensures Play(New(true), REACH + CANCEL) == Some(INSIDE)
  {
    ReachesCallback();
    PlayOn(New(true), REACH, CANCEL);
    CancelsInside();
  }

  /** The exception does happen: from a new pump, a callback that calls `cancel` and then raises has its
      error reported to `error_callback` after `cancel` has returned. */
  lemma ErrorCallbackAfterCancel()
    ensures Play(New(true), REACH + CANCEL).Some? && Play(New(true), REACH + CANCEL).value.returned
    ensures var steps := REACH + CANCEL + [CallbackRaises, StartError];
      && Play(New(true), steps).Some?
      && Play(New(true), steps).value.started == Play(New(true), REACH + CANCEL).value.started + [ErrorCallback(Some(0))]
  {
    ReachesInside();
    PlayOn(New(true), REACH + CANCEL, [CallbackRaises, StartError]);
    PlayOne(INSIDE, [CallbackRaises, StartError]);
    PlayLast(INSIDE.(place := Raised(0), raised := [0]), StartError);
  }
}
