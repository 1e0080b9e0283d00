/** The pump and its portal as the object whose flags, lock and queue the threads share
(`src/logos_bridge/portal.py`). Each method is one thread's work between two accesses to that state,
and does what `Pump.Apply` says, so the runs of `PumpRuns` are runs of this object. */
module PumpHandle {
  import opened Wrappers
  import opened Pump

  class Handle {
    const hasErrorCallback: bool
    var cancelled: bool
    var finished: bool
    var stopped: bool
    var owner: Option<Thread>
    var depth: nat
    var queue: seq<Job>
    var source: Source
    var next: nat
    var place: Place
    var cancelling: map<Thread, Cancelling>
    ghost var started: seq<Started>
    ghost var returned: bool
    ghost var inside: bool
    ghost var yielded: nat
    ghost var failed: bool
    ghost var raised: seq<nat>

    ghost function View(): State
      reads this
    {
      State(hasErrorCallback, cancelled, finished, stopped, owner, depth, queue, source, next, place, cancelling, started,
            returned, inside, yielded, failed, raised)
    }

    constructor (hasErrorCallback: bool)
      ensures View() == New(hasErrorCallback) && Inv(View())
    {
      this.hasErrorCallback := hasErrorCallback;
      cancelled, finished, stopped := false, false, false;
      owner, depth, queue := None, 0, [];
      source, next, place, cancelling := Waiting, 0, Idle, map[];
      started, returned, inside := [], false, false;
      yielded, failed, raised := 0, false, [];
      new;
      NewIsRight(hasErrorCallback);
    }

    /** Every step keeps what holds of the pump. */
    lemma Keeps(step: Step)
      requires Enabled(View(), step)
      ensures Inv(View()) ==> Inv(Apply(View(), step))
    {
      if Inv(View()) {
        StepKeeps(View(), step);
      }
    }

    // ---------------------------------------------------------------- the lock

    method AcquireLock(t: Thread)
      requires owner == None || owner == Some(t)
      modifies this`owner, this`depth
      ensures View() == Acquire(old(View()), t)
    {
      owner := Some(t);
      depth := depth + 1;
    }

    method ReleaseLock()
      modifies this`owner, this`depth
      ensures View() == Release(old(View()))
    {
      if depth <= 1 {
        owner, depth := None, 0;
      } else {
        depth := depth - 1;
      }
    }

    // ---------------------------------------------------------------- the portal

    /** `dispatch`. */
    method DispatchJob(job: Job) returns (accepted: bool)
      modifies this`queue
      ensures View() == Put(old(View()), job) && accepted == !stopped
    {
      accepted := !stopped;
      if accepted {
        queue := queue + [job];
      }
    }

    method Shutdown()
      requires Enabled(View(), Step.Shutdown)
      modifies this`stopped, this`queue
      ensures View() == Apply(old(View()), Step.Shutdown)
      ensures Inv(old(View())) ==> Inv(View())
    {
      Keeps(Step.Shutdown);
      stopped := true;
      queue := queue + [Stop];
    }

    // ---------------------------------------------------------------- `_run`

    method SourceYields()
      requires Enabled(View(), Yield)
      modifies this`source, this`yielded
      ensures View() == Apply(old(View()), Yield)
      ensures Inv(old(View())) ==> Inv(View())
    {
      Keeps(Yield);
      yielded := yielded + 1;
      if cancelled {
        source := Ending;
        return;
      }
      source := Source.Holding(next);
    }

    method SourceFails()
      requires Enabled(View(), SourceRaises)
      modifies this`source, this`failed
      ensures View() == Apply(old(View()), SourceRaises)
      ensures Inv(old(View())) ==> Inv(View())
    {
      Keeps(SourceRaises);
      failed := true;
      source := if cancelled then Ending else Failing;
    }

    method DispatchItem()
      requires Enabled(View(), Decide)
      modifies this`source, this`next, this`queue
      ensures View() == Apply(old(View()), Decide)
      ensures Inv(old(View())) ==> Inv(View())
    {
      Keeps(Decide);
      if source.Failing? {
        var _ := DispatchJob(ReportFailure);
        source := Ending;
        return;
      }
      var accepted := DispatchJob(Job.Deliver(source.item));
      if accepted {
        source, next := Waiting, next + 1;
      } else {
        source := Ending;
      }
    }

    method FinishRun()
      requires Enabled(View(), Dispatch)
      modifies this`source, this`finished, this`queue
      ensures View() == Apply(old(View()), Dispatch)
      ensures Inv(old(View())) ==> Inv(View())
    {
      Keeps(Dispatch);
      var accepted := DispatchJob(SetFinished);
      if !accepted {
        finished := true;
      }
      source := Gone;
    }

    // ---------------------------------------------------------------- the dispatch thread

    method Take()
      requires Enabled(View(), TakeJob)
      modifies this`queue, this`place, this`finished
      ensures View() == Apply(old(View()), TakeJob)
      ensures Inv(old(View())) ==> Inv(View())
    {
      Keeps(TakeJob);
      var job := queue[0];
      queue := queue[1..];
      match job {
        case SetFinished => finished := true;
        case Foreign => place := Elsewhere;
        case Stop => place := Dead;
        case _ => place := Taken(job);
      }
    }

    method Enter()
      requires Enabled(View(), LockForJob)
      modifies this`owner, this`depth, this`place
      ensures View() == Apply(old(View()), LockForJob)
      ensures Inv(old(View())) ==> Inv(View())
    {
      Keeps(LockForJob);
      AcquireLock(DispatchThread);
      place := Locked(place.job);
    }

    method Leaves()
      modifies this`owner, this`depth, this`place, this`inside
      ensures View() == Leave(old(View()))
    {
      ReleaseLock();
      place, inside := Idle, false;
    }

    method Check()
      requires Enabled(View(), CheckCancelled)
      modifies this`owner, this`depth, this`place, this`inside
      ensures View() == Apply(old(View()), CheckCancelled)
      ensures Inv(old(View())) ==> Inv(View())
    {
      Keeps(CheckCancelled);
      if cancelled {
        Leaves();
        return;
      }
      place := Cleared(place.job);
    }

    method Start()
      requires Enabled(View(), StartCallback)
      modifies this`owner, this`depth, this`place, this`inside, this`started
      ensures View() == Apply(old(View()), StartCallback)
      ensures Inv(old(View())) ==> Inv(View())
    {
      Keeps(StartCallback);
      if place.job.Deliver? {
        started := started + [ItemCallback(place.job.item)];
        place := InCallback(place.job.item);
      } else {
        Report(None);
      }
    }

    /** `_report`. */
    method Report(about: Option<nat>)
      modifies this`owner, this`depth, this`place, this`inside, this`started
      ensures View() == Pump.Report(old(View()), about)
    {
      if !hasErrorCallback {
        Leaves();
        return;
      }
      started := started + [ErrorCallback(about)];
      place := InError(about);
    }

    /** A callback that raised. */
    method ReportRaised()
      requires Enabled(View(), StartError)
      modifies this`owner, this`depth, this`place, this`inside, this`started
      ensures View() == Apply(old(View()), StartError)
      ensures Inv(old(View())) ==> Inv(View())
    {
      Keeps(StartError);
      Report(Some(place.item));
    }

    // ---------------------------------------------------------------- `cancel`

    method Mark(t: Thread)
      requires Enabled(View(), MarkCancelled(t))
      modifies this`cancelled, this`cancelling
      ensures View() == Apply(old(View()), MarkCancelled(t))
      ensures Inv(old(View())) ==> Inv(View())
    {
      Keeps(MarkCancelled(t));
      cancelled := true;
      if !t.LoopThread? {
        cancelling := cancelling[t := Wants];
      }
    }

    method WaitForLock(t: Thread)
      requires Enabled(View(), AcquireForCancel(t))
      modifies this`owner, this`depth, this`cancelling
      ensures View() == Apply(old(View()), AcquireForCancel(t))
      ensures Inv(old(View())) ==> Inv(View())
    {
      Keeps(AcquireForCancel(t));
      AcquireLock(t);
      cancelling := cancelling[t := Has];
    }

    method Return(t: Thread)
      requires Enabled(View(), ReleaseAfterCancel(t))
      modifies this`owner, this`depth, this`cancelling, this`returned, this`inside
      ensures View() == Apply(old(View()), ReleaseAfterCancel(t))
      ensures Inv(old(View())) ==> Inv(View())
    {
      hide Inv, Leave, Put, Destination, Acquire;
      Keeps(ReleaseAfterCancel(t));
      ReleaseLock();
      cancelling := cancelling - {t};
      returned := true;
      inside := inside || (t.DispatchThread? && (place.InCallback? || place.InError?));
    }
  }
}
