/** A pump's callbacks and its `cancel`, over the portal's two threads and any others
(`src/logos_bridge/portal.py`, `PumpHandle`, `_PortalCore.dispatch`, `_run_dispatch`). A step is what one
thread does between two accesses to the lock, the flag or the queue of jobs; `started` records every
callback that has started. */
module Pump {
  import opened Wrappers

  datatype Thread = LoopThread | DispatchThread | OtherThread(id: nat)

  /** `Foreign` is a job of some other pump or caller; `Stop` ends the dispatch thread. */
  datatype Job = Deliver(item: nat) | ReportFailure | SetFinished | Foreign | Stop

  /** What runs under `_run`: waiting for the source, holding an item it may still dispatch, or gone. */
  datatype Source = Waiting | Holding(item: nat) | Failing | Ending | Gone

  /** Where the dispatch thread is. `Cleared` has found the pump not cancelled; `Raised` is a callback
      that raised, before `error_callback` is called. */
  datatype Place =
    | Idle
    | Taken(job: Job)
    | Locked(job: Job)
    | Cleared(job: Job)
    | InCallback(item: nat)
    | Raised(item: nat)
    | InError(about: Option<nat>)
    | Elsewhere
    | Dead

  /** A call of `cancel` that has marked the pump and wants the lock, or has it. */
  datatype Cancelling = Wants | Has

  /** A callback that has been started; an error callback says about which item, if any. */
  datatype Started = ItemCallback(item: nat) | ErrorCallback(about: Option<nat>)

  /** `hasErrorCallback` is fixed when the pump is made. */
  datatype State = State(
    hasErrorCallback: bool,
    cancelled: bool,
    finished: bool,
    stopped: bool,
    owner: Option<Thread>,
    depth: nat,
    queue: seq<Job>,
    source: Source,
    next: nat,
    place: Place,
    cancelling: map<Thread, Cancelling>,
    // History: the callbacks started, whether some `cancel` has returned on a thread other than the
    // loop's, and whether one has returned inside the callback that is running; how many items the source
    // has yielded, whether it has raised, and the items whose callback has raised.
    started: seq<Started>,
    returned: bool,
    inside: bool,
    yielded: nat,
    failed: bool,
    raised: seq<nat>)

  function New(hasErrorCallback: bool): State {
    State(hasErrorCallback, false, false, false, None, 0, [], Waiting, 0, Idle, map[], [], false, false, 0, false, [])
  }

  // ---------------------------------------------------------------- steps

  /** What one thread does between two accesses to shared state. The n-th item of the source is the
      number n. */
  datatype Step =
    | Yield | SourceRaises | SourceEnds | TaskCancelled
    | Decide | Dispatch
    | Shutdown | Enqueue
    | TakeJob | LockForJob | CheckCancelled | StartCallback | CallbackReturns | CallbackRaises
    | StartError | ErrorReturns | OtherJobEnds
    | MarkCancelled(thread: Thread) | AcquireForCancel(thread: Thread) | ReleaseAfterCancel(thread: Thread)

  /** The dispatch thread runs user code: ours, or some other job's. */
  predicate RunsUserCode(p: Place) {
    p.InCallback? || p.InError? || p.Elsewhere?
  }

  predicate Free(s: State, t: Thread) {
    s.owner == None || s.owner == Some(t)
  }

  predicate Enabled(s: State, step: Step) {
    match step
    case Yield => s.source.Waiting?
    case SourceRaises => s.source.Waiting?
    case SourceEnds => s.source.Waiting?
    case TaskCancelled => s.source.Waiting?
    case Decide => s.source.Holding? || s.source.Failing?
    case Dispatch => s.source.Ending?
    case Shutdown => !s.stopped
    case Enqueue => !s.stopped
    case TakeJob => s.place.Idle? && s.queue != []
    case LockForJob => s.place.Taken? && Free(s, DispatchThread)
    case CheckCancelled => s.place.Locked?
    case StartCallback => s.place.Cleared?
    case CallbackReturns => s.place.InCallback? && DispatchThread !in s.cancelling
    case CallbackRaises => s.place.InCallback? && DispatchThread !in s.cancelling
    case StartError => s.place.Raised?
    case ErrorReturns => s.place.InError? && DispatchThread !in s.cancelling
    case OtherJobEnds => s.place.Elsewhere? && DispatchThread !in s.cancelling
    case MarkCancelled(t) => t !in s.cancelling && (t.DispatchThread? ==> RunsUserCode(s.place))
    case AcquireForCancel(t) => t in s.cancelling && s.cancelling[t].Wants? && Free(s, t)
    case ReleaseAfterCancel(t) => t in s.cancelling && s.cancelling[t].Has?
  }

  function Acquire(s: State, t: Thread): State {
    s.(owner := Some(t), depth := s.depth + 1)
  }

  function Release(s: State): State {
    s.(owner := if s.depth <= 1 then None else s.owner, depth := if s.depth <= 1 then 0 else s.depth - 1)
  }

  /** `dispatch`, which a stopped portal refuses. */
  function Put(s: State, job: Job): State {
    if s.stopped then s else s.(queue := s.queue + [job])
  }

  /** Where a job takes the dispatch thread; setting the event is done at once. */
  function Destination(job: Job): Place {
    match job
    case SetFinished => Idle
    case Foreign => Elsewhere
    case Stop => Dead
    case _ => Taken(job)
  }

  function Leave(s: State): State {
    Release(s).(place := Idle, inside := false)
  }

  /** `_report`: without an error callback the failure is only logged. */
  function Report(s: State, about: Option<nat>): State {
    if s.hasErrorCallback then s.(place := InError(about), started := s.started + [ErrorCallback(about)]) else Leave(s)
  }

  function Apply(s: State, step: Step): State
    requires Enabled(s, step)
  {
    match step
    // `_run`, on the loop's thread.
    case Yield => s.(source := if s.cancelled then Ending else Holding(s.next), yielded := s.yielded + 1)
    case SourceRaises => s.(source := if s.cancelled then Ending else Failing, failed := true)
    case SourceEnds => s.(source := Ending)
    case TaskCancelled => s.(source := Ending)
    case Decide =>
      if s.source.Failing? then Put(s, ReportFailure).(source := Ending)
      else if s.stopped then s.(source := Ending)
      else Put(s, Deliver(s.source.item)).(source := Waiting, next := s.next + 1)
    case Dispatch => (if s.stopped then s.(finished := true) else Put(s, SetFinished)).(source := Gone)
    case Shutdown => s.(stopped := true, queue := s.queue + [Stop])
    case Enqueue => Put(s, Foreign)
    // The dispatch thread.
    case TakeJob =>
      s.(queue := s.queue[1..], finished := s.finished || s.queue[0].SetFinished?, place := Destination(s.queue[0]))
    case LockForJob => Acquire(s, DispatchThread).(place := Locked(s.place.job))
    case CheckCancelled => if s.cancelled then Leave(s) else s.(place := Cleared(s.place.job))
    case StartCallback =>
      if s.place.job.Deliver? then
        s.(place := InCallback(s.place.job.item), started := s.started + [ItemCallback(s.place.job.item)])
      else
        Report(s, None)
    case CallbackReturns => Leave(s)
    case CallbackRaises => s.(place := Raised(s.place.item), raised := s.raised + [s.place.item])
    case StartError => Report(s, Some(s.place.item))
    case ErrorReturns => Leave(s)
    case OtherJobEnds => s.(place := Idle)
    // `cancel`, on any thread; on the loop's it does not wait.
    case MarkCancelled(t) =>
      s.(cancelled := true, cancelling := if t.LoopThread? then s.cancelling else s.cancelling[t := Wants])
    case AcquireForCancel(t) => Acquire(s, t).(cancelling := s.cancelling[t := Has])
    case ReleaseAfterCancel(t) =>
      Release(s).(cancelling := s.cancelling - {t}, returned := true,
                  inside := s.inside || (t.DispatchThread? && (s.place.InCallback? || s.place.InError?)))
  }

  // ---------------------------------------------------------------- what every step keeps

  /** The dispatch thread holds the lock for a job. */
  predicate Critical(p: Place) {
    p.Locked? || p.Cleared? || p.InCallback? || p.Raised? || p.InError?
  }

  predicate HasLock(s: State, t: Thread) {
    t in s.cancelling && s.cancelling[t].Has?
  }

  /** The lock is held exactly by the thread that is in a critical section, as often as it entered. */
  ghost predicate LockRight(s: State) {
    && (s.owner.None? <==> s.depth == 0)
    && (Critical(s.place) ==> s.owner == Some(DispatchThread))
    && (forall t :: HasLock(s, t) ==> s.owner == Some(t))
    && (s.owner.Some? ==>
          s.depth == (if s.owner.value.DispatchThread? && Critical(s.place) then 1 else 0)
                   + (if HasLock(s, s.owner.value) then 1 else 0))
    && LoopThread !in s.cancelling
    && (DispatchThread in s.cancelling ==> RunsUserCode(s.place))
  }

  /** Once some `cancel` has returned, the pump is cancelled and a callback runs only if it called
      `cancel` itself; nothing is about to start. */
  predicate Quiet(s: State) {
    && (s.cancelling != map[] || s.returned ==> s.cancelled)
    && (s.returned ==> !s.place.Cleared?)
    && (s.returned && (s.place.InCallback? || s.place.Raised? || s.place.InError?) ==> s.inside)
    && (s.inside ==> s.returned && (s.place.InCallback? || s.place.Raised? || s.place.InError?))
  }

  function ItemsOf(jobs: seq<Job>): seq<nat> {
    if jobs == [] then [] else (if jobs[0].Deliver? then [jobs[0].item] else []) + ItemsOf(jobs[1..])
  }

  function ItemsStarted(started: seq<Started>): seq<nat> {
    if started == [] then []
    else ItemsStarted(started[..|started| - 1])
         + if started[|started| - 1].ItemCallback? then [started[|started| - 1].item] else []
  }

  function UpTo(a: nat, b: nat): seq<nat>
    requires a <= b
  {
    seq(b - a, i requires 0 <= i < b - a => a + i)
  }

  /** The item that the dispatch thread has taken and not started yet. */
  function InHand(p: Place): seq<nat> {
    if (p.Taken? || p.Locked? || p.Cleared?) && p.job.Deliver? then [p.job.item] else []
  }

  /** Callbacks have seen 0, 1, 2, ... without a gap; unless the pump is dropping items, what comes next
      is in hand or queued, in order. */
  ghost predicate OrderRight(seen: seq<nat>, hand: seq<nat>, queued: seq<nat>, next: nat, dropping: bool) {
    forall k {:trigger Look(k)} :: Look(k) ==>
      && seen == UpTo(0, |seen|)
      && (!dropping ==> seen + hand + queued == UpTo(0, next))
  }

  predicate PlaceRight(p: Place, seen: nat) {
    && (p.Taken? || p.Locked? || p.Cleared? ==> p.job.Deliver? || p.job.ReportFailure?)
    && (p.Cleared? && p.job.Deliver? ==> p.job.item == seen)
  }

  predicate SourceRight(source: Source, next: nat) {
    source.Holding? ==> source.item == next
  }

  /** A cancelled pump drops items, but for one that was cleared before. */
  predicate Dropping(s: State) {
    s.cancelled && !s.place.Cleared?
  }

  ghost predicate InOrder(s: State) {
    && OrderRight(ItemsStarted(s.started), InHand(s.place), ItemsOf(s.queue), s.next, Dropping(s))
    && PlaceRight(s.place, |ItemsStarted(s.started)|)
    && SourceRight(s.source, s.next)
  }

  ghost predicate Inv(s: State) {
    LockRight(s) && Quiet(s) && InOrder(s)
  }

  lemma NewIsRight(hasErrorCallback: bool)
    ensures Inv(New(hasErrorCallback))
  {
    assert UpTo(0, 0) == [];
  }

  lemma ReleaseKeepsLock(s: State, t: Thread)
    requires LockRight(s) && Enabled(s, ReleaseAfterCancel(t))
    ensures LockRight(Apply(s, ReleaseAfterCancel(t)))
  {
    assert HasLock(s, t);
    var d := Apply(s, ReleaseAfterCancel(t));
    assert forall u :: HasLock(d, u) <==> u != t && HasLock(s, u);
  }

  lemma AcquireKeepsLock(s: State, t: Thread)
    requires LockRight(s) && Enabled(s, AcquireForCancel(t))
    ensures LockRight(Apply(s, AcquireForCancel(t)))
  {
    var d := Apply(s, AcquireForCancel(t));
    assert forall u :: HasLock(d, u) <==> u == t || HasLock(s, u);
  }

  lemma MarkKeepsLock(s: State, t: Thread)
    requires LockRight(s) && Enabled(s, MarkCancelled(t))
    ensures LockRight(Apply(s, MarkCancelled(t)))
  {
    var d := Apply(s, MarkCancelled(t));
    assert forall u :: HasLock(d, u) <==> HasLock(s, u);
  }

  /** A step that leaves the lock and the calls of `cancel` as they are. */
  lemma SameLock(s: State, d: State)
    requires LockRight(s) && d.owner == s.owner && d.depth == s.depth && d.cancelling == s.cancelling
    requires Critical(d.place) == Critical(s.place)
    requires DispatchThread in s.cancelling ==> RunsUserCode(d.place)
    ensures LockRight(d)
  {
    assert forall u :: HasLock(d, u) <==> HasLock(s, u);
  }

  lemma EntersLock(s: State)
    requires LockRight(s) && Enabled(s, LockForJob)
    ensures LockRight(Apply(s, LockForJob))
  {
    var d := Apply(s, LockForJob);
    assert forall u :: HasLock(d, u) <==> HasLock(s, u);
  }

  lemma LeavesLock(s: State)
    requires LockRight(s) && Critical(s.place) && DispatchThread !in s.cancelling
    ensures LockRight(Leave(s))
  {
    assert forall u :: HasLock(Leave(s), u) <==> HasLock(s, u);
    assert !HasLock(s, DispatchThread);
  }

  lemma ReportsLock(s: State, about: Option<nat>)
    requires LockRight(s) && Critical(s.place) && DispatchThread !in s.cancelling
    ensures LockRight(Report(s, about))
  {
    if s.hasErrorCallback {
      SameLock(s, Report(s, about));
    } else {
      LeavesLock(s);
    }
  }

  /** The steps of `_run` and of other threads' `dispatch` and `shutdown`. */
  predicate OnLoop(step: Step) {
    || step.Yield? || step.SourceRaises? || step.SourceEnds? || step.TaskCancelled? || step.Decide? || step.Dispatch?
    || step.Shutdown? || step.Enqueue?
  }

  predicate OnCancel(step: Step) {
    step.MarkCancelled? || step.AcquireForCancel? || step.ReleaseAfterCancel?
  }

  /** Nothing but the source, the queue and the portal's flags changes. */
  predicate Aside(s: State, d: State) {
    d == s.(finished := d.finished, stopped := d.stopped, queue := d.queue, source := d.source, next := d.next,
            yielded := d.yielded, failed := d.failed)
  }

  lemma LoopIsAside(s: State, step: Step)
    requires Enabled(s, step) && OnLoop(step)
    ensures Aside(s, Apply(s, step))
  {
    hide Apply;
    if step.Decide? {
      DecideIsAside(s);
    } else if step.Dispatch? {
      DispatchIsAside(s);
    } else {
      PlainIsAside(s, step);
    }
  }

  lemma DecideIsAside(s: State)
    requires Enabled(s, Decide)
    ensures Aside(s, Apply(s, Decide))
  {
  }

  lemma DispatchIsAside(s: State)
    requires Enabled(s, Dispatch)
    ensures Aside(s, Apply(s, Dispatch))
  {
  }

  lemma PlainIsAside(s: State, step: Step)
    requires Enabled(s, step) && OnLoop(step) && !step.Decide? && !step.Dispatch?
    ensures Aside(s, Apply(s, step))
  {
  }

  lemma TakeIs(s: State)
    requires Enabled(s, TakeJob)
    ensures var d := Apply(s, TakeJob);
      && d == s.(finished := d.finished, queue := d.queue, place := d.place)
      && (d.place.Idle? || d.place.Elsewhere? || d.place.Dead? || d.place.Taken?)
  {
  }

  lemma TakeKeepsLock(s: State)
    requires LockRight(s) && Enabled(s, TakeJob)
    ensures LockRight(Apply(s, TakeJob))
  {
    TakeIs(s);
    hide Apply;
    SameLock(s, Apply(s, TakeJob));
  }

  lemma StartKeepsLock(s: State)
    requires LockRight(s) && Enabled(s, StartCallback)
    ensures LockRight(Apply(s, StartCallback))
  {
    var job := s.place.job;
    if job.Deliver? {
      SameLock(s, s.(place := InCallback(job.item), started := s.started + [ItemCallback(job.item)]));
    } else {
      ReportsLock(s, None);
    }
  }

  lemma DispatchKeepsLock(s: State, step: Step)
    requires LockRight(s) && Enabled(s, step) && !OnLoop(step) && !OnCancel(step)
    ensures LockRight(Apply(s, step))
  {
    hide LockRight, Leave, Report, Acquire;
    match step
    case TakeJob => TakeKeepsLock(s);
    case LockForJob => EntersLock(s);
    case CheckCancelled => CheckKeepsLock(s);
    case StartCallback => StartKeepsLock(s);
    case CallbackReturns => LeavesLock(s);
    case CallbackRaises => SameLock(s, s.(place := Raised(s.place.item), raised := s.raised + [s.place.item]));
    case StartError => NotCancelling(s); ReportsLock(s, Some(s.place.item));
    case ErrorReturns => LeavesLock(s);
    case OtherJobEnds => SameLock(s, s.(place := Idle));
  }

  /** The dispatch thread can be inside `cancel` only while it runs user code. */
  lemma NotCancelling(s: State)
    requires LockRight(s) && !RunsUserCode(s.place)
    ensures DispatchThread !in s.cancelling
  {
  }

  lemma CheckKeepsLock(s: State)
    requires LockRight(s) && Enabled(s, CheckCancelled)
    ensures LockRight(Apply(s, CheckCancelled))
  {
    if s.cancelled {
      LeavesLock(s);
    } else {
      SameLock(s, s.(place := Cleared(s.place.job)));
    }
  }

  lemma LockKept(s: State, step: Step)
    requires LockRight(s) && Enabled(s, step)
    ensures LockRight(Apply(s, step))
  {
    hide LockRight, Apply;
    match step
    case MarkCancelled(t) => MarkKeepsLock(s, t);
    case AcquireForCancel(t) => AcquireKeepsLock(s, t);
    case ReleaseAfterCancel(t) => ReleaseKeepsLock(s, t);
    case _ =>
      if OnLoop(step) {
        LoopIsAside(s, step);
        AsideKeepsLock(s, Apply(s, step));
      } else {
        DispatchKeepsLock(s, step);
      }
  }

  lemma AsideKeepsLock(s: State, d: State)
    requires LockRight(s) && Aside(s, d)
    ensures LockRight(d)
  {
    assert DispatchThread in s.cancelling ==> RunsUserCode(s.place);
    SameLock(s, d);
  }

  lemma QuietAtDispatch(s: State, step: Step)
    requires LockRight(s) && Quiet(s) && Enabled(s, step) && !OnLoop(step) && !OnCancel(step)
    ensures Quiet(Apply(s, step))
  {
    if step.TakeJob? {
      TakeIs(s);
    }
  }

  lemma QuietAtCancel(s: State, step: Step)
    requires LockRight(s) && Quiet(s) && Enabled(s, step) && OnCancel(step)
    ensures Quiet(Apply(s, step))
  {
    if step.ReleaseAfterCancel? {
      assert HasLock(s, step.thread);
    }
  }

  lemma QuietKept(s: State, step: Step)
    requires LockRight(s) && Quiet(s) && Enabled(s, step)
    ensures Quiet(Apply(s, step))
  {
    hide LockRight, Apply;
    if OnLoop(step) {
      LoopIsAside(s, step);
    } else if OnCancel(step) {
      QuietAtCancel(s, step);
    } else {
      QuietAtDispatch(s, step);
    }
  }

  // ---------------------------------------------------------------- order

  lemma {:induction false} ItemsAppend(a: seq<Job>, b: seq<Job>)
    ensures ItemsOf(a + b) == ItemsOf(a) + ItemsOf(b)
  {
    if a == [] {
      assert a + b == b;
    } else {
      assert (a + b)[0] == a[0] && (a + b)[1..] == a[1..] + b;
      ItemsAppend(a[1..], b);
    }
  }

  lemma ItemsPut(jobs: seq<Job>, job: Job)
    ensures ItemsOf(jobs + [job]) == ItemsOf(jobs) + if job.Deliver? then [job.item] else []
  {
    ItemsAppend(jobs, [job]);
    assert [job][1..] == [];
  }

  lemma StartedPut(started: seq<Started>, x: Started)
    ensures ItemsStarted(started + [x]) == ItemsStarted(started) + if x.ItemCallback? then [x.item] else []
  {
    assert (started + [x])[..|started|] == started;
  }

  lemma UpToNext(a: nat, b: nat)
    requires a <= b
    ensures UpTo(a, b + 1) == UpTo(a, b) + [b]
  {
  }

  /** One item more at the end of the queue. */
  lemma OrderQueued(seen: seq<nat>, hand: seq<nat>, queued: seq<nat>, next: nat, dropping: bool)
    requires OrderRight(seen, hand, queued, next, dropping)
    ensures OrderRight(seen, hand, queued + [next], next + 1, dropping)
  {
    assert Look(0);
    UpToNext(0, next);
    assert seen + hand + (queued + [next]) == seen + hand + queued + [next];
  }

  /** The first queued item is taken in hand. */
  lemma OrderTaken(seen: seq<nat>, first: seq<nat>, rest: seq<nat>, next: nat, dropping: bool)
    requires OrderRight(seen, [], first + rest, next, dropping)
    ensures OrderRight(seen, first, rest, next, dropping)
  {
    assert Look(0);
    assert seen + [] + (first + rest) == seen + first + rest;
  }

  /** The item in hand is the next one. */
  lemma OrderNext(seen: seq<nat>, item: nat, queued: seq<nat>, next: nat)
    requires OrderRight(seen, [item], queued, next, false)
    ensures item == |seen|
  {
    assert Look(0);
    assert (seen + [item] + queued)[|seen|] == item;
    assert UpTo(0, next)[|seen|] == |seen|;
  }

  /** It is started. */
  lemma OrderStarted(seen: seq<nat>, item: nat, queued: seq<nat>, next: nat, dropping: bool)
    requires OrderRight(seen, [item], queued, next, dropping) && item == |seen|
    ensures OrderRight(seen + [item], [], queued, next, dropping)
  {
    assert Look(0);
    UpToNext(0, |seen|);
    assert seen + [item] + [] + queued == seen + [item] + queued;
  }

  lemma OrderDrops(seen: seq<nat>, hand: seq<nat>, queued: seq<nat>, next: nat, dropping: bool)
    requires OrderRight(seen, hand, queued, next, dropping)
    ensures OrderRight(seen, hand, queued, next, true) && OrderRight(seen, [], queued, next, true)
  {
    assert Look(0);
  }

  lemma DecideKeepsOrder(s: State)
    requires InOrder(s) && Enabled(s, Decide)
    ensures InOrder(Apply(s, Decide))
  {
    if s.source.Holding? && !s.stopped {
      QueuedOrder(s);
    } else {
      ItemsPut(s.queue, ReportFailure);
    }
  }

  lemma QueuedOrder(s: State)
    requires InOrder(s) && s.source.Holding?
    ensures InOrder(s.(queue := s.queue + [Deliver(s.source.item)], source := Waiting, next := s.next + 1))
  {
    ItemsPut(s.queue, Deliver(s.next));
    OrderQueued(ItemsStarted(s.started), InHand(s.place), ItemsOf(s.queue), s.next, Dropping(s));
  }

  lemma OtherJobKeepsOrder(s: State, step: Step)
    requires InOrder(s) && Enabled(s, step) && (step.Dispatch? || step.Shutdown? || step.Enqueue?)
    ensures InOrder(Apply(s, step))
  {
    hide InOrder;
    match step
    case Dispatch => OtherQueued(s, SetFinished, s.finished || s.stopped, s.stopped, Gone, !s.stopped);
    case Shutdown => OtherQueued(s, Stop, s.finished, true, s.source, true);
    case Enqueue => OtherQueued(s, Foreign, s.finished, s.stopped, s.source, !s.stopped);
  }

  /** A job that delivers nothing is queued, or refused; the source does not get hold of an item. */
  lemma OtherQueued(s: State, job: Job, finished: bool, stopped: bool, source: Source, accepted: bool)
    requires InOrder(s) && !job.Deliver? && (source == s.source || source == Gone)
    ensures InOrder(s.(queue := if accepted then s.queue + [job] else s.queue, finished := finished, stopped := stopped, source := source))
  {
    ItemsPut(s.queue, job);
  }

  /** `d` is `s` with the first job taken off the queue. */
  predicate TakenFrom(s: State, d: State, first: seq<nat>) {
    && s.queue != [] && d.queue == s.queue[1..] && d.started == s.started && d.next == s.next && d.source == s.source
    && d.cancelled == s.cancelled && s.place.Idle? && InHand(d.place) == first
    && (d.place.Taken? ==> d.place.job.Deliver? || d.place.job.ReportFailure?)
    && !d.place.Locked? && !d.place.Cleared?
    && first == if s.queue[0].Deliver? then [s.queue[0].item] else []
  }

  lemma TakenKeepsOrder(s: State, d: State, first: seq<nat>)
    requires InOrder(s) && TakenFrom(s, d, first)
    ensures InOrder(d)
  {
    assert ItemsOf(s.queue) == first + ItemsOf(s.queue[1..]);
    OrderTaken(ItemsStarted(s.started), first, ItemsOf(s.queue[1..]), s.next, Dropping(s));
  }

  lemma TakeKeepsOrder(s: State)
    requires InOrder(s) && Enabled(s, TakeJob)
    ensures InOrder(Apply(s, TakeJob))
  {
    hide InOrder;
    var first := if s.queue[0].Deliver? then [s.queue[0].item] else [];
    TakesFirst(s, first);
    hide Apply;
    TakenKeepsOrder(s, Apply(s, TakeJob), first);
  }

  lemma TakesFirst(s: State, first: seq<nat>)
    requires Enabled(s, TakeJob) && first == if s.queue[0].Deliver? then [s.queue[0].item] else []
    ensures TakenFrom(s, Apply(s, TakeJob), first)
  {
  }

  lemma CheckKeepsOrder(s: State)
    requires InOrder(s) && Enabled(s, CheckCancelled)
    ensures InOrder(Apply(s, CheckCancelled))
  {
    if s.cancelled {
      DroppedOrder(s);
    } else {
      ClearedOrder(s, s.place.job);
    }
  }

  lemma DroppedOrder(s: State)
    requires InOrder(s) && s.place.Locked? && s.cancelled
    ensures InOrder(Leave(s))
  {
    OrderDrops(ItemsStarted(s.started), InHand(s.place), ItemsOf(s.queue), s.next, true);
  }

  lemma ClearedOrder(s: State, job: Job)
    requires InOrder(s) && s.place == Locked(job) && !s.cancelled
    ensures InOrder(s.(place := Cleared(job)))
  {
    if job.Deliver? {
      OrderNext(ItemsStarted(s.started), job.item, ItemsOf(s.queue), s.next);
    }
  }

  lemma StartItemKeepsOrder(s: State, item: nat)
    requires InOrder(s) && s.place == Cleared(Deliver(item))
    ensures InOrder(s.(place := InCallback(item), started := s.started + [ItemCallback(item)]))
  {
    var seen, queued := ItemsStarted(s.started), ItemsOf(s.queue);
    StartedPut(s.started, ItemCallback(item));
    OrderStarted(seen, item, queued, s.next, false);
    OrderDrops(seen + [item], [], queued, s.next, false);
  }

  /** Nothing is started, taken or queued; the pump may start dropping. */
  predicate Calm(s: State, d: State) {
    && d.started == s.started && d.queue == s.queue && d.next == s.next && InHand(d.place) == InHand(s.place)
    && (Dropping(s) ==> Dropping(d)) && (d.place.Cleared? ==> s.place == d.place)
    && (d.source.Holding? ==> d.source == s.source || d.source.item == d.next)
    && (d.place.Taken? || d.place.Locked? ==> s.place.Taken? || s.place.Locked?)
    && (d.place.Taken? || d.place.Locked? ==> d.place.job == s.place.job)
  }

  lemma CalmKeepsOrder(s: State, d: State)
    requires InOrder(s) && Calm(s, d)
    ensures InOrder(d)
  {
    OrderDrops(ItemsStarted(s.started), InHand(s.place), ItemsOf(s.queue), s.next, Dropping(s));
  }

  lemma SourceIsCalm(s: State, step: Step)
    requires Enabled(s, step) && (step.Yield? || step.SourceRaises? || step.SourceEnds? || step.TaskCancelled?)
    ensures Calm(s, Apply(s, step))
  {
  }

  lemma LeaveIsCalm(s: State)
    requires InHand(s.place) == []
    ensures Calm(s, Leave(s))
  {
  }

  lemma LockIsCalm(s: State)
    requires Enabled(s, LockForJob)
    ensures Calm(s, Apply(s, LockForJob))
  {
  }

  lemma DispatchIsCalm(s: State, step: Step)
    requires Enabled(s, step)
    requires step.LockForJob? || step.CallbackReturns? || step.CallbackRaises? || step.ErrorReturns? || step.OtherJobEnds?
    ensures Calm(s, Apply(s, step))
  {
    hide Leave, Acquire;
    if step.LockForJob? {
      LockIsCalm(s);
    } else {
      LeaveIsCalm(s);
    }
  }

  /** What `cancel` changes is neither the queue nor what the dispatch thread does. */
  predicate OnlyLock(s: State, d: State) {
    && d == s.(owner := d.owner, depth := d.depth, cancelled := d.cancelled, cancelling := d.cancelling,
               returned := d.returned, inside := d.inside)
    && (s.cancelled ==> d.cancelled) && (s.returned ==> d.returned)
  }

  lemma AcquireIs(s: State, t: Thread)
    requires Enabled(s, AcquireForCancel(t))
    ensures OnlyLock(s, Apply(s, AcquireForCancel(t)))
  {
  }

  lemma ReturnIs(s: State, t: Thread)
    requires Enabled(s, ReleaseAfterCancel(t))
    ensures OnlyLock(s, Apply(s, ReleaseAfterCancel(t)))
  {
  }

  lemma MarkIs(s: State, t: Thread)
    requires Enabled(s, MarkCancelled(t))
    ensures OnlyLock(s, Apply(s, MarkCancelled(t)))
  {
  }

  lemma CancelIs(s: State, step: Step)
    requires Enabled(s, step) && OnCancel(step)
    ensures OnlyLock(s, Apply(s, step))
  {
    hide Apply, OnlyLock;
    match step
    case MarkCancelled(t) => MarkIs(s, t);
    case AcquireForCancel(t) => AcquireIs(s, t);
    case ReleaseAfterCancel(t) => ReturnIs(s, t);
  }

  lemma LoggedOrder(s: State, about: Option<nat>)
    requires InOrder(s) && InHand(s.place) == []
    ensures InOrder(s.(place := InError(about), started := s.started + [ErrorCallback(about)]))
  {
    var seen, queued := ItemsStarted(s.started), ItemsOf(s.queue);
    StartedPut(s.started, ErrorCallback(about));
    OrderDrops(seen, [], queued, s.next, Dropping(s));
  }

  lemma ReportKeepsOrder(s: State, about: Option<nat>)
    requires InOrder(s) && InHand(s.place) == []
    ensures InOrder(Report(s, about))
  {
    hide InOrder, Calm, Leave;
    if s.hasErrorCallback {
      LoggedOrder(s, about);
    } else {
      LeaveIsCalm(s);
      CalmKeepsOrder(s, Leave(s));
    }
  }

  lemma StartKeepsOrder(s: State)
    requires InOrder(s) && Enabled(s, StartCallback)
    ensures InOrder(Apply(s, StartCallback))
  {
    if s.place.job.Deliver? {
      StartItemKeepsOrder(s, s.place.job.item);
    } else {
      ReportKeepsOrder(s, None);
    }
  }

  /** Steps that queue no item, take no job and start nothing. */
  predicate IsCalm(step: Step) {
    || step.Yield? || step.SourceRaises? || step.SourceEnds? || step.TaskCancelled?
    || step.LockForJob? || step.CallbackReturns? || step.CallbackRaises? || step.ErrorReturns? || step.OtherJobEnds?
    || OnCancel(step)
  }

  lemma CalmStepKeepsOrder(s: State, step: Step)
    requires InOrder(s) && Enabled(s, step) && IsCalm(step)
    ensures InOrder(Apply(s, step))
  {
    hide InOrder, Apply;
    if OnLoop(step) {
      SourceIsCalm(s, step);
    } else if OnCancel(step) {
      CancelIs(s, step);
    } else {
      DispatchIsCalm(s, step);
    }
    CalmKeepsOrder(s, Apply(s, step));
  }

  lemma DispatchKeepsOrder(s: State, step: Step)
    requires InOrder(s) && Enabled(s, step) && !OnLoop(step) && !IsCalm(step)
    ensures InOrder(Apply(s, step))
  {
    hide InOrder, Leave, Report;
    match step
    case TakeJob => TakeKeepsOrder(s);
    case CheckCancelled => CheckKeepsOrder(s);
    case StartCallback => StartKeepsOrder(s);
    case StartError => ReportKeepsOrder(s, Some(s.place.item));
  }

  lemma OrderKept(s: State, step: Step)
    requires InOrder(s) && Enabled(s, step)
    ensures InOrder(Apply(s, step))
  {
    hide InOrder, Apply;
    if IsCalm(step) {
      CalmStepKeepsOrder(s, step);
    } else if step == Decide {
      DecideKeepsOrder(s);
    } else if OnLoop(step) {
      OtherJobKeepsOrder(s, step);
    } else {
      DispatchKeepsOrder(s, step);
    }
  }

  lemma StepKeeps(s: State, step: Step)
    requires Inv(s) && Enabled(s, step)
    ensures Inv(Apply(s, step))
  {
    LockKept(s, step);
    QuietKept(s, step);
    OrderKept(s, step);
  }
}
