/** The client's state machine as values (`src/logos_bridge/client.py`).

Every stretch of a coroutine between two awaits is one step. Entries and streams, which the source
keeps as shared objects, are rows of two tables; `BridgeClient` has the objects. Fields marked
"history" are not in the source: they record what happened, so that it can be talked about. */
module ClientState {
  import opened Wrappers
  import opened EventStream

  type Sid = nat
  type ReqId = nat
  type StreamId = nat

  datatype Life = New | Connecting | Open | Closing | Closed {
    function Rank(): nat {
      match this
      case New => 0
      case Connecting => 1
      case Open => 2
      case Closing => 3
      case Closed => 4
    }
  }

  datatype Target = Target(mod: string, event: string)

  datatype EntryState = Pending | Active | Doomed | Zombie | Failed | Released | Terminated {
    predicate Unacked() {
      Pending? || Doomed?
    }

    predicate Routed() {
      Pending? || Active? || Doomed? || Zombie?
    }
  }

  /** History: whether an id's subscribe was sent, in which request, and where among all requests. */
  datatype Asking = NotAsked | Asked(at: nat, req: ReqId)

  /** History: whether the client still holds an id, or its unsubscribe waits for its first turn, was
      sent, was cancelled before that turn, or came to it when the connection was no longer open. */
  datatype Hold = Held | Queued | Told(at: nat) | Lost | Moot

  /** One bridge subscription id. `index` (history) is the entry's position in its stream. */
  datatype Entry = Entry(stream: StreamId, index: nat, target: Target, state: EntryState, asking: Asking, hold: Hold)

  /** Where the `_subscribe` coroutine of a stream is: about to treat entry `k`, suspended in the
      request for it, just resumed from that request, or done. Only `Awaiting` and `Finished`
      survive a step. */
  datatype Task = Looping(k: nat) | Awaiting(k: nat, req: ReqId) | Resumed(k: nat, req: ReqId) | Finished

  datatype StreamRow = StreamRow(sids: seq<Sid>, queue: Queue, task: Task)

  /** A request's future: completed by its response, its timer, the disconnect or a cancellation. */
  datatype Outcome = Waiting | Answered(ok: bool) | Expired | Cut | Cancelled

  /** The coroutine suspended in `_send_request`. */
  datatype Owner = Subscriber(stream: StreamId, index: nat) | Unsubscriber(sid: Sid, quiet: bool) | Caller

  datatype Request = Subscribe(id: ReqId, sid: Sid, target: Target) | Unsubscribe(id: ReqId, sid: Sid) | Other(id: ReqId)

  /** An unsubscribe task that has not run yet: in the background (`quiet`) or gathered by
      `unsubscribe()`, whose caller can be cancelled. */
  datatype Spawn = Spawn(sid: Sid, quiet: bool)

  datatype Client = Client(
    life: Life,
    hasSocket: bool,
    hasCloseInfo: bool,
    nextReq: nat,
    nextSid: nat,
    nextStream: nat,
    pending: set<ReqId>,
    futures: map<ReqId, Outcome>,
    waiting: map<ReqId, Owner>,
    entries: map<Sid, Entry>,
    subs: set<Sid>,
    streams: map<StreamId, StreamRow>,
    spawned: seq<Spawn>,
    late: nat,
    unrouted: nat,
    // History: the requests handed to the socket, in order.
    sent: seq<Request>)

  const NewClient := Client(New, false, false, 1, 1, 0, {}, map[], map[], map[], {}, map[], [], 0, 0, [])

  // ---------------------------------------------------------------- small updates

  function SetState(c: Client, x: Sid, s: EntryState): Client
    requires x in c.entries
  {
    c.(entries := c.entries[x := c.entries[x].(state := s)])
  }

  function SetHold(c: Client, x: Sid, h: Hold): Client {
    if x in c.entries then c.(entries := c.entries[x := c.entries[x].(hold := h)]) else c
  }

  function SetTask(c: Client, s: StreamId, t: Task): Client
    requires s in c.streams
  {
    c.(streams := c.streams[s := c.streams[s].(task := t)])
  }

  function SetQueue(c: Client, s: StreamId, q: Queue): Client
    requires s in c.streams
  {
    c.(streams := c.streams[s := c.streams[s].(queue := q)])
  }

  function Unroute(c: Client, x: Sid): Client {
    c.(subs := c.subs - {x})
  }

  /** The members of `xs` that are in `keep`, in order. */
  function Keep(xs: seq<Sid>, keep: set<Sid>): seq<Sid> {
    if xs == [] then [] else (if xs[0] in keep then [xs[0]] else []) + Keep(xs[1..], keep)
  }

  function Spawns(xs: seq<Sid>, quiet: bool): seq<Spawn> {
    seq(|xs|, i requires 0 <= i < |xs| => Spawn(xs[i], quiet))
  }

  /** Unsubscribe tasks for `xs`, in order. */
  function SpawnAll(c: Client, xs: seq<Sid>, quiet: bool): Client {
    c.(spawned := c.spawned + Spawns(xs, quiet),
       entries := map x | x in c.entries :: if x in xs then c.entries[x].(hold := Queued) else c.entries[x])
  }

  /** `_spawn_unsubscribe` for each id: nothing once the connection is not open. */
  function SpawnQuiet(c: Client, xs: seq<Sid>): Client {
    if c.life.Open? then SpawnAll(c, xs, true) else c
  }

  // ---------------------------------------------------------------- ending a stream

  function DetachState(s: EntryState): EntryState {
    match s
    case Active => Released
    case Pending => Doomed
    case _ => s
  }

  function InState(c: Client, xs: seq<Sid>, s: EntryState): set<Sid> {
    set x | x in c.entries && x in xs && c.entries[x].state == s
  }

  /** `_detach`: stop routing an ended stream's ids. */
  function Detach(c: Client, s: StreamId): Client
    requires s in c.streams
  {
    var xs := c.streams[s].sids;
    c.(entries := map x | x in c.entries ::
         if x in xs then c.entries[x].(state := DetachState(c.entries[x].state)) else c.entries[x],
       subs := c.subs - InState(c, xs, Active))
  }

  /** The acknowledged ids of a stream, which `_detach` returns. */
  function LiveSids(c: Client, s: StreamId): seq<Sid>
    requires s in c.streams
  {
    Keep(c.streams[s].sids, InState(c, c.streams[s].sids, Active))
  }

  function ReleaseStream(c: Client, s: StreamId): Client
    requires s in c.streams
  {
    SpawnQuiet(Detach(c, s), LiveSids(c, s))
  }

  /** A stream ends and its ids are let go: in the background, or gathered by `unsubscribe()`, which
      creates its tasks on any connection. */
  function EndStream(c: Client, s: StreamId, why: Cause, quiet: bool): Client
    requires s in c.streams
  {
    var c1 := EndQueue(c, s, why);
    if quiet then ReleaseStream(c1, s) else SpawnAll(Detach(c1, s), LiveSids(c1, s), false)
  }

  function EndQueue(c: Client, s: StreamId, why: Cause): Client
    requires s in c.streams
  {
    SetQueue(c, s, End(c.streams[s].queue, why))
  }

  // ---------------------------------------------------------------- frames from the bridge

  datatype Frame =
    | Response(id: ReqId, ok: bool)
    | EventFrame(sid: Sid, data: nat)
    | TerminatedFrame(sid: Sid)
    | Uncorrelated

  function RouteResponse(c: Client, id: ReqId, ok: bool): Client {
    if id !in c.pending then
      c.(late := c.late + 1)
    else
      var popped := c.(pending := c.pending - {id});
      if id in c.futures && c.futures[id].Waiting? then
        popped.(futures := c.futures[id := Answered(ok)])
      else
        popped
  }

  function RouteEvent(c: Client, x: Sid, data: nat): Client {
    if x !in c.subs || x !in c.entries then
      c.(unrouted := c.unrouted + 1)
    else
      var s := c.entries[x].stream;
      if !(c.entries[x].state.Pending? || c.entries[x].state.Active?) || s !in c.streams then
        c
      else
        var q := c.streams[s].queue;
        if q.Ended() then c
        else if q.Full() then EndStream(c, s, ByOverflow, true)
        else SetQueue(c, s, Push(q, Event(x, data)))
  }

  function RouteTermination(c: Client, x: Sid): Client {
    if x !in c.subs || x !in c.entries then
      c
    else
      var s := c.entries[x].stream;
      var c1 := SetState(Unroute(c, x), x, Terminated);
      if c.entries[x].state.Zombie? || s !in c.streams then c1 else EndStream(c1, s, ByBridge(x), true)
  }

  function Dispatch(c: Client, f: Frame): Client {
    match f
    case Response(id, ok) => RouteResponse(c, id, ok)
    case EventFrame(x, data) => RouteEvent(c, x, data)
    case TerminatedFrame(x) => RouteTermination(c, x)
    case Uncorrelated => c
  }

  // ---------------------------------------------------------------- the connection

  function CutOutcome(c: Client, id: ReqId): Outcome
    requires id in c.futures
  {
    if id in c.pending && c.futures[id].Waiting? then Cut else c.futures[id]
  }

  function CutState(c: Client, x: Sid): EntryState
    requires x in c.entries
  {
    var st := c.entries[x].state;
    if x in c.subs && (st.Pending? || st.Active? || st.Doomed?) then Released else st
  }

  predicate HasRoutedEntry(c: Client, s: StreamId) {
    exists x :: x in c.subs && x in c.entries && c.entries[x].stream == s
  }

  /** `_on_disconnect`: every pending future fails, every routed entry is released, every stream
      that still has a routed id ends. */
  function OnDisconnect(c: Client): Client {
    if c.hasCloseInfo then
      c
    else
      c.(hasCloseInfo := true, life := Closed,
         pending := {},
         futures := map id | id in c.futures :: CutOutcome(c, id),
         subs := {},
         entries := map x | x in c.entries :: c.entries[x].(state := CutState(c, x)),
         streams := map s | s in c.streams ::
           if HasRoutedEntry(c, s) then c.streams[s].(queue := End(c.streams[s].queue, ByDisconnect)) else c.streams[s])
  }

  // ---------------------------------------------------------------- requests

  /** `_send_request` up to its await; the caller has checked that the connection is open. */
  function SendRequest(c: Client, owner: Owner, r: Request): Client {
    c.(nextReq := c.nextReq + 1,
       pending := c.pending + {c.nextReq},
       futures := c.futures[c.nextReq := Waiting],
       waiting := c.waiting[c.nextReq := owner],
       sent := c.sent + [r])
  }

  /** The `finally` of `_send_request`. */
  function FinishSend(c: Client, id: ReqId): Client
    requires id in c.futures
  {
    c.(pending := c.pending - {id},
       futures := c.futures[id := if c.futures[id].Waiting? then Cancelled else c.futures[id]],
       waiting := c.waiting - {id})
  }

  /** A timer fires. */
  function Expire(c: Client, id: ReqId): Client {
    if id !in c.pending then
      c
    else if id in c.futures && c.futures[id].Waiting? then
      c.(pending := c.pending - {id}, futures := c.futures[id := Expired])
    else
      c.(pending := c.pending - {id})
  }

  /** A task suspended on its future is cancelled: the future is done at once, the task resumes in
      a later step and until then the id stays pending. */
  function CancelFuture(c: Client, id: ReqId): Client
    requires id in c.waiting
  {
    if id in c.futures && c.futures[id].Waiting? then c.(futures := c.futures[id := Cancelled]) else c
  }

  // ---------------------------------------------------------------- unsubscribing

  /** An unsubscribe task runs for the first time. Off an open connection `_require_open` raises,
      and the `finally` of the background task forgets a zombie. */
  function RunSpawned(c: Client, i: nat): Client
    requires i < |c.spawned|
  {
    var sp := c.spawned[i];
    var c1 := c.(spawned := c.spawned[..i] + c.spawned[i + 1..]);
    if c.life.Open? then
      SetHold(SendRequest(c1, Unsubscriber(sp.sid, sp.quiet), Unsubscribe(c.nextReq, sp.sid)), sp.sid, Told(|c.sent|))
    else
      var c2 := SetHold(c1, sp.sid, Moot);
      if sp.quiet then ForgetZombie(c2, sp.sid) else c2
  }

  function ForgetZombie(c: Client, x: Sid): Client {
    if x in c.subs && x in c.entries && c.entries[x].state.Zombie? then Unroute(c, x) else c
  }

  /** `unsubscribe()` is cancelled before its gathered task has run: the task never runs. */
  function CancelSpawned(c: Client, i: nat): Client
    requires i < |c.spawned| && !c.spawned[i].quiet
  {
    SetHold(c.(spawned := c.spawned[..i] + c.spawned[i + 1..]), c.spawned[i].sid, Lost)
  }

  /** The coroutine that sent an unsubscribe resumes, whatever the outcome. */
  function ResumeUnsubscribe(c: Client, id: ReqId): Client
    requires id in c.futures && id in c.waiting && c.waiting[id].Unsubscriber?
  {
    var o := c.waiting[id];
    var c1 := FinishSend(c, id);
    if o.quiet then ForgetZombie(c1, o.sid) else c1
  }

  /** `_close_stream`, up to its await, and `_close_stream_nowait`. */
  function CloseStream(c: Client, s: StreamId, nowait: bool): Client
    requires s in c.streams
  {
    if c.streams[s].queue.Ended() then c else EndStream(c, s, ByClient, nowait)
  }

  // ---------------------------------------------------------------- subscribing

  function SidRange(first: Sid, n: nat): seq<Sid> {
    seq(n, i requires 0 <= i < n => first + i)
  }

  /** A stream and its entries, registered before any request goes out. */
  function NewStream(c: Client, targets: seq<Target>, maxPending: Option<nat>): Client {
    c.(entries := map x | 0 <= x < c.nextSid + |targets| && (x < c.nextSid ==> x in c.entries) ::
         if x < c.nextSid then c.entries[x] else Entry(c.nextStream, x - c.nextSid, targets[x - c.nextSid], Pending, NotAsked, Held),
       subs := c.subs + (set x | x in SidRange(c.nextSid, |targets|)),
       streams := c.streams[c.nextStream := StreamRow(SidRange(c.nextSid, |targets|), NewQueue(maxPending), Looping(0))],
       nextSid := c.nextSid + |targets|,
       nextStream := c.nextStream + 1)
  }

  predicate AtLoop(c: Client, s: StreamId) {
    s in c.streams && c.streams[s].task.Looping? && c.streams[s].task.k <= |c.streams[s].sids|
  }

  predicate AtEntry(c: Client, s: StreamId) {
    && AtLoop(c, s)
    && c.streams[s].task.k < |c.streams[s].sids|
    && c.streams[s].sids[c.streams[s].task.k] in c.entries
  }

  function Current(c: Client, s: StreamId): Sid
    requires s in c.streams && !c.streams[s].task.Finished? && c.streams[s].task.k < |c.streams[s].sids|
  {
    c.streams[s].sids[c.streams[s].task.k]
  }

  function SendSubscribe(c: Client, s: StreamId): Client
    requires AtEntry(c, s)
  {
    var k := c.streams[s].task.k;
    var x := Current(c, s);
    var c1 := SendRequest(c, Subscriber(s, k), Subscribe(c.nextReq, x, c.entries[x].target));
    SetTask(c1.(entries := c.entries[x := c.entries[x].(asking := Asked(|c.sent|, c.nextReq))]), s, Awaiting(k, c.nextReq))
  }

  /** An entry that is not pending is not sent; one doomed before it was sent is released. */
  function SkipEntry(c: Client, s: StreamId): Client
    requires AtEntry(c, s)
  {
    var x := Current(c, s);
    var c1 := if c.entries[x].state.Doomed? then SetState(Unroute(c, x), x, Released) else c;
    SetTask(c1, s, Looping(c.streams[s].task.k + 1))
  }

  /** The loop of `_subscribe` up to its next await. `refused` is a request that cannot be sent
      (over the size limit). */
  function SubscribeLoop(c: Client, s: StreamId, refused: bool): Client
    requires AtLoop(c, s)
    decreases if AtLoop(c, s) then |c.streams[s].sids| - c.streams[s].task.k else 0
  {
    if !AtEntry(c, s) then SetTask(c, s, Finished)
    else if !c.entries[Current(c, s)].state.Pending? then SubscribeLoop(SkipEntry(c, s), s, refused)
    else if refused || !c.life.Open? then AbortSubscribe(c, s, false)
    else SendSubscribe(c, s)
  }

  function AbortState(st: EntryState, current: bool, maybe: bool): EntryState {
    if st.Unacked() then (if current && maybe then Zombie else Failed)
    else if st.Active? then Released
    else st
  }

  predicate AbortUnroutes(st: EntryState, current: bool, maybe: bool, open: bool) {
    if st.Unacked() && current && maybe then !open else st.Unacked() || st.Active?
  }

  predicate AbortSpawns(st: EntryState, current: bool, maybe: bool) {
    st.Active? || (st.Unacked() && current && maybe)
  }

  /** `_abort_subscribe`; `maybe` is a timeout or a cancellation, after which the bridge may have
      registered the id. */
  function AbortSubscribe(c: Client, s: StreamId, maybe: bool): Client
    requires s in c.streams && !c.streams[s].task.Finished? && c.streams[s].task.k < |c.streams[s].sids|
  {
    var xs := c.streams[s].sids;
    var cur := Current(c, s);
    var c1 := SetTask(EndQueue(c, s, ByClient), s, Finished);
    var c2 := c1.(
      entries := map x | x in c.entries ::
        if x in xs then c.entries[x].(state := AbortState(c.entries[x].state, x == cur, maybe)) else c.entries[x],
      subs := set x | x in c.subs &&
        !(x in xs && x in c.entries && AbortUnroutes(c.entries[x].state, x == cur, maybe, c.life.Open?)));
    SpawnQuiet(c2, Keep(xs, AbortLive(c, xs, cur, maybe)))
  }

  function AbortLive(c: Client, xs: seq<Sid>, cur: Sid, maybe: bool): set<Sid> {
    set x | x in c.entries && x in xs && AbortSpawns(c.entries[x].state, x == cur, maybe)
  }

  /** `_subscribe` up to its first await; refused unless the connection is open. */
  function StartSubscribe(c: Client, targets: seq<Target>, maxPending: Option<nat>, refused: bool): Client {
    if c.life.Open? then
      var c1 := NewStream(c, targets, maxPending);
      SubscribeLoop(c1, c.nextStream, refused)
    else
      c
  }

  /** What follows a successful acknowledgement of the current entry. */
  function Acked(c: Client, s: StreamId): Client
    requires s in c.streams && c.streams[s].task.Resumed? && c.streams[s].task.k < |c.streams[s].sids|
    requires Current(c, s) in c.entries
  {
    var x := Current(c, s);
    var c1 :=
      match c.entries[x].state
      case Doomed => SpawnQuiet(SetState(Unroute(c, x), x, Released), [x])
      case Pending => SetState(c, x, Active)
      case _ => c;
    SetTask(c1, s, Looping(c.streams[s].task.k + 1))
  }

  predicate CanResumeSubscribe(c: Client, id: ReqId, cancelled: bool) {
    && id in c.waiting && id in c.futures && (cancelled || !c.futures[id].Waiting?)
    && c.waiting[id].Subscriber?
    && var s := c.waiting[id].stream;
    && s in c.streams && c.streams[s].task == Awaiting(c.waiting[id].index, id)
    && c.waiting[id].index < |c.streams[s].sids| && Current(c, s) in c.entries
  }

  /** The `_subscribe` coroutine resumes from its request and runs to its next await. */
  function ResumeSubscribe(c: Client, id: ReqId, cancelled: bool, refused: bool): Client
    requires CanResumeSubscribe(c, id, cancelled)
  {
    var s := c.waiting[id].stream;
    var outcome := if cancelled then Cancelled else c.futures[id];
    var c1 := Unsuspend(c, id);
    if outcome == Answered(true) then SubscribeLoop(Acked(c1, s), s, refused)
    else if outcome == Answered(false) || outcome.Cut? then AbortSubscribe(c1, s, false)
    else AbortSubscribe(c1, s, true)
  }

  function Unsuspend(c: Client, id: ReqId): Client
    requires id in c.futures && id in c.waiting && c.waiting[id].Subscriber? && c.waiting[id].stream in c.streams
  {
    SetTask(FinishSend(c, id), c.waiting[id].stream, Resumed(c.waiting[id].index, id))
  }

  // ---------------------------------------------------------------- steps

  datatype Step =
    | SetLife(life: Life)
    | Disconnect
    | Start(targets: seq<Target>, maxPending: Option<nat>, refused: bool)
    | Resume(id: ReqId, cancelled: bool, refused: bool)
    | Close(stream: StreamId, nowait: bool)
    | RunTask(index: nat)
    | CancelTask(index: nat)
    | FinishUnsubscribe(id: ReqId, cancelled: bool)
    | Call
    | FinishCall(id: ReqId, cancelled: bool)
    | SendFails(id: ReqId)
    | FireTimer(id: ReqId)
    | CancelWait(id: ReqId)
    | Receive(frame: Frame)
    | Take(stream: StreamId, expired: bool, waiter: nat)
    | StopWaiting(stream: StreamId, waiter: nat)

  /** The moves of `_state` outside `_on_disconnect`: `connect`, `aclose` and `_mark_closed`. */
  predicate LifeMove(c: Client, b: Life) {
    match c.life
    case New => b.Connecting? || b.Closed?
    case Connecting => b.Open? || b.Closing? || b.Closed?
    case Open => b.Closing?
    case Closing => b.Closed? && !c.hasSocket
    case Closed => false
  }

  /** The reader task runs from `connect` to `_on_disconnect`. */
  predicate Reading(c: Client) {
    c.hasSocket && !c.hasCloseInfo
  }

  predicate Enabled(c: Client, step: Step) {
    match step
    case SetLife(l) => LifeMove(c, l)
    case Disconnect => Reading(c)
    case Start(ts, m, _) => ts != [] && (m.Some? ==> m.value >= 1)
    case Resume(id, cancelled, _) => CanResumeSubscribe(c, id, cancelled)
    case Close(s, _) => s in c.streams
    case RunTask(i) => i < |c.spawned|
    case CancelTask(i) => i < |c.spawned| && !c.spawned[i].quiet
    case FinishUnsubscribe(id, cancelled) =>
      id in c.waiting && c.waiting[id].Unsubscriber? && id in c.futures && (cancelled || !c.futures[id].Waiting?)
    case Call => c.life.Open?
    case FinishCall(id, cancelled) =>
      id in c.waiting && c.waiting[id].Caller? && id in c.futures && (cancelled || !c.futures[id].Waiting?)
    case SendFails(id) => id in c.waiting && !c.waiting[id].Subscriber? && id in c.futures
    case FireTimer(id) => true
    case CancelWait(id) => id in c.waiting
    case Receive(_) => Reading(c)
    case Take(s, _, _) => s in c.streams
    case StopWaiting(s, _) => s in c.streams
  }

  function Apply(c: Client, step: Step): Client
    requires Enabled(c, step)
  {
    match step
    case SetLife(l) => c.(life := l, hasSocket := c.hasSocket || l.Open?)
    case Disconnect => OnDisconnect(c)
    case Start(ts, m, refused) => StartSubscribe(c, ts, m, refused)
    case Resume(id, cancelled, refused) => ResumeSubscribe(c, id, cancelled, refused)
    case Close(s, nowait) => CloseStream(c, s, nowait)
    case RunTask(i) => RunSpawned(c, i)
    case CancelTask(i) => CancelSpawned(c, i)
    case FinishUnsubscribe(id, _) => ResumeUnsubscribe(c, id)
    case Call => SendRequest(c, Caller, Other(c.nextReq))
    case FinishCall(id, _) => FinishSend(c, id)
    // The send task failed, though not because the connection was closed: that is raised, whatever
    // the future says.
    case SendFails(id) => if c.waiting[id].Caller? then FinishSend(c, id) else ResumeUnsubscribe(c, id)
    case FireTimer(id) => Expire(c, id)
    case CancelWait(id) => CancelFuture(c, id)
    case Receive(f) => Dispatch(c, f)
    case Take(s, expired, w) => SetQueue(c, s, EventStream.Apply(c.streams[s].queue, DoGet(expired, w)))
    case StopWaiting(s, w) => SetQueue(c, s, EventStream.Apply(c.streams[s].queue, DoUnwait(w)))
  }
}
