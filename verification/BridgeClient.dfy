/** The client's objects and the methods that change them in place (`src/logos_bridge/client.py`,
`src/logos_bridge/subscription.py`).

Each method is one stretch of the source between two awaits and is proved to do what the function
of the same name in `ClientState` says; the invariants proved of those functions are therefore
invariants of the objects. `Client.Valid` ties every field of the client, its streams, entries and
futures to the value `model`, which only history and proofs look at; a method that changes one
object says so in its `modifies` clause and puts the change into `model` in the same step. */
module BridgeClient {
  import opened Wrappers
  import opened EventStream
  import opened ClientState
  import ClientInvariant
  import opened ClientRun
  import ClientSteps

  /** A request's future. */
  class Future {
    const id: ReqId
    var outcome: Outcome

    constructor (id: ReqId)
      ensures this.id == id && outcome == Waiting
    {
      this.id := id;
      outcome := Waiting;
    }
  }

  /** `_Stream`. `task` is the frame of the `_subscribe` coroutine that opened it. */
  class Stream {
    const id: StreamId
    const maxPending: Option<nat>
    var items: seq<Event>
    var entries: seq<SubEntry>
    var received: nat
    var highWater: nat
    var ended: bool
    var endCause: Cause
    var waiters: seq<nat>
    var task: Task
    ghost var pushed: seq<Event>
    ghost var handed: seq<Event>

    ghost function Q(): Queue
      reads this
    {
      Queue(maxPending, items, received, highWater, if ended then Some(endCause) else None, waiters, pushed, handed)
    }

    ghost function Row(): StreamRow
      reads this
    {
      StreamRow(Sids(entries), Q(), task)
    }

    constructor (id: StreamId, maxPending: Option<nat>)
      ensures this.id == id && Row() == StreamRow([], NewQueue(maxPending), Looping(0)) && entries == []
    {
      this.id := id;
      this.maxPending := maxPending;
      items, received, highWater := [], 0, 0;
      entries := [];
      ended, endCause := false, ByClient;
      waiters := [];
      task := Looping(0);
      pushed, handed := [], [];
    }

    predicate IsFull()
      reads this
      ensures IsFull() == Q().Full()
    {
      maxPending.Some? && |items| >= maxPending.value
    }

    method PushEvent(event: Event)
      modifies this`items, this`received, this`highWater, this`waiters, this`pushed
      ensures Q() == Push(old(Q()), event)
    {
      items := items + [event];
      received := received + 1;
      var depth := |items|;
      if depth > highWater {
        highWater := depth;
      }
      pushed := pushed + [event];
      Wake();
    }

    method EndWith(cause: Cause)
      modifies this`ended, this`endCause, this`waiters
      ensures Q() == End(old(Q()), cause)
    {
      if ended {
        return;
      }
      ended := true;
      endCause := cause;
      Wake();
    }

    method Wake()
      modifies this`waiters
      ensures waiters == []
    {
      waiters := [];
    }

    /** `get` up to its next suspension; `waiter` is the future it would wait on. */
    method GetTurn(expired: bool, waiter: nat) returns (got: Got)
      modifies this`items, this`waiters, this`handed
      ensures (Q(), got) == Get(old(Q()), expired, waiter)
    {
      if items != [] {
        got := Item(items[0]);
        handed := handed + [items[0]];
        items := items[1..];
      } else if ended {
        got := Raised(endCause);
      } else if expired {
        got := TimedOut;
      } else {
        waiters := waiters + [waiter];
        got := Blocked(waiter);
      }
    }

    /** The `finally` of `get`. */
    method Forget(waiter: nat)
      modifies this`waiters
      ensures Q() == Unwait(old(Q()), waiter)
    {
      waiters := Remove(waiters, waiter);
    }
  }

  /** `_SubEntry`. */
  class SubEntry {
    const sid: Sid
    const stream: Stream
    const target: Target
    var state: EntryState

    constructor (sid: Sid, stream: Stream, target: Target)
      ensures this.sid == sid && this.stream == stream && this.target == target && state == Pending
    {
      this.sid, this.stream, this.target, state := sid, stream, target, Pending;
    }
  }

  function Sids(es: seq<SubEntry>): (xs: seq<Sid>)
    ensures |xs| == |es|
  {
    seq(|es|, i requires 0 <= i < |es| => es[i].sid)
  }

  /** `AsyncBridgeClient`. `model` is the client as a value, with its history; the ghost tables hold
      every object made so far. */
  class Client {
    var life: Life
    var hasSocket: bool
    var hasCloseInfo: bool
    var nextReq: nat
    var nextSid: nat
    var nextStream: nat
    var pending: map<ReqId, Future>
    var subs: map<Sid, SubEntry>
    var waiting: map<ReqId, Owner>
    var spawned: seq<Spawn>
    var late: nat
    var unrouted: nat
    var sent: seq<Request>
    ghost var futures: map<ReqId, Future>
    ghost var entries: map<Sid, SubEntry>
    ghost var streams: map<StreamId, Stream>
    ghost var model: ClientState.Client

    constructor ()
      ensures Valid() && model == NewClient && Good(model)
    {
      life, hasSocket, hasCloseInfo := New, false, false;
      nextReq, nextSid, nextStream := 1, 1, 0;
      pending, subs, waiting, spawned := map[], map[], map[], [];
      late, unrouted, sent := 0, 0, [];
      futures, entries, streams := map[], map[], map[];
      model := NewClient;
      new;
      ClientInvariant.InitHolds();
      GoodMeans(NewClient);
    }

    /** The fields and the objects are what `model` says. */
    ghost predicate Valid()
      reads this, futures.Values, entries.Values, streams.Values
    {
      forall k {:trigger Look(k)} :: Look(k) && k == 0 ==>
        && Fields() && Routed(model.subs) && Awaited(model.pending)
        && Futures(model.futures) && Subscribed(model.entries, model.streams)
    }

    lemma ValidMeans()
      ensures Valid() <==>
        && Fields() && Routed(model.subs) && Awaited(model.pending)
        && Futures(model.futures) && Subscribed(model.entries, model.streams)
    {
      assert Look(0);
    }

    ghost predicate Fields()
      reads this`life, this`hasSocket, this`hasCloseInfo, this`nextReq, this`nextSid, this`nextStream
      reads this`waiting, this`spawned, this`late, this`unrouted, this`sent, this`model
    {
      && model.life == life && model.hasSocket == hasSocket && model.hasCloseInfo == hasCloseInfo
      && model.nextReq == nextReq && model.nextSid == nextSid && model.nextStream == nextStream
      && model.waiting == waiting && model.spawned == spawned && model.sent == sent
      && model.late == late && model.unrouted == unrouted
    }

    ghost predicate Routed(ids: set<Sid>)
      reads this`subs, this`entries
    {
      ids == subs.Keys && forall x :: x in subs ==> x in entries && subs[x] == entries[x]
    }

    ghost predicate Awaited(ids: set<ReqId>)
      reads this`pending, this`futures
    {
      ids == pending.Keys && forall id :: id in pending ==> id in futures && pending[id] == futures[id]
    }

    ghost predicate Futures(outcomes: map<ReqId, Outcome>)
      reads this`futures, futures.Values
    {
      forall k {:trigger Look(k)} :: Look(k) && k == 1 ==>
        && outcomes.Keys == futures.Keys
        && forall id :: id in futures ==> futures[id].id == id && futures[id].outcome == outcomes[id]
    }

    ghost predicate Entries(rows: map<Sid, Entry>)
      reads this`entries, this`streams, entries.Values
    {
      forall k {:trigger Look(k)} :: Look(k) && k == 2 ==>
        && rows.Keys == entries.Keys
        && forall x :: x in entries ==> EntryIs(entries[x], x, rows[x]) && Owned(entries[x].stream)
    }

    /** The entries and streams are what the rows say, and listed once each. */
    ghost predicate Subscribed(rows: map<Sid, Entry>, streamRows: map<StreamId, StreamRow>)
      reads this`entries, this`streams, entries.Values, streams.Values
    {
      Entries(rows) && Streams(streamRows) && Listed()
    }

    ghost predicate Streams(rows: map<StreamId, StreamRow>)
      reads this`streams, streams.Values
    {
      forall k {:trigger Look(k)} :: Look(k) && k == 3 ==>
        && rows.Keys == streams.Keys
        && forall s :: s in streams ==> StreamIs(streams[s], s, rows[s])
    }

    ghost predicate Listed()
      reads this`entries, this`streams, streams.Values`entries
    {
      forall k {:trigger Look(k)} :: Look(k) && k == 4 ==>
        forall s :: s in streams ==> Lists(streams[s])
    }

    ghost predicate Owned(stream: Stream)
      reads this`streams
    {
      stream.id in streams && streams[stream.id] == stream
    }

    ghost predicate Known(entry: SubEntry)
      reads this`entries
    {
      entry.sid in entries && entries[entry.sid] == entry
    }

    ghost predicate Lists(stream: Stream)
      reads this`entries, stream`entries
    {
      && (forall i :: 0 <= i < |stream.entries| ==> Known(stream.entries[i]))
      && (forall i, j :: 0 <= i < j < |stream.entries| ==> stream.entries[i] != stream.entries[j])
    }

    // ---------------------------------------------------------------- single changes

    method Mark(entry: SubEntry, state: EntryState, ghost rows: map<Sid, Entry>)
      requires Entries(rows) && Known(entry)
      modifies entry`state
      ensures entry.sid in rows && Entries(rows[entry.sid := rows[entry.sid].(state := state)])
    {
      assert Look(2);
      entry.state := state;
    }

    method SetEntryState(entry: SubEntry, state: EntryState)
      requires Valid() && Known(entry)
      modifies entry`state, this`model
      ensures Valid() && entry.sid in old(model).entries && model == SetState(old(model), entry.sid, state)
    {
      hide Valid, Futures, Entries, Streams, Listed, Routed, Awaited;
      ValidMeans();
      Mark(entry, state, model.entries);
      model := SetState(model, entry.sid, state);
      ValidMeans();
    }

    method Pop(sid: Sid)
      requires Valid()
      modifies this`subs, this`model
      ensures Valid() && model == Unroute(old(model), sid)
    {
      hide Valid, Futures, Subscribed, Awaited;
      ValidMeans();
      subs := subs - {sid};
      model := Unroute(model, sid);
      ValidMeans();
    }

    method EndQueue(stream: Stream, cause: Cause)
      requires Valid() && Owned(stream)
      modifies stream`ended, stream`endCause, stream`waiters, this`model
      ensures Valid() && stream.id in old(model).streams && model == ClientState.EndQueue(old(model), stream.id, cause)
    {
      hide Valid, Futures, Entries, Streams, Listed, Routed, Awaited;
      StreamKnown(stream);
      ValidMeans();
      ghost var rows := model.streams;
      EndRow(stream, cause, rows);
      model := ClientState.EndQueue(model, stream.id, cause);
      ValidMeans();
    }

    method EndRow(stream: Stream, cause: Cause, ghost rows: map<StreamId, StreamRow>)
      requires Streams(rows) && Owned(stream)
      modifies stream`ended, stream`endCause, stream`waiters
      ensures stream.id in rows
      ensures Streams(rows[stream.id := rows[stream.id].(queue := End(rows[stream.id].queue, cause))])
    {
      assert Look(3);
      stream.EndWith(cause);
    }

    method PushTo(stream: Stream, event: Event)
      requires Valid() && Owned(stream)
      modifies stream`items, stream`received, stream`highWater, stream`waiters, stream`pushed, this`model
      ensures Valid() && stream.id in old(model).streams
      ensures model == SetQueue(old(model), stream.id, Push(old(model).streams[stream.id].queue, event))
    {
      hide Valid, Futures, Entries, Streams, Listed, Routed, Awaited;
      StreamKnown(stream);
      ValidMeans();
      ghost var rows := model.streams;
      PushRow(stream, event, rows);
      model := SetQueue(model, stream.id, Push(model.streams[stream.id].queue, event));
      ValidMeans();
    }

    method PushRow(stream: Stream, event: Event, ghost rows: map<StreamId, StreamRow>)
      requires Streams(rows) && Owned(stream)
      modifies stream`items, stream`received, stream`highWater, stream`waiters, stream`pushed
      ensures stream.id in rows
      ensures Streams(rows[stream.id := rows[stream.id].(queue := Push(rows[stream.id].queue, event))])
    {
      assert Look(3);
      stream.PushEvent(event);
    }

    method SetTask(stream: Stream, task: Task)
      requires Valid() && Owned(stream)
      modifies stream`task, this`model
      ensures Valid() && stream.id in old(model).streams && model == ClientState.SetTask(old(model), stream.id, task)
    {
      hide Valid, Futures, Entries, Streams, Listed, Routed, Awaited;
      StreamKnown(stream);
      ValidMeans();
      ghost var rows := model.streams;
      TaskRow(stream, task, rows);
      model := ClientState.SetTask(model, stream.id, task);
      ValidMeans();
    }

    method TaskRow(stream: Stream, task: Task, ghost rows: map<StreamId, StreamRow>)
      requires Streams(rows) && Owned(stream)
      modifies stream`task
      ensures stream.id in rows && Streams(rows[stream.id := rows[stream.id].(task := task)])
    {
      assert Look(3);
      stream.task := task;
    }

    /** Entries that differ in their history only are the same objects. */
    lemma SameObjects(rows: map<Sid, Entry>, rows': map<Sid, Entry>)
      requires Entries(rows) && rows.Keys == rows'.Keys
      requires forall x :: x in rows ==>
        rows'[x].stream == rows[x].stream && rows'[x].target == rows[x].target && rows'[x].state == rows[x].state
      ensures Entries(rows')
    {
      assert Look(2);
    }

    /** A task that will unsubscribe `sid` is created. */
    method AddTask(sid: Sid, quiet: bool)
      requires Valid()
      modifies this`spawned, this`model
      ensures Valid() && model == SpawnAll(old(model), [sid], quiet)
    {
      hide Valid, Futures, Entries, Streams, Listed, Routed, Awaited;
      ValidMeans();
      spawned := spawned + [Spawn(sid, quiet)];
      ghost var d := SpawnAll(model, [sid], quiet);
      SameObjects(model.entries, d.entries);
      assert d.spawned == spawned;
      model := d;
      ValidMeans();
    }

    /** `_spawn_unsubscribe`. */
    method SpawnUnsubscribe(sid: Sid)
      requires Valid()
      modifies this`spawned, this`model
      ensures Valid() && model == SpawnQuiet(old(model), [sid])
    {
      IsOpen();
      if !life.Open? {
        return;
      }
      AddTask(sid, true);
    }

    lemma IsOpen()
      requires Valid()
      ensures model.life == life && model.subs == subs.Keys && model.pending == pending.Keys
    {
      assert Look(0);
    }

    // ---------------------------------------------------------------- ending a stream

    /** `_detach`. */
    method Detach(stream: Stream) returns (live: seq<Sid>)
      requires Valid() && Owned(stream)
      modifies this`subs, this`model, entries.Values`state
      ensures Valid() && stream.id in old(model).streams
      ensures model == ClientState.Detach(old(model), stream.id)
      ensures live == LiveSids(old(model), stream.id)
    {
      ghost var c := model;
      StreamKnown(stream);
      ghost var xs := Sids(stream.entries);
      live := [];
      var k := 0;
      while k < |stream.entries|
        invariant k <= |stream.entries| && Valid()
        invariant model == DetachSids(c, xs[..k])
        invariant live == Keep(xs[..k], InState(c, xs, Active))
      {
        var entry := stream.entries[k];
        EntryKnown(stream, k);
        DetachNext(c, xs, k);
        KeepNext(xs, k, InState(c, xs, Active));
        if entry.state.Active? {
          SetEntryState(entry, Released);
          Pop(entry.sid);
          live := live + [entry.sid];
        } else if entry.state.Pending? {
          SetEntryState(entry, Doomed);
        }
        k := k + 1;
      }
      assert xs[..k] == xs;
    }

    /** `_release_stream`. */
    method ReleaseStream(stream: Stream)
      requires Valid() && Owned(stream)
      modifies this`subs, this`spawned, this`model, entries.Values`state
      ensures Valid() && stream.id in old(model).streams
      ensures model == ClientState.ReleaseStream(old(model), stream.id)
    {
      var live := Detach(stream);
      ghost var d := model;
      SpawnNone(d, true);
      var k := 0;
      while k < |live|
        invariant k <= |live| && Valid()
        invariant model == SpawnQuiet(d, live[..k])
      {
        SpawnNext(d, live, k, true);
        SpawnUnsubscribe(live[k]);
        k := k + 1;
      }
      assert live[..k] == live;
    }

    /** `_close_stream_nowait`, and `_close_stream` up to its await. */
    method CloseStream(stream: Stream, nowait: bool)
      requires Valid() && Owned(stream)
      modifies this`subs, this`spawned, this`model, entries.Values`state, stream`ended, stream`endCause, stream`waiters
      ensures Valid() && stream.id in old(model).streams
      ensures model == ClientState.CloseStream(old(model), stream.id, nowait)
      ensures Good(old(model)) ==> Good(model)
    {
      StreamKnown(stream);
      ClosesGood(model, stream.id, nowait);
      StreamKnown(stream);
      if stream.ended {
        return;
      }
      EndQueue(stream, ByClient);
      if nowait {
        ReleaseStream(stream);
        return;
      }
      var live := Detach(stream);
      ghost var d := model;
      SpawnNone(d, false);
      var k := 0;
      while k < |live|
        invariant k <= |live| && Valid()
        invariant model == SpawnAll(d, live[..k], false)
      {
        SpawnNext(d, live, k, false);
        AddTask(live[k], false);
        k := k + 1;
      }
      assert live[..k] == live;
    }

    // ---------------------------------------------------------------- frames from the bridge

    /** `_route_event`. */
    method RouteEvent(sid: Sid, data: nat)
      requires Valid()
      modifies this`subs, this`spawned, this`unrouted, this`model, entries.Values`state, streams.Values
      ensures Valid() && model == ClientState.RouteEvent(old(model), sid, data)
    {
      IsOpen();
      if sid !in subs {
        CountUnrouted();
        return;
      }
      var entry := subs[sid];
      RoutedKnown(sid);
      if !(entry.state.Pending? || entry.state.Active?) {
        return;
      }
      var stream := entry.stream;
      StreamKnown(stream);
      if stream.ended {
        return;
      }
      if stream.IsFull() {
        EndQueue(stream, ByOverflow);
        ReleaseStream(stream);
        return;
      }
      PushTo(stream, Event(sid, data));
    }

    method CountUnrouted()
      requires Valid()
      modifies this`unrouted, this`model
      ensures Valid() && model == old(model).(unrouted := old(model).unrouted + 1)
    {
      hide Valid, Futures, Entries, Streams, Listed, Routed, Awaited;
      ValidMeans();
      unrouted := unrouted + 1;
      model := model.(unrouted := model.unrouted + 1);
      ValidMeans();
    }

    lemma RoutedKnown(sid: Sid)
      requires Valid() && sid in subs
      ensures var e := subs[sid];
        Known(e) && sid in model.entries && EntryIs(e, sid, model.entries[sid]) && Owned(e.stream)
    {
      assert Look(0) && Look(2);
    }

    /** `_route_termination`. */
    method RouteTermination(sid: Sid)
      requires Valid()
      modifies this`subs, this`spawned, this`model, entries.Values`state, streams.Values
      ensures Valid() && model == ClientState.RouteTermination(old(model), sid)
    {
      IsOpen();
      if sid !in subs {
        return;
      }
      var entry := subs[sid];
      RoutedKnown(sid);
      Pop(sid);
      var wasZombie := entry.state.Zombie?;
      SetEntryState(entry, Terminated);
      if wasZombie {
        return;
      }
      StreamKnown(entry.stream);
      EndQueue(entry.stream, ByBridge(sid));
      ReleaseStream(entry.stream);
    }

    // ---------------------------------------------------------------- requests

    /** A request's future is done. */
    method Complete(future: Future, outcome: Outcome)
      requires Valid() && Awaits(future)
      modifies future`outcome, this`model
      ensures Valid() && future.id in old(model).futures
      ensures model == old(model).(futures := old(model).futures[future.id := outcome])
    {
      hide Valid, Futures, Entries, Streams, Listed, Routed, Awaited;
      ValidMeans();
      CompleteRow(future, outcome, model.futures);
      model := model.(futures := model.futures[future.id := outcome]);
      ValidMeans();
    }

    method CompleteRow(future: Future, outcome: Outcome, ghost rows: map<ReqId, Outcome>)
      requires Futures(rows) && Awaits(future)
      modifies future`outcome
      ensures future.id in rows && Futures(rows[future.id := outcome])
    {
      assert Look(1);
      future.outcome := outcome;
    }

    ghost predicate Awaits(future: Future)
      reads this`futures
    {
      future.id in futures && futures[future.id] == future
    }

    lemma FutureKnown(future: Future)
      requires Valid() && Awaits(future)
      ensures future.id in model.futures && model.futures[future.id] == future.outcome
    {
      assert Look(0) && Look(1);
    }

    lemma PendingKnown(id: ReqId)
      requires Valid() && id in pending
      ensures pending[id].id == id && Awaits(pending[id])
      ensures id in model.futures && model.futures[id] == pending[id].outcome
    {
      assert Look(0) && Look(1);
    }

    method PopPending(id: ReqId)
      requires Valid()
      modifies this`pending, this`model
      ensures Valid() && model == old(model).(pending := old(model).pending - {id})
    {
      hide Valid, Futures, Subscribed, Entries, Streams, Listed, Routed;
      ValidMeans();
      pending := pending - {id};
      model := model.(pending := model.pending - {id});
      ValidMeans();
    }

    /** `_dispatch` of a result or an error. */
    method RouteResponse(id: ReqId, ok: bool)
      requires Valid()
      modifies this`pending, this`late, this`model, futures.Values
      ensures Valid() && model == ClientState.RouteResponse(old(model), id, ok)
    {
      IsOpen();
      if id !in pending {
        CountLate();
        return;
      }
      var future := pending[id];
      PendingKnown(id);
      PopPending(id);
      if !future.outcome.Waiting? {
        return;
      }
      Complete(future, Answered(ok));
    }

    /** `_dispatch`. */
    method Dispatch(frame: Frame)
      requires Valid()
      modifies this`pending, this`late, this`subs, this`spawned, this`unrouted, this`model
      modifies futures.Values, entries.Values`state, streams.Values
      ensures Valid() && model == ClientState.Dispatch(old(model), frame)
      ensures Good(old(model)) && Reading(old(model)) ==> Good(model)
    {
      match frame {
        case Response(id, ok) => RouteResponse(id, ok);
        case EventFrame(sid, data) => RouteEvent(sid, data);
        case TerminatedFrame(sid) => RouteTermination(sid);
        case Uncorrelated =>
      }
      ReceiveGood(old(model), frame);
    }

    method CountLate()
      requires Valid()
      modifies this`late, this`model
      ensures Valid() && model == old(model).(late := old(model).late + 1)
    {
      hide Valid, Futures, Entries, Streams, Listed, Routed, Awaited;
      ValidMeans();
      late := late + 1;
      model := model.(late := model.late + 1);
      ValidMeans();
    }

    /** `_expire`. */
    method Expire(id: ReqId)
      requires Valid()
      modifies this`pending, this`model, futures.Values
      ensures Valid() && model == ClientState.Expire(old(model), id)
      ensures Good(old(model)) ==> Good(model)
    {
      ExpiresGood(model, id);
      IsOpen();
      if id !in pending {
        return;
      }
      var future := pending[id];
      PendingKnown(id);
      PopPending(id);
      if !future.outcome.Waiting? {
        return;
      }
      Complete(future, Expired);
    }

    /** `_send_request` up to its await. */
    method SendRequest(owner: Owner, request: Request) returns (future: Future)
      requires Valid() && model.nextReq !in model.futures
      modifies this`nextReq, this`pending, this`futures, this`waiting, this`sent, this`model
      ensures Valid() && model == ClientState.SendRequest(old(model), owner, request)
      ensures future.id == old(model).nextReq && Awaits(future)
    {
      WaitingKnown();
      future := new Future(nextReq);
      Enter(future);
      Suspend(owner, request);
    }

    method Enter(future: Future)
      requires Valid() && future.id !in model.futures && future.outcome == Waiting
      modifies this`pending, this`futures, this`model
      ensures Valid() && Awaits(future)
      ensures model == old(model).(pending := old(model).pending + {future.id},
                                   futures := old(model).futures[future.id := Waiting])
    {
      hide Valid;
      Enroll(future);
      Await(future);
    }

    method Await(future: Future)
      requires Valid() && Awaits(future)
      modifies this`pending, this`model
      ensures Valid() && model == old(model).(pending := old(model).pending + {future.id})
    {
      hide Valid, Futures, Subscribed, Entries, Streams, Listed, Routed;
      ValidMeans();
      pending := pending[future.id := future];
      model := model.(pending := model.pending + {future.id});
      ValidMeans();
    }

    ghost method Enroll(future: Future)
      requires Valid() && future.id !in model.futures && future.outcome == Waiting
      modifies this`futures, this`model
      ensures Valid() && future.id in futures && futures[future.id] == future
      ensures model == old(model).(futures := old(model).futures[future.id := Waiting])
    {
      hide Valid, Futures, Subscribed, Entries, Streams, Listed, Routed;
      ValidMeans();
      Register(future, model.futures);
      model := model.(futures := model.futures[future.id := Waiting]);
      ValidMeans();
    }

    ghost method Register(future: Future, rows: map<ReqId, Outcome>)
      requires Futures(rows) && future.id !in rows && future.outcome == Waiting
      modifies this`futures
      ensures futures == old(futures)[future.id := future] && future.id !in old(futures)
      ensures Futures(rows[future.id := Waiting])
    {
      assert Look(1);
      futures := futures[future.id := future];
    }

    method Suspend(owner: Owner, request: Request)
      requires Valid()
      modifies this`nextReq, this`waiting, this`sent, this`model
      ensures Valid()
      ensures model == old(model).(nextReq := old(model).nextReq + 1,
                                   waiting := old(model).waiting[old(model).nextReq := owner],
                                   sent := old(model).sent + [request])
    {
      hide Valid, Futures, Entries, Streams, Listed, Routed, Awaited;
      ValidMeans();
      model := model.(nextReq := model.nextReq + 1, waiting := model.waiting[nextReq := owner], sent := model.sent + [request]);
      waiting := waiting[nextReq := owner];
      sent := sent + [request];
      nextReq := nextReq + 1;
      ValidMeans();
    }

    /** The `finally` of `_send_request`. */
    method FinishSend(future: Future)
      requires Valid() && Awaits(future)
      modifies this`pending, this`waiting, this`model, future`outcome
      ensures Valid() && future.id in old(model).futures
      ensures model == ClientState.FinishSend(old(model), future.id)
    {
      var id := future.id;
      FutureKnown(future);
      IsOpen();
      if id in pending {
        PendingKnown(id);
      }
      if id in pending && pending[id] == future {
        PopPending(id);
      }
      if future.outcome.Waiting? {
        Complete(future, Cancelled);
      }
      Awake(id);
      assert model.futures == ClientState.FinishSend(old(model), id).futures;
    }

    method Awake(id: ReqId)
      requires Valid()
      modifies this`waiting, this`model
      ensures Valid() && model == old(model).(waiting := old(model).waiting - {id})
    {
      hide Valid, Futures, Entries, Streams, Listed, Routed, Awaited;
      ValidMeans();
      waiting := waiting - {id};
      model := model.(waiting := model.waiting - {id});
      ValidMeans();
    }

    // ---------------------------------------------------------------- unsubscribing

    /** The `finally` of `_unsubscribe_quietly`. */
    method ForgetZombie(sid: Sid)
      requires Valid()
      modifies this`subs, this`model
      ensures Valid() && model == ClientState.ForgetZombie(old(model), sid)
    {
      IsOpen();
      if sid in subs {
        RoutedKnown(sid);
        if subs[sid].state.Zombie? {
          Pop(sid);
        }
      }
    }

    /** The coroutine that sent an unsubscribe resumes. */
    method ResumeUnsubscribe(future: Future)
      requires Valid() && Awaits(future)
      requires future.id in model.waiting && model.waiting[future.id].Unsubscriber?
      modifies this`pending, this`waiting, this`subs, this`model, future`outcome
      ensures Valid() && future.id in old(model).futures
      ensures model == ClientState.ResumeUnsubscribe(old(model), future.id)
    {
      FutureKnown(future);
      WaitingKnown();
      var owner := waiting[future.id];
      FinishSend(future);
      if owner.quiet {
        ForgetZombie(owner.sid);
      }
    }

    lemma WaitingKnown()
      requires Valid()
      ensures model.waiting == waiting && model.spawned == spawned && model.nextReq == nextReq && model.nextSid == nextSid && model.nextStream == nextStream
      ensures model.hasCloseInfo == hasCloseInfo && model.futures.Keys == futures.Keys
    {
      assert Look(0) && Look(1);
    }

    /** An unsubscribe task runs for the first time. */
    method RunSpawned(k: nat)
      requires Valid() && k < |model.spawned| && model.nextReq !in model.futures
      modifies this`nextReq, this`pending, this`futures, this`waiting, this`sent, this`spawned, this`subs, this`model
      ensures Valid() && model == ClientState.RunSpawned(old(model), k)
      ensures Good(old(model)) ==> Good(model)
    {
      RunsGood(model, k);
      WaitingKnown();
      IsOpen();
      var task := spawned[k];
      ghost var at := |model.sent|;
      Dequeue(k);
      if life.Open? {
        var future := SendRequest(Unsubscriber(task.sid, task.quiet), Unsubscribe(nextReq, task.sid));
        Holds(task.sid, Told(at));
      } else {
        Holds(task.sid, Moot);
        if task.quiet {
          ForgetZombie(task.sid);
        }
      }
    }

    /** A gathered unsubscribe is cancelled before its first turn. */
    method CancelSpawned(k: nat)
      requires Valid() && k < |model.spawned| && !model.spawned[k].quiet
      modifies this`spawned, this`model
      ensures Valid() && model == ClientState.CancelSpawned(old(model), k)
      ensures Good(old(model)) ==> Good(model)
    {
      CancelsGood(model, k);
      ghost var sid := model.spawned[k].sid;
      Dequeue(k);
      Holds(sid, Lost);
    }

    method Dequeue(k: nat)
      requires Valid() && k < |model.spawned|
      modifies this`spawned, this`model
      ensures Valid() && spawned == old(model).spawned[..k] + old(model).spawned[k + 1..]
      ensures model == old(model).(spawned := spawned)
    {
      hide Valid, Futures, Entries, Streams, Listed, Routed, Awaited;
      ValidMeans();
      spawned := spawned[..k] + spawned[k + 1..];
      model := model.(spawned := spawned);
      ValidMeans();
    }

    /** Only the history changes. */
    ghost method Holds(sid: Sid, hold: Hold)
      requires Valid()
      modifies this`model
      ensures Valid() && model == SetHold(old(model), sid, hold)
    {
      assert Look(0);
      ghost var d := SetHold(model, sid, hold);
      SameObjects(model.entries, d.entries);
      model := d;
    }

    // ---------------------------------------------------------------- the connection goes

    /** `_on_disconnect`. */
    method OnDisconnect()
      requires Valid()
      modifies this`hasCloseInfo, this`life, this`pending, this`subs, this`model
      modifies futures.Values, entries.Values`state, streams.Values
      ensures Valid() && model == ClientState.OnDisconnect(old(model))
      ensures Good(old(model)) && Reading(old(model)) ==> Good(model)
    {
      DisconnectedGood(model);
      WaitingKnown();
      if hasCloseInfo {
        return;
      }
      IsOpen();
      var cut, dropped := pending, subs;
      TablesKnown();
      MarkClosed();
      CutPending(cut);
      DropSubs(dropped);
      CutAll(old(model));
    }

    method CutPending(cut: map<ReqId, Future>)
      requires Valid() && forall id :: id in cut ==> cut[id].id == id && Awaits(cut[id])
      modifies this`model, futures.Values
      ensures Valid() && model == CutBy(old(model), cut.Keys)
    {
      ghost var c := model;
      CutNone(c);
      var ids := cut.Keys;
      while ids != {}
        invariant ids <= cut.Keys && Valid()
        invariant model == CutBy(c, cut.Keys - ids)
      {
        var id :| id in ids;
        FutureKnown(cut[id]);
        CutNext(c, cut.Keys - ids, id);
        if cut[id].outcome.Waiting? {
          Complete(cut[id], Cut);
        }
        assert cut.Keys - (ids - {id}) == (cut.Keys - ids) + {id};
        ids := ids - {id};
      }
      assert cut.Keys - ids == cut.Keys;
    }

    method DropSubs(dropped: map<Sid, SubEntry>)
      requires Valid() && forall x :: x in dropped ==> dropped[x].sid == x && Known(dropped[x])
      modifies this`model, entries.Values`state, streams.Values
      ensures Valid() && model == DropBy(old(model), dropped.Keys)
    {
      hide Valid, DropBy, DropOne;
      ghost var c := model;
      DropNone(c, dropped.Keys);
      var sids := dropped.Keys;
      while sids != {}
        invariant sids <= dropped.Keys && Valid()
        invariant model == DropBy(c, dropped.Keys - sids)
      {
        var sid :| sid in sids;
        EntryIsKnown(dropped[sid]);
        StreamKnown(dropped[sid].stream);
        DropStays(c, dropped.Keys - sids, sid);
        DropNext(c, dropped.Keys - sids, sid);
        Drop(dropped[sid]);
        OneMore(dropped.Keys, sids, sid);
        sids := sids - {sid};
      }
    }

    method Drop(entry: SubEntry)
      requires Valid() && Known(entry)
      modifies this`model, entry`state, streams.Values
      ensures Valid() && DropOne(old(model), entry.sid) == model
    {
      EntryIsKnown(entry);
      if entry.state.Pending? || entry.state.Active? || entry.state.Doomed? {
        SetEntryState(entry, Released);
      }
      StreamKnown(entry.stream);
      EndQueue(entry.stream, ByDisconnect);
    }

    lemma TablesKnown()
      requires Valid()
      ensures forall id :: id in pending ==> pending[id].id == id && Awaits(pending[id])
      ensures forall x :: x in subs ==> subs[x].sid == x && Known(subs[x])
    {
      assert Look(0) && Look(1) && Look(2);
    }

    lemma EntryIsKnown(entry: SubEntry)
      requires Valid() && Known(entry)
      ensures entry.sid in model.entries && EntryIs(entry, entry.sid, model.entries[entry.sid]) && Owned(entry.stream)
    {
      assert Look(0) && Look(2);
    }

    method MarkClosed()
      requires Valid()
      modifies this`hasCloseInfo, this`life, this`pending, this`subs, this`model
      ensures Valid() && model == ClosedNow(old(model))
    {
      EmptyTables();
      SetClosed();
    }

    method SetClosed()
      requires Valid()
      modifies this`hasCloseInfo, this`life, this`model
      ensures Valid() && model == old(model).(hasCloseInfo := true, life := Closed)
    {
      hide Valid, Futures, Entries, Streams, Listed, Routed, Awaited;
      ValidMeans();
      hasCloseInfo := true;
      life := Closed;
      model := model.(hasCloseInfo := true, life := Closed);
      ValidMeans();
    }

    method EmptyTables()
      requires Valid()
      modifies this`pending, this`subs, this`model
      ensures Valid() && model == old(model).(pending := {}, subs := {})
    {
      hide Valid, Futures, Subscribed;
      ValidMeans();
      Clear();
      model := model.(pending := {}, subs := {});
      ValidMeans();
    }

    method Clear()
      modifies this`pending, this`subs
      ensures Routed({}) && Awaited({})
    {
      pending, subs := map[], map[];
    }

    // ---------------------------------------------------------------- subscribing

    /** `_abort_subscribe`, while entry `current` is being treated. */
    method AbortSubscribe(stream: Stream, current: nat, maybe: bool)
      requires Valid() && Owned(stream) && current < |stream.entries|
      requires !stream.task.Finished? && stream.task.k == current
      modifies this`subs, this`spawned, this`model, entries.Values`state
      modifies stream`ended, stream`endCause, stream`waiters, stream`task
      ensures Valid() && CanAbort(old(model), stream.id)
      ensures model == ClientState.AbortSubscribe(old(model), stream.id, maybe)
    {
      hide Valid, AbortOne, AbortSids, ClientState.AbortSubscribe;
      ghost var c := model;
      StreamKnown(stream);
      ghost var xs := Sids(stream.entries);
      EndQueue(stream, ByClient);
      SetTask(stream, Finished);
      ghost var c1 := model;
      ghost var cur := xs[current];
      AbortNone(c1, cur, maybe);
      var k := 0;
      while k < |stream.entries|
        invariant k <= |stream.entries| && Valid()
        invariant model == AbortSids(c1, xs[..k], cur, maybe)
      {
        EntryKnown(stream, k);
        AbortNext(c1, xs, k, cur, maybe);
        AbortEntry(stream.entries[k], k == current, maybe);
        OnlyCurrent(stream, k, current);
        k := k + 1;
      }
      assert xs[..k] == xs;
      AbortEnds(c, stream.id, maybe);
    }

    /** The body of the loop of `_abort_subscribe`. */
    method AbortEntry(entry: SubEntry, current: bool, maybe: bool)
      requires Valid() && Known(entry)
      modifies this`subs, this`spawned, this`model, entry`state
      ensures Valid() && AbortOne(old(model), entry.sid, current, maybe) == model
    {
      hide Valid;
      EntryIsKnown(entry);
      IsOpen();
      if current && (entry.state.Pending? || entry.state.Doomed?) {
        if maybe {
          SetEntryState(entry, Zombie);
          SpawnUnsubscribe(entry.sid);
          if !life.Open? {
            Pop(entry.sid);
          }
        } else {
          SetEntryState(entry, Failed);
          Pop(entry.sid);
        }
      } else if entry.state.Active? {
        SetEntryState(entry, Released);
        Pop(entry.sid);
        SpawnUnsubscribe(entry.sid);
      } else if entry.state.Pending? || entry.state.Doomed? {
        SetEntryState(entry, Failed);
        Pop(entry.sid);
      }
    }

    /** The loop of `_subscribe` from entry `stream.task.k` up to its next await. */
    method SubscribeLoop(stream: Stream, refused: bool)
      requires Valid() && Owned(stream) && model.nextReq !in model.futures
      requires stream.task.Looping? && stream.task.k <= |stream.entries|
      modifies this`nextReq, this`pending, this`futures, this`waiting, this`sent
      modifies this`subs, this`spawned, this`model, entries.Values`state
      modifies stream`ended, stream`endCause, stream`waiters, stream`task
      ensures Valid() && AtLoop(old(model), stream.id)
      ensures model == ClientState.SubscribeLoop(old(model), stream.id, refused)
    {
      hide Valid, ClientState.AbortSubscribe, ClientState.SendSubscribe, Current;
      ghost var c := model;
      StreamKnown(stream);
      while stream.task.k < |stream.entries|
        invariant Valid() && stream.task.Looping? && stream.task.k <= |stream.entries|
        invariant model.nextReq !in model.futures && pending == old(pending) && futures == old(futures)
        invariant AtLoop(model, stream.id)
        invariant ClientState.SubscribeLoop(c, stream.id, refused) == ClientState.SubscribeLoop(model, stream.id, refused)
        decreases |stream.entries| - stream.task.k
      {
        var k := stream.task.k;
        var entry := stream.entries[k];
        StreamKnown(stream);
        AtIts(stream, k);
        if !entry.state.Pending? {
          Skip(stream, entry);
          StreamKnown(stream);
          continue;
        }
        Treat(stream, k, refused);
        return;
      }
      StreamKnown(stream);
      assert !AtEntry(model, stream.id);
      SetTask(stream, Finished);
    }

    /** An entry that is not pending is passed over. */
    method Skip(stream: Stream, entry: SubEntry)
      requires Valid() && Owned(stream) && Known(entry)
      requires AtEntry(model, stream.id) && Current(model, stream.id) == entry.sid
      modifies this`subs, this`model, entry`state, stream`task
      ensures Valid() && model == SkipEntry(old(model), stream.id)
      ensures old(stream.task).Looping? && stream.task == Looping(old(stream.task).k + 1)
    {
      EntryIsKnown(entry);
      StreamKnown(stream);
      if entry.state.Doomed? {
        SetEntryState(entry, Released);
        Pop(entry.sid);
      }
      SetTask(stream, Looping(stream.task.k + 1));
      StreamKnown(stream);
    }

    method SendSubscribe(stream: Stream, entry: SubEntry)
      requires Valid() && Owned(stream) && Known(entry) && model.nextReq !in model.futures
      requires AtEntry(model, stream.id) && Current(model, stream.id) == entry.sid
      modifies this`nextReq, this`pending, this`futures, this`waiting, this`sent, this`model, stream`task
      ensures Valid() && model == ClientState.SendSubscribe(old(model), stream.id)
    {
      EntryIsKnown(entry);
      StreamKnown(stream);
      WaitingKnown();
      ghost var c := model;
      var future := SendRequest(Subscriber(stream.id, stream.task.k), Subscribe(nextReq, entry.sid, entry.target));
      Asks(entry.sid, |c.sent|, c.nextReq);
      SetTask(stream, Awaiting(stream.task.k, future.id));
    }

    /** Only the history changes. */
    ghost method Asks(sid: Sid, at: nat, req: ReqId)
      requires Valid() && sid in model.entries
      modifies this`model
      ensures Valid()
      ensures model == old(model).(entries := old(model).entries[sid := old(model).entries[sid].(asking := Asked(at, req))])
    {
      hide Valid, Futures, Entries, Streams, Listed, Routed, Awaited;
      ValidMeans();
      ghost var d := model.(entries := model.entries[sid := model.entries[sid].(asking := Asked(at, req))]);
      SameObjects(model.entries, d.entries);
      model := d;
      ValidMeans();
    }

    /** A new stream, with no entry yet. */
    method OpenStream(maxPending: Option<nat>) returns (stream: Stream)
      requires Valid() && FreshIds(model)
      modifies this`nextStream, this`streams, this`model
      ensures Valid() && fresh(stream) && Owned(stream) && stream.entries == [] && stream.task == Looping(0)
      ensures stream.id == old(model).nextStream && streams.Values == old(streams.Values) + {stream}
      ensures model == NewStream(old(model), [], maxPending)
    {
      WaitingKnown();
      stream := new Stream(nextStream, maxPending);
      NoNewEntries(model, maxPending);
      RegisterStream(stream, stream.Row());
    }

    method RegisterStream(stream: Stream, ghost row: StreamRow)
      requires Valid() && stream.Row() == row && stream.id == model.nextStream && stream.entries == []
      requires model.nextStream !in model.streams
      modifies this`nextStream, this`streams, this`model
      ensures Valid() && Owned(stream) && streams.Values == old(streams.Values) + {stream}
      ensures model == old(model).(streams := old(model).streams[stream.id := row], nextStream := stream.id + 1)
    {
      hide Valid, Futures, Subscribed, Routed, Awaited;
      EnrollStream(stream, row);
      ValidMeans();
      nextStream := nextStream + 1;
      model := model.(nextStream := stream.id + 1);
      ValidMeans();
    }

    ghost method EnrollStream(stream: Stream, row: StreamRow)
      requires Valid() && stream.Row() == row && stream.entries == [] && stream.id !in model.streams
      modifies this`streams, this`model
      ensures Valid() && Owned(stream) && streams.Values == old(streams.Values) + {stream}
      ensures model == old(model).(streams := old(model).streams[stream.id := row])
    {
      hide Valid, Futures, Entries, Streams, Listed, Routed, Awaited;
      ValidMeans();
      AddStream(stream, model.streams, model.entries);
      model := model.(streams := model.streams[stream.id := row]);
      ValidMeans();
    }

    lemma NoSuchStream(stream: Stream, rows: map<StreamId, StreamRow>)
      requires Streams(rows) && stream.id !in rows
      ensures stream.id !in streams
    {
      assert Look(3);
    }

    ghost method PutStream(stream: Stream, rows: map<StreamId, StreamRow>)
      requires Streams(rows) && stream.id !in rows
      modifies this`streams
      ensures streams == old(streams)[stream.id := stream] && Streams(rows[stream.id := stream.Row()])
      ensures streams.Values == old(streams.Values) + {stream}
    {
      NoSuchStream(stream, rows);
      assert Look(3);
      ValuesGrow(streams, stream.id, stream);
      streams := streams[stream.id := stream];
    }

    ghost method AddStream(stream: Stream, rows: map<StreamId, StreamRow>, objects: map<Sid, Entry>)
      requires Streams(rows) && Listed() && Entries(objects) && stream.id !in rows && stream.entries == []
      modifies this`streams
      ensures Streams(rows[stream.id := stream.Row()]) && Listed() && Owned(stream) && Entries(objects)
      ensures streams.Values == old(streams.Values) + {stream}
    {
      hide Streams;
      assert Look(2) && Look(4);
      NoSuchStream(stream, rows);
      PutStream(stream, rows);
      forall x | x in entries
        ensures EntryIs(entries[x], x, objects[x]) && Owned(entries[x].stream)
      {
        assert old(Owned(entries[x].stream));
      }
    }

    /** One more entry of a stream that is being opened. */
    method AddEntry(stream: Stream, target: Target)
      requires Valid() && Owned(stream) && model.nextSid !in model.entries
      modifies this`nextSid, this`entries, this`subs, this`model, stream`entries
      ensures Valid() && AddedTo(old(model), stream.id, target) == model
      ensures forall x :: x in entries ==> (x in old(entries) && entries[x] == old(entries[x])) || fresh(entries[x])
    {
      WaitingKnown();
      StreamKnown(stream);
      var entry := new SubEntry(nextSid, stream, target);
      Enlist(stream, entry);
    }

    method Enlist(stream: Stream, entry: SubEntry)
      requires Valid() && Owned(stream) && entry.sid == model.nextSid && entry.sid !in model.entries
      requires entry.stream == stream && entry.state.Pending?
      modifies this`nextSid, this`entries, this`subs, this`model, stream`entries
      ensures Valid() && AddedTo(old(model), stream.id, entry.target) == model
      ensures entries == old(entries)[entry.sid := entry]
    {
      StreamKnown(stream);
      assert Look(0);
      ghost var row := model.streams[stream.id];
      ghost var first := Entry(stream.id, |row.sids|, entry.target, Pending, NotAsked, Held);
      EnlistObject(stream, entry, model.entries, first, model.streams, model.subs);
      Adopt(entry, model.entries[entry.sid := first], model.streams[stream.id := row.(sids := row.sids + [entry.sid])]);
    }

    method Adopt(entry: SubEntry, ghost objects: map<Sid, Entry>, ghost rows: map<StreamId, StreamRow>)
      requires Fields() && Routed(model.subs) && Awaited(model.pending) && Futures(model.futures)
      requires Entries(objects) && Streams(rows) && Listed() && Known(entry) && entry.sid == model.nextSid
      modifies this`nextSid, this`subs, this`model
      ensures Valid()
      ensures model == old(model).(entries := objects, subs := old(model).subs + {entry.sid}, streams := rows,
                                   nextSid := entry.sid + 1)
    {
      hide Valid, Futures, Entries, Streams, Listed, Awaited, Routed;
      Route(entry, model.subs);
      nextSid := nextSid + 1;
      model := model.(entries := objects, subs := model.subs + {entry.sid}, streams := rows, nextSid := entry.sid + 1);
      ValidMeans();
    }

    method EnlistObject(stream: Stream, entry: SubEntry, ghost objects: map<Sid, Entry>, ghost first: Entry,
                        ghost rows: map<StreamId, StreamRow>, ghost ids: set<Sid>)
      requires Entries(objects) && Streams(rows) && Listed() && Owned(stream) && Routed(ids)
      requires entry.sid !in objects && entry.stream == stream && EntryIs(entry, entry.sid, first)
      modifies this`entries, stream`entries
      ensures entries == old(entries)[entry.sid := entry] && entry.sid !in old(entries)
      ensures Entries(objects[entry.sid := first]) && Listed() && Routed(ids)
      ensures stream.id in rows && Streams(rows[stream.id := rows[stream.id].(sids := rows[stream.id].sids + [entry.sid])])
    {
      RegisterEntry(entry, objects, first);
      Append(stream, entry, rows);
    }

    method Route(entry: SubEntry, ghost ids: set<Sid>)
      requires Routed(ids) && Known(entry)
      modifies this`subs
      ensures Routed(ids + {entry.sid})
    {
      subs := subs[entry.sid := entry];
    }

    ghost method RegisterEntry(entry: SubEntry, rows: map<Sid, Entry>, row: Entry)
      requires Entries(rows) && Listed() && entry.sid !in rows && EntryIs(entry, entry.sid, row) && Owned(entry.stream)
      modifies this`entries
      ensures entries == old(entries)[entry.sid := entry] && entry.sid !in old(entries)
      ensures Entries(rows[entry.sid := row]) && Listed()
      ensures forall s, i :: s in streams && 0 <= i < |streams[s].entries| ==> streams[s].entries[i] != entry
    {
      assert Look(2) && Look(4);
      entries := entries[entry.sid := entry];
    }

    method Append(stream: Stream, entry: SubEntry, ghost rows: map<StreamId, StreamRow>)
      requires Streams(rows) && Listed() && Owned(stream) && Known(entry)
      requires forall s, i :: s in streams && 0 <= i < |streams[s].entries| ==> streams[s].entries[i] != entry
      modifies stream`entries
      ensures stream.entries == old(stream.entries) + [entry] && Listed()
      ensures stream.id in rows && Streams(rows[stream.id := rows[stream.id].(sids := rows[stream.id].sids + [entry.sid])])
    {
      assert Look(3) && Look(4);
      stream.entries := stream.entries + [entry];
      assert Sids(stream.entries) == Sids(old(stream.entries)) + [entry.sid];
    }

    /** The next pending entry is sent, unless that is not possible. */
    method Treat(stream: Stream, k: nat, refused: bool)
      requires Valid() && Owned(stream) && model.nextReq !in model.futures
      requires k < |stream.entries| && stream.task == Looping(k) && stream.entries[k].state.Pending?
      modifies this`nextReq, this`pending, this`futures, this`waiting, this`sent
      modifies this`subs, this`spawned, this`model, entries.Values`state
      modifies stream`ended, stream`endCause, stream`waiters, stream`task
      ensures Valid() && AtEntry(old(model), stream.id)
      ensures model == if refused || !old(model).life.Open? then ClientState.AbortSubscribe(old(model), stream.id, false)
                       else ClientState.SendSubscribe(old(model), stream.id)
    {
      hide Valid, ClientState.AbortSubscribe, ClientState.SendSubscribe;
      StreamKnown(stream);
      AtIts(stream, k);
      if refused || !life.Open? {
        AbortSubscribe(stream, k, false);
        return;
      }
      SendSubscribe(stream, stream.entries[k]);
    }

    /** `_subscribe` up to its first await. */
    method StartSubscribe(targets: seq<Target>, maxPending: Option<nat>, refused: bool)
      requires Valid() && FreshIds(model)
      modifies this`nextReq, this`nextSid, this`nextStream, this`pending, this`futures, this`waiting, this`sent
      modifies this`entries, this`streams, this`subs, this`spawned, this`model, entries.Values`state
      ensures Valid() && model == ClientState.StartSubscribe(old(model), targets, maxPending, refused)
      ensures Good(old(model)) && targets != [] && (maxPending.Some? ==> maxPending.value >= 1) ==> Good(model)
    {
      hide Valid, Good, ClientState.SubscribeLoop;
      StartedGood(model, targets, maxPending, refused);
      IsOpen();
      if !life.Open? {
        return;
      }
      ghost var c := model;
      var stream := OpenStream(maxPending);
      var k := 0;
      while k < |targets|
        invariant k <= |targets| && Valid() && Owned(stream) && stream.task == Looping(0)
        invariant stream.id == c.nextStream && model == NewStream(c, targets[..k], maxPending)
        invariant forall x :: x in entries ==> (x in old(entries) && entries[x] == old(entries[x])) || fresh(entries[x])
      {
        NextEntry(c, targets, k, maxPending);
        AddEntry(stream, targets[k]);
        k := k + 1;
      }
      assert targets[..k] == targets;
      SubscribeLoop(stream, refused);
    }

    /** The current entry has been acknowledged. */
    method Acknowledged(stream: Stream)
      requires Valid() && Owned(stream) && stream.task.Resumed? && stream.task.k < |stream.entries|
      modifies this`subs, this`spawned, this`model, entries.Values`state, stream`task
      ensures Valid() && CanAck(old(model), stream.id) && model == Acked(old(model), stream.id)
    {
      hide Valid;
      var k := stream.task.k;
      var entry := stream.entries[k];
      EntryKnown(stream, k);
      StreamKnown(stream);
      if entry.state.Doomed? {
        SetEntryState(entry, Released);
        Pop(entry.sid);
        SpawnUnsubscribe(entry.sid);
      } else if entry.state.Pending? {
        SetEntryState(entry, Active);
      }
      SetTask(stream, Looping(k + 1));
    }

    /** The `_subscribe` coroutine of `stream` resumes from its request and runs to its next await. */
    method ResumeSubscribe(stream: Stream, future: Future, cancelled: bool, refused: bool)
      requires Valid() && Owned(stream) && Awaits(future) && model.nextReq !in model.futures
      requires CanResumeSubscribe(model, future.id, cancelled) && model.waiting[future.id].stream == stream.id
      modifies this`nextReq, this`pending, this`futures, this`waiting, this`sent
      modifies this`subs, this`spawned, this`model, entries.Values`state, future`outcome
      modifies stream`ended, stream`endCause, stream`waiters, stream`task
      ensures Valid() && model == ClientState.ResumeSubscribe(old(model), future.id, cancelled, refused)
      ensures Good(old(model)) ==> Good(model)
    {
      hide Valid, Good, ClientState.SubscribeLoop, ClientState.AbortSubscribe, Acked;
      ResumesGood(model, future.id, cancelled, refused);
      StreamKnown(stream);
      FutureKnown(future);
      var k := stream.task.k;
      var outcome := if cancelled then Cancelled else future.outcome;
      Wakes(stream, future);
      StreamKnown(stream);
      Proceed(stream, k, outcome, refused);
    }

    /** What the coroutine does with the outcome of its request. */
    method Proceed(stream: Stream, k: nat, outcome: Outcome, refused: bool)
      requires Valid() && Owned(stream) && model.nextReq !in model.futures
      requires stream.task.Resumed? && stream.task.k == k < |stream.entries|
      modifies this`nextReq, this`pending, this`futures, this`waiting, this`sent
      modifies this`subs, this`spawned, this`model, entries.Values`state
      modifies stream`ended, stream`endCause, stream`waiters, stream`task
      ensures Valid()
      ensures outcome == Answered(true) ==>
        && CanAck(old(model), stream.id) && AtLoop(Acked(old(model), stream.id), stream.id)
        && model == ClientState.SubscribeLoop(Acked(old(model), stream.id), stream.id, refused)
      ensures outcome != Answered(true) ==>
        && CanAbort(old(model), stream.id)
        && model == ClientState.AbortSubscribe(old(model), stream.id, outcome.Expired? || outcome.Cancelled?)
    {
      hide Valid, ClientState.SubscribeLoop, ClientState.AbortSubscribe;
      StreamKnown(stream);
      if outcome == Answered(true) {
        EntryKnown(stream, k);
        ClientSteps.AckedTouchesNone(model, stream.id);
        Acknowledged(stream);
        StreamKnown(stream);
        SubscribeLoop(stream, refused);
      } else {
        AbortSubscribe(stream, k, outcome.Expired? || outcome.Cancelled?);
      }
    }

    /** The request of the entry being treated returns or raises. */
    method Wakes(stream: Stream, future: Future)
      requires Valid() && Owned(stream) && Awaits(future) && stream.task.Awaiting?
      requires future.id in model.waiting && model.waiting[future.id] == Subscriber(stream.id, stream.task.k)
      modifies this`pending, this`waiting, this`model, future`outcome, stream`task
      ensures Valid() && future.id in old(model).futures && stream.id in old(model).streams
      ensures model == Unsuspend(old(model), future.id)
    {
      StreamKnown(stream);
      FutureKnown(future);
      FinishSend(future);
      SetTask(stream, Resumed(stream.task.k, future.id));
    }

    /** A task suspended in a request is cancelled. */
    method CancelFuture(future: Future)
      requires Valid() && Awaits(future) && future.id in model.waiting
      modifies this`model, future`outcome
      ensures Valid() && model == ClientState.CancelFuture(old(model), future.id)
    {
      FutureKnown(future);
      if future.outcome.Waiting? {
        Complete(future, Cancelled);
      }
    }

    /** One turn of `get`. */
    method Take(stream: Stream, expired: bool, waiter: nat) returns (got: Got)
      requires Valid() && Owned(stream)
      modifies this`model, stream`items, stream`waiters, stream`handed
      ensures Valid() && stream.id in old(model).streams
      ensures var (q, g) := Get(old(model).streams[stream.id].queue, expired, waiter);
        model == SetQueue(old(model), stream.id, q) && got == g
      ensures Good(old(model)) ==> Good(model)
    {
      hide Valid, Futures, Entries, Streams, Listed, Routed, Awaited, Good;
      StreamKnown(stream);
      TakesGood(model, stream.id, expired, waiter);
      ValidMeans();
      ghost var q := Get(model.streams[stream.id].queue, expired, waiter).0;
      got := TakeRow(stream, expired, waiter, model.streams);
      model := SetQueue(model, stream.id, q);
      ValidMeans();
    }

    method TakeRow(stream: Stream, expired: bool, waiter: nat, ghost rows: map<StreamId, StreamRow>) returns (got: Got)
      requires Streams(rows) && Owned(stream)
      modifies stream`items, stream`waiters, stream`handed
      ensures stream.id in rows
      ensures var (q, g) := Get(rows[stream.id].queue, expired, waiter);
        Streams(rows[stream.id := rows[stream.id].(queue := q)]) && got == g
    {
      assert Look(3);
      got := stream.GetTurn(expired, waiter);
    }

    /** The `finally` of `get`. */
    method StopWaiting(stream: Stream, waiter: nat)
      requires Valid() && Owned(stream)
      modifies this`model, stream`waiters
      ensures Valid() && stream.id in old(model).streams
      ensures model == SetQueue(old(model), stream.id, Unwait(old(model).streams[stream.id].queue, waiter))
    {
      hide Valid, Futures, Entries, Streams, Listed, Routed, Awaited;
      StreamKnown(stream);
      ValidMeans();
      ghost var q := Unwait(model.streams[stream.id].queue, waiter);
      ForgetRow(stream, waiter, model.streams);
      model := SetQueue(model, stream.id, q);
      ValidMeans();
    }

    method ForgetRow(stream: Stream, waiter: nat, ghost rows: map<StreamId, StreamRow>)
      requires Streams(rows) && Owned(stream)
      modifies stream`waiters
      ensures stream.id in rows
      ensures Streams(rows[stream.id := rows[stream.id].(queue := Unwait(rows[stream.id].queue, waiter))])
    {
      assert Look(3);
      stream.Forget(waiter);
    }

    // ---------------------------------------------------------------- what Valid says

    lemma StreamKnown(stream: Stream)
      requires Valid() && Owned(stream)
      ensures stream.id in model.streams && StreamIs(stream, stream.id, model.streams[stream.id])
    {
      assert Look(0) && Look(3);
    }

    /** A stream's entries have different ids. */
    lemma OnlyCurrent(stream: Stream, k: nat, current: nat)
      requires Valid() && Owned(stream) && k < |stream.entries| && current < |stream.entries|
      ensures k == current <==> Sids(stream.entries)[k] == Sids(stream.entries)[current]
    {
      var later, earlier := if k < current then current else k, if k < current then k else current;
      EntryKnown(stream, later);
      if k != current {
        assert Sids(stream.entries)[..later][earlier] == Sids(stream.entries)[earlier];
      }
    }

    /** The loop is at the entry that the model says. */
    lemma AtIts(stream: Stream, k: nat)
      requires Valid() && Owned(stream) && k < |stream.entries| && stream.task == Looping(k)
      ensures model.life == life && AtEntry(model, stream.id) && Current(model, stream.id) == stream.entries[k].sid
      ensures model.entries[stream.entries[k].sid].state == stream.entries[k].state && Known(stream.entries[k])
    {
      StreamKnown(stream);
      EntryKnown(stream, k);
      IsOpen();
    }

    lemma EntryKnown(stream: Stream, k: nat)
      requires Valid() && Owned(stream) && k < |stream.entries|
      ensures var e := stream.entries[k];
        Known(e) && e.sid in model.entries && EntryIs(e, e.sid, model.entries[e.sid])
      ensures stream.entries[k].sid !in Sids(stream.entries)[..k]
    {
      assert Look(0) && Look(2) && Look(4);
    }
  }

  ghost predicate EntryIs(entry: SubEntry, x: Sid, e: Entry)
    reads entry
  {
    entry.sid == x && entry.stream.id == e.stream && entry.target == e.target && entry.state == e.state
  }

  ghost predicate StreamIs(stream: Stream, s: StreamId, row: StreamRow)
    reads stream
  {
    stream.id == s && stream.Row() == row
  }

  lemma ValuesGrow<K, V>(m: map<K, V>, k: K, v: V)
    requires k !in m
    ensures m[k := v].Values == m.Values + {v}
  {
    assert m[k := v][k] == v;
    assert forall j :: j in m ==> m[k := v][j] == m[j];
  }

  /** `Detach` for some of a stream's ids. */
  function DetachSids(c: ClientState.Client, xs: seq<Sid>): ClientState.Client {
    c.(entries := map x | x in c.entries ::
         if x in xs then c.entries[x].(state := DetachState(c.entries[x].state)) else c.entries[x],
       subs := c.subs - InState(c, xs, Active))
  }

  lemma DetachNext(c: ClientState.Client, xs: seq<Sid>, k: nat)
    requires k < |xs| && xs[k] in c.entries && xs[k] !in xs[..k]
    ensures var d := DetachSids(c, xs[..k]);
      && d.entries[xs[k]] == c.entries[xs[k]]
      && DetachSids(c, xs[..k + 1]) ==
         match c.entries[xs[k]].state
         case Active => Unroute(SetState(d, xs[k], Released), xs[k])
         case Pending => SetState(d, xs[k], Doomed)
         case _ => d
  {
    var x := xs[k];
    var d, e := DetachSids(c, xs[..k]), DetachSids(c, xs[..k + 1]);
    assert xs[..k + 1] == xs[..k] + [x];
    assert e.entries == d.entries[x := c.entries[x].(state := DetachState(c.entries[x].state))];
    assert e.subs == if c.entries[x].state.Active? then d.subs - {x} else d.subs;
  }

  lemma SpawnNone(c: ClientState.Client, quiet: bool)
    ensures SpawnAll(c, [], quiet) == c
  {
    assert SpawnAll(c, [], quiet).entries == c.entries;
  }

  lemma SpawnNext(c: ClientState.Client, xs: seq<Sid>, k: nat, quiet: bool)
    requires k < |xs|
    ensures SpawnAll(c, xs[..k + 1], quiet) == SpawnAll(SpawnAll(c, xs[..k], quiet), [xs[k]], quiet)
  {
    var d := SpawnAll(SpawnAll(c, xs[..k], quiet), [xs[k]], quiet);
    assert SpawnAll(c, xs[..k + 1], quiet).entries == d.entries;
    assert SpawnAll(c, xs[..k + 1], quiet).spawned == d.spawned;
  }

  function ClosedNow(c: ClientState.Client): ClientState.Client {
    c.(hasCloseInfo := true, life := Closed, pending := {}, subs := {})
  }

  /** A disconnect that has reached the requests `ids`. */
  function CutBy(c: ClientState.Client, ids: set<ReqId>): ClientState.Client {
    c.(futures := map id | id in c.futures :: if id in ids && c.futures[id].Waiting? then Cut else c.futures[id])
  }

  lemma CutNone(c: ClientState.Client)
    ensures CutBy(c, {}) == c
  {
    assert CutBy(c, {}).futures == c.futures;
  }

  lemma CutNext(c: ClientState.Client, ids: set<ReqId>, id: ReqId)
    requires id in c.futures && id !in ids
    ensures var d := CutBy(c, ids);
      && d.futures[id] == c.futures[id]
      && CutBy(c, ids + {id}) == if c.futures[id].Waiting? then d.(futures := d.futures[id := Cut]) else d
  {
    var d := CutBy(c, ids);
    assert CutBy(c, ids + {id}).futures == if c.futures[id].Waiting? then d.futures[id := Cut] else d.futures;
  }

  /** A disconnect that has reached the entries `xs`. */
  function DropBy(c: ClientState.Client, xs: set<Sid>): ClientState.Client {
    c.(entries := map x | x in c.entries :: if x in xs then Dropped(c.entries[x]) else c.entries[x],
       streams := map s | s in c.streams ::
         if Reached(c, xs, s) then c.streams[s].(queue := End(c.streams[s].queue, ByDisconnect)) else c.streams[s])
  }

  predicate Reached(c: ClientState.Client, xs: set<Sid>, s: StreamId) {
    exists x :: x in xs && x in c.entries && c.entries[x].stream == s
  }

  function Dropped(e: Entry): Entry {
    if e.state.Pending? || e.state.Active? || e.state.Doomed? then e.(state := Released) else e
  }

  function DropOne(c: ClientState.Client, x: Sid): ClientState.Client {
    if x in c.entries && c.entries[x].stream in c.streams then
      ClientState.EndQueue(c.(entries := c.entries[x := Dropped(c.entries[x])]), c.entries[x].stream, ByDisconnect)
    else
      c
  }

  lemma DropStays(c: ClientState.Client, xs: set<Sid>, x: Sid)
    ensures var d := DropBy(c, xs);
      x in d.entries && d.entries[x].stream in d.streams ==> x in c.entries && c.entries[x].stream in c.streams
  {
  }

  lemma OneMore(all: set<Sid>, sids: set<Sid>, x: Sid)
    requires x in sids && sids <= all
    ensures all - (sids - {x}) == all - sids + {x}
  {
  }

  lemma DropNone(c: ClientState.Client, all: set<Sid>)
    ensures all - all == {} && DropBy(c, all - all) == c && all - {} == all
  {
    assert all - all == {};
    assert DropBy(c, {}).entries == c.entries;
    assert DropBy(c, {}).streams == c.streams;
  }

  lemma DropNext(c: ClientState.Client, xs: set<Sid>, x: Sid)
    requires x in c.entries && x !in xs && c.entries[x].stream in c.streams
    ensures DropBy(c, xs + {x}) == DropOne(DropBy(c, xs), x)
  {
    var d, e := DropBy(c, xs), DropBy(c, xs + {x});
    assert e.entries == d.entries[x := Dropped(c.entries[x])];
    ReachedNext(c, xs, x);
    assert e.streams == DropOne(d, x).streams;
  }

  lemma ReachedNext(c: ClientState.Client, xs: set<Sid>, x: Sid)
    requires x in c.entries
    ensures forall s :: Reached(c, xs + {x}, s) <==> Reached(c, xs, s) || s == c.entries[x].stream
  {
    forall s
      ensures Reached(c, xs + {x}, s) <==> Reached(c, xs, s) || s == c.entries[x].stream
    {
      if Reached(c, xs, s) {
        var y :| y in xs && y in c.entries && c.entries[y].stream == s;
        assert y in xs + {x};
      }
      assert x in xs + {x};
    }
  }

  lemma CutAll(c: ClientState.Client)
    requires !c.hasCloseInfo
    ensures DropBy(CutBy(ClosedNow(c), c.pending), c.subs) == ClientState.OnDisconnect(c)
  {
    var d, e := DropBy(CutBy(ClosedNow(c), c.pending), c.subs), ClientState.OnDisconnect(c);
    assert d.futures == e.futures;
    assert d.entries == e.entries;
    assert d.streams == e.streams;
  }

  predicate CanAbort(c: ClientState.Client, s: StreamId) {
    s in c.streams && !c.streams[s].task.Finished? && c.streams[s].task.k < |c.streams[s].sids|
  }

  /** What `_abort_subscribe` does to one entry. */
  function AbortOne(c: ClientState.Client, x: Sid, current: bool, maybe: bool): ClientState.Client {
    if x !in c.entries then
      c
    else
      var st := c.entries[x].state;
      var c1 := SetState(c, x, AbortState(st, current, maybe));
      var c2 := if AbortUnroutes(st, current, maybe, c.life.Open?) then Unroute(c1, x) else c1;
      if AbortSpawns(st, current, maybe) then SpawnQuiet(c2, [x]) else c2
  }

  /** `_abort_subscribe` for some of the stream's ids. */
  function AbortSids(c: ClientState.Client, xs: seq<Sid>, cur: Sid, maybe: bool): ClientState.Client {
    SpawnQuiet(
      c.(entries := map x | x in c.entries ::
           if x in xs then c.entries[x].(state := AbortState(c.entries[x].state, x == cur, maybe)) else c.entries[x],
         subs := set x | x in c.subs &&
           !(x in xs && x in c.entries && AbortUnroutes(c.entries[x].state, x == cur, maybe, c.life.Open?))),
      Keep(xs, AbortLive(c, xs, cur, maybe)))
  }

  lemma AbortNone(c: ClientState.Client, cur: Sid, maybe: bool)
    ensures AbortSids(c, [], cur, maybe) == c
  {
    var d := AbortSids(c, [], cur, maybe);
    assert d.entries == c.entries;
    assert d.subs == c.subs;
    assert d.spawned == c.spawned;
  }

  lemma {:induction false} KeepAgrees(xs: seq<Sid>, a: set<Sid>, b: set<Sid>)
    requires forall x :: x in xs ==> (x in a <==> x in b)
    ensures Keep(xs, a) == Keep(xs, b)
  {
    if xs != [] {
      KeepAgrees(xs[1..], a, b);
    }
  }

  lemma LiveNext(c: ClientState.Client, xs: seq<Sid>, k: nat, cur: Sid, maybe: bool)
    requires k < |xs| && xs[k] in c.entries
    ensures Keep(xs[..k + 1], AbortLive(c, xs[..k + 1], cur, maybe)) ==
      Keep(xs[..k], AbortLive(c, xs[..k], cur, maybe)) +
      (if AbortSpawns(c.entries[xs[k]].state, xs[k] == cur, maybe) then [xs[k]] else [])
  {
    KeepNext(xs, k, AbortLive(c, xs[..k + 1], cur, maybe));
    KeepAgrees(xs[..k], AbortLive(c, xs[..k + 1], cur, maybe), AbortLive(c, xs[..k], cur, maybe));
  }

  /** One entry after an abort that has (`reached`) or has not come to it. */
  function AbortedRow(e: Entry, reached: bool, current: bool, maybe: bool, open: bool): Entry {
    if !reached then e
    else
      var f := e.(state := AbortState(e.state, current, maybe));
      if open && AbortSpawns(e.state, current, maybe) then f.(hold := Queued) else f
  }

  ghost predicate AbortedRows(c: ClientState.Client, d: ClientState.Client, xs: seq<Sid>, cur: Sid, maybe: bool) {
    && (forall x :: x in d.entries <==> x in c.entries)
    && (forall x :: x in c.entries ==> d.entries[x] == AbortedRow(c.entries[x], x in xs, x == cur, maybe, c.life.Open?))
  }

  predicate StaysRouted(c: ClientState.Client, xs: seq<Sid>, cur: Sid, maybe: bool, x: Sid) {
    x in c.subs && !(x in xs && x in c.entries && AbortUnroutes(c.entries[x].state, x == cur, maybe, c.life.Open?))
  }

  lemma AbortSidsRows(c: ClientState.Client, xs: seq<Sid>, cur: Sid, maybe: bool)
    ensures AbortedRows(c, AbortSids(c, xs, cur, maybe), xs, cur, maybe)
  {
    ClientInvariant.KeepMembers(xs, AbortLive(c, xs, cur, maybe));
  }

  lemma AbortSidsRest(c: ClientState.Client, xs: seq<Sid>, cur: Sid, maybe: bool)
    ensures var d := AbortSids(c, xs, cur, maybe);
      && (forall x :: x in d.subs <==> StaysRouted(c, xs, cur, maybe, x))
      && d == c.(entries := d.entries, subs := d.subs,
                 spawned := c.spawned + if c.life.Open? then Spawns(Keep(xs, AbortLive(c, xs, cur, maybe)), true) else [])
  {
  }

  lemma SpawnOne(c: ClientState.Client, x: Sid)
    requires x in c.entries
    ensures SpawnAll(c, [x], true) ==
      c.(entries := c.entries[x := c.entries[x].(hold := Queued)], spawned := c.spawned + Spawns([x], true))
  {
    assert SpawnAll(c, [x], true).entries == c.entries[x := c.entries[x].(hold := Queued)];
  }

  /** What `AbortOne` does, part by part. */
  lemma AbortOneIs(c: ClientState.Client, x: Sid, current: bool, maybe: bool)
    requires x in c.entries
    ensures var d := AbortOne(c, x, current, maybe); var st := c.entries[x].state;
      && d.entries == c.entries[x := AbortedRow(c.entries[x], true, current, maybe, c.life.Open?)]
      && d.subs == (if AbortUnroutes(st, current, maybe, c.life.Open?) then c.subs - {x} else c.subs)
      && d == c.(entries := d.entries, subs := d.subs,
                 spawned := c.spawned + if c.life.Open? && AbortSpawns(st, current, maybe) then Spawns([x], true) else [])
  {
    var st := c.entries[x].state;
    AbortPlain(c, x, current, maybe);
    if c.life.Open? && AbortSpawns(st, current, maybe) {
      AbortSpawning(c, x, current, maybe);
    }
  }

  /** An entry that an abort has come to, before any unsubscribe. */
  function Aborting(c: ClientState.Client, x: Sid, current: bool, maybe: bool): ClientState.Client
    requires x in c.entries
  {
    c.(entries := c.entries[x := c.entries[x].(state := AbortState(c.entries[x].state, current, maybe))],
       subs := if AbortUnroutes(c.entries[x].state, current, maybe, c.life.Open?) then c.subs - {x} else c.subs)
  }

  lemma AbortPlain(c: ClientState.Client, x: Sid, current: bool, maybe: bool)
    requires x in c.entries
    ensures !(c.life.Open? && AbortSpawns(c.entries[x].state, current, maybe)) ==>
      AbortOne(c, x, current, maybe) == Aborting(c, x, current, maybe).(spawned := c.spawned + [])
  {
    hide AbortState, AbortUnroutes, SpawnAll;
    assert c.spawned + [] == c.spawned;
  }

  lemma AbortSpawning(c: ClientState.Client, x: Sid, current: bool, maybe: bool)
    requires x in c.entries && c.life.Open? && AbortSpawns(c.entries[x].state, current, maybe)
    ensures var d := Aborting(c, x, current, maybe);
      AbortOne(c, x, current, maybe) ==
      d.(entries := c.entries[x := d.entries[x].(hold := Queued)], spawned := c.spawned + Spawns([x], true))
  {
    hide AbortState, AbortUnroutes, SpawnAll;
    var d := Aborting(c, x, current, maybe);
    SpawnOne(d, x);
    assert d.entries[x := d.entries[x].(hold := Queued)] == c.entries[x := d.entries[x].(hold := Queued)];
  }

  lemma AbortNextRows(c: ClientState.Client, d: ClientState.Client, e: ClientState.Client, xs: seq<Sid>, k: nat, cur: Sid, maybe: bool)
    requires k < |xs| && xs[k] in c.entries && xs[k] !in xs[..k]
    requires AbortedRows(c, d, xs[..k], cur, maybe) && AbortedRows(c, e, xs[..k + 1], cur, maybe)
    ensures e.entries == d.entries[xs[k] := AbortedRow(c.entries[xs[k]], true, xs[k] == cur, maybe, c.life.Open?)]
    ensures d.entries[xs[k]] == c.entries[xs[k]]
  {
    assert xs[..k + 1] == xs[..k] + [xs[k]];
  }

  lemma AbortNextSubs(c: ClientState.Client, d: set<Sid>, e: set<Sid>, xs: seq<Sid>, k: nat, cur: Sid, maybe: bool)
    requires k < |xs| && xs[k] in c.entries && xs[k] !in xs[..k]
    requires forall x :: x in d <==> StaysRouted(c, xs[..k], cur, maybe, x)
    requires forall x :: x in e <==> StaysRouted(c, xs[..k + 1], cur, maybe, x)
    ensures e == if AbortUnroutes(c.entries[xs[k]].state, xs[k] == cur, maybe, c.life.Open?) then d - {xs[k]} else d
  {
    assert xs[..k + 1] == xs[..k] + [xs[k]];
  }

  /** `d` is what an abort has made of `c` once it has come to the ids `xs`. */
  ghost predicate Aborted(c: ClientState.Client, d: ClientState.Client, xs: seq<Sid>, cur: Sid, maybe: bool) {
    && AbortedRows(c, d, xs, cur, maybe)
    && (forall x :: x in d.subs <==> StaysRouted(c, xs, cur, maybe, x))
    && d == c.(entries := d.entries, subs := d.subs,
               spawned := c.spawned + if c.life.Open? then Spawns(Keep(xs, AbortLive(c, xs, cur, maybe)), true) else [])
  }

  lemma AbortSidsAborts(c: ClientState.Client, xs: seq<Sid>, cur: Sid, maybe: bool)
    ensures Aborted(c, AbortSids(c, xs, cur, maybe), xs, cur, maybe)
  {
    AbortSidsRows(c, xs, cur, maybe);
    AbortSidsRest(c, xs, cur, maybe);
  }

  lemma AbortNextIs(c: ClientState.Client, d: ClientState.Client, e: ClientState.Client, f: ClientState.Client,
                    xs: seq<Sid>, k: nat, cur: Sid, maybe: bool)
    requires k < |xs| && xs[k] in c.entries && xs[k] !in xs[..k]
    requires Aborted(c, d, xs[..k], cur, maybe) && Aborted(c, e, xs[..k + 1], cur, maybe)
    requires f.entries == d.entries[xs[k] := AbortedRow(c.entries[xs[k]], true, xs[k] == cur, maybe, c.life.Open?)]
    requires f.subs == if AbortUnroutes(c.entries[xs[k]].state, xs[k] == cur, maybe, c.life.Open?) then d.subs - {xs[k]} else d.subs
    requires f == d.(entries := f.entries, subs := f.subs,
                     spawned := d.spawned + if c.life.Open? && AbortSpawns(c.entries[xs[k]].state, xs[k] == cur, maybe) then Spawns([xs[k]], true) else [])
    ensures e == f
  {
    AbortNextRows(c, d, e, xs, k, cur, maybe);
    AbortNextSubs(c, d.subs, e.subs, xs, k, cur, maybe);
    LiveNext(c, xs, k, cur, maybe);
    SpawnsAppend(Keep(xs[..k], AbortLive(c, xs[..k], cur, maybe)), xs[k]);
  }

  lemma SpawnsAppend(xs: seq<Sid>, x: Sid)
    ensures Spawns(xs + [x], true) == Spawns(xs, true) + Spawns([x], true)
    ensures xs + [] == xs
  {
  }

  lemma AbortNext(c: ClientState.Client, xs: seq<Sid>, k: nat, cur: Sid, maybe: bool)
    requires k < |xs| && xs[k] in AbortSids(c, xs[..k], cur, maybe).entries && xs[k] !in xs[..k]
    ensures AbortSids(c, xs[..k + 1], cur, maybe) == AbortOne(AbortSids(c, xs[..k], cur, maybe), xs[k], xs[k] == cur, maybe)
  {
    var d := AbortSids(c, xs[..k], cur, maybe);
    AbortSidsAborts(c, xs[..k], cur, maybe);
    AbortSidsAborts(c, xs[..k + 1], cur, maybe);
    assert d.entries[xs[k]] == c.entries[xs[k]];
    AbortOneIs(d, xs[k], xs[k] == cur, maybe);
    AbortNextIs(c, d, AbortSids(c, xs[..k + 1], cur, maybe), AbortOne(d, xs[k], xs[k] == cur, maybe), xs, k, cur, maybe);
  }

  lemma AbortEnds(c: ClientState.Client, s: StreamId, maybe: bool)
    requires CanAbort(c, s)
    ensures var c1 := ClientState.SetTask(ClientState.EndQueue(c, s, ByClient), s, Finished);
      AbortSids(c1, c.streams[s].sids, Current(c, s), maybe) == ClientState.AbortSubscribe(c, s, maybe)
  {
  }

  predicate CanAck(c: ClientState.Client, s: StreamId) {
    && s in c.streams && c.streams[s].task.Resumed? && c.streams[s].task.k < |c.streams[s].sids|
    && Current(c, s) in c.entries
  }

  ghost predicate FreshIds(c: ClientState.Client) {
    c.nextReq !in c.futures && c.nextStream !in c.streams && forall x :: x in c.entries ==> x < c.nextSid
  }

  /** One entry more for stream `s`. */
  function AddedTo(c: ClientState.Client, s: StreamId, target: Target): ClientState.Client {
    if s !in c.streams then c
    else
      c.(entries := c.entries[c.nextSid := Entry(s, |c.streams[s].sids|, target, Pending, NotAsked, Held)],
         subs := c.subs + {c.nextSid},
         streams := c.streams[s := c.streams[s].(sids := c.streams[s].sids + [c.nextSid])],
         nextSid := c.nextSid + 1)
  }

  lemma NoNewEntries(c: ClientState.Client, maxPending: Option<nat>)
    requires FreshIds(c)
    ensures NewStream(c, [], maxPending) ==
      c.(streams := c.streams[c.nextStream := StreamRow([], NewQueue(maxPending), Looping(0))], nextStream := c.nextStream + 1)
  {
    var d := NewStream(c, [], maxPending);
    assert d.entries == c.entries;
    assert d.subs == c.subs;
    assert SidRange(c.nextSid, 0) == [];
  }

  lemma NextEntry(c: ClientState.Client, targets: seq<Target>, k: nat, maxPending: Option<nat>)
    requires FreshIds(c) && k < |targets|
    ensures var d := NewStream(c, targets[..k], maxPending);
      && d.nextSid !in d.entries
      && NewStream(c, targets[..k + 1], maxPending) == AddedTo(d, c.nextStream, targets[k])
  {
    var d, e := NewStream(c, targets[..k], maxPending), NewStream(c, targets[..k + 1], maxPending);
    NextRow(c, targets, k, maxPending);
    NextSid(c, targets, k, maxPending);
    assert e == AddedTo(d, c.nextStream, targets[k]).(entries := e.entries, subs := e.subs, streams := e.streams);
  }

  lemma NextRow(c: ClientState.Client, targets: seq<Target>, k: nat, maxPending: Option<nat>)
    requires FreshIds(c) && k < |targets|
    ensures var d, e := NewStream(c, targets[..k], maxPending), NewStream(c, targets[..k + 1], maxPending);
      && d.nextSid !in d.entries && c.nextStream in d.streams
      && e.entries == d.entries[d.nextSid := Entry(c.nextStream, |d.streams[c.nextStream].sids|, targets[k], Pending, NotAsked, Held)]
  {
    var d, e := NewStream(c, targets[..k], maxPending), NewStream(c, targets[..k + 1], maxPending);
    var next := d.entries[d.nextSid := Entry(c.nextStream, |d.streams[c.nextStream].sids|, targets[k], Pending, NotAsked, Held)];
    forall x
      ensures (x in e.entries <==> x in next) && (x in next ==> e.entries[x] == next[x])
    {
    }
  }

  lemma NextSid(c: ClientState.Client, targets: seq<Target>, k: nat, maxPending: Option<nat>)
    requires FreshIds(c) && k < |targets|
    ensures var d, e := NewStream(c, targets[..k], maxPending), NewStream(c, targets[..k + 1], maxPending);
      && c.nextStream in d.streams
      && e.subs == d.subs + {d.nextSid}
      && e.streams == d.streams[c.nextStream := d.streams[c.nextStream].(sids := d.streams[c.nextStream].sids + [d.nextSid])]
  {
    var d, e := NewStream(c, targets[..k], maxPending), NewStream(c, targets[..k + 1], maxPending);
    var a, b := SidRange(c.nextSid, k), SidRange(c.nextSid, k + 1);
    assert b == a + [d.nextSid];
    MembersGrow(a, b, d.nextSid);
    assert d.subs == c.subs + set x | x in a;
    assert e.subs == c.subs + set x | x in b;
  }

  lemma MembersGrow(a: seq<Sid>, b: seq<Sid>, last: Sid)
    requires b == a + [last]
    ensures (set x | x in b) == (set x | x in a) + {last}
  {
    assert forall x :: x in b <==> x in a || x == last;
  }

  lemma ReceiveGood(c: ClientState.Client, frame: Frame)
    ensures Good(c) && Reading(c) ==> Good(ClientState.Dispatch(c, frame))
  {
    if Good(c) && Reading(c) {
      StepGood(c, Receive(frame));
    }
  }

  lemma DisconnectedGood(c: ClientState.Client)
    ensures Good(c) && Reading(c) ==> Good(ClientState.OnDisconnect(c))
  {
    if Good(c) && Reading(c) {
      StepGood(c, Disconnect);
    }
  }

  lemma StartedGood(c: ClientState.Client, targets: seq<Target>, maxPending: Option<nat>, refused: bool)
    ensures Good(c) && targets != [] && (maxPending.Some? ==> maxPending.value >= 1) ==> Good(ClientState.StartSubscribe(c, targets, maxPending, refused))
  {
    if Good(c) && targets != [] && (maxPending.Some? ==> maxPending.value >= 1) {
      StepGood(c, Start(targets, maxPending, refused));
    }
  }

  lemma ResumesGood(c: ClientState.Client, id: ReqId, cancelled: bool, refused: bool)
    requires CanResumeSubscribe(c, id, cancelled)
    ensures Good(c) ==> Good(ClientState.ResumeSubscribe(c, id, cancelled, refused))
  {
    if Good(c) {
      StepGood(c, Resume(id, cancelled, refused));
    }
  }

  lemma ClosesGood(c: ClientState.Client, s: StreamId, nowait: bool)
    requires s in c.streams
    ensures Good(c) ==> Good(ClientState.CloseStream(c, s, nowait))
  {
    if Good(c) {
      StepGood(c, Close(s, nowait));
    }
  }

  lemma RunsGood(c: ClientState.Client, k: nat)
    requires k < |c.spawned|
    ensures Good(c) ==> Good(ClientState.RunSpawned(c, k))
  {
    if Good(c) {
      StepGood(c, RunTask(k));
    }
  }

  lemma CancelsGood(c: ClientState.Client, k: nat)
    requires k < |c.spawned| && !c.spawned[k].quiet
    ensures Good(c) ==> Good(ClientState.CancelSpawned(c, k))
  {
    if Good(c) {
      StepGood(c, CancelTask(k));
    }
  }

  lemma ExpiresGood(c: ClientState.Client, id: ReqId)
    ensures Good(c) ==> Good(ClientState.Expire(c, id))
  {
    if Good(c) {
      StepGood(c, FireTimer(id));
    }
  }

  lemma TakesGood(c: ClientState.Client, s: StreamId, expired: bool, waiter: nat)
    requires s in c.streams
    ensures Good(c) ==> Good(SetQueue(c, s, Get(c.streams[s].queue, expired, waiter).0))
  {
    if Good(c) {
      StepGood(c, ClientState.Step.Take(s, expired, waiter));
    }
  }

  lemma {:induction false} KeepAppend(xs: seq<Sid>, ys: seq<Sid>, keep: set<Sid>)
    ensures Keep(xs + ys, keep) == Keep(xs, keep) + Keep(ys, keep)
  {
    if xs == [] {
      assert xs + ys == ys;
    } else {
      assert (xs + ys)[1..] == xs[1..] + ys;
      KeepAppend(xs[1..], ys, keep);
      var first := if xs[0] in keep then [xs[0]] else [];
      assert first + (Keep(xs[1..], keep) + Keep(ys, keep)) == first + Keep(xs[1..], keep) + Keep(ys, keep);
    }
  }

  lemma KeepNext(xs: seq<Sid>, k: nat, keep: set<Sid>)
    requires k < |xs|
    ensures xs[..k + 1] == xs[..k] + [xs[k]]
    ensures Keep(xs[..k + 1], keep) == Keep(xs[..k], keep) + (if xs[k] in keep then [xs[k]] else [])
  {
    assert xs[..k + 1] == xs[..k] + [xs[k]];
    KeepAppend(xs[..k], [xs[k]], keep);
  }
}
