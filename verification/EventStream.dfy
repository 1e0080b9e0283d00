/** The event queue of one subscription (`src/logos_bridge/subscription.py`, `_Stream`). */
module EventStream {
  import opened Wrappers

  // `Queue` is the value of a stream together with its history: every event ever pushed and every event
  // ever handed out. `BridgeClient.Stream` is the object that the client mutates in place.

  /** Why a stream stopped accepting events; the source keeps a factory for the exception. */
  datatype Cause = ByClient | ByOverflow | ByBridge(sid: nat) | ByDisconnect

  datatype Event = Event(sid: nat, data: nat)

  datatype Queue = Queue(
    maxPending: Option<nat>,
    items: seq<Event>,
    received: nat,
    highWater: nat,
    end: Option<Cause>,
    waiters: seq<nat>,
    pushed: seq<Event>,
    handed: seq<Event>)
  {
    predicate Full() {
      maxPending.Some? && |items| >= maxPending.value
    }

    predicate Ended() {
      end.Some?
    }

    /** What holds of every stream between two steps of the event loop. */
    ghost predicate Sound() {
      && pushed == handed + items
      && received == |pushed|
      && |items| <= highWater <= |pushed|
      && (maxPending.Some? ==> highWater <= maxPending.value)
      && (items != [] || Ended() ==> waiters == [])
    }

    /** `q` can follow this queue: nothing delivered is taken back, an ended queue takes no more
        events, and the first cause stays. */
    ghost predicate EvolvesTo(q: Queue) {
      && q.maxPending == maxPending
      && pushed <= q.pushed
      && handed <= q.handed
      && highWater <= q.highWater
      && (Ended() ==> q.end == end && q.pushed == pushed)
    }
  }

  function NewQueue(maxPending: Option<nat>): Queue {
    Queue(maxPending, [], 0, 0, None, [], [], [])
  }

  function Max(a: nat, b: nat): nat {
    if a < b then b else a
  }

  function Push(q: Queue, e: Event): Queue {
    q.(items := q.items + [e], received := q.received + 1, highWater := Max(q.highWater, |q.items| + 1),
       waiters := [], pushed := q.pushed + [e])
  }

  function End(q: Queue, cause: Cause): Queue {
    if q.Ended() then q else q.(end := Some(cause), waiters := [])
  }

  /** What one turn of `get` did. */
  datatype Got = Item(event: Event) | Raised(cause: Cause) | TimedOut | Blocked(waiter: nat)

  function Get(q: Queue, expired: bool, waiter: nat): (Queue, Got) {
    if q.items != [] then
      (q.(items := q.items[1..], handed := q.handed + [q.items[0]]), Item(q.items[0]))
    else if q.end.Some? then
      (q, Raised(q.end.value))
    else if expired then
      (q, TimedOut)
    else
      (q.(waiters := q.waiters + [waiter]), Blocked(waiter))
  }

  function Remove(s: seq<nat>, x: nat): (r: seq<nat>)
    ensures s == [] ==> r == []
  {
    if s == [] then [] else if s[0] == x then s[1..] else [s[0]] + Remove(s[1..], x)
  }

  /** The `finally` of `get`: however the wait ended, the waiter is no longer registered. */
  function Unwait(q: Queue, waiter: nat): Queue {
    q.(waiters := Remove(q.waiters, waiter))
  }

  // ---------------------------------------------------------------- runs

  datatype Op =
    | DoPush(event: Event)
    | DoEnd(why: Cause)
    | DoGet(expired: bool, asking: nat)
    | DoUnwait(asking: nat)

  /** The client pushes only to a stream that is neither ended nor full (client.py:444-460). */
  function Apply(q: Queue, op: Op): Queue {
    match op
    case DoPush(e) => if q.Ended() || q.Full() then q else Push(q, e)
    case DoEnd(c) => End(q, c)
    case DoGet(x, w) => Get(q, x, w).0
    case DoUnwait(w) => Unwait(q, w)
  }

  function ApplyAll(q: Queue, ops: seq<Op>): Queue
    decreases |ops|
  {
    if ops == [] then q else ApplyAll(Apply(q, ops[0]), ops[1..])
  }

  lemma ApplyKeeps(q: Queue, op: Op)
    requires q.Sound()
    ensures Apply(q, op).Sound()
    ensures q.EvolvesTo(Apply(q, op))
  {
    var r := Apply(q, op);
    if op.DoGet? && q.items != [] {
      assert r.handed + r.items == q.handed + ([q.items[0]] + q.items[1..]);
      assert [q.items[0]] + q.items[1..] == q.items;
    }
    if op.DoPush? && !q.Ended() && !q.Full() {
      assert r.pushed == q.handed + (q.items + [op.event]);
    }
  }

  /** Every interleaving of pushes, ends, gets and abandoned waits from a new stream: what was
      handed out is a prefix of what was pushed, the counters and the bound hold, and no waiter is
      left behind a non-empty or ended queue. */
  lemma {:induction false} RunsKeep(q: Queue, ops: seq<Op>)
    requires q.Sound()
    ensures ApplyAll(q, ops).Sound()
    ensures q.EvolvesTo(ApplyAll(q, ops))
    decreases |ops|
  {
    if ops != [] {
      ApplyKeeps(q, ops[0]);
      RunsKeep(Apply(q, ops[0]), ops[1..]);
    }
  }

  // ---------------------------------------------------------------- what subscribers see

  /** The event that one operation returns: a get's, if it has one. */
  function Taking(q: Queue, op: Op): seq<Event> {
    if op.DoGet? && Get(q, op.expired, op.asking).1.Item? then [Get(q, op.expired, op.asking).1.event] else []
  }

  /** The event that it queues: a push's, while the stream is neither ended nor at its bound. */
  function Giving(q: Queue, op: Op): seq<Event> {
    if op.DoPush? && q.end.None? && (q.maxPending.Some? ==> |q.items| < q.maxPending.value) then [op.event] else []
  }

  function Returned(q: Queue, ops: seq<Op>): seq<Event>
    decreases |ops|
  {
    if ops == [] then [] else Taking(q, ops[0]) + Returned(Apply(q, ops[0]), ops[1..])
  }

  function Accepted(q: Queue, ops: seq<Op>): seq<Event>
    decreases |ops|
  {
    if ops == [] then [] else Giving(q, ops[0]) + Accepted(Apply(q, ops[0]), ops[1..])
  }

  /** The greatest number of events ever queued. */
  function Deepest(q: Queue, ops: seq<Op>): (deepest: nat)
    ensures deepest >= |q.items|
    decreases |ops|
  {
    if ops == [] then |q.items|
    else
      var later := Deepest(Apply(q, ops[0]), ops[1..]);
      if |q.items| < later then later else |q.items|
  }

  /** From a new stream, the gets return exactly what was accepted, each event once, in order; what has not
      been returned is still queued, and the high-water mark is the greatest depth there has been. */
  lemma GetsReturnPushed(maxPending: Option<nat>, ops: seq<Op>)
    ensures var q := NewQueue(maxPending); var r := ApplyAll(q, ops);
      && Accepted(q, ops) == Returned(q, ops) + r.items
      && r.highWater == Deepest(q, ops)
      && r.received == |Accepted(q, ops)|
  {
    GetsReturn(NewQueue(maxPending), ops);
  }

  lemma MovesOne(q: Queue, op: Op)
    requires q.highWater >= |q.items|
    ensures var r := Apply(q, op);
      && q.items + Giving(q, op) == Taking(q, op) + r.items
      && r.highWater == Max(q.highWater, |r.items|) >= |r.items|
      && r.received == q.received + |Giving(q, op)|
  {
    if op.DoGet? && q.items != [] {
      assert q.items == [q.items[0]] + q.items[1..];
    }
  }

  lemma Shifted(a: seq<Event>, given: seq<Event>, later: seq<Event>, taken: seq<Event>, b: seq<Event>, got: seq<Event>, c: seq<Event>)
    requires a + given == taken + b && b + later == got + c
    ensures a + (given + later) == (taken + got) + c
  {
    assert a + (given + later) == (a + given) + later;
    assert (taken + b) + later == taken + (b + later);
    assert taken + (got + c) == (taken + got) + c;
  }

  lemma Peaks(high: nat, next: nat, depth: nat, after: nat, deepest: nat)
    requires next == Max(high, after) && high >= depth && deepest >= after
    ensures Max(next, deepest) == Max(high, if depth < deepest then deepest else depth)
  {
  }

  lemma {:induction false} GetsReturn(q: Queue, ops: seq<Op>)
    requires q.highWater >= |q.items|
    ensures var r := ApplyAll(q, ops);
      && q.items + Accepted(q, ops) == Returned(q, ops) + r.items
      && r.highWater == Max(q.highWater, Deepest(q, ops))
      && r.received == q.received + |Accepted(q, ops)|
    decreases |ops|
  {
    if ops == [] {
      assert q.items + [] == [] + q.items;
    } else {
      hide Apply, Taking, Giving, Max;
      var q1, rest := Apply(q, ops[0]), ops[1..];
      MovesOne(q, ops[0]);
      GetsReturn(q1, rest);
      Shifted(q.items, Giving(q, ops[0]), Accepted(q1, rest), Taking(q, ops[0]), q1.items, Returned(q1, rest), ApplyAll(q, ops).items);
      Peaks(q.highWater, q1.highWater, |q.items|, |q1.items|, Deepest(q1, rest));
    }
  }

  /** What one `get` finds: the oldest queued event whatever else, then the cause, then the timeout; else it waits. */
  lemma GetFinds(q: Queue, expired: bool, waiter: nat)
    requires q.Sound()
    ensures var (r, got) := Get(q, expired, waiter);
      && (got.Item? <==> |q.handed| < |q.pushed|)
      && (got.Item? ==> got.event == q.pushed[|q.handed|] && r.handed == q.pushed[..|q.handed| + 1])
      && (got.Raised? <==> q.handed == q.pushed && q.end.Some?)
      && (got.Raised? ==> q.end == Some(got.cause))
      && (got.TimedOut? <==> q.handed == q.pushed && q.end.None? && expired)
      && (got.Blocked? ==> r.waiters == q.waiters + [waiter])
      && (!got.Blocked? ==> r.waiters == q.waiters)
      && (!got.Item? ==> r.handed == q.handed)
  {
    if q.items != [] {
      assert q.pushed == q.handed + q.items;
      assert q.pushed[|q.handed|] == q.items[0];
    } else {
      assert q.pushed == q.handed;
    }
  }


  /** A registered waiter is forgotten only when something is queued, when the stream ends, or by its own
      `get` giving up: otherwise it stays, so the push or the end that it waits for wakes it. */
  lemma {:induction false} WaitersStay(q: Queue, ops: seq<Op>, w: nat)
    requires w in q.waiters && DoUnwait(w) !in ops
    ensures var r := ApplyAll(q, ops); w in r.waiters || |r.pushed| > |q.pushed| || (q.end.None? && r.end.Some?)
    decreases |ops|
  {
    if ops != [] {
      var q1 := Apply(q, ops[0]);
      Monotone(q1, ops[1..]);
      if w in q1.waiters {
        WaitersStay(q1, ops[1..], w);
      } else if ops[0].DoUnwait? {
        RemoveOne(q.waiters, ops[0].asking, w);
      }
    }
  }

  lemma {:induction false} Monotone(q: Queue, ops: seq<Op>)
    ensures var r := ApplyAll(q, ops); |r.pushed| >= |q.pushed| && (q.end.Some? ==> r.end.Some?)
    decreases |ops|
  {
    if ops != [] {
      Monotone(Apply(q, ops[0]), ops[1..]);
    }
  }

  lemma {:induction false} RemoveOne(s: seq<nat>, x: nat, w: nat)
    requires x != w
    ensures w in Remove(s, x) <==> w in s
  {
    if s != [] && s[0] != x {
      RemoveOne(s[1..], x, w);
    }
  }

  /** Giving up forgets this waiter, and no other. */
  lemma UnwaitForgets(q: Queue, w: nat, other: nat)
    requires forall i, j :: 0 <= i < j < |q.waiters| ==> q.waiters[i] != q.waiters[j]
    ensures w !in Unwait(q, w).waiters
    ensures other != w ==> (other in Unwait(q, w).waiters <==> other in q.waiters)
  {
    RemoveAll(q.waiters, w);
    if other != w {
      RemoveOne(q.waiters, w, other);
    }
  }

  lemma {:induction false} RemoveAll(s: seq<nat>, x: nat)
    requires forall i, j :: 0 <= i < j < |s| ==> s[i] != s[j]
    ensures x !in Remove(s, x)
  {
    if s != [] && s[0] != x {
      RemoveAll(s[1..], x);
    }
  }

  /** The terminal exception comes only once the queue is drained: at that point everything pushed
      has been handed out, in order, and every later `get` raises the same cause. */
  lemma {:induction false} RaisedOnlyWhenDrained(q: Queue, ops: seq<Op>, expired: bool, waiter: nat, c: Cause)
    requires q.Sound() && Get(q, expired, waiter).1 == Raised(c)
    ensures q.handed == q.pushed
    ensures Get(ApplyAll(q, ops), expired, waiter).1 == Raised(c)
  {
    RunsKeep(q, ops);
    var r := ApplyAll(q, ops);
    assert q.items == [];
    assert r.pushed == q.pushed;
    assert |q.handed| <= |r.handed|;
    assert r.items == [];
  }
}
