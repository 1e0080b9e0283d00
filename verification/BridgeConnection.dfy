/** The bridge's side of one connection as the object that its handlers change in place
(`src/logos_bridge/testing/_fake.py`, `FakeConnection` and the `FakeBridge` methods on it). Each
method does what `BridgeState` says, so the runs of `Joint` are runs of this object. */
module BridgeConnection {
  import opened Wrappers
  import opened ClientState
  import opened ClientInvariant
  import opened BridgeState

  predicate Matches(t: Target, mod: string, event: Option<string>) {
    t.mod == mod && (event.Some? ==> t.event == event.value)
  }

  class FakeConnection {
    var open: bool
    var subs: map<Sid, Target>
    var subscribers: map<Sid, Target>
    var handlers: map<ReqId, Handler>
    var calls: map<ReqId, nat>
    var outbound: seq<Frame>
    ghost var written: seq<Frame>
    ghost var answered: map<ReqId, nat>

    /** Everything queued so far, taken by the writer or not. */
    ghost function State(): Bridge
      reads this
    {
      Bridge(open, subs, subscribers, handlers, calls, written + outbound, answered)
    }

    constructor ()
      ensures State() == NewBridge
      ensures BridgeRight(State())
    {
      open, subs, subscribers, handlers, calls := true, map[], map[], map[], map[];
      outbound, written, answered := [], [], map[];
    }

    /** `_enqueue` on an open connection that keeps up. */
    method Enqueue(frame: Frame)
      requires open
      modifies this`outbound
      ensures State() == Post(old(State()), frame)
      ensures BridgeRight(old(State())) && !frame.Response? ==> BridgeRight(State())
    {
      if BridgeRight(State()) && !frame.Response? {
        PostKeeps(State(), frame);
      }
      outbound := outbound + [frame];
      assert written + outbound == old(written + outbound) + [frame];
    }

    /** One turn of `_writer`. */
    method WriteNext() returns (frame: Frame)
      requires open && outbound != []
      modifies this`outbound, this`written
      ensures State() == old(State()) && written == old(written) + [frame]
    {
      frame := outbound[0];
      written := written + [frame];
      outbound := outbound[1..];
      assert written + outbound == old(written + outbound);
    }

    /** The response to request `id`, which is at place `at` among the requests. */
    method Reply(id: ReqId, ok: bool, ghost at: nat)
      requires open
      modifies this`outbound, this`answered
      ensures State() == Answer(old(State()), id, ok, at)
      ensures BridgeRight(old(State())) && Unused(old(State()), id) ==> BridgeRight(State())
    {
      if BridgeRight(State()) && Unused(State(), id) {
        AnswerKeeps(State(), id, ok, at);
      }
      Enqueue(Response(id, ok));
      answered := answered[id := at];
    }

    method Fail(sid: Sid)
      modifies this`subs, this`subscribers
      ensures State() == Unclaim(old(State()), sid)
      ensures BridgeRight(old(State())) ==> BridgeRight(State())
    {
      if BridgeRight(State()) {
        UnclaimKeeps(State(), sid);
      }
      subscribers := subscribers - {sid};
      subs := subs - {sid};
    }

    /** `_subscribe` on this connection. */
    method Subscribe(id: ReqId, sid: Sid, target: Target, at: nat, permitted: bool, max: nat, fate: Fate)
      requires open
      modifies this
      ensures State() == OnSubscribe(old(State()), id, sid, target, at, permitted, max, fate)
      ensures BridgeRight(old(State())) && Unused(old(State()), id) ==> BridgeRight(State())
    {
      hide BridgeRight, Unused;
      if BridgeRight(State()) && Unused(State(), id) {
        OnSubscribeKeeps(State(), id, sid, target, at, permitted, max, fate);
      }
      if !permitted {
        Reply(id, false, at);
        return;
      }
      if |subs| >= max {
        Reply(id, false, at);
        return;
      }
      if sid in subs {
        Reply(id, true, at);
        return;
      }
      subs := subs[sid := target];
      subscribers := subscribers[sid := target];
      match fate {
        case Now(true) => Reply(id, true, at);
        case Now(false) => Fail(sid); Reply(id, false, at);
        case Later => handlers := handlers[id := Handler(sid, at)];
        case Never =>
      }
    }

    /** A delayed handler acknowledges or fails. */
    method FinishHandler(id: ReqId, ok: bool)
      requires open && id in handlers
      modifies this
      ensures State() == HandlerDone(old(State()), id, ok)
      ensures BridgeRight(old(State())) ==> BridgeRight(State())
    {
      if BridgeRight(State()) {
        HandlerDoneKeeps(State(), id, ok);
      }
      var handler := handlers[id];
      handlers := handlers - {id};
      if !ok {
        Fail(handler.sid);
      }
      Reply(id, ok, handler.at);
    }

    /** `_unsubscribe` on this connection. */
    method Unsubscribe(id: ReqId, sid: Sid, ghost at: nat)
      requires open
      modifies this
      ensures State() == OnUnsubscribe(old(State()), id, sid, at)
      ensures BridgeRight(old(State())) && Unused(old(State()), id) ==> BridgeRight(State())
    {
      if BridgeRight(State()) && Unused(State(), id) {
        OnUnsubscribeKeeps(State(), id, sid, at);
      }
      subs := subs - {sid};
      subscribers := subscribers - {sid};
      Reply(id, true, at);
    }

    /** `terminate`, for this connection; `order` is the order of the frames. */
    method Terminate(mod: string, event: Option<string>) returns (ghost order: seq<Sid>)
      requires open
      modifies this
      ensures Distinct(order)
      ensures forall x :: x in order <==> x in old(subscribers) && Matches(old(subscribers)[x], mod, event)
      ensures State() == TerminateAll(old(State()), order)
      ensures BridgeRight(old(State())) ==> BridgeRight(State())
    {
      ghost var b := State();
      var items := subscribers;
      var rest := items.Keys;
      order := [];
      TerminateNone(b);
      while rest != {}
        invariant rest <= items.Keys && Distinct(order) && open
        invariant forall x :: x in order <==> x in items && x !in rest && Matches(items[x], mod, event)
        invariant State() == TerminateAll(b, order)
      {
        var key :| key in rest;
        if Matches(items[key], mod, event) {
          TerminateNext(b, order, key);
          subscribers := subscribers - {key};
          subs := subs - {key};
          Enqueue(TerminatedFrame(key));
          order := order + [key];
        }
        rest := rest - {key};
      }
      if BridgeRight(b) {
        TerminateAllKeeps(b, order);
      }
    }

    /** `emit_json`, for this connection. */
    method Emit(mod: string, event: string, data: nat) returns (ghost order: seq<Sid>)
      requires open
      modifies this`outbound
      ensures Distinct(order)
      ensures forall x :: x in order <==> x in subscribers && subscribers[x] == Target(mod, event)
      ensures State() == EmitAll(old(State()), order, data)
      ensures BridgeRight(old(State())) ==> BridgeRight(State())
    {
      var rest := subscribers.Keys;
      order := [];
      while rest != {}
        invariant rest <= subscribers.Keys && Distinct(order)
        invariant forall x :: x in order <==> x in subscribers && x !in rest && subscribers[x] == Target(mod, event)
        invariant State() == EmitAll(old(State()), order, data)
      {
        var key :| key in rest;
        if subscribers[key] == Target(mod, event) {
          assert (order + [key])[..|order|] == order;
          Enqueue(EventFrame(key, data));
          order := order + [key];
        }
        rest := rest - {key};
      }
      if BridgeRight(old(State())) {
        EmitAllKeeps(old(State()), order, data);
      }
    }

    method Close()
      modifies this`open, this`subs, this`subscribers
      ensures State() == CloseConnection(old(State()))
      ensures BridgeRight(old(State())) ==> BridgeRight(State())
    {
      open := false;
      subs, subscribers := map[], map[];
    }
  }

  function EmitAll(b: Bridge, xs: seq<Sid>, data: nat): Bridge {
    if xs == [] then b else Post(EmitAll(b, xs[..|xs| - 1], data), EventFrame(xs[|xs| - 1], data))
  }

  lemma TerminateNone(b: Bridge)
    ensures TerminateAll(b, []) == b
  {
    assert TerminateAll(b, []).posted == b.posted;
    assert TerminateAll(b, []).subs == b.subs;
    assert TerminateAll(b, []).subscribers == b.subscribers;
  }

  lemma TerminateNext(b: Bridge, xs: seq<Sid>, x: Sid)
    ensures var d := TerminateAll(b, xs);
      TerminateAll(b, xs + [x]) == Post(Unclaim(d, x), TerminatedFrame(x))
  {
    var d, e := TerminateAll(b, xs), TerminateAll(b, xs + [x]);
    assert e.subs == d.subs - {x};
    assert e.subscribers == d.subscribers - {x};
    assert e.posted == d.posted + [TerminatedFrame(x)];
  }

  lemma TerminateAllKeeps(b: Bridge, xs: seq<Sid>)
    requires BridgeRight(b)
    ensures BridgeRight(TerminateAll(b, xs))
  {
    if xs == [] {
      TerminateNone(b);
    } else {
      var last := |xs| - 1;
      var d := TerminateAll(b, xs[..last]);
      TerminateAllKeeps(b, xs[..last]);
      TerminateNext(b, xs[..last], xs[last]);
      assert xs == xs[..last] + [xs[last]];
      UnclaimKeeps(d, xs[last]);
      PostKeeps(Unclaim(d, xs[last]), TerminatedFrame(xs[last]));
    }
  }

  lemma {:induction false} EmitAllKeeps(b: Bridge, xs: seq<Sid>, data: nat)
    requires BridgeRight(b)
    ensures BridgeRight(EmitAll(b, xs, data))
  {
    if xs != [] {
      var last := |xs| - 1;
      EmitAllKeeps(b, xs[..last], data);
      PostKeeps(EmitAll(b, xs[..last], data), EventFrame(xs[last], data));
    }
  }

  /** An emitted event is queued for each of `xs`, in order, and nothing else changes. */
  lemma {:induction false} EmitExactly(b: Bridge, xs: seq<Sid>, data: nat)
    ensures var d := EmitAll(b, xs, data);
      && d == b.(posted := d.posted) && |d.posted| == |b.posted| + |xs| && d.posted[..|b.posted|] == b.posted
      && forall i :: 0 <= i < |xs| ==> d.posted[|b.posted| + i] == EventFrame(xs[i], data)
  {
    if xs != [] {
      EmitExactly(b, xs[..|xs| - 1], data);
    }
  }
}
