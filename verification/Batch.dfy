/** One request body's responses, collected and sent together
(`src/logos_bridge/testing/_fake.py`, `_Batch`). */
module Batch {
  import opened Wrappers

  /** What the sink gets: one response for a body that was a single request, a list otherwise. */
  datatype Body<R> = Nothing | One(response: R) | Many(responses: seq<R>)

  /** `sunk` is every call of the sink so far. */
  datatype State<R> = State(slots: seq<Option<R>>, single: bool, sunk: seq<Body<R>>)

  datatype Fill<R> = Fill(slot: nat, response: R)

  function Start<R>(expected: nat, single: bool): State<R> {
    State(seq(expected, _ => None), single, [])
  }

  predicate Complete<R>(slots: seq<Option<R>>) {
    forall i :: 0 <= i < |slots| ==> slots[i].Some?
  }

  function CountEmpty<R>(slots: seq<Option<R>>): nat {
    if slots == [] then 0 else (if slots[0].None? then 1 else 0) + CountEmpty(slots[1..])
  }

  function Present<R>(slots: seq<Option<R>>): seq<R> {
    if slots == [] then [] else (if slots[0].Some? then [slots[0].value] else []) + Present(slots[1..])
  }

  function Shape<R>(responses: seq<R>, single: bool): Body<R> {
    if responses == [] then Nothing
    else if single && |responses| == 1 then One(responses[0]) else Many(responses)
  }

  /** `fill`: a slot that is taken stays as it is; the last one fills the sink. */
  function Apply<R>(b: State<R>, f: Fill<R>): State<R> {
    if f.slot >= |b.slots| || b.slots[f.slot].Some? then
      b
    else
      var slots := b.slots[f.slot := Some(f.response)];
      State(slots, b.single, if CountEmpty(slots) == 0 then b.sunk + [Shape(Present(slots), b.single)] else b.sunk)
  }

  function ApplyAll<R>(b: State<R>, fills: seq<Fill<R>>): State<R> {
    if fills == [] then b else Apply(ApplyAll(b, fills[..|fills| - 1]), fills[|fills| - 1])
  }

  /** The first response offered for a slot. */
  function First<R>(fills: seq<Fill<R>>, slot: nat): Option<R> {
    if fills == [] then None
    else if fills[0].slot == slot then Some(fills[0].response)
    else First(fills[1..], slot)
  }

  /** Every slot has been offered a response. */
  predicate Covers<R>(fills: seq<Fill<R>>, expected: nat) {
    forall i :: 0 <= i < expected ==> First(fills, i).Some?
  }

  function Responses<R>(fills: seq<Fill<R>>, expected: nat): seq<R>
    requires Covers(fills, expected)
  {
    seq(expected, i requires 0 <= i < expected => First(fills, i).value)
  }

  // ---------------------------------------------------------------- counting

  lemma {:induction false} CountZero<R>(slots: seq<Option<R>>)
    ensures CountEmpty(slots) == 0 <==> Complete(slots)
  {
    if slots != [] {
      CountZero(slots[1..]);
      assert slots[0].Some? && Complete(slots[1..]) ==> Complete(slots) by {
        assert forall i :: 0 < i < |slots| ==> slots[i] == slots[1..][i - 1];
      }
      assert Complete(slots) ==> Complete(slots[1..]);
    }
  }

  lemma {:induction false} CountNone<R>(n: nat)
    ensures CountEmpty(seq(n, _ => Option<R>.None)) == n
  {
    if n > 0 {
      assert seq(n, _ => Option<R>.None)[1..] == seq(n - 1, _ => Option<R>.None);
      CountNone<R>(n - 1);
    }
  }

  lemma {:induction false} CountFill<R>(slots: seq<Option<R>>, i: nat, r: R)
    requires i < |slots| && slots[i].None?
    ensures CountEmpty(slots[i := Some(r)]) == CountEmpty(slots) - 1
  {
    if i > 0 {
      CountFill(slots[1..], i - 1, r);
      assert slots[i := Some(r)][1..] == slots[1..][i - 1 := Some(r)];
    } else {
      assert slots[0 := Some(r)][1..] == slots[1..];
    }
  }

  lemma {:induction false} PresentAll<R>(slots: seq<Option<R>>)
    requires Complete(slots)
    ensures |Present(slots)| == |slots|
    ensures forall i :: 0 <= i < |slots| ==> Present(slots)[i] == slots[i].value
  {
    if slots != [] {
      PresentAll(slots[1..]);
    }
  }

  // ---------------------------------------------------------------- every order of fills

  lemma {:induction false} FirstAppend<R>(fills: seq<Fill<R>>, f: Fill<R>, slot: nat)
    ensures First(fills + [f], slot) ==
      if First(fills, slot).Some? then First(fills, slot) else if f.slot == slot then Some(f.response) else None
  {
    if fills != [] {
      assert (fills + [f])[1..] == fills[1..] + [f];
      FirstAppend(fills[1..], f, slot);
    } else {
      assert (fills + [f])[1..] == [];
    }
  }

  lemma {:induction false} SlotsHoldFirst<R>(expected: nat, single: bool, fills: seq<Fill<R>>)
    ensures var b := ApplyAll(Start(expected, single), fills);
      && b.single == single && |b.slots| == expected
      && forall i :: 0 <= i < expected ==> b.slots[i] == First(fills, i)
  {
    if fills != [] {
      var before, f := fills[..|fills| - 1], fills[|fills| - 1];
      SlotsHoldFirst(expected, single, before);
      assert fills == before + [f];
      forall i | 0 <= i < expected
        ensures ApplyAll(Start(expected, single), fills).slots[i] == First(fills, i)
      {
        FirstAppend(before, f, i);
      }
    }
  }

  /** In any order and with any repetitions, the sink is called at most once, and exactly when every
      slot has been filled, with the first response of each slot in request order. */
  lemma {:induction false} SunkOnce<R>(expected: nat, single: bool, fills: seq<Fill<R>>)
    requires expected > 0
    ensures ApplyAll(Start(expected, single), fills).sunk ==
      if Covers(fills, expected) then [Shape(Responses(fills, expected), single)] else []
  {
    SlotsHoldFirst(expected, single, fills);
    if fills == [] {
      assert First(fills, 0) == None;
    } else {
      var before, f := fills[..|fills| - 1], fills[|fills| - 1];
      assert fills == before + [f];
      SunkOnce(expected, single, before);
      SlotsHoldFirst(expected, single, before);
      var b, d := ApplyAll(Start(expected, single), before), ApplyAll(Start(expected, single), fills);
      assert d == Apply(b, f);
      forall i | 0 <= i < expected
        ensures First(fills, i) == if First(before, i).Some? then First(before, i) else d.slots[i]
      {
        FirstAppend(before, f, i);
      }
      CoversIs(b, before);
      CoversIs(d, fills);
      CountZero(d.slots);
      if Complete(d.slots) {
        PresentAll(d.slots);
        assert Present(d.slots) == Responses(fills, expected);
        if Complete(b.slots) {
          assert Responses(before, expected) == Responses(fills, expected);
        }
      }
    }
  }

  /** What the sink gets: the response itself for a body that was a single request, else the list of them. */
  lemma SunkBody<R>(expected: nat, single: bool, fills: seq<Fill<R>>)
    requires expected > 0 && Covers(fills, expected) && (single ==> expected == 1)
    ensures ApplyAll(Start(expected, single), fills).sunk ==
      if single then [One(First(fills, 0).value)] else [Many(seq(expected, i requires 0 <= i < expected => First(fills, i).value))]
  {
    SunkOnce(expected, single, fills);
    assert Responses(fills, expected) == seq(expected, i requires 0 <= i < expected => First(fills, i).value);
  }

  lemma CoversIs<R>(b: State<R>, fills: seq<Fill<R>>)
    requires forall i :: 0 <= i < |b.slots| ==> b.slots[i] == First(fills, i)
    ensures Covers(fills, |b.slots|) <==> Complete(b.slots)
  {
    if Complete(b.slots) {
      forall i | 0 <= i < |b.slots|
        ensures First(fills, i).Some?
      {
        assert b.slots[i].Some?;
      }
    }
  }

  // ---------------------------------------------------------------- the object

  class Collector<R> {
    const slots: array<Option<R>>
    const single: bool
    var remaining: nat
    var sunk: seq<Body<R>>

    ghost predicate Valid()
      reads this, slots
    {
      remaining == CountEmpty(slots[..])
    }

    ghost function Value(): State<R>
      reads this, slots
    {
      State(slots[..], single, sunk)
    }

    constructor (expected: nat, single: bool)
      ensures Valid() && fresh(slots) && Value() == Start(expected, single) && remaining == expected
    {
      slots := new Option<R>[expected](_ => None);
      this.single := single;
      remaining := expected;
      sunk := [];
      new;
      CountNone<R>(expected);
      assert slots[..] == seq(expected, _ => None);
    }

    method FillSlot(slot: nat, response: R)
      requires Valid() && slot < slots.Length
      modifies this, slots
      ensures Valid() && Value() == Apply(old(Value()), Fill(slot, response))
    {
      if slots[slot].Some? {
        return;
      }
      CountFill(slots[..], slot, response);
      ghost var before := slots[..];
      slots[slot] := Some(response);
      assert slots[..] == before[slot := Some(response)];
      remaining := remaining - 1;
      if remaining == 0 {
        Flush();
      }
    }

    method Flush()
      requires Valid() && remaining == 0
      modifies this`sunk
      ensures sunk == old(sunk) + [Shape(Present(slots[..]), single)]
    {
      var out: seq<R> := [];
      for i := 0 to slots.Length
        invariant out == Present(slots[..i]) && sunk == old(sunk)
      {
        PresentNext(slots[..], i);
        assert slots[..][..i + 1] == slots[..i + 1] && slots[..][..i] == slots[..i];
        if slots[i].Some? {
          out := out + [slots[i].value];
        }
      }
      assert slots[..slots.Length] == slots[..];
      if |out| == 0 {
        sunk := sunk + [Nothing];
      } else {
        sunk := sunk + [if single && |out| == 1 then One(out[0]) else Many(out)];
      }
    }
  }

  lemma {:induction false} PresentAppend<R>(a: seq<Option<R>>, b: seq<Option<R>>)
    ensures Present(a + b) == Present(a) + Present(b)
  {
    if a == [] {
      assert a + b == b;
    } else {
      assert (a + b)[1..] == a[1..] + b;
      PresentAppend(a[1..], b);
      var first := if a[0].Some? then [a[0].value] else [];
      assert first + (Present(a[1..]) + Present(b)) == first + Present(a[1..]) + Present(b);
    }
  }

  lemma PresentNext<R>(slots: seq<Option<R>>, i: nat)
    requires i < |slots|
    ensures Present(slots[..i + 1]) == Present(slots[..i]) + (if slots[i].Some? then [slots[i].value] else [])
  {
    assert slots[..i + 1] == slots[..i] + [slots[i]];
    PresentAppend(slots[..i], [slots[i]]);
  }
}
