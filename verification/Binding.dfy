/** Python calls that may name parameters (`src/logos_bridge/typed/_plans.py`, `MethodPlan.bind`). */
module Binding {
  import opened Wrappers
  import opened Values
  import opened Codecs
  import opened Plans

  /** A keyword argument; their names are distinct in any call. */
  datatype Keyword = Keyword(name: string, value: Val)

  predicate DistinctNames(params: seq<Param>) {
    forall i, j :: 0 <= i < j < |params| ==> params[i].name != params[j].name
  }

  predicate DistinctKeywords(kws: seq<Keyword>) {
    forall i, j :: 0 <= i < j < |kws| ==> kws[i].name != kws[j].name
  }

  function IndexOf(params: seq<Param>, name: string): (r: Option<nat>)
    ensures r.Some? ==> r.value < |params| && params[r.value].name == name
    ensures r.None? <==> forall i :: 0 <= i < |params| ==> params[i].name != name
  {
    if params == [] then None
    else if params[0].name == name then Some(0)
    else
      var r := IndexOf(params[1..], name);
      assert forall i :: 0 < i < |params| ==> params[i] == params[1..][i - 1];
      if r.None? then None else Some(r.value + 1)
  }

  function Find(kws: seq<Keyword>, name: string): Option<Val> {
    if kws == [] then None
    else if kws[|kws| - 1].name == name then Some(kws[|kws| - 1].value)
    else Find(kws[..|kws| - 1], name)
  }

  /** What the call supplies for parameter `i`. */
  function Supplied(params: seq<Param>, args: seq<Val>, kws: seq<Keyword>, i: nat): Option<Val>
    requires i < |params|
  {
    if i < |args| then Some(args[i]) else Find(kws, params[i].name)
  }

  /** The name is a parameter's that no positional argument has taken. */
  predicate Names(params: seq<Param>, taken: nat, kw: Keyword) {
    exists i :: taken <= i < |params| && params[i].name == kw.name
  }

  /** One past the last parameter that is supplied. */
  function Extent(params: seq<Param>, args: seq<Val>, kws: seq<Keyword>): (n: nat)
    requires |args| <= |params|
    ensures |args| <= n <= |params|
    ensures forall i :: n <= i < |params| ==> Supplied(params, args, kws, i).None?
  {
    ExtentFrom(params, args, kws, |params|)
  }

  function ExtentFrom(params: seq<Param>, args: seq<Val>, kws: seq<Keyword>, n: nat): (r: nat)
    requires |args| <= n <= |params|
    ensures |args| <= r <= n
    ensures r > |args| ==> Supplied(params, args, kws, r - 1).Some?
    ensures forall i :: r <= i < n ==> Supplied(params, args, kws, i).None?
  {
    if n == |args| || Supplied(params, args, kws, n - 1).Some? then n else ExtentFrom(params, args, kws, n - 1)
  }

  /** Every keyword names a free parameter, and every required parameter before the last supplied one
      is supplied. */
  predicate Binds(params: seq<Param>, args: seq<Val>, kws: seq<Keyword>) {
    && |args| <= |params|
    && (forall k :: 0 <= k < |kws| ==> Names(params, |args|, kws[k]))
    && (forall i :: 0 <= i < Extent(params, args, kws) ==>
          params[i].optional || Supplied(params, args, kws, i).Some?)
  }

  /** The bound values: what is supplied, and null for an omitted optional in between. */
  function Bound(params: seq<Param>, args: seq<Val>, kws: seq<Keyword>): seq<Val>
    requires |args| <= |params|
  {
    seq(Extent(params, args, kws), i requires 0 <= i < Extent(params, args, kws) =>
      var s := Supplied(params, args, kws, i); if s.Some? then s.value else Null)
  }

  // ---------------------------------------------------------------- the method

  function Filled(args: seq<Val>): seq<Option<Val>> {
    seq(|args|, i requires 0 <= i < |args| => Some(args[i]))
  }

  /** The list after some keywords: each place holds what has been supplied for it. */
  predicate HoldsSupplied(params: seq<Param>, args: seq<Val>, kws: seq<Keyword>, values: seq<Option<Val>>) {
    && |args| <= |values| <= |params|
    && (forall i :: 0 <= i < |values| ==> values[i] == Supplied(params, args, kws, i))
    && (forall i :: |values| <= i < |params| ==> Supplied(params, args, kws, i).None?)
    && (|values| > |args| ==> values[|values| - 1].Some?)
  }

  lemma SuppliedNext(params: seq<Param>, args: seq<Val>, kws: seq<Keyword>, kw: Keyword, i: nat)
    requires i < |params|
    ensures Supplied(params, args, kws + [kw], i) ==
      if i >= |args| && params[i].name == kw.name then Some(kw.value) else Supplied(params, args, kws, i)
  {
    assert (kws + [kw])[..|kws|] == kws;
  }

  lemma NamesDiffer(params: seq<Param>, i: nat, j: nat)
    requires DistinctNames(params) && i < |params| && j < |params|
    ensures i != j ==> params[i].name != params[j].name
  {
  }

  /** One keyword more. */
  lemma PlaceKeyword(params: seq<Param>, args: seq<Val>, kws: seq<Keyword>, kw: Keyword, index: nat,
                     values: seq<Option<Val>>, after: seq<Option<Val>>)
    requires DistinctNames(params) && HoldsSupplied(params, args, kws, values)
    requires |args| <= index < |params| && params[index].name == kw.name
    requires after == (values + seq(if |values| < index + 1 then index + 1 - |values| else 0, _ => None))[index := Some(kw.value)]
    ensures HoldsSupplied(params, args, kws + [kw], after)
  {
    forall i | 0 <= i < |params|
      ensures Supplied(params, args, kws + [kw], i) == if i == index then Some(kw.value) else Supplied(params, args, kws, i)
    {
      SuppliedNext(params, args, kws, kw, i);
      NamesDiffer(params, i, index);
    }
  }

  lemma ExtentIs(params: seq<Param>, args: seq<Val>, kws: seq<Keyword>, values: seq<Option<Val>>)
    requires HoldsSupplied(params, args, kws, values)
    ensures Extent(params, args, kws) == |values|
  {
    assert |values| > |args| ==> values[|values| - 1] == Supplied(params, args, kws, |values| - 1);
  }

  /** The list without the missing optionals at its end. */
  function Trim(params: seq<Param>, values: seq<Option<Val>>): seq<Option<Val>>
    requires |values| <= |params|
  {
    if values != [] && values[|values| - 1].None? && params[|values| - 1].optional
    then Trim(params, values[..|values| - 1]) else values
  }

  method DropMissing(params: seq<Param>, values: seq<Option<Val>>) returns (out: seq<Option<Val>>)
    requires |values| <= |params|
    ensures out == Trim(params, values)
  {
    out := values;
    while out != [] && out[|out| - 1].None? && params[|out| - 1].optional
      invariant |out| <= |params| && Trim(params, out) == Trim(params, values)
    {
      out := out[..|out| - 1];
    }
  }

  /** There never is one: the last keyword placed at the end is a value. */
  lemma NothingToTrim(params: seq<Param>, args: seq<Val>, kws: seq<Keyword>, values: seq<Option<Val>>)
    requires HoldsSupplied(params, args, kws, values)
    ensures Trim(params, values) == values
  {
    assert |values| > 0 ==> values[|values| - 1] == Supplied(params, args, kws, |values| - 1);
  }

  /** Why a call is refused: too many positional values; the first keyword that names no parameter or one that a
      positional value has taken; or the first required parameter that is left out before a supplied one. */
  ghost predicate Refuses(params: seq<Param>, args: seq<Val>, kws: seq<Keyword>, e: CallError) {
    match e
    case Arity(n) =>
      if |args| > |params| then n == |args|
      else
        && (forall k :: 0 <= k < |kws| ==> Names(params, |args|, kws[k]))
        && n < |params| && !params[n].optional && Supplied(params, args, kws, n).None?
        && (forall i :: 0 <= i < n ==> params[i].optional || Supplied(params, args, kws, i).Some?)
        && (exists i :: n < i < |params| && Supplied(params, args, kws, i).Some?)
    case Unexpected(name) =>
      && |args| <= |params| && (forall i :: 0 <= i < |params| ==> params[i].name != name)
      && exists k: nat :: FirstBad(params, |args|, kws, k) && kws[k].name == name
    case Multiple(name) =>
      && |args| <= |params| && (exists i :: 0 <= i < |args| && params[i].name == name)
      && exists k: nat :: FirstBad(params, |args|, kws, k) && kws[k].name == name
    case _ => false
  }

  predicate FirstBad(params: seq<Param>, taken: nat, kws: seq<Keyword>, k: nat) {
    k < |kws| && !Names(params, taken, kws[k]) && forall j :: 0 <= j < k ==> Names(params, taken, kws[j])
  }

  /** `bind`. */
  method Bind(plan: Plan, args: seq<Val>, kws: seq<Keyword>) returns (r: Result<seq<Val>, CallError>)
    requires DistinctNames(plan.params) && DistinctKeywords(kws)
    ensures r.Ok? <==> Binds(plan.params, args, kws)
    ensures r.Ok? ==> r.value == Bound(plan.params, args, kws)
    ensures r.Err? ==> Refuses(plan.params, args, kws, r.error)
  {
    hide HoldsSupplied, Binds, Bound, Extent, Trim, Names;
    var params := plan.params;
    var values := Filled(args);
    var positional := |values|;
    BindsOnlyIf(params, args, kws);
    if positional > |params| {
      return Err(Arity(positional));
    }
    NothingNamed(params, args);
    HoldsNoMore(params, args, kws[..0], values);
    for k := 0 to |kws|
      invariant HoldsSupplied(params, args, kws[..k], values) && |args| <= |values| <= |params|
      invariant forall j :: 0 <= j < k ==> Names(params, |args|, kws[j])
    {
      var index := IndexOf(params, kws[k].name);
      if index.None? {
        Unnamed(params, |args|, kws[k]);
        assert FirstBad(params, |args|, kws, k);
        return Err(Unexpected(kws[k].name));
      }
      if index.value < positional {
        NotFree(params, |args|, kws[k], index.value);
        assert FirstBad(params, |args|, kws, k);
        return Err(Multiple(kws[k].name));
      }
      ghost var before := values;
      values := values + seq(if |values| < index.value + 1 then index.value + 1 - |values| else 0, _ => None);
      values := values[index.value := Some(kws[k].value)];
      KeywordPlaced(params, args, kws, k, index.value, before, values);
    }
    assert kws[..|kws|] == kws;
    NothingToTrim(params, args, kws, values);
    values := DropMissing(params, values);
    MinArgsIs(params);
    var bound: seq<Val> := [];
    for index := 0 to |values|
      invariant |bound| == index
      invariant forall i :: 0 <= i < index ==> params[i].optional || values[i].Some?
      invariant forall i :: 0 <= i < index ==> bound[i] == if values[i].Some? then values[i].value else Null
    {
      if values[index].None? {
        if !params[index].optional && !ArityOk(plan, index) {
          RequiredMissing(params, args, kws, values, index);
          RefusesArity(params, args, kws, values, index);
          return Err(Arity(index));
        }
        bound := bound + [Null];
      } else {
        bound := bound + [values[index].value];
      }
    }
    BindsThen(params, args, kws, values, bound);
    r := Ok(bound);
  }

  lemma BindsOnlyIf(params: seq<Param>, args: seq<Val>, kws: seq<Keyword>)
    ensures Binds(params, args, kws) ==> |args| <= |params| && forall k :: 0 <= k < |kws| ==> Names(params, |args|, kws[k])
  {
  }

  lemma HoldsNoMore(params: seq<Param>, args: seq<Val>, kws: seq<Keyword>, values: seq<Option<Val>>)
    requires HoldsSupplied(params, args, kws, values)
    ensures |args| <= |values| <= |params|
  {
  }

  lemma Unnamed(params: seq<Param>, taken: nat, kw: Keyword)
    requires IndexOf(params, kw.name).None?
    ensures !Names(params, taken, kw)
  {
  }

  /** The next keyword has been put into the list. */
  lemma KeywordPlaced(params: seq<Param>, args: seq<Val>, kws: seq<Keyword>, k: nat, index: nat,
                      values: seq<Option<Val>>, after: seq<Option<Val>>)
    requires k < |kws| && DistinctNames(params) && HoldsSupplied(params, args, kws[..k], values)
    requires |args| <= index < |params| && params[index].name == kws[k].name
    requires after == (values + seq(if |values| < index + 1 then index + 1 - |values| else 0, _ => None))[index := Some(kws[k].value)]
    ensures HoldsSupplied(params, args, kws[..k + 1], after) && |args| <= |after| <= |params|
    ensures Names(params, |args|, kws[k])
  {
    PlaceKeyword(params, args, kws[..k], kws[k], index, values, after);
    assert kws[..k + 1] == kws[..k] + [kws[k]];
  }

  lemma RefusesArity(params: seq<Param>, args: seq<Val>, kws: seq<Keyword>, values: seq<Option<Val>>, index: nat)
    requires HoldsSupplied(params, args, kws, values) && index < |values| && values[index].None? && !params[index].optional
    requires forall k :: 0 <= k < |kws| ==> Names(params, |args|, kws[k])
    requires forall i :: 0 <= i < index ==> params[i].optional || values[i].Some?
    ensures Refuses(params, args, kws, Arity(index))
  {
    hide Names;
    assert index < |values| - 1 && Supplied(params, args, kws, |values| - 1) == values[|values| - 1];
  }

  lemma RequiredMissing(params: seq<Param>, args: seq<Val>, kws: seq<Keyword>, values: seq<Option<Val>>, index: nat)
    requires HoldsSupplied(params, args, kws, values) && index < |values| && values[index].None? && !params[index].optional
    ensures !Binds(params, args, kws)
  {
    ExtentIs(params, args, kws, values);
  }

  lemma BindsThen(params: seq<Param>, args: seq<Val>, kws: seq<Keyword>, values: seq<Option<Val>>, bound: seq<Val>)
    requires HoldsSupplied(params, args, kws, values) && |bound| == |values|
    requires forall k :: 0 <= k < |kws| ==> Names(params, |args|, kws[k])
    requires forall i :: 0 <= i < |values| ==> params[i].optional || values[i].Some?
    requires forall i :: 0 <= i < |values| ==> bound[i] == if values[i].Some? then values[i].value else Null
    ensures Binds(params, args, kws) && bound == Bound(params, args, kws)
  {
    ExtentIs(params, args, kws, values);
  }

  lemma NothingNamed(params: seq<Param>, args: seq<Val>)
    requires |args| <= |params|
    ensures HoldsSupplied(params, args, [], Filled(args))
  {
  }

  lemma NotFree(params: seq<Param>, taken: nat, kw: Keyword, index: nat)
    requires DistinctNames(params) && index < |params| && index < taken && params[index].name == kw.name
    ensures !Names(params, taken, kw)
  {
  }

  // ---------------------------------------------------------------- where values go, what is refused

  /** A successful binding has every positional value at its own index, every keyword's value at the index of
      the parameter it names, and null at every other. */
  lemma BoundPlaces(params: seq<Param>, args: seq<Val>, kws: seq<Keyword>)
    requires DistinctNames(params) && DistinctKeywords(kws) && Binds(params, args, kws)
    ensures var values := Bound(params, args, kws);
      && |args| <= |values| <= |params|
      && (forall i :: 0 <= i < |args| ==> values[i] == args[i])
      && (forall k, i :: 0 <= k < |kws| && 0 <= i < |params| && params[i].name == kws[k].name ==>
            |args| <= i < |values| && values[i] == kws[k].value)
      && (forall i :: |args| <= i < |values| && (forall k :: 0 <= k < |kws| ==> kws[k].name != params[i].name) ==>
            values[i] == Null && params[i].optional)
  {
    hide Names, Find, ExtentFrom;
    forall k, i | 0 <= k < |kws| && 0 <= i < |params| && params[i].name == kws[k].name
      ensures |args| <= i < Extent(params, args, kws) && Supplied(params, args, kws, i) == Some(kws[k].value)
    {
      KeywordPlace(params, args, kws, k, i);
    }
    forall i | |args| <= i < |params| && forall k :: 0 <= k < |kws| ==> kws[k].name != params[i].name
      ensures Supplied(params, args, kws, i).None?
    {
      FindNone(kws, params[i].name);
    }
  }

  lemma KeywordPlace(params: seq<Param>, args: seq<Val>, kws: seq<Keyword>, k: nat, i: nat)
    requires DistinctNames(params) && DistinctKeywords(kws) && k < |kws| && i < |params| && params[i].name == kws[k].name
    requires |args| <= |params| && Names(params, |args|, kws[k])
    ensures |args| <= i < Extent(params, args, kws) && Supplied(params, args, kws, i) == Some(kws[k].value)
  {
    var j :| |args| <= j < |params| && params[j].name == kws[k].name;
    NamesDiffer(params, i, j);
    assert i == j;
    FindIs(kws, k);
    assert Supplied(params, args, kws, i) == Some(kws[k].value);
    assert i < Extent(params, args, kws);
  }

  lemma {:induction false} FindIs(kws: seq<Keyword>, k: nat)
    requires k < |kws| && DistinctKeywords(kws)
    ensures Find(kws, kws[k].name) == Some(kws[k].value)
  {
    if k < |kws| - 1 {
      FindIs(kws[..|kws| - 1], k);
    }
  }

  lemma {:induction false} FindNone(kws: seq<Keyword>, name: string)
    requires forall k :: 0 <= k < |kws| ==> kws[k].name != name
    ensures Find(kws, name).None?
  {
    if kws != [] {
      FindNone(kws[..|kws| - 1], name);
    }
  }

  // ---------------------------------------------------------------- bind, then check_arity

  /** Every required parameter is supplied once, no parameter twice, and no name is unknown. */
  predicate WellCalled(params: seq<Param>, args: seq<Val>, kws: seq<Keyword>) {
    && |args| <= |params|
    && (forall k :: 0 <= k < |kws| ==> Names(params, |args|, kws[k]))
    && (forall i :: 0 <= i < |params| && !params[i].optional ==> Supplied(params, args, kws, i).Some?)
  }

  /** Binding and then checking the arity accepts exactly the well-formed calls; each value is at its
      declared index, with null only for omitted optionals. */
  lemma BindAcceptsExactly(plan: Plan, args: seq<Val>, kws: seq<Keyword>)
    ensures Binds(plan.params, args, kws) && ArityOk(plan, |Bound(plan.params, args, kws)|)
      <==> WellCalled(plan.params, args, kws)
    ensures WellCalled(plan.params, args, kws) ==>
      forall i :: 0 <= i < |plan.params| ==>
        Some(Arg(Bound(plan.params, args, kws), i)) == Supplied(plan.params, args, kws, i)
        || (plan.params[i].optional && Supplied(plan.params, args, kws, i).None? && Arg(Bound(plan.params, args, kws), i) == Null)
  {
    var params := plan.params;
    MinArgsIs(params);
    if |args| <= |params| {
      var n := Extent(params, args, kws);
      if MinArgs(params) > n {
        assert Supplied(params, args, kws, MinArgs(params) - 1).None?;
      }
    }
  }
}
