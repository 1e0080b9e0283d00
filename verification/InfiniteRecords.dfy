/** The warning `infinite_record` and what it means (`src/logos_bridge/lidl.py`,
`_Validator.infinite_records`; `src/logos_bridge/typed/_codecs.py`, `RecordCodec.decode`). */
module InfiniteRecords {
  import opened Wrappers
  import opened LidlTypes
  import opened Values
  import opened Codecs
  import opened Builder
  import opened Signatures
  import opened Rejection
  import FirstReference

  // ---------------------------------------------------------------- required references

  /** `required_refs`: the records that a record needs a value of. */
  function RequiredRefs(table: Table, r: string): set<string> {
    if r in table
    then set f | f in table[r] && Requires(table, table[r][f]) :: table[r][f].ty.name
    else {}
  }

  predicate Requires(table: Table, s: Slot) {
    !s.optional && s.ty.kind.Named? && s.ty.name in table
  }

  predicate Needs(table: Table, x: string, y: string) {
    y in RequiredRefs(table, x)
  }

  /** A chain of required references. */
  predicate Chain(table: Table, p: seq<string>) {
    p != [] && forall i :: 0 <= i < |p| - 1 ==> Needs(table, p[i], p[i + 1])
  }

  /** `y` is `x` or is needed by it, directly or not. */
  ghost predicate Leads(table: Table, x: string, y: string) {
    exists p :: Chain(table, p) && p[0] == x && p[|p| - 1] == y
  }

  /** `x` needs `y`, directly or not. */
  ghost predicate Uses(table: Table, x: string, y: string) {
    exists z :: Needs(table, x, z) && Leads(table, z, y)
  }

  ghost predicate Cyclic(table: Table, x: string) {
    Uses(table, x, x)
  }

  lemma LeadsSelf(table: Table, x: string)
    ensures Leads(table, x, x)
  {
    assert Chain(table, [x]);
  }

  lemma LeadsOn(table: Table, x: string, y: string, z: string)
    requires Leads(table, x, y) && Needs(table, y, z)
    ensures Leads(table, x, z)
  {
    var p :| Chain(table, p) && p[0] == x && p[|p| - 1] == y;
    assert Chain(table, p + [z]);
  }

  lemma LeadsFrom(table: Table, x: string, y: string, z: string)
    requires Needs(table, x, y) && Leads(table, y, z)
    ensures Leads(table, x, z)
  {
    var p :| Chain(table, p) && p[0] == y && p[|p| - 1] == z;
    var q := [x] + p;
    forall i | 0 <= i < |q| - 1
      ensures Needs(table, q[i], q[i + 1])
    {
      if i > 0 {
        assert q[i] == p[i - 1] && q[i + 1] == p[i];
      }
    }
    assert Chain(table, q);
  }

  /** What leads on has a first step. */
  lemma LeadsSteps(table: Table, x: string, z: string)
    requires Leads(table, x, z)
    ensures x == z || exists y :: Needs(table, x, y) && Leads(table, y, z)
  {
    var p :| Chain(table, p) && p[0] == x && p[|p| - 1] == z;
    if |p| > 1 {
      var q := p[1..];
      forall i | 0 <= i < |q| - 1
        ensures Needs(table, q[i], q[i + 1])
      {
        assert q[i] == p[i + 1] && q[i + 1] == p[i + 2];
      }
      assert Chain(table, q);
      assert Needs(table, x, p[1]) && Leads(table, p[1], z);
    }
  }

  // ---------------------------------------------------------------- the worklist

  method Listed(s: set<string>) returns (xs: seq<string>)
    ensures forall x :: x in xs <==> x in s
  {
    xs := [];
    var rest := s;
    while rest != {}
      invariant rest <= s && forall x :: x in xs <==> x in s && x !in rest
    {
      var x :| x in rest;
      xs := xs + [x];
      rest := rest - {x};
    }
  }

  /** Everything seen or waiting is needed by `r`, and whatever is needed is seen or waiting. */
  ghost predicate Searching(table: Table, r: string, seen: set<string>, stack: seq<string>) {
    && seen <= table.Keys && r !in seen
    && (forall x :: x in seen || x in stack ==> x in table && Uses(table, r, x))
    && (forall x :: x in RequiredRefs(table, r) ==> x in seen || x in stack)
    && (forall x, y :: x in seen && Needs(table, x, y) ==> y in seen || y in stack)
  }

  lemma SearchStarts(table: Table, r: string, stack: seq<string>)
    requires forall x :: x in stack <==> x in RequiredRefs(table, r)
    ensures Searching(table, r, {}, stack)
  {
    forall x | x in stack
      ensures Uses(table, r, x)
    {
      LeadsSelf(table, x);
      assert Needs(table, r, x);
    }
  }

  lemma SearchSkips(table: Table, r: string, seen: set<string>, stack: seq<string>)
    requires stack != [] && Searching(table, r, seen, stack) && stack[|stack| - 1] in seen
    ensures Searching(table, r, seen, stack[..|stack| - 1])
  {
    assert forall x :: x in stack ==> x in stack[..|stack| - 1] || x == stack[|stack| - 1];
  }

  lemma SearchEnters(table: Table, r: string, seen: set<string>, stack: seq<string>, more: seq<string>)
    requires stack != [] && Searching(table, r, seen, stack) && stack[|stack| - 1] != r
    requires forall x :: x in more <==> x in RequiredRefs(table, stack[|stack| - 1])
    ensures Searching(table, r, seen + {stack[|stack| - 1]}, stack[..|stack| - 1] + more)
  {
    hide Uses, Needs, RequiredRefs;
    var name := stack[|stack| - 1];
    LastOf(stack, more);
    forall x | x in more
      ensures x in table && Uses(table, r, x)
    {
      NeededOn(table, r, name, x);
    }
    NeededIs(table, name);
  }

  lemma LastOf(stack: seq<string>, more: seq<string>)
    requires stack != []
    ensures var name := stack[|stack| - 1];
      forall x :: x in stack[..|stack| - 1] + more || x == name <==> x in stack || x in more
  {
    var name := stack[|stack| - 1];
    assert stack == stack[..|stack| - 1] + [name];
  }

  lemma NeededOn(table: Table, r: string, name: string, x: string)
    requires name in table && Uses(table, r, name) && x in RequiredRefs(table, name)
    ensures x in table && Uses(table, r, x)
  {
    hide Chain;
    var z :| Needs(table, r, z) && Leads(table, z, name);
    assert Needs(table, name, x);
    LeadsOn(table, z, name, x);
  }

  lemma NeededIs(table: Table, name: string)
    ensures forall y :: Needs(table, name, y) <==> y in RequiredRefs(table, name)
  {
  }

  lemma SearchEnds(table: Table, r: string, seen: set<string>)
    requires Searching(table, r, seen, [])
    ensures !Cyclic(table, r)
  {
    forall z | Needs(table, r, z) && Leads(table, z, r)
      ensures false
    {
      var p :| Chain(table, p) && p[0] == z && p[|p| - 1] == r;
      ChainStays(table, r, seen, p);
    }
  }

  lemma {:induction false} ChainStays(table: Table, r: string, seen: set<string>, p: seq<string>)
    requires Searching(table, r, seen, []) && Chain(table, p) && p[0] in seen
    ensures p[|p| - 1] in seen
    decreases |p|
  {
    if |p| > 1 {
      assert Needs(table, p[0], p[1]);
      var q := p[1..];
      forall i | 0 <= i < |q| - 1
        ensures Needs(table, q[i], q[i + 1])
      {
        assert q[i] == p[i + 1] && q[i + 1] == p[i + 2];
      }
      ChainStays(table, r, seen, q);
    }
  }

  /** The search for one record ends, and finds out whether it needs itself. */
  method NeedsItself(table: Table, r: string) returns (found: bool)
    requires r in table
    ensures found <==> Cyclic(table, r)
  {
    var stack := Listed(RequiredRefs(table, r));
    var seen: set<string> := {};
    SearchStarts(table, r, stack);
    while stack != []
      invariant Searching(table, r, seen, stack)
      decreases |table.Keys - seen|, |stack|
    {
      var name := stack[|stack| - 1];
      assert name in stack;
      if name == r {
        return true;
      }
      if name in seen {
        SearchSkips(table, r, seen, stack);
        stack := stack[..|stack| - 1];
      } else {
        var more := Listed(RequiredRefs(table, name));
        SearchEnters(table, r, seen, stack, more);
        assert table.Keys - (seen + {name}) < table.Keys - seen by {
          assert name in table.Keys - seen;
        }
        CardinalityDrops(table.Keys, seen, name);
        stack := stack[..|stack| - 1] + more;
        seen := seen + {name};
      }
    }
    SearchEnds(table, r, seen);
    found := false;
  }

  lemma CardinalityDrops(all: set<string>, seen: set<string>, name: string)
    requires name in all && name !in seen
    ensures |all - (seen + {name})| < |all - seen|
  {
    assert all - (seen + {name}) == (all - seen) - {name};
  }

  /** `infinite_records`: the records that are warned about are those that need themselves. */
  method Warned(table: Table, names: seq<string>) returns (warned: seq<string>)
    requires forall i :: 0 <= i < |names| ==> names[i] in table
    ensures forall r :: r in warned <==> r in names && Cyclic(table, r)
  {
    warned := [];
    for i := 0 to |names|
      invariant forall r :: r in warned <==> r in names[..i] && Cyclic(table, r)
    {
      var found := NeedsItself(table, names[i]);
      assert names[..i + 1] == names[..i] + [names[i]];
      if found {
        warned := warned + [names[i]];
      }
    }
    assert names[..|names|] == names;
  }

  // ---------------------------------------------------------------- records without values

  /** A record that is cyclic, or needs one that is. */
  ghost predicate Hopeless(table: Table, r: string) {
    exists x :: Leads(table, r, x) && Cyclic(table, x)
  }

  lemma HopelessNeeds(table: Table, r: string) returns (y: string)
    requires Hopeless(table, r)
    ensures Needs(table, r, y) && Hopeless(table, y)
  {
    var x :| Leads(table, r, x) && Cyclic(table, x);
    LeadsSteps(table, r, x);
    if r == x {
      y :| Needs(table, x, y) && Leads(table, y, x);
    } else {
      y :| Needs(table, r, y) && Leads(table, y, x);
    }
  }

  lemma RequiredField(table: Table, classes: map<string, string>, dynamic: bool, r: string, f: string)
    requires KnownTable(table) && r in table && f in table[r] && Requires(table, table[r][f])
    ensures var field := BuildEnv(table, classes, dynamic)[r].fields[f];
      field == Field(RecordCodec(table[r][f].ty.name), false)
  {
    assert Known(table[r][f].ty, table) && DerivedConsistent(table[r][f]);
  }

  /** No document decodes as a hopeless record: it would have to hold itself. */
  lemma {:induction false} NothingDecodes(table: Table, classes: map<string, string>, dynamic: bool, r: string, j: Val)
    requires KnownTable(table) && Hopeless(table, r)
    ensures DecodeVal(BuildEnv(table, classes, dynamic), RecordCodec(r), j, Strict).None?
    decreases j
  {
    hide Hopeless, KnownTable, Item;
    var env := BuildEnv(table, classes, dynamic);
    var y := HopelessNeeds(table, r);
    var f :| f in table[r] && Requires(table, table[r][f]) && table[r][f].ty.name == y;
    RequiredField(table, classes, dynamic, r, f);
    if !Item(j, f).Null? {
      NothingDecodes(table, classes, dynamic, y, Item(j, f));
    }
    FieldMissing(env, r, j, f, y);
  }

  lemma FieldMissing(env: Env, r: string, j: Val, f: string, y: string)
    requires r in env && f in env[r].fields && env[r].fields[f] == Field(RecordCodec(y), false)
    requires Item(j, f).Null? || DecodeVal(env, RecordCodec(y), Item(j, f), Strict).None?
    ensures DecodeVal(env, RecordCodec(r), j, Strict).None?
  {
    assert !DecodesField(env, env[r].fields[f], j, f, Strict);
  }

  // ---------------------------------------------------------------- and the others

  /** A document for a type that needs no record. */
  function Simple(t: TypeRef): Val {
    match t.kind
    case Array => List([])
    case Map => Dict(map[])
    case Primitive =>
      if t.name == "tstr" then Str("")
      else if t.name == "bstr" then Tag("")
      else if t.name == "int" || t.name == "uint" then Int(0)
      else if t.name == "float64" then Float(0.0)
      else if t.name == "bool" then Bool(false)
      else if t.name == "result" then Dict(ResultMembers(Bool(true), Null, Null))
      else Null
    case _ => Null
  }

  /** The way to `r`: every record on it needs `r`, and `r` is not hopeless. */
  ghost predicate OnTheWay(table: Table, r: string, path: set<string>) {
    && r in table && path <= table.Keys && r !in path && !Hopeless(table, r)
    && forall x :: x in path ==> Uses(table, x, r)
  }

  lemma WayGoesOn(table: Table, r: string, path: set<string>, y: string)
    requires OnTheWay(table, r, path) && Needs(table, r, y)
    ensures OnTheWay(table, y, path + {r}) && |table.Keys - (path + {r})| < |table.Keys - path|
  {
    CardinalityDrops(table.Keys, path, r);
    LeadsSelf(table, r);
    LeadsSelf(table, y);
    LeadsOn(table, r, r, y);
    forall x | x in path + {r}
      ensures Uses(table, x, y)
    {
      if x in path {
        var z :| Needs(table, x, z) && Leads(table, z, r);
        LeadsOn(table, z, r, y);
      }
    }
    assert Leads(table, r, y);
    assert y in path + {r} ==> Cyclic(table, y);
    if Hopeless(table, y) {
      var x :| Leads(table, y, x) && Cyclic(table, x);
      LeadsFrom(table, r, y, x);
    }
  }

  function RequiredFields(table: Table, r: string): set<Key>
    requires r in table
  {
    set f | f in table[r] && !table[r][f].optional :: Name(f)
  }

  /** A smallest document for a record: its required fields only. */
  ghost function Smallest(table: Table, r: string, path: set<string>): Val
    requires OnTheWay(table, r, path)
    decreases |table.Keys - path|, 1
  {
    Dict(map k | k in RequiredFields(table, r) :: SmallestField(table, r, path, k.name))
  }

  ghost function SmallestField(table: Table, r: string, path: set<string>, f: string): Val
    requires OnTheWay(table, r, path) && f in table[r]
    decreases |table.Keys - path|, 0
  {
    var s := table[r][f];
    if Requires(table, s) then
      assert Needs(table, r, s.ty.name);
      WayGoesOn(table, r, path, s.ty.name);
      Smallest(table, s.ty.name, path + {r})
    else
      Simple(s.ty)
  }

  lemma SimpleDecodes(env: Env, s: Slot, table: Table, dynamic: bool)
    requires Known(s.ty, table) && DerivedConsistent(s) && !s.optional && !s.ty.kind.Named?
    ensures var j := Simple(s.ty); var c := Build(s.valueType, dynamic);
      (j.Null? && AcceptsNull(c)) || (!j.Null? && DecodeVal(env, c, j, Strict).Some?)
  {
    var j := Simple(s.ty);
    if s.ty.kind.Primitive? && s.ty.name == "bstr" {
      assert j.members.Keys == {BYTES_KEY};
    } else if s.ty.kind.Primitive? && s.ty.name == "result" {
      assert j.members.Keys == RESULT_KEYS;
    }
  }

  lemma {:induction false} SmallestDecodes(table: Table, classes: map<string, string>, dynamic: bool, r: string, path: set<string>)
    requires KnownTable(table) && OnTheWay(table, r, path)
    ensures DecodeVal(BuildEnv(table, classes, dynamic), RecordCodec(r), Smallest(table, r, path), Strict).Some?
    decreases |table.Keys - path|, 1
  {
    var env, j := BuildEnv(table, classes, dynamic), Smallest(table, r, path);
    forall f | f in env[r].fields
      ensures DecodesField(env, env[r].fields[f], j, f, Strict)
    {
      SmallestFieldDecodes(table, classes, dynamic, r, path, f);
    }
    AllFieldsDecode(env, r, j);
  }

  lemma AllFieldsDecode(env: Env, r: string, j: Val)
    requires r in env && j.Dict? && forall f :: f in env[r].fields ==> DecodesField(env, env[r].fields[f], j, f, Strict)
    ensures DecodeVal(env, RecordCodec(r), j, Strict).Some?
  {
  }

  lemma {:induction false} SmallestFieldDecodes(table: Table, classes: map<string, string>, dynamic: bool, r: string,
                                                path: set<string>, f: string)
    requires KnownTable(table) && OnTheWay(table, r, path) && f in table[r]
    ensures var env := BuildEnv(table, classes, dynamic);
      DecodesField(env, env[r].fields[f], Smallest(table, r, path), f, Strict)
    decreases |table.Keys - path|, 0
  {
    SmallestItem(table, r, path, f);
    var s := table[r][f];
    assert Known(s.ty, table) && DerivedConsistent(s);
    if Requires(table, s) {
      RequiredField(table, classes, dynamic, r, f);
      assert Needs(table, r, s.ty.name);
      WayGoesOn(table, r, path, s.ty.name);
      SmallestDecodes(table, classes, dynamic, s.ty.name, path + {r});
    } else if !s.optional {
      SimpleDecodes(BuildEnv(table, classes, dynamic), s, table, dynamic);
    }
  }

  lemma SmallestItem(table: Table, r: string, path: set<string>, f: string)
    requires OnTheWay(table, r, path) && f in table[r]
    ensures Item(Smallest(table, r, path), f) == if table[r][f].optional then Null else SmallestField(table, r, path, f)
  {
    assert Name(f) in RequiredFields(table, r) <==> !table[r][f].optional;
  }

  ghost predicate HasDocument(table: Table, classes: map<string, string>, dynamic: bool, r: string) {
    exists j :: DecodeVal(BuildEnv(table, classes, dynamic), RecordCodec(r), j, Strict).Some?
  }

  /** A record has a finite document that its codec accepts exactly when neither it nor any record it
      needs is warned about. */
  lemma DocumentIffNotHopeless(table: Table, classes: map<string, string>, dynamic: bool, r: string)
    requires KnownTable(table) && r in table
    ensures HasDocument(table, classes, dynamic, r) <==> !Hopeless(table, r)
  {
    if Hopeless(table, r) {
      forall j
        ensures DecodeVal(BuildEnv(table, classes, dynamic), RecordCodec(r), j, Strict).None?
      {
        NothingDecodes(table, classes, dynamic, r, j);
      }
    } else {
      SmallestDecodes(table, classes, dynamic, r, {});
      assert DecodeVal(BuildEnv(table, classes, dynamic), RecordCodec(r), Smallest(table, r, {}), Strict).Some?;
    }
  }

  /** A warned record has no document; with no warning every record has one. */
  lemma WarningMeansInfinite(table: Table, classes: map<string, string>, dynamic: bool)
    requires KnownTable(table)
    ensures forall r :: r in table && Cyclic(table, r) ==> !HasDocument(table, classes, dynamic, r)
    ensures (forall r :: r in table ==> !Cyclic(table, r)) ==>
      forall r :: r in table ==> HasDocument(table, classes, dynamic, r)
  {
    forall r | r in table
      ensures HasDocument(table, classes, dynamic, r) <==> !Hopeless(table, r)
      ensures Cyclic(table, r) ==> Hopeless(table, r)
    {
      DocumentIffNotHopeless(table, classes, dynamic, r);
      LeadsSelf(table, r);
    }
    forall r, x | r in table && Leads(table, r, x)
      ensures x in table || !Cyclic(table, x)
    {
      if Cyclic(table, x) {
        var z :| Needs(table, x, z) && Leads(table, z, x);
      }
    }
  }
}
