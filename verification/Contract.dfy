/** Interfaces and their shape documents (`src/logos_bridge/lidl.py`, `Interface.shape`,
`Interface.from_shape`). Dictionaries are maps, so their order is left open. */
module Contract {
  import opened Wrappers
  import opened LidlTypes
  import opened ShapeText

  datatype Record = Record(name: string, fields: seq<Slot>)

  datatype Method = Method(name: string, params: seq<Slot>, result: Option<Slot>, derived: bool)

  datatype Event = Event(name: string, params: seq<Slot>)

  datatype Interface = Interface(name: string, types: seq<Record>, methods: seq<Method>, events: seq<Event>)

  datatype MethodShape = MethodShape(params: seq<(string, Spelled)>, result: Option<Spelled>)

  datatype Shape = Shape(
    mod: string,
    records: map<string, map<string, Spelled>>,
    methods: map<string, MethodShape>,
    events: map<string, seq<(string, Spelled)>>)

  // ---------------------------------------------------------------- shape()

  function FieldForms(fields: seq<Slot>): map<string, Spelled> {
    if fields == [] then map[]
    else
      var last := fields[|fields| - 1];
      FieldForms(fields[..|fields| - 1])[last.name := ShapeSlot(last)]
  }

  function ParamForms(params: seq<Slot>): seq<(string, Spelled)> {
    seq(|params|, i requires 0 <= i < |params| => (params[i].name, ShapeSlot(params[i])))
  }

  function ReturnForm(result: Option<Slot>): Option<Spelled> {
    if result.Some? then Some(ShapeSlot(result.value)) else None
  }

  function MethodForm(m: Method): MethodShape {
    MethodShape(ParamForms(m.params), ReturnForm(m.result))
  }

  function RecordForms(types: seq<Record>): map<string, map<string, Spelled>> {
    if types == [] then map[]
    else
      var last := types[|types| - 1];
      RecordForms(types[..|types| - 1])[last.name := FieldForms(last.fields)]
  }

  function MethodForms(methods: seq<Method>): map<string, MethodShape> {
    if methods == [] then map[]
    else
      var last := methods[|methods| - 1];
      MethodForms(methods[..|methods| - 1])[last.name := MethodForm(last)]
  }

  function EventForms(events: seq<Event>): map<string, seq<(string, Spelled)>> {
    if events == [] then map[]
    else
      var last := events[|events| - 1];
      EventForms(events[..|events| - 1])[last.name := ParamForms(last.params)]
  }

  function ShapeOf(i: Interface): Shape {
    Shape(i.name, RecordForms(i.types), MethodForms(i.methods), EventForms(i.events))
  }

  // ---------------------------------------------------------------- what round-trips

  const IDENTITY_METHODS := {"name", "version", "lidl"}

  predicate IdentitySignature(m: Method) {
    m.params == [] && m.result.Some? && m.result.value.ty.kind.Primitive? && m.result.value.ty.name == "tstr"
  }

  function IdentityMethod(name: string): Method {
    Method(name, [], Some(Slot("", Prim("tstr"), false, Prim("tstr"), false)), true)
  }

  /** A spelling that reads back as a slot spelled the same. */
  predicate Stable(s: Spelled) {
    var r := ParseShapeType(s);
    r.Ok? && ShapeSlot(MakeSlot("", r.value)) == s
  }

  predicate StableSlots(items: seq<(string, Spelled)>) {
    forall i :: 0 <= i < |items| ==> Stable(items[i].1)
  }

  /** A built-in's name on a method whose return only looks like `tstr`. */
  predicate Disguised(name: string, m: MethodShape) {
    && name in IDENTITY_METHODS && m.params == [] && m.result.Some? && m.result.value.Ast?
    && m.result.value.ty.kind.Primitive? && m.result.value.ty.name == "tstr"
  }

  predicate StableMethod(m: MethodShape) {
    StableSlots(m.params) && (m.result.Some? ==> Stable(m.result.value))
  }

  /** What comes back for a method. */
  function Reread(name: string, m: MethodShape): MethodShape {
    if Disguised(name, m) then MethodForm(IdentityMethod(name)) else m
  }

  function RereadAll(methods: map<string, MethodShape>): map<string, MethodShape> {
    map n | n in methods :: Reread(n, methods[n])
  }

  predicate StableFields(fields: map<string, Spelled>) {
    forall f :: f in fields ==> Stable(fields[f])
  }

  predicate StableShape(d: Shape) {
    && (forall r :: r in d.records ==> StableFields(d.records[r]))
    && (forall m :: m in d.methods ==> StableMethod(d.methods[m]))
    && (forall e :: e in d.events ==> StableSlots(d.events[e]))
  }

  lemma NameDoesNotMatter(name: string, ty: TypeRef)
    ensures ShapeSlot(MakeSlot(name, ty)) == ShapeSlot(MakeSlot("", ty))
  {
  }

  // ---------------------------------------------------------------- what is read

  /** The slot that an entry of a document is read as. */
  predicate SlotRead(name: string, spelled: Spelled, s: Slot) {
    ParseShapeType(spelled).Ok? && s == MakeSlot(name, ParseShapeType(spelled).value)
  }

  /** Parameters are read one by one, in the document's order. */
  predicate SlotsRead(items: seq<(string, Spelled)>, slots: seq<Slot>) {
    |slots| == |items| && forall k :: 0 <= k < |items| ==> SlotRead(items[k].0, items[k].1, slots[k])
  }

  predicate SlotsParse(items: seq<(string, Spelled)>) {
    forall k :: 0 <= k < |items| ==> ParseShapeType(items[k].1).Ok?
  }

  /** Each of `names` is listed once, and nothing else is. */
  ghost predicate ListedOnce(names: set<string>, listed: seq<string>) {
    && (forall n :: n in listed <==> n in names)
    && (forall j, k :: 0 <= j < k < |listed| ==> listed[j] != listed[k])
  }

  lemma ListedMore(names: set<string>, listed: seq<string>, n: string)
    requires ListedOnce(names, listed) && n !in names
    ensures ListedOnce(names + {n}, listed + [n])
  {
  }

  function FieldNames(fields: seq<Slot>): (names: seq<string>)
    ensures |names| == |fields|
  {
    seq(|fields|, i requires 0 <= i < |fields| => fields[i].name)
  }

  predicate FieldsParse(fields: map<string, Spelled>) {
    forall f :: f in fields ==> ParseShapeType(fields[f]).Ok?
  }

  /** The fields `names` of a record, in some order. */
  ghost predicate FieldsRead(fields: map<string, Spelled>, names: set<string>, slots: seq<Slot>) {
    && ListedOnce(names, FieldNames(slots))
    && (forall k :: 0 <= k < |slots| ==> slots[k].name in fields && SlotRead(slots[k].name, fields[slots[k].name], slots[k]))
    && (forall f :: f in names && f in fields ==> ParseShapeType(fields[f]).Ok?)
  }

  predicate MethodParses(spec: MethodShape) {
    SlotsParse(spec.params) && (spec.result.Some? ==> ParseShapeType(spec.result.value).Ok?)
  }

  predicate ReturnRead(spelled: Option<Spelled>, result: Option<Slot>) {
    result.Some? == spelled.Some? && (spelled.Some? ==> SlotRead("", spelled.value, result.value))
  }

  /** A method is read as it is written, or as the built-in of its name when it has that signature. */
  ghost predicate MethodRead(spec: MethodShape, m: Method) {
    exists plain: Method :: ReadAs(spec, plain, m)
  }

  predicate ReadAs(spec: MethodShape, plain: Method, m: Method) {
    && plain.name == m.name && !plain.derived && SlotsRead(spec.params, plain.params) && ReturnRead(spec.result, plain.result)
    && m == if m.name in IDENTITY_METHODS && IdentitySignature(plain) then IdentityMethod(m.name) else plain
  }

  function RecordNames(types: seq<Record>): (names: seq<string>)
    ensures |names| == |types|
  {
    seq(|types|, i requires 0 <= i < |types| => types[i].name)
  }

  function MethodNames(methods: seq<Method>): (names: seq<string>)
    ensures |names| == |methods|
  {
    seq(|methods|, i requires 0 <= i < |methods| => methods[i].name)
  }

  function EventNames(events: seq<Event>): (names: seq<string>)
    ensures |names| == |events|
  {
    seq(|events|, i requires 0 <= i < |events| => events[i].name)
  }

  /** The records `names` of a document, in some order. */
  ghost predicate RecordsRead(records: map<string, map<string, Spelled>>, names: set<string>, types: seq<Record>) {
    && ListedOnce(names, RecordNames(types))
    && (forall k :: 0 <= k < |types| ==>
          types[k].name in records && FieldsRead(records[types[k].name], records[types[k].name].Keys, types[k].fields))
    && (forall n :: n in names && n in records ==> FieldsParse(records[n]))
  }

  ghost predicate MethodsRead(specs: map<string, MethodShape>, names: set<string>, methods: seq<Method>) {
    && ListedOnce(names, MethodNames(methods))
    && (forall k :: 0 <= k < |methods| ==> methods[k].name in specs && MethodRead(specs[methods[k].name], methods[k]))
    && (forall n :: n in names && n in specs ==> MethodParses(specs[n]))
  }

  ghost predicate EventsRead(specs: map<string, seq<(string, Spelled)>>, names: set<string>, events: seq<Event>) {
    && ListedOnce(names, EventNames(events))
    && (forall k :: 0 <= k < |events| ==> events[k].name in specs && SlotsRead(specs[events[k].name], events[k].params))
    && (forall n :: n in names && n in specs ==> SlotsParse(specs[n]))
  }

  lemma FieldAdded(fields: map<string, Spelled>, names: set<string>, slots: seq<Slot>, s: Slot)
    requires FieldsRead(fields, names, slots) && s.name !in names && s.name in fields && SlotRead(s.name, fields[s.name], s)
    ensures FieldsRead(fields, names + {s.name}, slots + [s])
  {
    ListedMore(names, FieldNames(slots), s.name);
    assert FieldNames(slots + [s]) == FieldNames(slots) + [s.name];
  }

  lemma RecordAdded(records: map<string, map<string, Spelled>>, names: set<string>, types: seq<Record>, r: Record)
    requires RecordsRead(records, names, types) && r.name !in names && r.name in records && FieldsParse(records[r.name])
    requires FieldsRead(records[r.name], records[r.name].Keys, r.fields)
    ensures RecordsRead(records, names + {r.name}, types + [r])
  {
    hide FieldsRead, ListedOnce, FieldsParse;
    ListedMore(names, RecordNames(types), r.name);
    assert RecordNames(types + [r]) == RecordNames(types) + [r.name];
  }

  lemma MethodAdded(specs: map<string, MethodShape>, names: set<string>, methods: seq<Method>, m: Method)
    requires MethodsRead(specs, names, methods) && m.name !in names && m.name in specs && MethodParses(specs[m.name])
    requires MethodRead(specs[m.name], m)
    ensures MethodsRead(specs, names + {m.name}, methods + [m])
  {
    hide MethodRead, ListedOnce, MethodParses;
    ListedMore(names, MethodNames(methods), m.name);
    assert MethodNames(methods + [m]) == MethodNames(methods) + [m.name];
  }

  lemma EventAdded(specs: map<string, seq<(string, Spelled)>>, names: set<string>, events: seq<Event>, e: Event)
    requires EventsRead(specs, names, events) && e.name !in names && e.name in specs && SlotsParse(specs[e.name])
    requires SlotsRead(specs[e.name], e.params)
    ensures EventsRead(specs, names + {e.name}, events + [e])
  {
    hide SlotsRead, ListedOnce, SlotsParse;
    ListedMore(names, EventNames(events), e.name);
    assert EventNames(events + [e]) == EventNames(events) + [e.name];
  }

  lemma FieldsReadNone(fields: map<string, Spelled>)
    ensures FieldsRead(fields, {}, [])
    ensures forall slots :: FieldsRead(fields, fields.Keys, slots) ==> FieldsParse(fields)
  {
  }

  lemma RecordsReadNone(records: map<string, map<string, Spelled>>)
    ensures RecordsRead(records, {}, [])
    ensures forall types :: RecordsRead(records, records.Keys, types) ==> forall n :: n in records ==> FieldsParse(records[n])
  {
  }

  lemma MethodsReadNone(specs: map<string, MethodShape>)
    ensures MethodsRead(specs, {}, [])
    ensures forall methods :: MethodsRead(specs, specs.Keys, methods) ==> forall n :: n in specs ==> MethodParses(specs[n])
  {
  }

  lemma EventsReadNone(specs: map<string, seq<(string, Spelled)>>)
    ensures EventsRead(specs, {}, [])
    ensures forall events :: EventsRead(specs, specs.Keys, events) ==> forall n :: n in specs ==> SlotsParse(specs[n])
  {
  }

  lemma OneLess(names: set<string>, rest: set<string>, n: string)
    requires n in rest && rest <= names
    ensures names - (rest - {n}) == names - rest + {n} && n !in names - rest
  {
  }

  /** Every spelling in the document can be parsed. */
  predicate ShapeParses(d: Shape) {
    && (forall n :: n in d.records ==> FieldsParse(d.records[n]))
    && (forall n :: n in d.methods ==> MethodParses(d.methods[n]))
    && (forall n :: n in d.events ==> SlotsParse(d.events[n]))
  }

  /** An interface that is what a document says, in some order of its dictionaries. */
  ghost predicate Rebuilt(d: Shape, i: Interface) {
    && i.name == d.mod && RecordsRead(d.records, d.records.Keys, i.types)
    && MethodsRead(d.methods, d.methods.Keys, i.methods) && EventsRead(d.events, d.events.Keys, i.events)
  }

  // ---------------------------------------------------------------- from_shape()

  method ReadSlots(items: seq<(string, Spelled)>) returns (r: Result<seq<Slot>, ParseError>)
    ensures r.Ok? <==> SlotsParse(items)
    ensures r.Ok? ==> SlotsRead(items, r.value)
    ensures StableSlots(items) ==> r.Ok? && ParamForms(r.value) == items
  {
    var out: seq<Slot> := [];
    for i := 0 to |items|
      invariant SlotsRead(items[..i], out)
      invariant StableSlots(items) ==> ParamForms(out) == items[..i]
    {
      var ty :- Parse(items[i].1);
      NameDoesNotMatter(items[i].0, ty);
      out := out + [MakeSlot(items[i].0, ty)];
    }
    r := Ok(out);
  }

  method ReadFields(fields: map<string, Spelled>) returns (r: Result<seq<Slot>, ParseError>)
    ensures r.Ok? <==> FieldsParse(fields)
    ensures r.Ok? ==> FieldsRead(fields, fields.Keys, r.value)
    ensures StableFields(fields) ==> r.Ok? && FieldForms(r.value) == fields
  {
    hide FieldsRead;
    FieldsReadNone(fields);
    var out: seq<Slot> := [];
    var rest := fields.Keys;
    assert fields.Keys - rest == {};
    while rest != {}
      invariant rest <= fields.Keys && FieldsRead(fields, fields.Keys - rest, out)
      invariant StableFields(fields) ==> FieldForms(out) == fields - rest
    {
      var f :| f in rest;
      var ty :- Parse(fields[f]);
      NameDoesNotMatter(f, ty);
      assert (out + [MakeSlot(f, ty)])[..|out|] == out;
      OneLess(fields.Keys, rest, f);
      FieldAdded(fields, fields.Keys - rest, out, MakeSlot(f, ty));
      out := out + [MakeSlot(f, ty)];
      rest := rest - {f};
    }
    assert fields.Keys - rest == fields.Keys;
    r := Ok(out);
  }

  /** A method that reads as a built-in becomes one, and loses nothing but `derived` unless it was
      disguised. */
  lemma IdentityForm(m: Method, d: MethodShape)
    requires m.name in IDENTITY_METHODS && IdentitySignature(m) && MethodForm(m) == d
    requires m.result.value == MakeSlot("", m.result.value.ty)
    ensures MethodForm(IdentityMethod(m.name)) == Reread(m.name, d)
  {
    var s := m.result.value;
    if Compactable(s.ty) {
      assert s.ty == Prim("tstr");
      assert s == IdentityMethod(m.name).result.value;
    }
  }

  method ReadMethod(name: string, spec: MethodShape) returns (r: Result<Method, ParseError>)
    ensures r.Ok? <==> MethodParses(spec)
    ensures r.Ok? ==> r.value.name == name && MethodRead(spec, r.value)
    ensures StableMethod(spec) ==> r.Ok? && MethodForm(r.value) == Reread(name, spec)
  {
    var result: Option<Slot> := None;
    if spec.result.Some? {
      var ty :- Parse(spec.result.value);
      result := Some(MakeSlot("", ty));
    }
    var params :- ReadSlots(spec.params);
    var m := Method(name, params, result, false);
    if name in IDENTITY_METHODS && IdentitySignature(m) {
      if StableMethod(spec) {
        IdentityForm(m, spec);
      }
      assert ReadAs(spec, m, IdentityMethod(name));
      return Ok(IdentityMethod(name));
    }
    assert ReadAs(spec, m, m);
    r := Ok(m);
  }

  method ReadRecords(records: map<string, map<string, Spelled>>) returns (r: Result<seq<Record>, ParseError>)
    ensures r.Ok? <==> forall n :: n in records ==> FieldsParse(records[n])
    ensures r.Ok? ==> RecordsRead(records, records.Keys, r.value)
    ensures (forall n :: n in records ==> StableFields(records[n])) ==> r.Ok? && RecordForms(r.value) == records
  {
    hide RecordsRead, FieldsRead, FieldsParse, StableFields;
    RecordsReadNone(records);
    var out: seq<Record> := [];
    var rest := records.Keys;
    assert records.Keys - rest == {};
    while rest != {}
      invariant rest <= records.Keys && RecordsRead(records, records.Keys - rest, out)
      invariant (forall n :: n in records ==> StableFields(records[n])) ==> RecordForms(out) == records - rest
    {
      var n :| n in rest;
      var fields :- ReadFields(records[n]);
      assert (out + [Record(n, fields)])[..|out|] == out;
      OneLess(records.Keys, rest, n);
      RecordAdded(records, records.Keys - rest, out, Record(n, fields));
      out := out + [Record(n, fields)];
      rest := rest - {n};
    }
    assert records.Keys - rest == records.Keys;
    r := Ok(out);
  }

  method ReadMethods(methods: map<string, MethodShape>) returns (r: Result<seq<Method>, ParseError>)
    ensures r.Ok? <==> forall n :: n in methods ==> MethodParses(methods[n])
    ensures r.Ok? ==> MethodsRead(methods, methods.Keys, r.value)
    ensures (forall n :: n in methods ==> StableMethod(methods[n])) ==> r.Ok? && MethodForms(r.value) == RereadAll(methods)
  {
    hide MethodsRead, MethodRead, MethodParses, StableMethod;
    MethodsReadNone(methods);
    var out: seq<Method> := [];
    var rest := methods.Keys;
    assert methods.Keys - rest == {};
    while rest != {}
      invariant rest <= methods.Keys && MethodsRead(methods, methods.Keys - rest, out)
      invariant (forall n :: n in methods ==> StableMethod(methods[n])) ==> MethodForms(out) == RereadAll(methods) - rest
    {
      var n :| n in rest;
      var m :- ReadMethod(n, methods[n]);
      assert (out + [m])[..|out|] == out;
      OneLess(methods.Keys, rest, n);
      MethodAdded(methods, methods.Keys - rest, out, m);
      out := out + [m];
      rest := rest - {n};
    }
    assert methods.Keys - rest == methods.Keys;
    r := Ok(out);
  }

  method ReadEvents(events: map<string, seq<(string, Spelled)>>) returns (r: Result<seq<Event>, ParseError>)
    ensures r.Ok? <==> forall n :: n in events ==> SlotsParse(events[n])
    ensures r.Ok? ==> EventsRead(events, events.Keys, r.value)
    ensures (forall n :: n in events ==> StableSlots(events[n])) ==> r.Ok? && EventForms(r.value) == events
  {
    hide EventsRead, SlotsRead, SlotsParse, StableSlots;
    EventsReadNone(events);
    var out: seq<Event> := [];
    var rest := events.Keys;
    assert events.Keys - rest == {};
    while rest != {}
      invariant rest <= events.Keys && EventsRead(events, events.Keys - rest, out)
      invariant (forall n :: n in events ==> StableSlots(events[n])) ==> EventForms(out) == events - rest
    {
      var n :| n in rest;
      var params :- ReadSlots(events[n]);
      assert (out + [Event(n, params)])[..|out|] == out;
      OneLess(events.Keys, rest, n);
      EventAdded(events, events.Keys - rest, out, Event(n, params));
      out := out + [Event(n, params)];
      rest := rest - {n};
    }
    assert events.Keys - rest == events.Keys;
    r := Ok(out);
  }

  /** Rebuilding an interface, in whatever order the dictionaries come, keeps the whole document but
      for disguised built-ins. */
  method FromShape(d: Shape) returns (r: Result<Interface, ParseError>)
    ensures r.Ok? <==> ShapeParses(d)
    ensures r.Ok? ==> Rebuilt(d, r.value)
    ensures StableShape(d) ==> r.Ok? && ShapeOf(r.value) == d.(methods := RereadAll(d.methods))
  {
    hide RecordsRead, MethodsRead, EventsRead, FieldsParse, MethodParses, SlotsParse;
    var types :- ReadRecords(d.records);
    var methods :- ReadMethods(d.methods);
    var events :- ReadEvents(d.events);
    r := Ok(Interface(d.mod, types, methods, events));
  }

  // ---------------------------------------------------------------- which interfaces qualify

  predicate ConsistentSlots(slots: seq<Slot>) {
    forall i :: 0 <= i < |slots| ==> DerivedConsistent(slots[i])
  }

  predicate ConsistentMethod(m: Method) {
    ConsistentSlots(m.params) && (m.result.Some? ==> DerivedConsistent(m.result.value))
  }

  predicate Consistent(i: Interface) {
    && (forall k :: 0 <= k < |i.types| ==> ConsistentSlots(i.types[k].fields))
    && (forall k :: 0 <= k < |i.methods| ==> ConsistentMethod(i.methods[k]))
    && (forall k :: 0 <= k < |i.events| ==> ConsistentSlots(i.events[k].params))
  }

  /** A built-in's name with the return `tstr` written as a node that has elements. */
  predicate MalformedBuiltIn(m: Method) {
    m.name in IDENTITY_METHODS && IdentitySignature(m) && m.result.value.ty.elements != []
  }

  lemma ConsistentIsStable(s: Slot)
    requires DerivedConsistent(s)
    ensures Stable(ShapeSlot(s))
  {
    SlotRoundTrip(s, "");
  }

  lemma {:induction false} FieldsStable(fields: seq<Slot>)
    requires ConsistentSlots(fields)
    ensures StableFields(FieldForms(fields))
  {
    if fields != [] {
      FieldsStable(fields[..|fields| - 1]);
      ConsistentIsStable(fields[|fields| - 1]);
    }
  }

  lemma ParamsStable(params: seq<Slot>)
    requires ConsistentSlots(params)
    ensures StableSlots(ParamForms(params))
  {
    forall i | 0 <= i < |params|
      ensures Stable(ParamForms(params)[i].1)
    {
      ConsistentIsStable(params[i]);
    }
  }

  lemma MethodStable(m: Method)
    requires ConsistentMethod(m)
    ensures StableMethod(MethodForm(m)) && (Disguised(m.name, MethodForm(m)) <==> MalformedBuiltIn(m))
  {
    ParamsStable(m.params);
    if m.result.Some? {
      ConsistentIsStable(m.result.value);
    }
  }

  lemma {:induction false} RecordsStable(types: seq<Record>)
    requires forall k :: 0 <= k < |types| ==> ConsistentSlots(types[k].fields)
    ensures forall n :: n in RecordForms(types) ==> StableFields(RecordForms(types)[n])
  {
    if types != [] {
      RecordsStable(types[..|types| - 1]);
      FieldsStable(types[|types| - 1].fields);
    }
  }

  lemma {:induction false} MethodsStable(methods: seq<Method>)
    requires forall k :: 0 <= k < |methods| ==> ConsistentMethod(methods[k])
    ensures forall n :: n in MethodForms(methods) ==> StableMethod(MethodForms(methods)[n])
  {
    if methods != [] {
      MethodsStable(methods[..|methods| - 1]);
      MethodStable(methods[|methods| - 1]);
    }
  }

  lemma {:induction false} EventsStable(events: seq<Event>)
    requires forall k :: 0 <= k < |events| ==> ConsistentSlots(events[k].params)
    ensures forall n :: n in EventForms(events) ==> StableSlots(EventForms(events)[n])
  {
    if events != [] {
      EventsStable(events[..|events| - 1]);
      ParamsStable(events[|events| - 1].params);
    }
  }

  lemma ShapesAreStable(i: Interface)
    requires Consistent(i)
    ensures StableShape(ShapeOf(i))
  {
    RecordsStable(i.types);
    MethodsStable(i.methods);
    EventsStable(i.events);
  }

  predicate DistinctMethods(methods: seq<Method>) {
    forall j, k :: 0 <= j < k < |methods| ==> methods[j].name != methods[k].name
  }

  lemma {:induction false} MethodFormsAre(methods: seq<Method>)
    requires DistinctMethods(methods)
    ensures forall k :: 0 <= k < |methods| ==>
      methods[k].name in MethodForms(methods) && MethodForms(methods)[methods[k].name] == MethodForm(methods[k])
    ensures forall n :: n in MethodForms(methods) ==> exists k :: 0 <= k < |methods| && methods[k].name == n
  {
    if methods != [] {
      var before := methods[..|methods| - 1];
      MethodFormsAre(before);
      assert forall k :: 0 <= k < |before| ==> before[k] == methods[k];
    }
  }

  lemma DisguiseChanges(name: string, m: MethodShape)
    ensures Reread(name, m) == m <==> !Disguised(name, m)
  {
    if Disguised(name, m) {
      assert Reread(name, m).result.value == Text("tstr");
    }
  }

  /** A rebuilt interface has the shape it was rebuilt from exactly when no built-in's name is declared
      with a malformed `tstr`. */
  lemma RereadIsSame(i: Interface)
    requires Consistent(i) && DistinctMethods(i.methods)
    ensures RereadAll(MethodForms(i.methods)) == MethodForms(i.methods) <==>
      forall k :: 0 <= k < |i.methods| ==> !MalformedBuiltIn(i.methods[k])
  {
    var forms := MethodForms(i.methods);
    MethodFormsAre(i.methods);
    forall k | 0 <= k < |i.methods|
      ensures RereadAll(forms)[i.methods[k].name] == forms[i.methods[k].name] <==> !MalformedBuiltIn(i.methods[k])
    {
      MethodStable(i.methods[k]);
      DisguiseChanges(i.methods[k].name, MethodForm(i.methods[k]));
    }
    if forall k :: 0 <= k < |i.methods| ==> !MalformedBuiltIn(i.methods[k]) {
      forall n | n in forms
        ensures RereadAll(forms)[n] == forms[n]
      {
        var k :| 0 <= k < |i.methods| && i.methods[k].name == n;
      }
    }
  }

  /** `from_shape(i.shape()).shape() == i.shape()`, in whatever order the dictionaries come, exactly
      when no built-in is malformed. */
  method RoundTrip(i: Interface) returns (again: Interface)
    requires Consistent(i) && DistinctMethods(i.methods)
    ensures ShapeOf(again) == ShapeOf(i) <==> forall k :: 0 <= k < |i.methods| ==> !MalformedBuiltIn(i.methods[k])
  {
    ShapesAreStable(i);
    RereadIsSame(i);
    var r := FromShape(ShapeOf(i));
    again := r.value;
  }

  /** An interface that declares `name` with a return that is a `tstr` node with an element. */
  const MALFORMED := Interface(
    "m", [], [Method("name", [], Some(MakeSlot("return", TypeRef(Primitive, "tstr", [Prim("int")]))), false)], [])

  /** It is consistent, and does not come back as it was. */
  lemma MalformedDoesNotRoundTrip()
    ensures Consistent(MALFORMED) && DistinctMethods(MALFORMED.methods) && MalformedBuiltIn(MALFORMED.methods[0])
    ensures RereadAll(MethodForms(MALFORMED.methods)) != MethodForms(MALFORMED.methods)
  {
    RereadIsSame(MALFORMED);
  }
}
