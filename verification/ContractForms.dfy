/** A shape document against the member signatures (`src/logos_bridge/lidl.py`, `Interface.shape`). */
module ContractForms {
  import opened Wrappers
  import opened LidlTypes
  import opened ShapeText
  import opened Contract
  import opened Signatures

  // ---------------------------------------------------------------- the interface by names

  predicate DistinctNames(names: seq<string>) {
    forall j, k :: 0 <= j < k < |names| ==> names[j] != names[k]
  }

  /** What the validator asks of names: members, records and the fields of a record differ. */
  predicate Distinct(i: Interface) {
    && DistinctNames(RecordNames(i.types)) && DistinctNames(MethodNames(i.methods)) && DistinctNames(EventNames(i.events))
    && forall k :: 0 <= k < |i.types| ==> DistinctNames(FieldNames(i.types[k].fields))
  }

  /** The record table: each record under its name, each field under its name. */
  ghost predicate Declares(table: Table, types: seq<Record>) {
    && (forall n :: n in table <==> n in RecordNames(types))
    && (forall k :: 0 <= k < |types| ==> types[k].name in table && HasFields(table[types[k].name], types[k].fields))
  }

  ghost predicate HasFields(fields: map<string, Slot>, slots: seq<Slot>) {
    && (forall f :: f in fields <==> f in FieldNames(slots))
    && (forall k :: 0 <= k < |slots| ==> slots[k].name in fields && fields[slots[k].name] == slots[k])
  }

  function MethodMember(m: Method): Member {
    Member(m.params, m.result)
  }

  function EventMember(e: Event): Member {
    Member(e.params, None)
  }

  // ---------------------------------------------------------------- section by section

  lemma {:induction false} FieldFormsAre(fields: seq<Slot>)
    requires DistinctNames(FieldNames(fields))
    ensures forall k :: 0 <= k < |fields| ==> fields[k].name in FieldForms(fields) && FieldForms(fields)[fields[k].name] == ShapeSlot(fields[k])
    ensures forall n :: n in FieldForms(fields) ==> n in FieldNames(fields)
  {
    if fields != [] {
      var last := |fields| - 1;
      var before := fields[..last];
      assert FieldNames(before) == FieldNames(fields)[..last];
      FieldFormsAre(before);
      forall k | 0 <= k < last
        ensures fields[k].name in FieldForms(before) && FieldForms(before)[fields[k].name] == ShapeSlot(fields[k])
        ensures fields[k].name != fields[last].name
      {
        assert before[k] == fields[k];
        assert FieldNames(fields)[k] != FieldNames(fields)[last];
      }
      forall n | n in FieldForms(fields)
        ensures n in FieldNames(fields)
      {
        if n != fields[last].name {
          assert n in FieldNames(fields)[..last];
        } else {
          assert FieldNames(fields)[last] == n;
        }
      }
    }
  }

  lemma FieldFormsPlain(fields: map<string, Slot>, slots: seq<Slot>)
    requires DistinctNames(FieldNames(slots)) && HasFields(fields, slots)
    ensures FieldForms(slots) == PlainFields(fields)
  {
    FieldFormsAre(slots);
    forall f | f in fields
      ensures f in FieldForms(slots) && FieldForms(slots)[f] == ShapeSlot(fields[f])
    {
      var k :| 0 <= k < |FieldNames(slots)| && FieldNames(slots)[k] == f;
      assert slots[k].name == f;
    }
  }

  lemma {:induction false} RecordFormsAre(types: seq<Record>)
    requires DistinctNames(RecordNames(types))
    ensures forall k :: 0 <= k < |types| ==> types[k].name in RecordForms(types) && RecordForms(types)[types[k].name] == FieldForms(types[k].fields)
    ensures forall n :: n in RecordForms(types) ==> n in RecordNames(types)
  {
    if types != [] {
      var last := |types| - 1;
      var before := types[..last];
      assert RecordNames(before) == RecordNames(types)[..last];
      RecordFormsAre(before);
      forall k | 0 <= k < last
        ensures types[k].name in RecordForms(before) && RecordForms(before)[types[k].name] == FieldForms(types[k].fields)
        ensures types[k].name != types[last].name
      {
        assert before[k] == types[k];
        assert RecordNames(types)[k] != RecordNames(types)[last];
      }
      forall n | n in RecordForms(types)
        ensures n in RecordNames(types)
      {
        if n != types[last].name {
          assert n in RecordNames(types)[..last];
        } else {
          assert RecordNames(types)[last] == n;
        }
      }
    }
  }

  lemma {:induction false} EventFormsAre(events: seq<Event>)
    requires DistinctNames(EventNames(events))
    ensures forall k :: 0 <= k < |events| ==> events[k].name in EventForms(events) && EventForms(events)[events[k].name] == ParamForms(events[k].params)
    ensures forall n :: n in EventForms(events) ==> n in EventNames(events)
  {
    if events != [] {
      var last := |events| - 1;
      var before := events[..last];
      assert EventNames(before) == EventNames(events)[..last];
      EventFormsAre(before);
      forall k | 0 <= k < last
        ensures events[k].name in EventForms(before) && EventForms(before)[events[k].name] == ParamForms(events[k].params)
        ensures events[k].name != events[last].name
      {
        assert before[k] == events[k];
        assert EventNames(events)[k] != EventNames(events)[last];
      }
      forall n | n in EventForms(events)
        ensures n in EventNames(events)
      {
        if n != events[last].name {
          assert n in EventNames(events)[..last];
        } else {
          assert EventNames(events)[last] == n;
        }
      }
    }
  }

  lemma {:induction false} MethodFormsAll(methods: seq<Method>)
    requires DistinctNames(MethodNames(methods))
    ensures forall k :: 0 <= k < |methods| ==> methods[k].name in MethodForms(methods) && MethodForms(methods)[methods[k].name] == MethodForm(methods[k])
    ensures forall n :: n in MethodForms(methods) ==> n in MethodNames(methods)
  {
    if methods != [] {
      var last := |methods| - 1;
      var before := methods[..last];
      assert MethodNames(before) == MethodNames(methods)[..last];
      MethodFormsAll(before);
      forall k | 0 <= k < last
        ensures methods[k].name in MethodForms(before) && MethodForms(before)[methods[k].name] == MethodForm(methods[k])
        ensures methods[k].name != methods[last].name
      {
        assert before[k] == methods[k];
        assert MethodNames(methods)[k] != MethodNames(methods)[last];
      }
      forall n | n in MethodForms(methods)
        ensures n in MethodNames(methods)
      {
        if n != methods[last].name {
          assert n in MethodNames(methods)[..last];
        } else {
          assert MethodNames(methods)[last] == n;
        }
      }
    }
  }

  // ---------------------------------------------------------------- the document

  /** The document lists exactly the interface's records, methods and events, each as its own
      signature has it: parameters in order with their names, the return, and the fields of every
      record. */
  lemma ShapeListsMembers(i: Interface, table: Table)
    requires Distinct(i) && Declares(table, i.types)
    ensures var d := ShapeOf(i);
      && d.mod == i.name
      && (forall n :: n in d.methods <==> n in MethodNames(i.methods))
      && (forall n :: n in d.events <==> n in EventNames(i.events))
      && d.records == map r | r in table :: PlainFields(table[r])
    ensures forall k :: 0 <= k < |i.methods| ==> MethodListed(ShapeOf(i), table, i.methods[k])
    ensures forall k :: 0 <= k < |i.events| ==> EventListed(ShapeOf(i), table, i.events[k])
  {
    hide MethodListed, EventListed;
    RecordsAre(i, table);
    MethodsAre(i, table);
    EventsAre(i, table);
  }

  predicate MethodListed(d: Shape, table: Table, m: Method) {
    var form := ShapeFormOf(table, MethodMember(m));
    m.name in d.methods && d.methods[m.name] == MethodShape(form.params, form.result)
  }

  predicate EventListed(d: Shape, table: Table, e: Event) {
    e.name in d.events && d.events[e.name] == ShapeFormOf(table, EventMember(e)).params
  }

  lemma MethodsAre(i: Interface, table: Table)
    requires Distinct(i)
    ensures forall n :: n in ShapeOf(i).methods <==> n in MethodNames(i.methods)
    ensures forall k :: 0 <= k < |i.methods| ==> MethodListed(ShapeOf(i), table, i.methods[k])
  {
    MethodFormsAll(i.methods);
    forall k | 0 <= k < |i.methods|
      ensures MethodListed(ShapeOf(i), table, i.methods[k]) && MethodNames(i.methods)[k] in MethodForms(i.methods)
    {
      ParamsAre(table, MethodMember(i.methods[k]));
    }
  }

  lemma EventsAre(i: Interface, table: Table)
    requires Distinct(i)
    ensures forall n :: n in ShapeOf(i).events <==> n in EventNames(i.events)
    ensures forall k :: 0 <= k < |i.events| ==> EventListed(ShapeOf(i), table, i.events[k])
  {
    EventFormsAre(i.events);
    forall k | 0 <= k < |i.events|
      ensures EventListed(ShapeOf(i), table, i.events[k]) && EventNames(i.events)[k] in EventForms(i.events)
    {
      ParamsAre(table, EventMember(i.events[k]));
    }
  }

  lemma ParamsAre(table: Table, m: Member)
    ensures ParamForms(m.params) == ShapeFormOf(table, m).params && ReturnForm(m.result) == ShapeFormOf(table, m).result
  {
  }

  lemma RecordsAre(i: Interface, table: Table)
    requires Distinct(i) && Declares(table, i.types)
    ensures ShapeOf(i).records == map r | r in table :: PlainFields(table[r])
  {
    RecordFormsAre(i.types);
    forall r | r in table
      ensures r in RecordForms(i.types) && RecordForms(i.types)[r] == PlainFields(table[r])
    {
      var k :| 0 <= k < |RecordNames(i.types)| && RecordNames(i.types)[k] == r;
      assert i.types[k].name == r;
      FieldFormsPlain(table[r], i.types[k].fields);
    }
  }

  /** The parameters of a document are the declared ones, place by place. */
  lemma ParametersInOrder(m: Member, table: Table, k: nat)
    requires k < |m.params|
    ensures |ShapeFormOf(table, m).params| == |m.params|
    ensures ShapeFormOf(table, m).params[k] == (m.params[k].name, ShapeSlot(m.params[k]))
  {
  }
}
