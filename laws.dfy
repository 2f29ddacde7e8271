/** What the marshaller guarantees, proved about the functions of `Mapper`. */
module MapperLaws {
  import opened Values
  import opened Contracts
  import opened Mapper

  // ------------------------------------------------ the walk over attributes

  /** The first failing attribute depends only on the attributes from `i` on. */
  lemma {:induction false} FirstFailureFrom(s1: seq<Slot>, s2: seq<Slot>, data: Value, i: nat)
    requires data.Dict? && i <= |s1| == |s2|
    requires forall k :: i <= k < |s1| ==> s1[k] == s2[k]
    decreases |s1| - i
    ensures FirstFailure(s1, data, i) == FirstFailure(s2, data, i)
  {
    if i < |s1| {
      FirstFailureFrom(s1, s2, data, i + 1);
    }
  }

  /** The loop over the attributes from `i` on processes them one by one and
      stops at the first one whose update raises. */
  lemma {:induction false} InflateSlotsProcessed(slots: seq<Slot>, data: Value, i: nat)
    requires data.Dict? && i <= |slots|
    decreases |slots| - i
    ensures ProcessedSlots(slots, data, i, InflateSlots(slots, data, i))
  {
    if i < |slots| {
      var name := slots[i].name;
      if name !in data.m {
        InflateSlotsProcessed(slots, data, i + 1);
        SkipStep(slots, data, i);
      } else if InflateField(slots[i].val, data.m[name]).outcome.Raised? {
        StopStep(slots, data, i);
      } else {
        var slots' := slots[i := Slot(name, InflateField(slots[i].val, data.m[name]).state)];
        InflateSlotsProcessed(slots', data, i + 1);
        assert InflateSlots(slots, data, i) == InflateSlots(slots', data, i + 1);
        UpdateStep(slots, slots', data, i, InflateSlots(slots', data, i + 1));
      }
    }
  }

  /** An attribute without a key is skipped. */
  lemma SkipStep(slots: seq<Slot>, data: Value, i: nat)
    requires data.Dict? && i < |slots| && slots[i].name !in data.m
    requires ProcessedSlots(slots, data, i + 1, InflateSlots(slots, data, i + 1))
    ensures ProcessedSlots(slots, data, i, InflateSlots(slots, data, i))
  {
    assert FirstFailure(slots, data, i) == FirstFailure(slots, data, i + 1);
    assert InflateSlots(slots, data, i) == InflateSlots(slots, data, i + 1);
  }

  /** An attribute whose update raises ends the walk. */
  lemma StopStep(slots: seq<Slot>, data: Value, i: nat)
    requires data.Dict? && i < |slots| && slots[i].name in data.m
    requires InflateField(slots[i].val, data.m[slots[i].name]).outcome.Raised?
    ensures ProcessedSlots(slots, data, i, InflateSlots(slots, data, i))
  {
    assert FirstFailure(slots, data, i) == i;
  }

  /** An attribute whose update succeeds is updated, and the walk goes on. */
  lemma UpdateStep(slots: seq<Slot>, slots': seq<Slot>, data: Value, i: nat, r: Partial<seq<Slot>>)
    requires data.Dict? && i < |slots| && slots[i].name in data.m
    requires InflateField(slots[i].val, data.m[slots[i].name]).outcome.Ok?
    requires slots' == slots[i := Slot(slots[i].name, InflateField(slots[i].val, data.m[slots[i].name]).state)]
    requires r == InflateSlots(slots', data, i + 1)
    requires ProcessedSlots(slots', data, i + 1, r)
    ensures ProcessedSlots(slots, data, i, r)
  {
    FirstFailureFrom(slots', slots, data, i + 1);
    var p := FirstFailure(slots, data, i);
    assert p == FirstFailure(slots', data, i + 1);
    assert r.state[i] == slots'[i];
    UpdatedShift(slots, slots', data, i, p, r.state);
    if p < |slots| {
      assert slots'[p] == slots[p];
      assert StoppedAt(slots', data, p, r);
    }
    assert UntouchedAfter(slots', p, r.state);
  }

  /** Updating attribute `i` extends the updated range by one. */
  lemma UpdatedShift(slots: seq<Slot>, slots': seq<Slot>, data: Value, i: nat, p: nat, after: seq<Slot>)
    requires data.Dict? && i < p <= |slots| == |slots'| == |after| && slots[i].name in data.m
    requires forall k :: i < k < |slots| ==> slots'[k] == slots[k]
    requires InflateField(slots[i].val, data.m[slots[i].name]) == Partial(after[i].val, Ok)
    requires UpdatedBetween(slots', data, i + 1, p, after)
    ensures UpdatedBetween(slots, data, i, p, after)
  {
    forall k | i <= k < p && slots[k].name in data.m
      ensures InflateField(slots[k].val, data.m[slots[k].name]) == Partial(after[k].val, Ok)
    {
      if k > i {
        assert slots'[k] == slots[k];
        assert i + 1 <= k < p && slots'[k].name in data.m;
        assert InflateField(slots'[k].val, data.m[slots'[k].name]) == Partial(after[k].val, Ok);
      }
    }
  }

  /** `set_properties` on a data contract and a mapping: the attributes are
      visited in order; each attribute with a key in the mapping gets the
      update its value calls for, until one update raises. That update's own
      partial effect stays in place, every attribute after it is untouched,
      and its error is the error of the call. */
  lemma InflateProcessesInOrder(e: Entity, data: Value)
    requires data.Dict?
    ensures var r := InflateEntity(e, data);
      ProcessedSlots(e.slots, data, 0, Partial(r.state.slots, r.outcome))
  {
    InflateSlotsProcessed(e.slots, data, 0);
  }

  /** The loop over the elements of a list value appends, after the items
      already there, one freshly constructed and inflated item per element,
      in element order, up to the first element whose inflation raises. */
  lemma {:induction false} InflateItemsAppended(proto: Entity, items: seq<Entity>, data: Value, j: nat)
    requires data.List? && j <= |data.elems|
    decreases |data.elems| - j
    ensures AppendedFrom(proto, items, data, j, InflateItems(proto, items, data, j))
  {
    if j == |data.elems| {
      assert InflateItems(proto, items, data, j) == Partial(items, Ok);
      assert items[..|items|] == items;
    } else {
      var n := InflateEntity(proto, data.elems[j]);
      if n.outcome.Ok? {
        var items' := items + [n.state];
        InflateItemsAppended(proto, items', data, j + 1);
        assert InflateItems(proto, items, data, j) == InflateItems(proto, items', data, j + 1);
        AppendStep(proto, items, n.state, data, j, InflateItems(proto, items', data, j + 1));
      } else {
        assert InflateItems(proto, items, data, j) == Partial(items, n.outcome);
        assert items[..|items|] == items;
      }
    }
  }

  /** Appending the item built from element `j` extends the batch by one. */
  lemma AppendStep(proto: Entity, items: seq<Entity>, item: Entity, data: Value, j: nat,
                   r: Partial<seq<Entity>>)
    requires data.List? && j < |data.elems|
    requires InflateEntity(proto, data.elems[j]) == Partial(item, Ok)
    requires AppendedFrom(proto, items + [item], data, j + 1, r)
    ensures AppendedFrom(proto, items, data, j, r)
  {
    var items' := items + [item];
    assert r.state[..|items|] == r.state[..|items'|][..|items|];
    assert r.state[|items|] == r.state[..|items'|][|items|] == item;
    assert j + |r.state| - |items| == (j + 1) + |r.state| - |items'|;
    forall t | |items| <= t < |r.state|
      ensures InflateEntity(proto, data.elems[j + t - |items|]) == Partial(r.state[t], Ok)
    {
      if t > |items| {
        assert j + t - |items| == (j + 1) + t - |items'|;
      }
    }
  }

  /** A list value in an attribute holding a typed list keeps the items in
      front and appends new items of the list's item kind, in element order. */
  lemma ListFieldAppends(val: Obj, newVal: Value)
    requires newVal.List? && val.ContractList?
    ensures var r := InflateField(val, newVal);
      && r.state.ContractList? && r.state.itemKind == val.itemKind
      && AppendedFrom(Blank(val.itemKind), val.items, newVal, 0, Partial(r.state.items, r.outcome))
  {
    ListFieldRunsItems(val, newVal);
    InflateItemsAppended(Blank(val.itemKind), val.items, newVal, 0);
  }

  /** After a call that returned normally, an attribute whose key maps to a
      scalar holds that scalar verbatim, whatever it held before: a nested
      entity and a typed list are overwritten too. */
  lemma ScalarOverwrites(e: Entity, data: Value, k: nat)
    requires data.Dict? && k < |e.slots| && e.slots[k].name in data.m
    requires IsScalar(data.m[e.slots[k].name])
    requires InflateEntity(e, data).outcome.Ok?
    ensures InflateEntity(e, data).state.slots[k] == Slot(e.slots[k].name, Plain(data.m[e.slots[k].name]))
  {
    InflateProcessesInOrder(e, data);
    assert Names(InflateEntity(e, data).state.slots)[k] == Names(e.slots)[k];
  }

  /** A mapping for an attribute that does not hold a data contract (a
      `None` or other plain value, or a typed list) is rejected as the `obj`
      parameter of the recursive call, and the attribute is left as it was. */
  lemma MappingIntoNonContractRejected(val: Obj, newVal: Value)
    requires newVal.Dict? && !val.Contract?
    ensures InflateField(val, newVal) == Partial(val, Raised(Rejection("obj", val, DataContractType)))
  {
  }

  /** A list element that is not a mapping is rejected as the `data`
      parameter of the recursive call; the items built from the elements
      before it stay appended. */
  lemma ListElementRejected(val: Obj, newVal: Value, j: nat)
    requires val.ContractList? && newVal.List? && j < |newVal.elems| && !newVal.elems[j].Dict?
    requires forall t :: 0 <= t < j ==> InflateEntity(Blank(val.itemKind), newVal.elems[t]).outcome.Ok?
    ensures var r := InflateField(val, newVal);
      && r.outcome == Raised(Rejection("data", Plain(newVal.elems[j]), DictType))
      && r.state.ContractList? && |r.state.items| == |val.items| + j
  {
    ListFieldRunsItems(val, newVal);
    ItemsRejectedAt(Blank(val.itemKind), val.items, newVal, 0, j);
  }

  lemma {:induction false} ItemsRejectedAt(proto: Entity, items: seq<Entity>, data: Value, i: nat, j: nat)
    requires data.List? && i <= j < |data.elems| && !data.elems[j].Dict?
    requires forall t :: i <= t < j ==> InflateEntity(proto, data.elems[t]).outcome.Ok?
    decreases j - i
    ensures var r := InflateItems(proto, items, data, i);
      && r.outcome == Raised(Rejection("data", Plain(data.elems[j]), DictType))
      && |r.state| == |items| + j - i
  {
    var n := InflateEntity(proto, data.elems[i]);
    if i < j {
      assert InflateItems(proto, items, data, i) == InflateItems(proto, items + [n.state], data, i + 1);
      ItemsRejectedAt(proto, items + [n.state], data, i + 1, j);
    } else {
      assert n.outcome == Raised(Rejection("data", Plain(data.elems[j]), DictType));
    }
  }

  // ------------------------------------------------------------ acceptance

  /** The shapes `set_properties` accepts, stated without running it: a
      mapping, each of whose keys that names an attribute holds a scalar, or a
      mapping for an attribute holding a data contract, or a list for an
      attribute holding a typed list whose elements all fit a fresh item. */
  ghost predicate Fits(e: Entity, data: Value)
    decreases data, 1
  {
    && data.Dict?
    && forall k :: 0 <= k < |e.slots| && e.slots[k].name in data.m ==>
         FieldFits(e.slots[k].val, data.m[e.slots[k].name])
  }

  ghost predicate FieldFits(val: Obj, newVal: Value)
    decreases newVal, 2
  {
    match newVal
    case Dict(_) => val.Contract? && Fits(val.e, newVal)
    case List(elems) =>
      val.ContractList? && forall t :: 0 <= t < |elems| ==> Fits(Blank(val.itemKind), elems[t])
    case _ => true
  }

  /** No attribute update raised exactly when the first failure is past the end. */
  lemma AllUpdatesSucceed(slots: seq<Slot>, data: Value)
    requires data.Dict?
    ensures FirstFailure(slots, data, 0) == |slots| <==>
      forall k :: 0 <= k < |slots| && slots[k].name in data.m ==>
        InflateField(slots[k].val, data.m[slots[k].name]).outcome.Ok?
  {
  }

  /** `set_properties` returns without raising exactly when the data fits. */
  lemma {:induction false} InflateSucceedsIff(e: Entity, data: Value)
    decreases data, 1
    ensures InflateEntity(e, data).outcome.Ok? <==> Fits(e, data)
  {
    if data.Dict? {
      InflateProcessesInOrder(e, data);
      AllUpdatesSucceed(e.slots, data);
      forall k | 0 <= k < |e.slots| && e.slots[k].name in data.m
        ensures InflateField(e.slots[k].val, data.m[e.slots[k].name]).outcome.Ok? <==>
                FieldFits(e.slots[k].val, data.m[e.slots[k].name])
      {
        FieldSucceedsIff(e.slots[k].val, data.m[e.slots[k].name]);
      }
    }
  }

  lemma {:induction false} FieldSucceedsIff(val: Obj, newVal: Value)
    decreases newVal, 2
    ensures InflateField(val, newVal).outcome.Ok? <==> FieldFits(val, newVal)
  {
    match newVal
    case Dict(_) =>
      if val.Contract? {
        InflateSucceedsIff(val.e, newVal);
      }
    case List(elems) =>
      if val.ContractList? {
        var b := Blank(val.itemKind);
        ListOutcome(val, newVal);
        forall t | 0 <= t < |elems|
          ensures InflateEntity(b, elems[t]).outcome.Ok? <==> Fits(b, elems[t])
        {
          InflateSucceedsIff(b, elems[t]);
        }
      }
    case _ =>
  }

  /** A list value fed to a typed list is accepted exactly when every one of
      its elements inflates a fresh item without raising. */
  lemma ListOutcome(val: Obj, newVal: Value)
    requires val.ContractList? && newVal.List?
    ensures InflateField(val, newVal).outcome.Ok? <==>
      forall t :: 0 <= t < |newVal.elems| ==> InflateEntity(Blank(val.itemKind), newVal.elems[t]).outcome.Ok?
  {
    ListFieldRunsItems(val, newVal);
    ItemsOutcome(Blank(val.itemKind), val.items, newVal, 0);
  }

  lemma {:induction false} ItemsOutcome(proto: Entity, items: seq<Entity>, data: Value, j: nat)
    requires data.List? && j <= |data.elems|
    decreases |data.elems| - j
    ensures InflateItems(proto, items, data, j).outcome.Ok? <==>
      forall t :: j <= t < |data.elems| ==> InflateEntity(proto, data.elems[t]).outcome.Ok?
  {
    if j < |data.elems| {
      var n := InflateEntity(proto, data.elems[j]);
      ItemsOutcome(proto, items + [n.state], data, j + 1);
    }
  }

  /** When element `t` inflates `proto` to `want[t]` for every `t`, the loop
      from `j` on appends exactly `want[j..]`. */
  lemma {:induction false} ItemsReproduced(proto: Entity, items: seq<Entity>, data: Value, j: nat,
                                           want: seq<Entity>)
    requires data.List? && j <= |data.elems| == |want|
    requires forall t :: j <= t < |want| ==> InflateEntity(proto, data.elems[t]) == Partial(want[t], Ok)
    decreases |data.elems| - j
    ensures InflateItems(proto, items, data, j) == Partial(items + want[j..], Ok)
  {
    if j < |data.elems| {
      assert InflateItems(proto, items, data, j) == InflateItems(proto, items + [want[j]], data, j + 1);
      ItemsReproduced(proto, items + [want[j]], data, j + 1, want);
      assert (items + [want[j]]) + want[j + 1..] == items + want[j..];
    } else {
      assert items + want[j..] == items;
    }
  }

  /** Data that was accepted once is accepted again by the updated entity. */
  lemma {:induction false} FitsPreserved(e: Entity, data: Value)
    requires Fits(e, data)
    decreases data
    ensures Fits(InflateEntity(e, data).state, data)
  {
    var r := InflateEntity(e, data);
    InflateSucceedsIff(e, data);
    InflateProcessesInOrder(e, data);
    forall k | 0 <= k < |r.state.slots| && r.state.slots[k].name in data.m
      ensures FieldFits(r.state.slots[k].val, data.m[r.state.slots[k].name])
    {
      var v := data.m[e.slots[k].name];
      assert FieldFits(e.slots[k].val, v);
      if v.Dict? {
        FitsPreserved(e.slots[k].val.e, v);
      } else if v.List? {
        ListFieldAppends(e.slots[k].val, v);
      }
    }
  }

  // ------------------------------------------------------- re-application

  /** Applying the same accepted mapping twice succeeds again and appends
      every list batch a second time: each typed list fed by a list value
      ends up with its new items duplicated. */
  lemma ReapplyDuplicatesListItems(e: Entity, data: Value, k: nat)
    requires InflateEntity(e, data).outcome.Ok?
    requires k < |e.slots| && data.Dict? && e.slots[k].name in data.m
    requires data.m[e.slots[k].name].List?
    ensures var once := InflateEntity(e, data).state;
      var twice := InflateEntity(once, data);
      && twice.outcome.Ok?
      && e.slots[k].val.ContractList?
      && once.slots[k].val.ContractList? && twice.state.slots[k].val.ContractList?
      && var before := e.slots[k].val.items;
         var after1 := once.slots[k].val.items;
         && |after1| == |before| + |data.m[e.slots[k].name].elems|
         && twice.state.slots[k].val.items == after1 + after1[|before|..]
  {
    var once := InflateEntity(e, data).state;
    var twice := InflateEntity(once, data);
    var v := data.m[e.slots[k].name];
    InflateSucceedsIff(e, data);
    FitsPreserved(e, data);
    InflateSucceedsIff(once, data);
    InflateProcessesInOrder(e, data);
    InflateProcessesInOrder(once, data);
    assert FieldFits(e.slots[k].val, v);
    ListFieldAppends(e.slots[k].val, v);
    ListFieldAppends(once.slots[k].val, v);
    var before := e.slots[k].val.items;
    var after1 := once.slots[k].val.items;
    var after2 := twice.state.slots[k].val.items;
    assert after2 == after1 + after1[|before|..] by {
      forall t | 0 <= t < |after2|
        ensures after2[t] == (after1 + after1[|before|..])[t]
      {
        if t < |after1| {
          assert after2[t] == after2[..|after1|][t];
        }
      }
    }
  }

  /** Re-applying an accepted mapping with no list anywhere changes nothing. */
  lemma {:induction false} ScalarOnlyIdempotent(e: Entity, data: Value)
    requires InflateEntity(e, data).outcome.Ok? && ListFree(data)
    decreases data
    ensures var once := InflateEntity(e, data).state;
      InflateEntity(once, data) == Partial(once, Ok)
  {
    var once := InflateEntity(e, data).state;
    var twice := InflateEntity(once, data);
    InflateSucceedsIff(e, data);
    InflateProcessesInOrder(e, data);
    InflateProcessesInOrder(once, data);
    forall k | 0 <= k < |once.slots| && once.slots[k].name in data.m
      ensures InflateField(once.slots[k].val, data.m[once.slots[k].name]) == Partial(once.slots[k].val, Ok)
    {
      var v := data.m[e.slots[k].name];
      if v.Dict? {
        ScalarOnlyIdempotent(e.slots[k].val.e, v);
      }
    }
    AllUpdatesSucceed(once.slots, data);
    assert twice.state.slots == once.slots by {
      forall k | 0 <= k < |once.slots|
        ensures twice.state.slots[k] == once.slots[k]
      {
        assert twice.state.slots[k].name == once.slots[k].name by {
          assert Names(twice.state.slots)[k] == Names(once.slots)[k];
        }
      }
    }
  }

  // ---------------------------------------------------------- unknown keys

  /** The walk only ever looks up the names of the attributes. */
  lemma {:induction false} InflateSlotsLooksUpNamesOnly(slots: seq<Slot>, d1: Value, d2: Value, i: nat)
    requires d1.Dict? && d2.Dict? && i <= |slots|
    requires forall k :: 0 <= k < |slots| ==>
      (slots[k].name in d1.m <==> slots[k].name in d2.m) &&
      (slots[k].name in d1.m ==> d1.m[slots[k].name] == d2.m[slots[k].name])
    decreases |slots| - i
    ensures InflateSlots(slots, d1, i) == InflateSlots(slots, d2, i)
  {
    if i < |slots| {
      var name := slots[i].name;
      if name !in d1.m {
        InflateSlotsLooksUpNamesOnly(slots, d1, d2, i + 1);
      } else {
        var f := InflateField(slots[i].val, d1.m[name]);
        var slots' := slots[i := Slot(name, f.state)];
        assert Names(slots') == Names(slots) by {
          assert forall k :: 0 <= k < |slots| ==> Names(slots')[k] == Names(slots)[k];
        }
        InflateSlotsLooksUpNamesOnly(slots', d1, d2, i + 1);
      }
    }
  }

  /** Keys that name no attribute are ignored. */
  lemma InflateIgnoresUnknownKeys(e: Entity, m: map<string, Value>, extra: map<string, Value>)
    requires forall k :: 0 <= k < |e.slots| ==> e.slots[k].name !in extra
    ensures InflateEntity(e, Dict(m + extra)) == InflateEntity(e, Dict(m))
  {
    var d1, d2 := Dict(m + extra), Dict(m);
    forall k | 0 <= k < |e.slots|
      ensures (e.slots[k].name in d1.m <==> e.slots[k].name in d2.m)
      ensures e.slots[k].name in d1.m ==> d1.m[e.slots[k].name] == d2.m[e.slots[k].name]
    {
    }
    InflateSlotsLooksUpNamesOnly(e.slots, d1, d2, 0);
  }

  // ---------------------------------------------------------------- deflate

  /** With distinct names, each key holds its attribute's deflated value. */
  lemma {:induction false} DeflateSlotsValues(e: Entity, n: nat)
    requires n <= |e.slots|
    requires forall i, j :: 0 <= i < j < |e.slots| ==> e.slots[i].name != e.slots[j].name
    decreases n
    ensures forall k :: 0 <= k < n ==>
      e.slots[k].name in DeflateSlots(e, n) &&
      DeflateSlots(e, n)[e.slots[k].name] == DeflateField(e.slots[k].val)
  {
    if n > 0 {
      DeflateSlotsValues(e, n - 1);
    }
  }

  /** `get_properties` of a data contract whose attribute names are
      distinct: each key holds its attribute's deflated value. */
  lemma DeflateKeysAndValues(e: Entity)
    ensures Distinct(Names(e.slots)) ==>
      forall k :: 0 <= k < |e.slots| ==> DeflateEntity(e)[e.slots[k].name] == DeflateField(e.slots[k].val)
  {
    if Distinct(Names(e.slots)) {
      assert forall i, j :: 0 <= i < j < |e.slots| ==> e.slots[i].name != e.slots[j].name by {
        forall i, j | 0 <= i < j < |e.slots| ensures e.slots[i].name != e.slots[j].name {
          assert Names(e.slots)[i] != Names(e.slots)[j];
        }
      }
      DeflateSlotsValues(e, |e.slots|);
    }
  }

  // ------------------------------------------------------------ round trip

  /** A constructed instance is ready to be inflated. */
  lemma {:induction false} InitialIsTarget(e: Entity, args: map<string, Value>)
    requires IsInitial(e, args)
    decreases e
    ensures IsTarget(e)
  {
    forall i | 0 <= i < |e.slots| && Fields(e.kind)[i].NestedField?
      ensures IsTarget(e.slots[i].val.e)
    {
      InitialIsTarget(e.slots[i].val.e, map[]);
    }
  }

  /** Inflating a ready instance of the same class from the deflated form of
      a conforming entity gives back that entity, without error. */
  lemma {:induction false} RoundTripEntity(e: Entity, target: Entity)
    requires Conforms(e) && IsTarget(target) && target.kind == e.kind
    decreases e, 1
    ensures InflateEntity(target, Dict(DeflateEntity(e))) == Partial(e, Ok)
  {
    var fs := Fields(e.kind);
    var data := Dict(DeflateEntity(e));
    assert Distinct(Names(e.slots));
    DeflateKeysAndValues(e);
    forall k | 0 <= k < |target.slots|
      ensures target.slots[k].name in data.m
      ensures InflateField(target.slots[k].val, data.m[target.slots[k].name]) == Partial(e.slots[k].val, Ok)
    {
      RoundTripField(e.slots[k].val, target.slots[k].val, fs[k]);
    }
    EveryFieldReproduced(target, data, e);
  }

  /** When every attribute of `target` has a key and the update of each
      returns normally with the value `e` holds there, the call returns `e`. */
  lemma EveryFieldReproduced(target: Entity, data: Value, e: Entity)
    requires data.Dict? && target.kind == e.kind && |target.slots| == |e.slots|
    requires forall k :: 0 <= k < |target.slots| ==> target.slots[k].name == e.slots[k].name
    requires forall k :: 0 <= k < |target.slots| ==>
      target.slots[k].name in data.m &&
      InflateField(target.slots[k].val, data.m[target.slots[k].name]) == Partial(e.slots[k].val, Ok)
    ensures InflateEntity(target, data) == Partial(e, Ok)
  {
    var r := InflateEntity(target, data);
    AllUpdatesSucceed(target.slots, data);
    InflateProcessesInOrder(target, data);
    assert r.state.slots == e.slots by {
      forall k | 0 <= k < |e.slots|
        ensures r.state.slots[k] == e.slots[k]
      {
        assert r.state.slots[k].name == target.slots[k].name by {
          assert Names(r.state.slots)[k] == Names(target.slots)[k];
        }
      }
    }
  }

  lemma {:induction false} RoundTripField(o: Obj, target: Obj, d: FieldDecl)
    requires ConformsValue(o, d) && IsTargetValue(target, d)
    decreases o, 2
    ensures InflateField(target, DeflateField(o)) == Partial(o, Ok)
  {
    if o.Plain? && IsScalar(o.v) {
    } else if d.NestedField? && o.Contract? {
      RoundTripEntity(o.e, target.e);
    } else {
      RoundTripList(o);
    }
  }

  /** Inflating an empty typed list from the deflated items of a typed list
      of conforming items gives back those items. */
  lemma {:induction false} RoundTripList(o: Obj)
    requires o.ContractList?
    requires forall j :: 0 <= j < |o.items| ==> o.items[j].kind == o.itemKind && Conforms(o.items[j])
    decreases o, 1
    ensures InflateField(ContractList(o.itemKind, []), DeflateField(o)) == Partial(o, Ok)
  {
    var v := DeflateField(o);
    var b := Blank(o.itemKind);
    InitialIsTarget(b, map[]);
    forall t | 0 <= t < |o.items|
      ensures InflateEntity(b, v.elems[t]) == Partial(o.items[t], Ok)
    {
      RoundTripEntity(o.items[t], b);
    }
    ListRebuilt(o.itemKind, o.items, v.elems);
  }

  /** A list whose elements inflate fresh items to `items`, fed to an empty
      typed list, rebuilds `items`. */
  lemma ListRebuilt(k: Kind, items: seq<Entity>, elems: seq<Value>)
    requires |elems| == |items|
    requires forall t :: 0 <= t < |elems| ==> InflateEntity(Blank(k), elems[t]) == Partial(items[t], Ok)
    ensures InflateField(ContractList(k, []), List(elems)) == Partial(ContractList(k, items), Ok)
  {
    var b := Blank(k);
    ItemsReproduced(b, [], List(elems), 0, items);
    assert [] + items[0..] == items;
    ListFieldRunsItems(ContractList(k, []), List(elems));
  }

  /** A list value fed to a typed list runs the loop over its elements from
      the items already there, each new item starting out as the list's
      item factory builds it. */
  lemma ListFieldRunsItems(val: Obj, newVal: Value)
    requires val.ContractList? && newVal.List?
    ensures var n := InflateItems(Blank(val.itemKind), val.items, newVal, 0);
      InflateField(val, newVal) == Partial(ContractList(val.itemKind, n.state), n.outcome)
  {
    assert ValidataParam("list", val, DataContractListType) == Ok;
  }

  /** The round trip of the source's mapping: `get_properties` of a
      conforming entity, inflated into a freshly constructed instance of its
      class, gives a field-by-field equal entity and raises nothing. */
  lemma RoundTrip(e: Entity)
    requires Conforms(e)
    ensures Deflate(Contract(e)).Success?
    ensures Inflate(Contract(Blank(e.kind)), Deflate(Contract(e)).value) == Partial(Contract(e), Ok)
  {
    InitialIsTarget(Blank(e.kind), map[]);
    RoundTripEntity(e, Blank(e.kind));
  }
}
