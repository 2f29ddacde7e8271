/** The generic marshaller, as functions: `Inflate` populates an existing
    data-contract instance from a nested mapping (`set_properties`),
    `Deflate` turns an instance back into a fresh nested mapping
    (`get_properties`). */
module Mapper {
  import opened Values
  import opened Contracts

  /** The types the parameter checks ask for. */
  datatype PyType = DataContractType | DictType | DataContractListType

  /** `ProtocolError`, carrying what its message says: which parameter was
      `None`, or which parameter did not have the expected type. */
  datatype ProtocolError =
    | ParamIsNone(param: string)
    | ParamWrongType(param: string, expected: PyType)

  /** Whether a call returned normally or raised. */
  datatype Outcome = Ok | Raised(error: ProtocolError)

  /** The state of the mutated object after a call, together with how the
      call ended: a call that raised leaves earlier mutations in place. */
  datatype Partial<T> = Partial(state: T, outcome: Outcome)

  datatype Result<T> = Success(value: T) | Failure(error: ProtocolError)

  /** `isinstance(o, t)`: `None` is an instance of none of the checked types. */
  function IsInstance(o: Obj, t: PyType): (r: bool)
    ensures r ==> o != Plain(Null)
  {
    match t
    case DataContractType => o.Contract?
    case DictType => o.Plain? && o.v.Dict?
    case DataContractListType => o.ContractList?
  }

  /** `validata_param`: rejects `None`, then anything not of the expected type. */
  function ValidataParam(name: string, val: Obj, expected: PyType): (r: Outcome)
    ensures r.Ok? <==> IsInstance(val, expected)
    ensures r.Raised? ==> r.error.param == name
    ensures r.Raised? ==> (r.error.ParamIsNone? <==> val == Plain(Null))
    ensures r.Raised? && r.error.ParamWrongType? ==> r.error.expected == expected
  {
    if val == Plain(Null) then Raised(ParamIsNone(name))
    else if !IsInstance(val, expected) then Raised(ParamWrongType(name, expected))
    else Ok
  }

  /** The error `validata_param` raises for a value that is not an instance. */
  function Rejection(name: string, val: Obj, expected: PyType): ProtocolError {
    if val == Plain(Null) then ParamIsNone(name) else ParamWrongType(name, expected)
  }

  // ---------------------------------------------------------------- inflate

  /** `set_properties(obj, data)`: the state `obj` is left in and whether the
      call raised. */
  function Inflate(obj: Obj, data: Value): (r: Partial<Obj>)
    decreases data, 3
    ensures !obj.Contract? ==>
      r == Partial(obj, Raised(Rejection("obj", obj, DataContractType)))
    ensures obj.Contract? ==>
      var n := InflateEntity(obj.e, data); r == Partial(Contract(n.state), n.outcome)
  {
    var check := ValidataParam("obj", obj, DataContractType);
    if check.Raised? then Partial(obj, check)
    else
      var n := InflateEntity(obj.e, data);
      Partial(Contract(n.state), n.outcome)
  }

  /** `set_properties` on an argument already known to be a data contract:
      the check of `data`, then the walk over the attributes. */
  function InflateEntity(e: Entity, data: Value): (r: Partial<Entity>)
    decreases data, 2
    ensures r.state.kind == e.kind
    ensures Names(r.state.slots) == Names(e.slots)
    ensures !data.Dict? ==>
      r == Partial(e, Raised(Rejection("data", Plain(data), DictType)))
    ensures forall k :: 0 <= k < |e.slots| && !(data.Dict? && e.slots[k].name in data.m) ==>
      r.state.slots[k] == e.slots[k]
  {
    var check := ValidataParam("data", Plain(data), DictType);
    if check.Raised? then Partial(e, check)
    else
      var s := InflateSlots(e.slots, data, 0);
      Partial(Entity(e.kind, s.state), s.outcome)
  }

  /** Index of the first attribute at or after `i` whose update raises, or
      `|slots|` when none does. Each attribute's update depends only on its
      own original value and on `data`. */
  function FirstFailure(slots: seq<Slot>, data: Value, i: nat): (p: nat)
    requires data.Dict? && i <= |slots|
    decreases data, 1, |slots| - i, 0
    ensures i <= p <= |slots|
    ensures p < |slots| ==>
      slots[p].name in data.m && InflateField(slots[p].val, data.m[slots[p].name]).outcome.Raised?
    ensures forall k :: i <= k < p && slots[k].name in data.m ==>
      InflateField(slots[k].val, data.m[slots[k].name]).outcome.Ok?
  {
    if i == |slots| then |slots|
    else if slots[i].name in data.m &&
            InflateField(slots[i].val, data.m[slots[i].name]).outcome.Raised?
    then i
    else FirstFailure(slots, data, i + 1)
  }

  /** What the walk from attribute `i` on does to `slots`, as seen in the
      resulting attributes `r`: every attribute before the first failing one
      that has a key in `data` gets its update; the failing one is left as
      its update left it and its error is the call's; later attributes are
      not touched. */
  ghost predicate ProcessedSlots(slots: seq<Slot>, data: Value, i: nat, r: Partial<seq<Slot>>)
    requires data.Dict? && i <= |slots|
  {
    var p := FirstFailure(slots, data, i);
    && |r.state| == |slots|
    && (r.outcome.Ok? <==> p == |slots|)
    && UpdatedBetween(slots, data, i, p, r.state)
    && (p < |slots| ==> StoppedAt(slots, data, p, r))
    && UntouchedAfter(slots, p, r.state)
  }

  /** Each attribute in `[i, p)` with a key in `data` got its update. */
  ghost predicate UpdatedBetween(slots: seq<Slot>, data: Value, i: nat, p: nat, after: seq<Slot>)
    requires data.Dict? && i <= p <= |slots| == |after|
  {
    forall k :: i <= k < p && slots[k].name in data.m ==>
      InflateField(slots[k].val, data.m[slots[k].name]) == Partial(after[k].val, Ok)
  }

  /** The update of attribute `p` raised: it holds what that update left and
      the call fails with its error. */
  ghost predicate StoppedAt(slots: seq<Slot>, data: Value, p: nat, r: Partial<seq<Slot>>)
    requires data.Dict? && p < |slots| == |r.state| && slots[p].name in data.m
  {
    InflateField(slots[p].val, data.m[slots[p].name]) == Partial(r.state[p].val, r.outcome)
  }

  /** The attributes after `p` are as they were. */
  ghost predicate UntouchedAfter(slots: seq<Slot>, p: nat, after: seq<Slot>)
    requires p <= |slots| == |after|
  {
    forall k :: p < k < |slots| ==> after[k] == slots[k]
  }

  /** The loop over the attributes, from index `i` on. */
  function InflateSlots(slots: seq<Slot>, data: Value, i: nat): (r: Partial<seq<Slot>>)
    requires data.Dict? && i <= |slots|
    decreases data, 1, |slots| - i, 2
    ensures Names(r.state) == Names(slots)
    ensures forall k :: 0 <= k < i ==> r.state[k] == slots[k]
    ensures forall k :: i <= k < |slots| && slots[k].name !in data.m ==> r.state[k] == slots[k]
  {
    if i == |slots| then Partial(slots, Ok)
    else
      var name := slots[i].name;
      if name !in data.m then InflateSlots(slots, data, i + 1)
      else
        var f := InflateField(slots[i].val, data.m[name]);
        var slots' := slots[i := Slot(name, f.state)];
        if f.outcome.Raised? then Partial(slots', f.outcome)
        else InflateSlots(slots', data, i + 1)
  }

  /** The update of one attribute holding `val` from the new value `newVal`:
      a mapping recurses into a nested entity, a list appends new items to a
      typed list, anything else replaces the attribute verbatim. */
  function InflateField(val: Obj, newVal: Value): (r: Partial<Obj>)
    decreases newVal, 4
    ensures IsScalar(newVal) ==> r == Partial(Plain(newVal), Ok)
    ensures newVal.List? && !val.ContractList? ==>
      r == Partial(val, Raised(Rejection("list", val, DataContractListType)))
  {
    match newVal
    case Dict(_) => Inflate(val, newVal)
    case List(_) =>
      var check := ValidataParam("list", val, DataContractListType);
      if check.Raised? then Partial(val, check)
      else
        var n := InflateItems(Blank(val.itemKind), val.items, newVal, 0);
        Partial(ContractList(val.itemKind, n.state), n.outcome)
    case _ => Partial(Plain(newVal), Ok)
  }

  /** What the loop over the elements of `data` from index `j` on does to the
      typed list `items`, each new item starting out as `proto`: the old items
      stay in front, and then comes one new item per element, in element
      order, each `proto` inflated from its element, up to the first element
      whose inflation raises; that item is not appended and its error is the
      call's. */
  ghost predicate AppendedFrom(proto: Entity, items: seq<Entity>, data: Value, j: nat,
                               r: Partial<seq<Entity>>)
    requires data.List? && j <= |data.elems|
  {
    && |items| <= |r.state| <= |items| + |data.elems| - j
    && r.state[..|items|] == items
    && (forall t :: |items| <= t < |r.state| ==>
          InflateEntity(proto, data.elems[j + t - |items|]) == Partial(r.state[t], Ok))
    && (r.outcome.Ok? <==> |r.state| == |items| + |data.elems| - j)
    && (r.outcome.Raised? ==>
          InflateEntity(proto, data.elems[j + |r.state| - |items|]).outcome == r.outcome)
  }

  /** The loop over the elements of a list value, from index `j` on; `proto`
      is what the list's item factory builds. */
  function InflateItems(proto: Entity, items: seq<Entity>, data: Value, j: nat): (r: Partial<seq<Entity>>)
    requires data.List? && j <= |data.elems|
    decreases data, 0, |data.elems| - j, 1
    ensures |items| <= |r.state| && r.state[..|items|] == items
    ensures forall t :: |items| <= t < |r.state| ==> r.state[t].kind == proto.kind
  {
    if j == |data.elems| then Partial(items, Ok)
    else
      var n := InflateEntity(proto, data.elems[j]);
      if n.outcome.Raised? then Partial(items, n.outcome)
      else InflateItems(proto, items + [n.state], data, j + 1)
  }

  // ---------------------------------------------------------------- deflate

  /** `get_properties(obj)`. */
  function Deflate(obj: Obj): (r: Result<Value>)
    ensures !obj.Contract? ==> r == Failure(Rejection("obj", obj, DataContractType))
    ensures obj.Contract? ==> r == Success(Dict(DeflateEntity(obj.e)))
  {
    var check := ValidataParam("obj", obj, DataContractType);
    if check.Raised? then Failure(check.error)
    else Success(Dict(DeflateEntity(obj.e)))
  }

  /** The fresh mapping built from a data-contract instance: one key per
      attribute name. */
  function DeflateEntity(e: Entity): (r: map<string, Value>)
    decreases e, 1
    ensures r.Keys == set k | 0 <= k < |e.slots| :: e.slots[k].name
  {
    DeflateSlotsKeys(e, |e.slots|);
    DeflateSlots(e, |e.slots|)
  }

  /** The mapping after the loop has visited the first `n` attributes; a
      later attribute of the same name overwrites an earlier one. */
  function DeflateSlots(e: Entity, n: nat): map<string, Value>
    requires n <= |e.slots|
    decreases e, 0, n, 0
  {
    if n == 0 then map[]
    else DeflateSlots(e, n - 1)[e.slots[n - 1].name := DeflateField(e.slots[n - 1].val)]
  }

  /** The loop of `get_properties` over the attributes: one key per visited
      attribute. */
  lemma {:induction false} DeflateSlotsKeys(e: Entity, n: nat)
    requires n <= |e.slots|
    decreases e, 0, n, 1
    ensures DeflateSlots(e, n).Keys == set k | 0 <= k < n :: e.slots[k].name
  {
    if n > 0 {
      DeflateSlotsKeys(e, n - 1);
      assert (set k | 0 <= k < n :: e.slots[k].name) ==
             (set k | 0 <= k < n - 1 :: e.slots[k].name) + {e.slots[n - 1].name};
    }
  }

  /** One attribute's deflated value: a nested entity becomes a nested
      mapping with one key per attribute, a typed list a list of one mapping
      per item in item order, anything else is copied. */
  function DeflateField(o: Obj): (r: Value)
    decreases o, 2
    ensures o.Contract? ==> r.Dict? && r.m.Keys == set k | 0 <= k < |o.e.slots| :: o.e.slots[k].name
    ensures o.ContractList? ==>
      && r.List? && |r.elems| == |o.items|
      && forall t :: 0 <= t < |o.items| ==> r.elems[t] == Dict(DeflateEntity(o.items[t]))
    ensures o.Plain? ==> r == o.v
  {
    match o
    case Contract(n) => Dict(DeflateEntity(n))
    case ContractList(_, items) => List(DeflateItems(o, |items|))
    case Plain(v) => v
  }

  /** The list after the loop has visited the first `j` items: one mapping
      per item, in item order. */
  function DeflateItems(o: Obj, j: nat): (r: seq<Value>)
    requires o.ContractList? && j <= |o.items|
    decreases o, 0, j
    ensures |r| == j
    ensures forall t :: 0 <= t < j ==> r[t] == Dict(DeflateEntity(o.items[t]))
  {
    if j == 0 then [] else DeflateItems(o, j - 1) + [Dict(DeflateEntity(o.items[j - 1]))]
  }
}
