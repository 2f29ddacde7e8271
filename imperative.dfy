/** The marshaller as the source writes it: loops over the attributes of an
    instance and over the elements of a list value, updating as they go.
    Each method is proved to compute exactly what the corresponding function
    of `Mapper` describes, so every law proved about those functions holds
    of the methods too. */
module Marshal {
  import opened Values
  import opened Contracts
  import opened Mapper

  /** `set_properties(obj, data)`: returns the state `obj` is left in and
      whether the call raised. */
  method SetProperties(obj: Obj, data: Value) returns (obj': Obj, outcome: Outcome)
    decreases data, 1
    ensures Partial(obj', outcome) == Inflate(obj, data)
  {
    outcome := ValidataParam("obj", obj, DataContractType);
    if outcome.Raised? {
      return obj, outcome;
    }
    outcome := ValidataParam("data", Plain(data), DictType);
    if outcome.Raised? {
      return obj, outcome;
    }
    var e := obj.e;
    var slots := e.slots;
    var i := 0;
    while i < |slots|
      invariant i <= |slots|
      invariant InflateSlots(slots, data, i) == InflateSlots(e.slots, data, 0)
    {
      var name := slots[i].name;
      if name in data.m {
        var val, res := SetField(slots[i].val, data.m[name]);
        slots := slots[i := Slot(name, val)];
        if res.Raised? {
          return Contract(Entity(e.kind, slots)), res;
        }
      }
      i := i + 1;
    }
    return Contract(Entity(e.kind, slots)), Ok;
  }

  /** The body of the loop of `set_properties` for one attribute holding
      `val` whose key maps to `newVal`: recurse into a mapping, append to a
      typed list item by item, or replace the attribute. */
  method SetField(val: Obj, newVal: Value) returns (val': Obj, outcome: Outcome)
    decreases newVal, 2
    ensures Partial(val', outcome) == InflateField(val, newVal)
  {
    if newVal.Dict? {
      val', outcome := SetProperties(val, newVal);
    } else if newVal.List? {
      outcome := ValidataParam("list", val, DataContractListType);
      if outcome.Raised? {
        return val, outcome;
      }
      var items := val.items;
      var j := 0;
      while j < |newVal.elems|
        invariant j <= |newVal.elems|
        invariant InflateItems(Blank(val.itemKind), items, newVal, j) ==
                  InflateItems(Blank(val.itemKind), val.items, newVal, 0)
      {
        var item, res := SetProperties(Contract(Blank(val.itemKind)), newVal.elems[j]);
        if res.Raised? {
          return ContractList(val.itemKind, items), res;
        }
        items := items + [item.e];
        j := j + 1;
      }
      return ContractList(val.itemKind, items), Ok;
    } else {
      return Plain(newVal), Ok;
    }
  }

  /** `get_properties(obj)`. */
  method GetProperties(obj: Obj) returns (r: Result<Value>)
    ensures r == Deflate(obj)
  {
    var check := ValidataParam("obj", obj, DataContractType);
    if check.Raised? {
      return Failure(check.error);
    }
    var m := GetEntityProperties(obj.e);
    return Success(Dict(m));
  }

  /** The loop of `get_properties` over the attributes of a data contract. */
  method GetEntityProperties(e: Entity) returns (data: map<string, Value>)
    decreases e
    ensures data == DeflateEntity(e)
  {
    data := map[];
    var i := 0;
    while i < |e.slots|
      invariant i <= |e.slots|
      invariant data == DeflateSlots(e, i)
    {
      var val := e.slots[i].val;
      var out: Value;
      match val {
        case Contract(n) =>
          var m := GetEntityProperties(n);
          out := Dict(m);
        case ContractList(_, items) =>
          var elems := [];
          var j := 0;
          while j < |items|
            invariant j <= |items|
            invariant elems == DeflateItems(val, j)
          {
            var m := GetEntityProperties(items[j]);
            elems := elems + [Dict(m)];
            j := j + 1;
          }
          out := List(elems);
        case Plain(v) =>
          out := v;
      }
      data := data[e.slots[i].name := out];
      i := i + 1;
    }
  }
}
