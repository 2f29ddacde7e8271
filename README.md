# Data-contract marshaller of the Azure Linux guest agent

The agent talks to its host fabric in nested mappings and lists parsed from
the wire, and keeps what it learns in small "data contract" objects
(`VmInfo`, `CertList`, `ExtensionHandlerStatus`, ...). One generic
marshaller moves data between the two forms.

- `set_properties(obj, data)` ("inflate") walks the attributes a contract
  instance already has. For each attribute whose name is a key of `data`, it:
  - recurses into the nested instance when the value is a mapping;
  - appends one freshly built and inflated item per element to a typed list
    (`DataContractList`) when the value is a list;
  - stores any other value verbatim.
- `get_properties(obj)` ("deflate") builds a fresh nested mapping back from
  an instance.
- `validata_param` is the shape check both use. It raises `ProtocolError`.

The project models this marshaller on values:

- `Values.Value` is the untyped wire data.
- `Contracts.Obj` is whatever an attribute holds: a plain value, a nested
  instance, or a typed list with its item kind.
- `Contracts.Entity` is an instance.
  - Its attributes are a sequence of slots in declaration order.
  - Each class's attribute table (`Contracts.Fields`) is written out per class.
  - Each class's constructor is its own function. Its contract says the
    instance matches the table.

On the inflate side:

- `Mapper.Inflate` returns the state the object is left in, together with
  whether the call raised. A failing call leaves earlier mutations in place,
  because the source does no rollback.
- `Marshal.SetProperties` and `Marshal.GetProperties` are the source's
  loops, per attribute and per list element. They are proved to compute
  exactly `Mapper.Inflate` and `Mapper.Deflate`.
- `Mapper.InflateEntity`'s contract states that the attribute set is
  preserved and that absent keys leave attributes alone.
- `MapperLaws` proves the following about those functions:
  - scalars overwrite without checks;
  - lists only append, so re-applying a mapping duplicates list items, while
    list-free mappings are idempotent;
  - exactly which inputs are accepted, and with which error a call fails;
  - the shape of the deflated mapping;
  - the round trip from deflate into a fresh instance.
- `Scenarios` proves what the model yields on concrete documents.

A scalar given for an attribute holding a nested entity is not rejected:
`azurelinuxagent/protocol/common.py:60-61` overwrites the nested entity with
the scalar, without raising. `Scenarios.ScalarReplacesNestedEntity` states
this for `{"properties": "x"}`.

## Model

| member | source | states |
|---|---|---|
| Mapper.ValidataParam | azurelinuxagent/protocol/common.py:34-39 | returns normally exactly when the value is an instance of the expected type; otherwise the error names the parameter, it is the "is None" error exactly when the value is `None`, and a wrong-type error carries the expected type |
| Mapper.Inflate | azurelinuxagent/protocol/common.py:41-43 | an `obj` that is not a data contract is rejected with the `obj` parameter's error and left unchanged; a data contract is updated as its entity is |
| Mapper.InflateEntity | azurelinuxagent/protocol/common.py:41-61 | the class and the attribute names, in order, are preserved (no attribute is added or removed); a `data` that is not a mapping is rejected with the `data` parameter's error and nothing changes; every attribute whose name is not a key of `data` keeps its value |
| Mapper.FirstFailure | azurelinuxagent/protocol/common.py:46-61 | the index where the attribute loop stops: there the attribute's key is present and its update raises, and every keyed attribute before it updates without raising |
| Mapper.InflateSlots | azurelinuxagent/protocol/common.py:46-61 | the attribute loop from index `i` keeps the attribute names, leaves the attributes before `i` and every attribute without a key untouched |
| Mapper.InflateField | azurelinuxagent/protocol/common.py:51-61 | a value that is neither mapping nor list replaces the attribute verbatim, whatever it held, and returns normally; a list for an attribute not holding a typed list is rejected with the `list` parameter's error and the attribute is left as it was |
| Mapper.InflateItems | azurelinuxagent/protocol/common.py:56-59 | the element loop keeps the existing items in front and appends only items of the factory's class |
| Mapper.Deflate | azurelinuxagent/protocol/common.py:63-64 | an argument that is not a data contract is rejected with the `obj` parameter's error; a data contract always yields a mapping |
| Mapper.DeflateEntity | azurelinuxagent/protocol/common.py:66-78 | the mapping built from an instance has exactly one key per attribute name and no other |
| Mapper.DeflateSlotsKeys | azurelinuxagent/protocol/common.py:66-78 | the attribute loop (`Mapper.DeflateSlots`): after visiting the first `n` attributes, the keys built are exactly those attributes' names |
| Mapper.DeflateField | azurelinuxagent/protocol/common.py:69-77 | a nested entity becomes a mapping keyed by its attribute names; a typed list becomes a list with one mapping per item, each the deflation of that item, in item order; any other value is copied as it is |
| Mapper.DeflateItems | azurelinuxagent/protocol/common.py:72-75 | the loop over a typed list's items: after `j` items, the list holds exactly `j` elements, the `t`-th the mapping of the `t`-th item |
| Mapper.IsInstance | azurelinuxagent/protocol/common.py:34-39 | `isinstance` against the three checked types: `None` is an instance of none of them, so the `None` check in front of it never changes whether a value is accepted |
| Contracts.Fields | azurelinuxagent/protocol/common.py:87-216 | the attribute table of each class, read off its `__init__` in declaration order; no class declares an attribute name twice |
| Marshal.SetProperties | azurelinuxagent/protocol/common.py:41-61 | the loops of `set_properties` leave the object in exactly the state, and end with exactly the outcome, that `Mapper.Inflate` gives |
| Marshal.SetField | azurelinuxagent/protocol/common.py:51-61 | the body of the attribute loop, including the loop over list elements that builds, inflates and appends one item per element, computes exactly `Mapper.InflateField` |
| Marshal.GetProperties | azurelinuxagent/protocol/common.py:63-78 | `get_properties` returns exactly `Mapper.Deflate` of its argument |
| Marshal.GetEntityProperties | azurelinuxagent/protocol/common.py:66-78 | the loop over the attributes, with the inner loop over a typed list's items, builds exactly the deflated mapping of the instance |
| MapperLaws.InflateProcessesInOrder | azurelinuxagent/protocol/common.py:41-61 | attributes are visited in order, and each keyed attribute gets the update its value calls for until one update raises. That update's partial effect stays, later attributes are untouched, and its error is the call's: the failure is not atomic |
| MapperLaws.InflateSlotsProcessed | azurelinuxagent/protocol/common.py:46-61 | the same characterisation for the attribute loop started at any index |
| MapperLaws.InflateItemsAppended | azurelinuxagent/protocol/common.py:56-59 | the element loop keeps the old items, then appends one inflated fresh item per element in element order, up to the first element whose inflation raises; that item is not appended and its error is the call's |
| MapperLaws.ListFieldAppends | azurelinuxagent/protocol/common.py:54-59 | a list value never replaces a typed list: the item kind stays, the old items stay in front, new items follow in element order |
| MapperLaws.ScalarOverwrites | azurelinuxagent/protocol/common.py:60-61 | after a call that returns normally, an attribute whose key maps to a scalar holds exactly that scalar, even if it held a nested entity or a typed list |
| MapperLaws.MappingIntoNonContractRejected | azurelinuxagent/protocol/common.py:52-53 | a mapping for an attribute not holding a data contract (a `None`, another plain value, a typed list) is rejected with the `obj` parameter's error and the attribute is left as it was |
| MapperLaws.ListElementRejected | azurelinuxagent/protocol/common.py:56-58 | a list element that is not a mapping is rejected with the `data` parameter's error, after the items from the elements before it were appended |
| MapperLaws.ItemsRejectedAt | azurelinuxagent/protocol/common.py:56-59 | the element loop from index `i` meeting a non-mapping element at `j` raises the `data` error with exactly `j - i` new items appended |
| MapperLaws.AllUpdatesSucceed | azurelinuxagent/protocol/common.py:46-61 | the attribute loop runs to the end exactly when no keyed attribute's update raises |
| MapperLaws.InflateSucceedsIff | azurelinuxagent/protocol/common.py:41-61 | `set_properties` returns normally if and only if the data fits the instance (`MapperLaws.Fits`): a mapping whose keyed values are scalars, mappings for nested data contracts that fit, or lists for typed lists whose elements all fit a fresh item |
| MapperLaws.FieldSucceedsIff | azurelinuxagent/protocol/common.py:51-61 | one attribute's update returns normally if and only if its value fits the attribute |
| MapperLaws.ListOutcome | azurelinuxagent/protocol/common.py:54-59 | a list value fed to a typed list is accepted if and only if every element inflates a fresh item without raising |
| MapperLaws.ItemsOutcome | azurelinuxagent/protocol/common.py:56-59 | the element loop from index `j` returns normally if and only if every element from `j` on inflates without raising |
| MapperLaws.ItemsReproduced | azurelinuxagent/protocol/common.py:56-59 | when each element inflates the fresh item to a known item, the element loop appends exactly those items, in order |
| MapperLaws.FitsPreserved | azurelinuxagent/protocol/common.py:41-61 | data accepted once is accepted again by the updated instance |
| MapperLaws.ReapplyDuplicatesListItems | azurelinuxagent/protocol/common.py:54-59 | applying an accepted mapping twice succeeds, and each typed list fed by a list value ends with its new items appended a second time: its length grows by the list's length and the second batch repeats the first |
| MapperLaws.ScalarOnlyIdempotent | azurelinuxagent/protocol/common.py:41-61 | re-applying an accepted mapping that has no list anywhere leaves the instance unchanged and returns normally |
| MapperLaws.InflateSlotsLooksUpNamesOnly | azurelinuxagent/protocol/common.py:46-50 | the attribute loop depends on `data` only through the keys that name attributes |
| MapperLaws.InflateIgnoresUnknownKeys | azurelinuxagent/protocol/common.py:45-50 | extra keys that name no attribute change nothing: the result equals that of the mapping without them |
| MapperLaws.DeflateSlotsValues | azurelinuxagent/protocol/common.py:66-78 | with distinct names, each visited attribute's key holds that attribute's deflated value |
| MapperLaws.DeflateKeysAndValues | azurelinuxagent/protocol/common.py:63-78 | when the attribute names are distinct, each key of `get_properties`'s mapping holds its attribute's deflated value |
| MapperLaws.InitialIsTarget | azurelinuxagent/protocol/common.py:87-216 | a freshly constructed instance is ready to be inflated: nested instances present, typed lists empty |
| MapperLaws.RoundTripEntity | azurelinuxagent/protocol/common.py:41-78 | inflating a ready instance of the same class from the deflated form of a conforming instance gives back that instance, without error |
| MapperLaws.RoundTripField | azurelinuxagent/protocol/common.py:51-61 | the same for one attribute: a scalar, a nested instance, or a typed list |
| MapperLaws.RoundTripList | azurelinuxagent/protocol/common.py:54-59 | inflating an empty typed list from a typed list's deflated items rebuilds those items in order |
| MapperLaws.ListRebuilt | azurelinuxagent/protocol/common.py:54-59 | a list whose elements inflate fresh items to given items rebuilds exactly those items in an empty typed list |
| MapperLaws.EveryFieldReproduced | azurelinuxagent/protocol/common.py:46-61 | when every attribute has a key and each update returns normally with a given value, the call yields the instance holding those values |
| MapperLaws.RoundTrip | azurelinuxagent/protocol/common.py:41-78 | `get_properties` of a conforming instance, inflated into a freshly constructed instance of its class, yields an equal instance and raises nothing |
| Contracts.Blank | azurelinuxagent/protocol/common.py:83-85 | a typed list's item factory builds an instance of the item class, as that class's constructor builds it with no arguments |
| Contracts.NewVmInfo | azurelinuxagent/protocol/common.py:87-90 | the instance has the class's attributes in declaration order, each parameter set to its keyword argument or `None` |
| Contracts.NewCert | azurelinuxagent/protocol/common.py:92-96 | the attributes in declaration order, each parameter set to its argument or `None` |
| Contracts.NewCertList | azurelinuxagent/protocol/common.py:98-100 | `certificates` is an empty typed list of `Cert` |
| Contracts.NewExtensionSettings | azurelinuxagent/protocol/common.py:102-109 | the five parameters set to their arguments or `None` |
| Contracts.NewExtensionProperties | azurelinuxagent/protocol/common.py:111-116 | three attributes `None` and `extensions` an empty typed list of `ExtensionSettings` |
| Contracts.NewExtensionVersionUri | azurelinuxagent/protocol/common.py:118-120 | `uri` is `None` |
| Contracts.NewExtension | azurelinuxagent/protocol/common.py:122-126 | `name` from its argument, `properties` a fresh `ExtensionProperties`, `versionUris` an empty typed list of `ExtensionVersionUri` |
| Contracts.NewExtensionList | azurelinuxagent/protocol/common.py:128-130 | `extensions` an empty typed list of `Extension` |
| Contracts.NewExtensionPackageUri | azurelinuxagent/protocol/common.py:132-134 | `uri` set to its argument or `None` |
| Contracts.NewExtensionPackage | azurelinuxagent/protocol/common.py:136-139 | `version` set to its argument or `None`, `uris` an empty typed list of `ExtensionPackageUri` |
| Contracts.NewExtensionPackageList | azurelinuxagent/protocol/common.py:141-143 | `versions` an empty typed list of `ExtensionPackage` |
| Contracts.NewInstanceMetadata | azurelinuxagent/protocol/common.py:145-151 | the four parameters set to their arguments or `None` |
| Contracts.NewVMProperties | azurelinuxagent/protocol/common.py:153-156 | `certificateThumbprint` set to its argument or `None` |
| Contracts.NewProvisionStatus | azurelinuxagent/protocol/common.py:158-163 | three parameters from their arguments, `properties` a fresh `VMProperties` |
| Contracts.NewVMAgentStatus | azurelinuxagent/protocol/common.py:165-169 | the three parameters set to their arguments or `None` |
| Contracts.NewExtensionSubStatus | azurelinuxagent/protocol/common.py:171-176 | the four parameters set to their arguments or `None` |
| Contracts.NewExtensionStatus | azurelinuxagent/protocol/common.py:178-187 | six parameters from their arguments, `substatusList` an empty typed list of `ExtensionSubStatus` |
| Contracts.NewExtensionHandlerStatus | azurelinuxagent/protocol/common.py:189-196 | four parameters from their arguments, `extensionStatusList` an empty typed list of `ExtensionStatus` |
| Contracts.NewVMStatus | azurelinuxagent/protocol/common.py:198-201 | `vmAgent` a fresh `VMAgentStatus`, `extensionHandlers` an empty typed list of `ExtensionHandlerStatus` |
| Contracts.NewTelemetryEventParam | azurelinuxagent/protocol/common.py:203-206 | the two parameters set to their arguments or `None` |
| Contracts.NewTelemetryEvent | azurelinuxagent/protocol/common.py:208-212 | two parameters from their arguments, `parameters` an empty typed list of `TelemetryEventParam` |
| Contracts.NewTelemetryEventList | azurelinuxagent/protocol/common.py:214-216 | `events` an empty typed list of `TelemetryEvent` |
| Scenarios.ProvisionStatusPartialUpdate | azurelinuxagent/protocol/common.py:46-61 | `{"status": "Ready", "properties": []}` into a fresh `ProvisionStatus` raises the `list` error after `status` was already set to "Ready"; `properties` is untouched |
| Scenarios.NestedMappingIntoScalarRejected | azurelinuxagent/protocol/common.py:34-42 | a mapping for an attribute holding "x" is rejected as a wrong-type `obj`, and for one holding `None` as `obj` being `None` |
| Scenarios.CertFirstFailureDecidesError | azurelinuxagent/protocol/common.py:46-55 | `{"name": {}, "certificateDataUri": []}` into a fresh `Cert` raises the `obj`-is-`None` error of the first failing attribute in declaration order, `name`, not the `list` error of `certificateDataUri` |
| Scenarios.CertFromDocument | azurelinuxagent/protocol/common.py:41-61 | a certificate document with only `name` sets the name and leaves the other attributes `None` |
| Scenarios.CertItemsFromDocument | azurelinuxagent/protocol/common.py:56-59 | the element loop over two certificate documents builds the two certificates in order |
| Scenarios.CertListFieldFromDocument | azurelinuxagent/protocol/common.py:54-59 | those two documents fed to an empty certificate list append the two certificates in order |
| Scenarios.CertListFromDocument | azurelinuxagent/protocol/common.py:41-61 | `{"certificates": [{"name": "c1"}, {"name": "c2"}]}` into a fresh `CertList` gives two certificates named "c1" and "c2", in that order |
| Scenarios.ScalarReplacesNestedEntity | azurelinuxagent/protocol/common.py:60-61 | `{"properties": "x"}` into a fresh `ProvisionStatus` returns normally and replaces the nested `VMProperties` by "x" |
| Scenarios.FreshVmInfoDeflates | azurelinuxagent/protocol/common.py:63-78 | a fresh `VmInfo` deflates to a mapping of both attributes to `None` |

## Left out

- The `Protocol` class (`azurelinuxagent/protocol/common.py:218-245`) is not modelled. Every one of its methods only raises `NotImplementedError`; the concrete protocols that override them are not part of this model. `ProtocolNotFound` is never raised in this file, and the imported modules play no part in the marshaller.
- Python reflection (`vars`, `setattr`, `isinstance`) is replaced by the explicit per-class attribute table `Contracts.Fields` and by pattern matching on the value's case.
- Attribute iteration order: `props.items()` is unordered in Python 2, but the model visits attributes in declaration order. The order decides which attributes are already changed when a call raises. When several keyed attributes would fail, it also decides which error the call raises. For example, a fresh `Cert` given `{"name": {}, "certificateDataUri": []}` raises `ParamIsNone("obj")` in declaration order but `ParamIsNone("list")` if `certificateDataUri` is visited first. `Mapper.FirstFailure`, `MapperLaws.InflateProcessesInOrder`, `MapperLaws.InflateSlotsProcessed` and `Scenarios.ProvisionStatusPartialUpdate` state the partial state and the error for declaration order only. `MapperLaws.InflateSucceedsIff` and `MapperLaws.FieldSucceedsIff` do not depend on the order. Deflated mappings are maps, so key order is not modelled either.
- Object identity and aliasing: the source mutates the nested instance and the typed list in place, visible through every reference to them. The model returns the new state as a value instead. Scalars stored verbatim are values, so a stored mapping is not shared with the caller.
- Error messages: the model keeps which parameter failed and the expected type, not the formatted text.
- Floats are wire scalars (a parsed JSON number can be one) that `Values.Value` leaves out; the marshaller would store and copy them verbatim, as it does `Int`. Python values that are not wire data (tuples, arbitrary objects) are not modelled either. A `data` argument or list element is always a wire value, so passing a data-contract object as `data` cannot be expressed. A typed list holds only data-contract items, so `get_properties` meeting a non-contract item in a typed list is not modelled.
- Contracts.NewVmInfo and the other constructors with parameters take their keyword arguments as a map and ignore keys that are not parameters, where Python raises `TypeError`. Positional arguments are not modelled.
