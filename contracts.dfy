/** The schema model: the data-contract entity classes of the protocol layer,
    the values their attributes can hold, and their constructors. */
module Contracts {
  import opened Values

  /** One case per `DataContract` subclass. */
  datatype Kind =
    | VmInfo
    | Cert
    | CertList
    | ExtensionSettings
    | ExtensionProperties
    | ExtensionVersionUri
    | Extension
    | ExtensionList
    | ExtensionPackageUri
    | ExtensionPackage
    | ExtensionPackageList
    | InstanceMetadata
    | VMProperties
    | ProvisionStatus
    | VMAgentStatus
    | ExtensionSubStatus
    | ExtensionStatus
    | ExtensionHandlerStatus
    | VMStatus
    | TelemetryEventParam
    | TelemetryEvent
    | TelemetryEventList

  /** Anything an attribute (or an argument of the mapper) can hold: plain
      data, a data-contract instance, or a typed list (`DataContractList`)
      that remembers the kind of item its factory builds. */
  datatype Obj =
    | Plain(v: Value)
    | Contract(e: Entity)
    | ContractList(itemKind: Kind, items: seq<Entity>)

  /** One instance attribute. */
  datatype Slot = Slot(name: string, val: Obj)

  /** A data-contract instance: its class and its attributes, in the order
      the constructor creates them. */
  datatype Entity = Entity(kind: Kind, slots: seq<Slot>)

  /** The declared shape of an attribute, as the constructor sets it up:
      a scalar taken from a constructor parameter, a scalar always set to
      `None`, a pre-built nested entity, or an empty typed list. */
  datatype FieldDecl =
    | Param(name: string)
    | Unset(name: string)
    | NestedField(name: string, nestedKind: Kind)
    | ListField(name: string, itemKind: Kind)

  /** The field table of every entity class, in declaration order; no class
      declares an attribute name twice. */
  function Fields(k: Kind): (r: seq<FieldDecl>)
    ensures forall i, j :: 0 <= i < j < |r| ==> r[i].name != r[j].name
  {
    match k
    case VmInfo => [Param("subscriptionId"), Param("vmName")]
    case Cert => [Param("name"), Param("thumbprint"), Param("certificateDataUri")]
    case CertList => [ListField("certificates", Cert)]
    case ExtensionSettings =>
      [Param("name"), Param("sequenceNumber"), Param("publicSettings"),
       Param("privateSettings"), Param("certificateThumbprint")]
    case ExtensionProperties =>
      [Unset("version"), Unset("upgradePolicy"), Unset("state"),
       ListField("extensions", ExtensionSettings)]
    case ExtensionVersionUri => [Unset("uri")]
    case Extension =>
      [Param("name"), NestedField("properties", ExtensionProperties),
       ListField("versionUris", ExtensionVersionUri)]
    case ExtensionList => [ListField("extensions", Extension)]
    case ExtensionPackageUri => [Param("uri")]
    case ExtensionPackage => [Param("version"), ListField("uris", ExtensionPackageUri)]
    case ExtensionPackageList => [ListField("versions", ExtensionPackage)]
    case InstanceMetadata =>
      [Param("deploymentName"), Param("roleName"), Param("roleInstanceId"),
       Param("containerId")]
    case VMProperties => [Param("certificateThumbprint")]
    case ProvisionStatus =>
      [Param("status"), Param("subStatus"), Param("description"),
       NestedField("properties", VMProperties)]
    case VMAgentStatus => [Param("agentVersion"), Param("status"), Param("message")]
    case ExtensionSubStatus =>
      [Param("name"), Param("status"), Param("code"), Param("message")]
    case ExtensionStatus =>
      [Param("name"), Param("configurationAppliedTime"), Param("operation"),
       Param("status"), Param("code"), Param("sequenceNumber"),
       ListField("substatusList", ExtensionSubStatus)]
    case ExtensionHandlerStatus =>
      [Param("handlerName"), Param("handlerVersion"), Param("status"),
       Param("message"), ListField("extensionStatusList", ExtensionStatus)]
    case VMStatus =>
      [NestedField("vmAgent", VMAgentStatus),
       ListField("extensionHandlers", ExtensionHandlerStatus)]
    case TelemetryEventParam => [Param("name"), Param("value")]
    case TelemetryEvent =>
      [Param("eventId"), Param("providerId"), ListField("parameters", TelemetryEventParam)]
    case TelemetryEventList => [ListField("events", TelemetryEvent)]
  }

  /** The attribute names of a list of slots, in order. */
  function Names(slots: seq<Slot>): (r: seq<string>)
    ensures |r| == |slots|
    ensures forall i :: 0 <= i < |slots| ==> r[i] == slots[i].name
  {
    if slots == [] then [] else [slots[0].name] + Names(slots[1..])
  }

  predicate Distinct(names: seq<string>) {
    forall i, j :: 0 <= i < j < |names| ==> names[i] != names[j]
  }

  /** The value a keyword parameter takes: the argument, or `None`. */
  function Arg(args: map<string, Value>, name: string): Obj {
    Plain(if name in args then args[name] else Null)
  }

  /** `e` is what the constructor of its class builds from `args`: every
      attribute of the field table, in order, parameters set to their
      argument or `None`, the other scalars `None`, nested entities freshly
      built with default arguments, typed lists empty with their item kind. */
  predicate IsInitial(e: Entity, args: map<string, Value>)
    decreases e
  {
    var fs := Fields(e.kind);
    && |e.slots| == |fs|
    && forall i :: 0 <= i < |e.slots| ==>
         e.slots[i].name == fs[i].name && IsInitialValue(e.slots[i].val, fs[i], args)
  }

  predicate IsInitialValue(o: Obj, d: FieldDecl, args: map<string, Value>)
    decreases o
  {
    match d
    case Param(n) => o == Arg(args, n)
    case Unset(_) => o == Plain(Null)
    case NestedField(_, nk) => o.Contract? && o.e.kind == nk && IsInitial(o.e, map[])
    case ListField(_, ik) => o == ContractList(ik, [])
  }

  // The constructors (`__init__` bodies) of the entity classes. Each takes
  // its keyword arguments as a map; an omitted argument defaults to `None`.

  function NewVmInfo(args: map<string, Value>): (r: Entity)
    ensures r.kind == VmInfo && IsInitial(r, args)
  {
    Entity(VmInfo, [Slot("subscriptionId", Arg(args, "subscriptionId")),
                    Slot("vmName", Arg(args, "vmName"))])
  }

  function NewCert(args: map<string, Value>): (r: Entity)
    ensures r.kind == Cert && IsInitial(r, args)
  {
    Entity(Cert, [Slot("name", Arg(args, "name")),
                  Slot("thumbprint", Arg(args, "thumbprint")),
                  Slot("certificateDataUri", Arg(args, "certificateDataUri"))])
  }

  function NewCertList(): (r: Entity)
    ensures r.kind == CertList && IsInitial(r, map[])
  {
    Entity(CertList, [Slot("certificates", ContractList(Cert, []))])
  }

  function NewExtensionSettings(args: map<string, Value>): (r: Entity)
    ensures r.kind == ExtensionSettings && IsInitial(r, args)
  {
    Entity(ExtensionSettings, [Slot("name", Arg(args, "name")),
                               Slot("sequenceNumber", Arg(args, "sequenceNumber")),
                               Slot("publicSettings", Arg(args, "publicSettings")),
                               Slot("privateSettings", Arg(args, "privateSettings")),
                               Slot("certificateThumbprint", Arg(args, "certificateThumbprint"))])
  }

  function NewExtensionProperties(): (r: Entity)
    ensures r.kind == ExtensionProperties && IsInitial(r, map[])
  {
    Entity(ExtensionProperties, [Slot("version", Plain(Null)),
                                 Slot("upgradePolicy", Plain(Null)),
                                 Slot("state", Plain(Null)),
                                 Slot("extensions", ContractList(ExtensionSettings, []))])
  }

  function NewExtensionVersionUri(): (r: Entity)
    ensures r.kind == ExtensionVersionUri && IsInitial(r, map[])
  {
    Entity(ExtensionVersionUri, [Slot("uri", Plain(Null))])
  }

  function NewExtension(args: map<string, Value>): (r: Entity)
    ensures r.kind == Extension && IsInitial(r, args)
  {
    Entity(Extension, [Slot("name", Arg(args, "name")),
                       Slot("properties", Contract(NewExtensionProperties())),
                       Slot("versionUris", ContractList(ExtensionVersionUri, []))])
  }

  function NewExtensionList(): (r: Entity)
    ensures r.kind == ExtensionList && IsInitial(r, map[])
  {
    Entity(ExtensionList, [Slot("extensions", ContractList(Extension, []))])
  }

  function NewExtensionPackageUri(args: map<string, Value>): (r: Entity)
    ensures r.kind == ExtensionPackageUri && IsInitial(r, args)
  {
    Entity(ExtensionPackageUri, [Slot("uri", Arg(args, "uri"))])
  }

  function NewExtensionPackage(args: map<string, Value>): (r: Entity)
    ensures r.kind == ExtensionPackage && IsInitial(r, args)
  {
    Entity(ExtensionPackage, [Slot("version", Arg(args, "version")),
                              Slot("uris", ContractList(ExtensionPackageUri, []))])
  }

  function NewExtensionPackageList(): (r: Entity)
    ensures r.kind == ExtensionPackageList && IsInitial(r, map[])
  {
    Entity(ExtensionPackageList, [Slot("versions", ContractList(ExtensionPackage, []))])
  }

  function NewInstanceMetadata(args: map<string, Value>): (r: Entity)
    ensures r.kind == InstanceMetadata && IsInitial(r, args)
  {
    Entity(InstanceMetadata, [Slot("deploymentName", Arg(args, "deploymentName")),
                              Slot("roleName", Arg(args, "roleName")),
                              Slot("roleInstanceId", Arg(args, "roleInstanceId")),
                              Slot("containerId", Arg(args, "containerId"))])
  }

  function NewVMProperties(args: map<string, Value>): (r: Entity)
    ensures r.kind == VMProperties && IsInitial(r, args)
  {
    Entity(VMProperties, [Slot("certificateThumbprint", Arg(args, "certificateThumbprint"))])
  }

  function NewProvisionStatus(args: map<string, Value>): (r: Entity)
    ensures r.kind == ProvisionStatus && IsInitial(r, args)
  {
    Entity(ProvisionStatus, [Slot("status", Arg(args, "status")),
                             Slot("subStatus", Arg(args, "subStatus")),
                             Slot("description", Arg(args, "description")),
                             Slot("properties", Contract(NewVMProperties(map[])))])
  }

  function NewVMAgentStatus(args: map<string, Value>): (r: Entity)
    ensures r.kind == VMAgentStatus && IsInitial(r, args)
  {
    Entity(VMAgentStatus, [Slot("agentVersion", Arg(args, "agentVersion")),
                           Slot("status", Arg(args, "status")),
                           Slot("message", Arg(args, "message"))])
  }

  function NewExtensionSubStatus(args: map<string, Value>): (r: Entity)
    ensures r.kind == ExtensionSubStatus && IsInitial(r, args)
  {
    Entity(ExtensionSubStatus, [Slot("name", Arg(args, "name")),
                                Slot("status", Arg(args, "status")),
                                Slot("code", Arg(args, "code")),
                                Slot("message", Arg(args, "message"))])
  }

  function NewExtensionStatus(args: map<string, Value>): (r: Entity)
    ensures r.kind == ExtensionStatus && IsInitial(r, args)
  {
    Entity(ExtensionStatus, [Slot("name", Arg(args, "name")),
                             Slot("configurationAppliedTime", Arg(args, "configurationAppliedTime")),
                             Slot("operation", Arg(args, "operation")),
                             Slot("status", Arg(args, "status")),
                             Slot("code", Arg(args, "code")),
                             Slot("sequenceNumber", Arg(args, "sequenceNumber")),
                             Slot("substatusList", ContractList(ExtensionSubStatus, []))])
  }

  function NewExtensionHandlerStatus(args: map<string, Value>): (r: Entity)
    ensures r.kind == ExtensionHandlerStatus && IsInitial(r, args)
  {
    Entity(ExtensionHandlerStatus, [Slot("handlerName", Arg(args, "handlerName")),
                                    Slot("handlerVersion", Arg(args, "handlerVersion")),
                                    Slot("status", Arg(args, "status")),
                                    Slot("message", Arg(args, "message")),
                                    Slot("extensionStatusList", ContractList(ExtensionStatus, []))])
  }

  function NewVMStatus(): (r: Entity)
    ensures r.kind == VMStatus && IsInitial(r, map[])
  {
    Entity(VMStatus, [Slot("vmAgent", Contract(NewVMAgentStatus(map[]))),
                      Slot("extensionHandlers", ContractList(ExtensionHandlerStatus, []))])
  }

  function NewTelemetryEventParam(args: map<string, Value>): (r: Entity)
    ensures r.kind == TelemetryEventParam && IsInitial(r, args)
  {
    Entity(TelemetryEventParam, [Slot("name", Arg(args, "name")),
                                 Slot("value", Arg(args, "value"))])
  }

  function NewTelemetryEvent(args: map<string, Value>): (r: Entity)
    ensures r.kind == TelemetryEvent && IsInitial(r, args)
  {
    Entity(TelemetryEvent, [Slot("eventId", Arg(args, "eventId")),
                            Slot("providerId", Arg(args, "providerId")),
                            Slot("parameters", ContractList(TelemetryEventParam, []))])
  }

  function NewTelemetryEventList(): (r: Entity)
    ensures r.kind == TelemetryEventList && IsInitial(r, map[])
  {
    Entity(TelemetryEventList, [Slot("events", ContractList(TelemetryEvent, []))])
  }

  /** A fresh instance built with no arguments: what a typed list's item
      factory (`itemType()`) returns. */
  function Blank(k: Kind): (r: Entity)
    ensures r.kind == k && IsInitial(r, map[])
  {
    match k
    case VmInfo => NewVmInfo(map[])
    case Cert => NewCert(map[])
    case CertList => NewCertList()
    case ExtensionSettings => NewExtensionSettings(map[])
    case ExtensionProperties => NewExtensionProperties()
    case ExtensionVersionUri => NewExtensionVersionUri()
    case Extension => NewExtension(map[])
    case ExtensionList => NewExtensionList()
    case ExtensionPackageUri => NewExtensionPackageUri(map[])
    case ExtensionPackage => NewExtensionPackage(map[])
    case ExtensionPackageList => NewExtensionPackageList()
    case InstanceMetadata => NewInstanceMetadata(map[])
    case VMProperties => NewVMProperties(map[])
    case ProvisionStatus => NewProvisionStatus(map[])
    case VMAgentStatus => NewVMAgentStatus(map[])
    case ExtensionSubStatus => NewExtensionSubStatus(map[])
    case ExtensionStatus => NewExtensionStatus(map[])
    case ExtensionHandlerStatus => NewExtensionHandlerStatus(map[])
    case VMStatus => NewVMStatus()
    case TelemetryEventParam => NewTelemetryEventParam(map[])
    case TelemetryEvent => NewTelemetryEvent(map[])
    case TelemetryEventList => NewTelemetryEventList()
  }

  /** `e` has the attributes its field table declares and is ready to be
      filled in: nested attributes hold entities of the declared kind that
      are themselves ready, typed lists are empty; scalars may hold anything. */
  predicate IsTarget(e: Entity)
    decreases e
  {
    var fs := Fields(e.kind);
    && |e.slots| == |fs|
    && forall i :: 0 <= i < |e.slots| ==>
         e.slots[i].name == fs[i].name && IsTargetValue(e.slots[i].val, fs[i])
  }

  predicate IsTargetValue(o: Obj, d: FieldDecl)
    decreases o
  {
    match d
    case NestedField(_, nk) => o.Contract? && o.e.kind == nk && IsTarget(o.e)
    case ListField(_, ik) => o == ContractList(ik, [])
    case _ => true
  }

  /** `e` has the attributes its field table declares, in order, and every
      attribute holds a scalar, an entity of the declared nested kind, or a
      typed list of the declared item kind whose items all conform. */
  predicate Conforms(e: Entity)
    decreases e
  {
    var fs := Fields(e.kind);
    && |e.slots| == |fs|
    && forall i :: 0 <= i < |e.slots| ==>
         e.slots[i].name == fs[i].name && ConformsValue(e.slots[i].val, fs[i])
  }

  predicate ConformsValue(o: Obj, d: FieldDecl)
    decreases o
  {
    || (o.Plain? && IsScalar(o.v))
    || (d.NestedField? && o.Contract? && o.e.kind == d.nestedKind && Conforms(o.e))
    || (d.ListField? && o.ContractList? && o.itemKind == d.itemKind &&
        forall j :: 0 <= j < |o.items| ==> o.items[j].kind == d.itemKind && Conforms(o.items[j]))
  }
}
