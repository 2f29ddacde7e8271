/** What the model of the marshaller yields on concrete documents. */
module Scenarios {
  import opened Values
  import opened Contracts
  import opened Mapper
  import opened MapperLaws

  /** A failing call is not atomic: `status` is declared before `properties`,
      so it is already overwritten when the list value for the nested
      `properties` entity is rejected. */
  lemma ProvisionStatusPartialUpdate()
    ensures var r := Inflate(Contract(NewProvisionStatus(map[])),
                             Dict(map["status" := Str("Ready"), "properties" := List([])]));
      && r.outcome == Raised(ParamWrongType("list", DataContractListType))
      && r.state.Contract?
      && r.state.e.slots[0] == Slot("status", Plain(Str("Ready")))
      && r.state.e.slots[3] == NewProvisionStatus(map[]).slots[3]
  {
    var e := NewProvisionStatus(map[]);
    var data := Dict(map["status" := Str("Ready"), "properties" := List([])]);
    var s1 := e.slots[0 := Slot("status", Plain(Str("Ready")))];
    assert e.slots == FreshProvisionStatusSlots();
    PartialUpdateSetsStatus(e.slots, data, s1);
    PartialUpdateStopsAtProperties(data, s1);
  }

  /** The attributes of `ProvisionStatus()`. */
  function FreshProvisionStatusSlots(): seq<Slot> {
    [Slot("status", Plain(Null)), Slot("subStatus", Plain(Null)),
     Slot("description", Plain(Null)),
     Slot("properties", Contract(Entity(VMProperties, [Slot("certificateThumbprint", Plain(Null))])))]
  }

  /** The first three attributes: `status` is overwritten, the other two
      have no key. */
  lemma PartialUpdateSetsStatus(slots: seq<Slot>, data: Value, s1: seq<Slot>)
    requires slots == FreshProvisionStatusSlots()
    requires data == Dict(map["status" := Str("Ready"), "properties" := List([])])
    requires s1 == slots[0 := Slot("status", Plain(Str("Ready")))]
    ensures InflateSlots(slots, data, 0) == InflateSlots(s1, data, 3)
  {
    assert InflateSlots(slots, data, 0) == InflateSlots(s1, data, 1);
    assert InflateSlots(s1, data, 1) == InflateSlots(s1, data, 2);
    assert InflateSlots(s1, data, 2) == InflateSlots(s1, data, 3);
  }

  /** The fourth attribute holds a nested entity, which the list value
      cannot be appended to. */
  lemma PartialUpdateStopsAtProperties(data: Value, s1: seq<Slot>)
    requires data == Dict(map["status" := Str("Ready"), "properties" := List([])])
    requires s1 == FreshProvisionStatusSlots()[0 := Slot("status", Plain(Str("Ready")))]
    ensures InflateSlots(s1, data, 3) == Partial(s1, Raised(ParamWrongType("list", DataContractListType)))
  {
    var err := Raised(ParamWrongType("list", DataContractListType));
    assert InflateField(s1[3].val, List([])) == Partial(s1[3].val, err);
    assert s1[3 := Slot("properties", s1[3].val)] == s1;
  }

  /** A mapping for an attribute that holds a plain value is rejected as the
      `obj` parameter of the recursive call, and nothing changes. */
  lemma NestedMappingIntoScalarRejected()
    ensures InflateField(Plain(Str("x")), Dict(map[])) ==
      Partial(Plain(Str("x")), Raised(ParamWrongType("obj", DataContractType)))
    ensures InflateField(Plain(Null), Dict(map[])) ==
      Partial(Plain(Null), Raised(ParamIsNone("obj")))
  {
  }

  /** When two keyed attributes would both fail, the first in declaration
      order decides the error: `name` is visited before `certificateDataUri`. */
  lemma CertFirstFailureDecidesError()
    ensures InflateEntity(NewCert(map[]), Dict(map["name" := Dict(map[]), "certificateDataUri" := List([])])).outcome ==
      Raised(ParamIsNone("obj"))
  {
    var e := NewCert(map[]);
    var data := Dict(map["name" := Dict(map[]), "certificateDataUri" := List([])]);
    assert e.slots[0] == Slot("name", Plain(Null));
    assert InflateField(Plain(Null), Dict(map[])) == Partial(Plain(Null), Raised(ParamIsNone("obj")));
    assert e.slots[0 := Slot("name", Plain(Null))] == e.slots;
    assert InflateSlots(e.slots, data, 0) == Partial(e.slots, Raised(ParamIsNone("obj")));
  }

  /** A certificate document carrying only a name. */
  function CertDoc(name: string): Value {
    Dict(map["name" := Str(name)])
  }

  /** The certificate it describes: the other attributes keep `None`. */
  function CertNamed(name: string): Entity {
    Entity(Cert, [Slot("name", Plain(Str(name))), Slot("thumbprint", Plain(Null)),
                  Slot("certificateDataUri", Plain(Null))])
  }

  /** Inflating a fresh certificate from a document with only `name`. */
  lemma CertFromDocument(name: string)
    ensures InflateEntity(NewCert(map[]), CertDoc(name)) == Partial(CertNamed(name), Ok)
  {
    var b := NewCert(map[]);
    var d := CertDoc(name);
    var s1 := b.slots[0 := Slot("name", Plain(Str(name)))];
    assert InflateSlots(b.slots, d, 0) == InflateSlots(s1, d, 1);
    assert "thumbprint" !in d.m && "certificateDataUri" !in d.m;
    assert InflateSlots(s1, d, 1) == InflateSlots(s1, d, 3);
    assert s1 == CertNamed(name).slots;
  }

  /** The item factory of a certificate list builds a default certificate. */
  lemma CertFactory()
    ensures Blank(Cert) == NewCert(map[])
  {
  }

  /** The loop over a list of two certificate documents builds the two
      certificates in order. */
  lemma CertItemsFromDocument()
    ensures InflateItems(NewCert(map[]), [], List([CertDoc("c1"), CertDoc("c2")]), 0) ==
      Partial([CertNamed("c1"), CertNamed("c2")], Ok)
  {
    var want := [CertNamed("c1"), CertNamed("c2")];
    var l := List([CertDoc("c1"), CertDoc("c2")]);
    forall t | 0 <= t < |want|
      ensures InflateEntity(NewCert(map[]), l.elems[t]) == Partial(want[t], Ok)
    {
      if t == 0 {
        CertFromDocument("c1");
      } else {
        CertFromDocument("c2");
      }
    }
    ItemsReproduced(NewCert(map[]), [], l, 0, want);
    assert [] + want[0..] == want;
  }

  /** That list, fed to an empty typed list of certificates, appends the two
      certificates in order. */
  lemma CertListFieldFromDocument()
    ensures InflateField(ContractList(Cert, []), List([CertDoc("c1"), CertDoc("c2")])) ==
      Partial(ContractList(Cert, [CertNamed("c1"), CertNamed("c2")]), Ok)
  {
    CertItemsFromDocument();
    CertFactory();
    ListFieldRunsItems(ContractList(Cert, []), List([CertDoc("c1"), CertDoc("c2")]));
  }

  /** `{"certificates": [{"name": "c1"}, {"name": "c2"}]}` inflated into a
      fresh certificate list gives two certificates named "c1" and "c2", in
      that order. */
  lemma CertListFromDocument()
    ensures InflateEntity(NewCertList(), Dict(map["certificates" := List([CertDoc("c1"), CertDoc("c2")])])) ==
      Partial(Entity(CertList, [Slot("certificates", ContractList(Cert, [CertNamed("c1"), CertNamed("c2")]))]), Ok)
  {
    var e := NewCertList();
    var data := Dict(map["certificates" := List([CertDoc("c1"), CertDoc("c2")])]);
    var s1 := [Slot("certificates", ContractList(Cert, [CertNamed("c1"), CertNamed("c2")]))];
    CertListFieldFromDocument();
    assert e.slots[0 := s1[0]] == s1;
    assert InflateSlots(e.slots, data, 0) == InflateSlots(s1, data, 1);
  }

  /** A scalar for an attribute holding a nested entity is not rejected: it
      replaces the entity. */
  lemma ScalarReplacesNestedEntity()
    ensures var e := NewProvisionStatus(map[]);
      InflateEntity(e, Dict(map["properties" := Str("x")])) ==
        Partial(Entity(ProvisionStatus, e.slots[3 := Slot("properties", Plain(Str("x")))]), Ok)
  {
    var e := NewProvisionStatus(map[]);
    var data := Dict(map["properties" := Str("x")]);
    var s1 := e.slots[3 := Slot("properties", Plain(Str("x")))];
    assert InflateSlots(e.slots, data, 0) == InflateSlots(e.slots, data, 1);
    assert InflateSlots(e.slots, data, 1) == InflateSlots(e.slots, data, 2);
    assert InflateSlots(e.slots, data, 2) == InflateSlots(e.slots, data, 3);
    assert InflateField(e.slots[3].val, Str("x")) == Partial(Plain(Str("x")), Ok);
    assert InflateSlots(e.slots, data, 3) == InflateSlots(s1, data, 4);
  }

  /** A fresh instance deflates to a mapping of every attribute to `None`. */
  lemma FreshVmInfoDeflates()
    ensures Deflate(Contract(NewVmInfo(map[]))) ==
      Success(Dict(map["subscriptionId" := Null, "vmName" := Null]))
  {
    var e := NewVmInfo(map[]);
    assert DeflateSlots(e, 1) == map["subscriptionId" := Null];
  }
}
