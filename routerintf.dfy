/** Router interfaces: the interface description sai_create_router_interface
    builds from its attributes and the attribute ids it rejects. */
module RouterIntf {
  import opened Common
  import opened SaiTypes

  /** sai_router_interface_type_t. */
  datatype RifType = RifTypePort | RifTypeVlan | RifTypeOther(code: int)

  datatype RifAttrId =
    | RifVrfAttr | RifTypeAttr | RifPortIdAttr | RifVlanIdAttr
    | RifSrcMacAttr | RifAdminV4Attr | RifAdminV6Attr | OtherRifAttr

  /** The attribute value union with the views the code reads. */
  datatype RifAttrValue = RifAttrValue(oid: Handle, rifType: RifType, u16: U16, booldata: bool, mac: MacAddr)

  datatype RifAttr = RifAttr(id: RifAttrId, value: RifAttrValue)

  /** switch_interface_type_t as far as it is written here; IntfTypeZero is
      the zeroed field. */
  datatype IntfType = IntfTypeZero | IntfL3 | IntfL3Vlan

  /** The union of switch_api_interface_info_t: a port or LAG handle, or a
      VLAN id, or the zeroed union. */
  datatype IntfUnion = UnionZero | PortLag(handle: Handle) | VlanMember(vlanId: U16)

  /** switch_api_interface_info_t, the fields the code writes. */
  datatype InterfaceInfo = InterfaceInfo(vrfHandle: Handle, intfType: IntfType, u: IntfUnion,
                                         ipv4UnicastEnabled: bool, ipv6UnicastEnabled: bool)

  const ZeroInfo := InterfaceInfo(0, IntfTypeZero, UnionZero, false, false)

  function PickVrf(a: RifAttr): Option<Handle>
  {
    if a.id.RifVrfAttr? then Some(a.value.oid) else None
  }

  /** PORT_ID and VLAN_ID write the type and the union together. */
  function PickBinding(a: RifAttr): Option<(IntfType, IntfUnion)>
  {
    match a.id
    case RifPortIdAttr => Some((IntfL3, PortLag(a.value.oid)))
    case RifVlanIdAttr => Some((IntfL3Vlan, VlanMember(a.value.u16)))
    case _ => None
  }

  function PickAdminV4(a: RifAttr): Option<bool>
  {
    if a.id.RifAdminV4Attr? then Some(a.value.booldata) else None
  }

  function PickAdminV6(a: RifAttr): Option<bool>
  {
    if a.id.RifAdminV6Attr? then Some(a.value.booldata) else None
  }

  /** The local sai_intf_type: the last TYPE value, None before any. */
  function PickRifType(a: RifAttr): Option<Option<RifType>>
  {
    if a.id.RifTypeAttr? then Some(Some(a.value.rifType)) else None
  }

  /** The description the attributes build: each field is the last value
      written to it, starting from the zeroed struct. */
  function InfoOf(attrs: seq<RifAttr>): InterfaceInfo
  {
    var binding := LastOf(attrs, PickBinding, (ZeroInfo.intfType, ZeroInfo.u));
    InterfaceInfo(LastOf(attrs, PickVrf, ZeroInfo.vrfHandle), binding.0, binding.1,
                  LastOf(attrs, PickAdminV4, ZeroInfo.ipv4UnicastEnabled),
                  LastOf(attrs, PickAdminV6, ZeroInfo.ipv6UnicastEnabled))
  }

  /** An attribute id the create call rejects. */
  predicate RejectedRifAttr(a: RifAttr)
  {
    a.id.OtherRifAttr?
  }

  /** The asserts of the PORT_ID and VLAN_ID cases: every such attribute
      the loop reaches (no rejected id before it) comes after a TYPE
      attribute whose last value is PORT, respectively VLAN. Reading the
      type before any TYPE attribute is undefined. */
  predicate TypeAssertsHold(attrs: seq<RifAttr>)
  {
    forall j :: 0 <= j < |attrs| && (forall i :: 0 <= i < j ==> !RejectedRifAttr(attrs[i])) ==>
      (attrs[j].id.RifPortIdAttr? ==> LastOf(attrs[..j], PickRifType, None) == Some(RifTypePort)) &&
      (attrs[j].id.RifVlanIdAttr? ==> LastOf(attrs[..j], PickRifType, None) == Some(RifTypeVlan))
  }

  /** What a create call does: its status and, when it creates, the
      description handed to switch_api_interface_create and the id written
      back. */
  datatype RifEffect = RifEffect(status: Status, created: Option<(InterfaceInfo, Handle)>)

  /** sai_create_router_interface. `interfaceCreate` is
      switch_api_interface_create. */
  method CreateRouterInterface(attrs: seq<RifAttr>, interfaceCreate: InterfaceInfo -> Handle) returns (e: RifEffect)
    requires TypeAssertsHold(attrs)
    ensures e.status == InvalidParameter <==> exists j :: 0 <= j < |attrs| && RejectedRifAttr(attrs[j])
    ensures e.status == InvalidParameter <==> e.created.None?
    ensures e.status != InvalidParameter ==> e.status == Success
    ensures e.created.Some? ==> e.created.value == (InfoOf(attrs), interfaceCreate(InfoOf(attrs)))
  {
    var intfInfo := ZeroInfo;
    var saiIntfType: Option<RifType> := None;
    for index := 0 to |attrs|
      invariant forall j :: 0 <= j < index ==> !RejectedRifAttr(attrs[j])
      invariant intfInfo == InfoOf(attrs[..index])
      invariant saiIntfType == LastOf(attrs[..index], PickRifType, None)
    {
      var attribute := attrs[index];
      LastOfSnoc(attrs[..index], attribute, PickVrf, ZeroInfo.vrfHandle);
      LastOfSnoc(attrs[..index], attribute, PickBinding, (ZeroInfo.intfType, ZeroInfo.u));
      LastOfSnoc(attrs[..index], attribute, PickAdminV4, ZeroInfo.ipv4UnicastEnabled);
      LastOfSnoc(attrs[..index], attribute, PickAdminV6, ZeroInfo.ipv6UnicastEnabled);
      LastOfSnoc(attrs[..index], attribute, PickRifType, None);
      assert attrs[..index + 1] == attrs[..index] + [attribute];
      match attribute.id {
        case RifVrfAttr =>
          intfInfo := intfInfo.(vrfHandle := attribute.value.oid);
        case RifTypeAttr =>
          saiIntfType := Some(attribute.value.rifType);
        case RifPortIdAttr =>
          assert saiIntfType == Some(RifTypePort);
          intfInfo := intfInfo.(intfType := IntfL3, u := PortLag(attribute.value.oid));
        case RifVlanIdAttr =>
          assert saiIntfType == Some(RifTypeVlan);
          intfInfo := intfInfo.(intfType := IntfL3Vlan, u := VlanMember(attribute.value.u16));
        case RifSrcMacAttr =>
        case RifAdminV4Attr =>
          intfInfo := intfInfo.(ipv4UnicastEnabled := attribute.value.booldata);
        case RifAdminV6Attr =>
          intfInfo := intfInfo.(ipv6UnicastEnabled := attribute.value.booldata);
        case OtherRifAttr =>
          return RifEffect(InvalidParameter, None);
      }
    }
    assert attrs[..|attrs|] == attrs;
    var rifId := interfaceCreate(intfInfo);
    return RifEffect(Success, Some((intfInfo, rifId)));
  }

  /** The interface type always agrees with the union member written with
      it: L3 carries a port or LAG handle, L3_VLAN a VLAN id, and the zeroed
      type the zeroed union. */
  lemma {:induction false} TypeMatchesUnion(attrs: seq<RifAttr>)
    ensures InfoOf(attrs).intfType == IntfL3 <==> InfoOf(attrs).u.PortLag?
    ensures InfoOf(attrs).intfType == IntfL3Vlan <==> InfoOf(attrs).u.VlanMember?
    ensures InfoOf(attrs).intfType == IntfTypeZero <==> InfoOf(attrs).u == UnionZero
  {
    if |attrs| > 0 {
      var init := attrs[..|attrs| - 1];
      var last := attrs[|attrs| - 1];
      assert attrs == init + [last];
      TypeMatchesUnion(init);
      LastOfSnoc(init, last, PickBinding, (ZeroInfo.intfType, ZeroInfo.u));
    }
  }

  /** The type stays zeroed exactly when no PORT_ID or VLAN_ID attribute is
      present. */
  lemma {:induction false} UnboundWithoutPortOrVlan(attrs: seq<RifAttr>)
    ensures InfoOf(attrs).intfType == IntfTypeZero <==>
      forall j :: 0 <= j < |attrs| ==> PickBinding(attrs[j]).None?
  {
    if |attrs| > 0 {
      var init := attrs[..|attrs| - 1];
      var last := attrs[|attrs| - 1];
      assert attrs == init + [last];
      UnboundWithoutPortOrVlan(init);
      LastOfSnoc(init, last, PickBinding, (ZeroInfo.intfType, ZeroInfo.u));
      assert forall j :: 0 <= j < |init| ==> init[j] == attrs[j];
    }
  }

  /** SRC_MAC_ADDRESS is accepted and changes nothing. */
  lemma SourceMacIgnored(attrs: seq<RifAttr>, v: RifAttrValue)
    ensures InfoOf(attrs + [RifAttr(RifSrcMacAttr, v)]) == InfoOf(attrs)
  {
    var a := RifAttr(RifSrcMacAttr, v);
    LastOfSnoc(attrs, a, PickVrf, ZeroInfo.vrfHandle);
    LastOfSnoc(attrs, a, PickBinding, (ZeroInfo.intfType, ZeroInfo.u));
    LastOfSnoc(attrs, a, PickAdminV4, ZeroInfo.ipv4UnicastEnabled);
    LastOfSnoc(attrs, a, PickAdminV6, ZeroInfo.ipv6UnicastEnabled);
  }

  /** A port interface: TYPE = PORT, then PORT_ID, binds the port. */
  lemma ScenarioPortInterface(vrf: Handle, port: Handle, v: RifAttrValue)
    requires v.rifType == RifTypePort && v.oid == port
    ensures var attrs := [RifAttr(RifVrfAttr, v.(oid := vrf)), RifAttr(RifTypeAttr, v), RifAttr(RifPortIdAttr, v)];
      TypeAssertsHold(attrs) && InfoOf(attrs) == InterfaceInfo(vrf, IntfL3, PortLag(port), false, false)
  {
    var attrs := [RifAttr(RifVrfAttr, v.(oid := vrf)), RifAttr(RifTypeAttr, v), RifAttr(RifPortIdAttr, v)];
    LastOfWins(attrs[..2], 1, PickRifType, None);
    LastOfNone(attrs[..1], PickRifType, None);
    LastOfWins(attrs, 2, PickBinding, (ZeroInfo.intfType, ZeroInfo.u));
    LastOfWins(attrs, 0, PickVrf, ZeroInfo.vrfHandle);
    LastOfNone(attrs, PickAdminV4, ZeroInfo.ipv4UnicastEnabled);
    LastOfNone(attrs, PickAdminV6, ZeroInfo.ipv6UnicastEnabled);
  }
}
