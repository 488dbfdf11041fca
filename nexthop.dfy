/** Next hops: the key sai_create_next_hop_entry builds from its attributes
    and the attribute ids it rejects. */
module NextHop {
  import opened Common
  import opened SaiTypes
  import opened SwitchApi

  datatype NhopAttrId = NhopTypeAttr | NhopIpAttr | NhopRifAttr | OtherNhopAttr

  /** An attribute with the two views of its value the code reads. */
  datatype NhopAttr = NhopAttr(id: NhopAttrId, ipaddr: IpAddress, oid: Handle)

  /** The key address an IP attribute sets: the IPv4 address converted to
      host order with a /32 length, the IPv6 bytes with a /128 length, and
      nothing for another family. */
  function NhopIpOf(ip: IpAddress): (r: Option<SwitchIpAddr>)
    ensures r.None? <==> ip.family.FamilyOther?
    ensures ip.family.FamilyIpv4? ==> r.Some? && r.value.IpV4? && r.value.prefixLen == 32 &&
                                      Ntohl(r.value.v4addr) == ip.ip4
    ensures ip.family.FamilyIpv6? ==> r.Some? && r.value.IpV6? && r.value.prefixLen == 128 &&
                                      r.value.v6addr == ip.ip6
  {
    NtohlInvolution(ip.ip4);
    match ip.family
    case FamilyIpv4 => Some(IpV4(Ntohl(ip.ip4), 32))
    case FamilyIpv6 => Some(IpV6(ip.ip6, 128))
    case FamilyOther(_) => None
  }

  function PickIp(a: NhopAttr): Option<SwitchIpAddr>
  {
    if a.id.NhopIpAttr? then NhopIpOf(a.ipaddr) else None
  }

  function PickIpValid(a: NhopAttr): Option<bool>
  {
    if PickIp(a).Some? then Some(true) else None
  }

  function PickRif(a: NhopAttr): Option<Handle>
  {
    if a.id.NhopRifAttr? then Some(a.oid) else None
  }

  /** The key the attributes describe: each field is the last value written
      to it, starting from the zeroed key. */
  function NhopKeyOf(attrs: seq<NhopAttr>): NhopKey
  {
    NhopKey(LastOf(attrs, PickRif, ZeroNhopKey.intfHandle),
            LastOf(attrs, PickIp, ZeroNhopKey.ipAddr),
            LastOf(attrs, PickIpValid, ZeroNhopKey.ipAddrValid))
  }

  /** An attribute id outside TYPE, IP and ROUTER_INTERFACE_ID. */
  predicate RejectedNhopAttr(a: NhopAttr)
  {
    a.id.OtherNhopAttr?
  }

  /** What a create call does: its status and, when it creates, the key
      handed to switch_api_nhop_create and the id written back. */
  datatype NhopEffect = NhopEffect(status: Status, created: Option<(NhopKey, Handle)>)

  /** sai_create_next_hop_entry. `nhopCreate` is switch_api_nhop_create. */
  method CreateNextHopEntry(attrs: seq<NhopAttr>, nhopCreate: NhopKey -> Handle) returns (e: NhopEffect)
    ensures e.status == InvalidParameter <==> exists j :: 0 <= j < |attrs| && RejectedNhopAttr(attrs[j])
    ensures e.status == InvalidParameter <==> e.created.None?
    ensures e.status != InvalidParameter ==> e.status == Success
    ensures e.created.Some? ==> e.created.value == (NhopKeyOf(attrs), nhopCreate(NhopKeyOf(attrs)))
  {
    var nhopKey := ZeroNhopKey;
    for index := 0 to |attrs|
      invariant forall j :: 0 <= j < index ==> !RejectedNhopAttr(attrs[j])
      invariant nhopKey == NhopKeyOf(attrs[..index])
    {
      var attribute := attrs[index];
      LastOfSnoc(attrs[..index], attribute, PickRif, ZeroNhopKey.intfHandle);
      LastOfSnoc(attrs[..index], attribute, PickIp, ZeroNhopKey.ipAddr);
      LastOfSnoc(attrs[..index], attribute, PickIpValid, ZeroNhopKey.ipAddrValid);
      assert attrs[..index + 1] == attrs[..index] + [attribute];
      match attribute.id {
        case NhopTypeAttr =>
        case NhopIpAttr =>
          var saiIpAddr := attribute.ipaddr;
          if saiIpAddr.family == FamilyIpv4 {
            nhopKey := nhopKey.(ipAddr := IpV4(Ntohl(saiIpAddr.ip4), 32), ipAddrValid := true);
          } else if saiIpAddr.family == FamilyIpv6 {
            nhopKey := nhopKey.(ipAddr := IpV6(saiIpAddr.ip6, 128), ipAddrValid := true);
          }
        case NhopRifAttr =>
          nhopKey := nhopKey.(intfHandle := attribute.oid);
        case OtherNhopAttr =>
          return NhopEffect(InvalidParameter, None);
      }
    }
    assert attrs[..|attrs|] == attrs;
    var nextHopId := nhopCreate(nhopKey);
    return NhopEffect(Success, Some((nhopKey, nextHopId)));
  }

  /** The key marks its address valid exactly when some IP attribute set an
      address, so a valid key never carries the zeroed address. */
  lemma {:induction false} ValidIffAddressSet(attrs: seq<NhopAttr>)
    ensures NhopKeyOf(attrs).ipAddrValid <==> NhopKeyOf(attrs).ipAddr != IpZero
    ensures NhopKeyOf(attrs).ipAddrValid <==> exists j :: 0 <= j < |attrs| && PickIp(attrs[j]).Some?
  {
    if |attrs| > 0 {
      var init := attrs[..|attrs| - 1];
      var last := attrs[|attrs| - 1];
      assert attrs == init + [last];
      ValidIffAddressSet(init);
      LastOfSnoc(init, last, PickIp, ZeroNhopKey.ipAddr);
      LastOfSnoc(init, last, PickIpValid, ZeroNhopKey.ipAddrValid);
      if PickIp(last).None? {
        assert forall j :: 0 <= j < |init| ==> init[j] == attrs[j];
      }
    }
  }

  /** The last IPv4 address set is the key's address in host byte order:
      converting it back gives the attribute's network-order address. */
  lemma LastIpv4AddressRoundTrip(attrs: seq<NhopAttr>, k: nat)
    requires k < |attrs| && attrs[k].id.NhopIpAttr? && attrs[k].ipaddr.family.FamilyIpv4?
    requires forall j :: k < j < |attrs| ==> PickIp(attrs[j]).None?
    ensures NhopKeyOf(attrs).ipAddr.IpV4? && NhopKeyOf(attrs).ipAddr.prefixLen == 32
    ensures Ntohl(NhopKeyOf(attrs).ipAddr.v4addr) == attrs[k].ipaddr.ip4
    ensures NhopKeyOf(attrs).ipAddrValid
  {
    LastOfWins(attrs, k, PickIp, ZeroNhopKey.ipAddr);
    assert forall j :: k < j < |attrs| ==> PickIpValid(attrs[j]).None?;
    LastOfWins(attrs, k, PickIpValid, ZeroNhopKey.ipAddrValid);
  }

  /** An IP attribute of another family changes nothing in the key. */
  lemma OtherFamilyIgnored(attrs: seq<NhopAttr>, a: NhopAttr)
    requires a.id.NhopIpAttr? && a.ipaddr.family.FamilyOther?
    ensures NhopKeyOf(attrs + [a]) == NhopKeyOf(attrs)
  {
    LastOfSnoc(attrs, a, PickRif, ZeroNhopKey.intfHandle);
    LastOfSnoc(attrs, a, PickIp, ZeroNhopKey.ipAddr);
    LastOfSnoc(attrs, a, PickIpValid, ZeroNhopKey.ipAddrValid);
  }

  /** The last ROUTER_INTERFACE_ID is the key's interface. */
  lemma LastRouterInterfaceWins(attrs: seq<NhopAttr>, k: nat)
    requires k < |attrs| && attrs[k].id.NhopRifAttr?
    requires forall j :: k < j < |attrs| ==> !attrs[j].id.NhopRifAttr?
    ensures NhopKeyOf(attrs).intfHandle == attrs[k].oid
  {
    assert forall j :: k < j < |attrs| ==> PickRif(attrs[j]).None?;
    LastOfWins(attrs, k, PickRif, ZeroNhopKey.intfHandle);
  }
}
