/** Neighbors: the neighbor description built from a neighbor entry and its
    attributes, and the next-hop key it is looked up by, on create and on
    remove. */
module Neighbor {
  import opened Common
  import opened SaiTypes
  import opened SwitchApi
  import NextHop

  /** sai_neighbor_entry_t. */
  datatype NeighborEntry = NeighborEntry(rifId: Handle, ipAddress: IpAddress)

  /** switch_neighbor_rw_type_t as far as it is written here; RwTypeZero is
      the zeroed field. */
  datatype RwType = RwTypeZero | RwTypeL3

  /** switch_api_neighbor_t, the fields the code writes. */
  datatype ApiNeighbor = ApiNeighbor(interface: Handle, rwType: RwType, ipAddr: SwitchIpAddr,
                                     macAddr: MacAddr, nhopHandle: Handle)

  const ZeroNeighbor := ApiNeighbor(0, RwTypeZero, IpZero, ZeroMac, 0)

  /** The address sai_neighbor_entry_parse stores: the IPv4 word as given,
      without conversion to host order, with a /32 length; the IPv6 bytes
      with a /128 length; nothing for another family. */
  function NeighborIpOf(ip: IpAddress): Option<SwitchIpAddr>
  {
    match ip.family
    case FamilyIpv4 => Some(IpV4(ip.ip4, 32))
    case FamilyIpv6 => Some(IpV6(ip.ip6, 128))
    case FamilyOther(_) => None
  }

  /** The neighbor's address and a next hop's address for the same SAI
      address differ by the byte order of the IPv4 word and agree otherwise. */
  lemma NeighborAddressVersusNextHop(ip: IpAddress)
    ensures NeighborIpOf(ip).None? <==> NextHop.NhopIpOf(ip).None?
    ensures ip.family.FamilyIpv4? ==>
      NextHop.NhopIpOf(ip) == Some(IpV4(Ntohl(NeighborIpOf(ip).value.v4addr), 32))
    ensures ip.family.FamilyIpv6? ==> NextHop.NhopIpOf(ip) == NeighborIpOf(ip)
  {
  }

  /** sai_neighbor_entry_parse: the interface is always written; rw type and
      address only for an IPv4 or IPv6 entry. */
  method NeighborEntryParse(entry: NeighborEntry, n: ApiNeighbor) returns (r: ApiNeighbor)
    ensures r.interface == entry.rifId
    ensures r.macAddr == n.macAddr && r.nhopHandle == n.nhopHandle
    ensures NeighborIpOf(entry.ipAddress).Some? ==>
      r.rwType == RwTypeL3 && r.ipAddr == NeighborIpOf(entry.ipAddress).value
    ensures NeighborIpOf(entry.ipAddress).None? ==> r.rwType == n.rwType && r.ipAddr == n.ipAddr
  {
    r := n.(interface := entry.rifId);
    if entry.ipAddress.family == FamilyIpv4 {
      r := r.(rwType := RwTypeL3, ipAddr := IpV4(entry.ipAddress.ip4, 32));
    } else if entry.ipAddress.family == FamilyIpv6 {
      r := r.(rwType := RwTypeL3, ipAddr := IpV6(entry.ipAddress.ip6, 128));
    }
  }

  datatype NeighborAttrId = NeighborDstMacAttr | NeighborPacketActionAttr | OtherNeighborAttr

  datatype NeighborAttr = NeighborAttr(id: NeighborAttrId, mac: MacAddr)

  function PickDstMac(a: NeighborAttr): Option<MacAddr>
  {
    if a.id.NeighborDstMacAttr? then Some(a.mac) else None
  }

  /** sai_neighbor_entry_attribute_parse: only DST_MAC_ADDRESS is used, the
      last one wins, and nothing is rejected. */
  method NeighborEntryAttributeParse(attrs: seq<NeighborAttr>, n: ApiNeighbor) returns (r: ApiNeighbor)
    ensures r.macAddr == LastOf(attrs, PickDstMac, n.macAddr)
    ensures r.interface == n.interface && r.rwType == n.rwType && r.ipAddr == n.ipAddr && r.nhopHandle == n.nhopHandle
  {
    r := n;
    for index := 0 to |attrs|
      invariant r == n.(macAddr := LastOf(attrs[..index], PickDstMac, n.macAddr))
    {
      var attribute := attrs[index];
      LastOfSnoc(attrs[..index], attribute, PickDstMac, n.macAddr);
      assert attrs[..index + 1] == attrs[..index] + [attribute];
      match attribute.id {
        case NeighborDstMacAttr =>
          r := r.(macAddr := attribute.mac);
        case NeighborPacketActionAttr =>
        case OtherNeighborAttr =>
      }
    }
    assert attrs[..|attrs|] == attrs;
  }

  /** sai_neighbor_entry_nexthop_get: the key {interface, address, valid}
      from the neighbor, and the handle the library finds for it.
      `handleGet` is switch_api_nhop_handle_get. */
  method NeighborEntryNexthopGet(n: ApiNeighbor, handleGet: NhopKey -> Handle) returns (r: ApiNeighbor, key: NhopKey)
    ensures key.intfHandle == n.interface && key.ipAddr == n.ipAddr && key.ipAddrValid
    ensures r.nhopHandle == handleGet(key)
    ensures r.interface == n.interface && r.rwType == n.rwType && r.ipAddr == n.ipAddr && r.macAddr == n.macAddr
  {
    key := ZeroNhopKey;
    key := key.(intfHandle := n.interface);
    key := key.(ipAddr := n.ipAddr);
    key := key.(ipAddrValid := true);
    r := n.(nhopHandle := handleGet(key));
  }

  /** The next-hop key of a neighbor entry, as create and remove build it
      from a zeroed neighbor. */
  function NeighborKey(entry: NeighborEntry): NhopKey
  {
    var ip := NeighborIpOf(entry.ipAddress);
    NhopKey(entry.rifId, if ip.Some? then ip.value else ZeroNeighbor.ipAddr, true)
  }

  /** sai_create_neighbor_entry: parse, attributes, key, then the add, whose
      status is not looked at. */
  method CreateNeighborEntry(entry: NeighborEntry, attrs: seq<NeighborAttr>, handleGet: NhopKey -> Handle)
    returns (status: Status, added: ApiNeighbor, key: NhopKey)
    ensures status == Success
    ensures key == NeighborKey(entry)
    ensures added.interface == entry.rifId && added.ipAddr == key.ipAddr
    ensures added.rwType == if NeighborIpOf(entry.ipAddress).Some? then RwTypeL3 else RwTypeZero
    ensures added.macAddr == LastOf(attrs, PickDstMac, ZeroMac)
    ensures added.nhopHandle == handleGet(key)
  {
    var apiNeighbor := ZeroNeighbor;
    apiNeighbor := NeighborEntryParse(entry, apiNeighbor);
    apiNeighbor := NeighborEntryAttributeParse(attrs, apiNeighbor);
    apiNeighbor, key := NeighborEntryNexthopGet(apiNeighbor, handleGet);
    return Success, apiNeighbor, key;
  }

  /** sai_remove_neighbor_entry: parse and key as on create, then the
      neighbor handle of the found next hop is removed.
      `neighborHandleGet` is switch_api_neighbor_handle_get and
      `entryRemove` switch_api_neighbor_entry_remove. */
  method RemoveNeighborEntry(entry: NeighborEntry, handleGet: NhopKey -> Handle,
                             neighborHandleGet: Handle -> Handle, entryRemove: Handle -> Status)
    returns (status: Status, key: NhopKey)
    ensures key == NeighborKey(entry)
    ensures status == entryRemove(neighborHandleGet(handleGet(key)))
  {
    var apiNeighbor := ZeroNeighbor;
    apiNeighbor := NeighborEntryParse(entry, apiNeighbor);
    apiNeighbor, key := NeighborEntryNexthopGet(apiNeighbor, handleGet);
    var neighborHandle := neighborHandleGet(apiNeighbor.nhopHandle);
    status := entryRemove(neighborHandle);
  }

  // ---------------------------------------------------------------------
  // The neighbor's key and the next hop's key
  // ---------------------------------------------------------------------

  /** As written, the neighbor for 10.0.0.1 on interface 1 is looked up by a
      key that differs from the key of the next hop created for 10.0.0.1 on
      interface 1: the next hop converts the address to host order, the
      neighbor does not. */
  lemma NeighborKeyMissesNextHop()
    ensures var ip := IpAddress(FamilyIpv4, 0x0A00_0001, ZeroIp6);
      var attrs := [NextHop.NhopAttr(NextHop.NhopIpAttr, ip, 0), NextHop.NhopAttr(NextHop.NhopRifAttr, ip, 1)];
      NeighborKey(NeighborEntry(1, ip)) != NextHop.NhopKeyOf(attrs)
  {
    var ip := IpAddress(FamilyIpv4, 0x0A00_0001, ZeroIp6);
    var attrs := [NextHop.NhopAttr(NextHop.NhopIpAttr, ip, 0), NextHop.NhopAttr(NextHop.NhopRifAttr, ip, 1)];
    NextHop.LastIpv4AddressRoundTrip(attrs, 0);
    assert WordBytes(0x0A00_0001) == [0x0A, 0, 0, 1];
    assert Ntohl(0x0A00_0001) == 0x0100_000A;
  }

  /** The key the neighbor is evidently meant to be looked up by: its
      address converted the way a next hop's is. */
  function IntendedNeighborKey(entry: NeighborEntry): NhopKey
  {
    var ip := NextHop.NhopIpOf(entry.ipAddress);
    NhopKey(entry.rifId, if ip.Some? then ip.value else ZeroNeighbor.ipAddr, true)
  }

  /** With the conversion, a neighbor's key is the key of every next hop
      created for the same interface and address. */
  lemma IntendedNeighborKeyMatchesNextHop(entry: NeighborEntry, attrs: seq<NextHop.NhopAttr>, k: nat, m: nat)
    requires !entry.ipAddress.family.FamilyOther?
    requires k < |attrs| && attrs[k].id.NhopIpAttr? && attrs[k].ipaddr == entry.ipAddress
    requires forall j :: k < j < |attrs| ==> NextHop.PickIp(attrs[j]).None?
    requires m < |attrs| && attrs[m].id.NhopRifAttr? && attrs[m].oid == entry.rifId
    requires forall j :: m < j < |attrs| ==> !attrs[j].id.NhopRifAttr?
    ensures IntendedNeighborKey(entry) == NextHop.NhopKeyOf(attrs)
  {
    LastOfWins(attrs, k, NextHop.PickIp, ZeroNhopKey.ipAddr);
    assert forall j :: k < j < |attrs| ==> NextHop.PickIpValid(attrs[j]).None?;
    LastOfWins(attrs, k, NextHop.PickIpValid, ZeroNhopKey.ipAddrValid);
    NextHop.LastRouterInterfaceWins(attrs, m);
  }

  /** For IPv6 entries the key as written is already the intended one. */
  lemma Ipv6NeighborKeyAsIntended(entry: NeighborEntry)
    requires entry.ipAddress.family.FamilyIpv6?
    ensures NeighborKey(entry) == IntendedNeighborKey(entry)
  {
  }
}
