/** Types of the SAI interface that several object kinds share. The numeric
    values of the SAI enumerations are not needed: each is a datatype whose
    last constructor stands for every value the code does not name. */
module SaiTypes {
  import opened Common

  /** sai_status_t values the adapter produces itself; a status handed back by
      the switch library is carried as LibraryStatus. */
  datatype Status = Success | Failure | InvalidParameter | NotSupported | LibraryStatus(code: int)

  /** sai_packet_action_t. */
  datatype PacketAction = PacketDrop | PacketForward | PacketTrap | PacketLog | PacketActionRaw(code: int)

  /** sai_ip_addr_family_t. */
  datatype AddrFamily = FamilyIpv4 | FamilyIpv6 | FamilyOther(code: int)

  /** sai_ip_address_t: the family and the address union, modelled with both of
      its views; ip4 is in network byte order. */
  datatype IpAddress = IpAddress(family: AddrFamily, ip4: U32, ip6: Ip6Addr)

  /** sai_ip_prefix_t: address and mask, both in network byte order. */
  datatype IpPrefix = IpPrefix(family: AddrFamily, addr4: U32, addr6: Ip6Addr, mask4: U32, mask6: Ip6Addr)
}

/** Types of the switch library (the switchapi headers, which are not part of
    this model). A `...Zero` constructor is the all-zero value that `memset`
    or an `= 0` initialiser leaves; whether it coincides with an enumerator
    numbered 0 is fixed by those headers and is kept apart here. */
module SwitchApi {
  import opened Common

  /** switch_ip_addr_t. The code always writes the type tag and the address
      union together, so the pair is one tagged value; IpZero is the zeroed
      struct (type 0, address 0, prefix length 0). */
  datatype SwitchIpAddr =
    | IpZero
    | IpV4(v4addr: U32, prefixLen: nat)
    | IpV6(v6addr: Ip6Addr, prefixLen: nat)

  /** switch_nhop_key_t. */
  datatype NhopKey = NhopKey(intfHandle: Handle, ipAddr: SwitchIpAddr, ipAddrValid: bool)

  const ZeroNhopKey := NhopKey(0, IpZero, false)

  /** switch_hostif_reason_code_t. */
  datatype ReasonCode =
    | RcNone | RcStp | RcLacp | RcEapol | RcLldp | RcPvrst
    | RcIgmpTypeQuery | RcIgmpTypeLeave | RcIgmpTypeV1Report | RcIgmpTypeV2Report | RcIgmpTypeV3Report
    | RcSamplePacket | RcArpRequest | RcArpResponse | RcDhcp | RcOspf | RcPim | RcVrrp | RcBgp
    | RcDhcpv6 | RcOspfv6 | RcVrrpv6 | RcBgpv6
    | RcIpv6NeighborDiscovery | RcIpv6MldV1V2 | RcIpv6MldV1Report | RcIpv6MldV1Done | RcMldV2Report
    | RcL3MtuError | RcTtlError
    | RcNullDrop | RcGlean

  /** switch_acl_action_t. */
  datatype AclAction =
    | AclActionZero | AclDrop | AclPermit | AclRedirectToCpu | AclCopyToCpu | AclRedirect | AclFloodToVlan
}
