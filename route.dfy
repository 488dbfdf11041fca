/** Route helpers: prefix lengths from masks, the route key decoder, the
    route attribute decoder and the next-hop choice of route creation. */
module Route {
  import opened Common
  import opened SaiTypes
  import opened SwitchApi

  // ---------------------------------------------------------------------
  // Bit counting
  // ---------------------------------------------------------------------

  /** The number of set bits of x. */
  function PopCount(x: nat): nat
  {
    if x == 0 then 0 else x % 2 + PopCount(x / 2)
  }

  function Pow2(k: nat): (r: nat)
    ensures r >= 1
  {
    if k == 0 then 1 else 2 * Pow2(k - 1)
  }

  /** The host-order 32-bit mask of a prefix of length k: k ones followed by
      32 - k zeros. */
  function MaskOfLength(k: nat): (m: nat)
    requires k <= 32
  {
    (Pow2(k) - 1) * Pow2(32 - k)
  }

  /** A value below 2^b has at most b set bits. */
  lemma {:induction false} PopCountBound(x: nat, b: nat)
    requires x < Pow2(b)
    ensures PopCount(x) <= b
  {
    if x > 0 {
      assert b > 0;
      PopCountBound(x / 2, b - 1);
    }
  }

  /** Shifting left adds no set bits. */
  lemma {:induction false} PopCountShift(a: nat, m: nat)
    ensures PopCount(a * Pow2(m)) == PopCount(a)
  {
    if m > 0 {
      var b := a * Pow2(m - 1);
      assert a * Pow2(m) == 2 * b;
      PopCountShift(a, m - 1);
      if b > 0 {
        assert (2 * b) % 2 == 0 && (2 * b) / 2 == b;
      }
    }
  }

  /** k ones have k set bits. */
  lemma {:induction false} PopCountOnes(k: nat)
    ensures PopCount(Pow2(k) - 1) == k
  {
    if k > 0 {
      var x := Pow2(k) - 1;
      assert x == 2 * (Pow2(k - 1) - 1) + 1;
      assert x % 2 == 1 && x / 2 == Pow2(k - 1) - 1;
      PopCountOnes(k - 1);
    }
  }

  lemma Pow2Add(a: nat, b: nat)
    ensures Pow2(a) * Pow2(b) == Pow2(a + b)
  {
    if a > 0 {
      Pow2Add(a - 1, b);
    }
  }

  lemma Pow2Constants()
    ensures Pow2(8) == 0x100 && Pow2(24) == 0x100_0000 && Pow2(32) == 0x1_0000_0000
  {
    assert Pow2(8) == 0x100;
    Pow2Add(8, 8);
    Pow2Add(16, 8);
    Pow2Add(16, 16);
  }

  // ---------------------------------------------------------------------
  // sai_v4_prefix_length
  // ---------------------------------------------------------------------

  /** sai_v4_prefix_length: shift the word right until it is zero, counting
      the low bits that are set. */
  method V4PrefixLength(ip4: U32) returns (prefixLength: nat)
    ensures prefixLength == PopCount(ip4)
    ensures prefixLength <= 32
    ensures ip4 == 0 ==> prefixLength == 0
  {
    var x: nat := ip4;
    prefixLength := 0;
    while x != 0
      invariant prefixLength + PopCount(x) == PopCount(ip4)
      decreases x
    {
      if x % 2 == 1 {
        prefixLength := prefixLength + 1;
      }
      x := x / 2;
    }
    Pow2Constants();
    PopCountBound(ip4, 32);
  }

  /** A contiguous mask of k leading ones has length k. */
  lemma V4PrefixOfContiguous(k: nat)
    requires k <= 32
    ensures PopCount(MaskOfLength(k)) == k
  {
    PopCountShift(Pow2(k) - 1, 32 - k);
    PopCountOnes(k);
  }

  // ---------------------------------------------------------------------
  // sai_v6_prefix_length
  // ---------------------------------------------------------------------

  /** The total number of set bits of a byte string. */
  function BytePopCount(s: seq<U8>): nat
  {
    if |s| == 0 then 0 else BytePopCount(s[..|s| - 1]) + PopCount(s[|s| - 1])
  }

  lemma BytePopCountBound(s: seq<U8>)
    ensures BytePopCount(s) <= 8 * |s|
  {
    if |s| > 0 {
      BytePopCountBound(s[..|s| - 1]);
      assert Pow2(8) == 0x100;
      PopCountBound(s[|s| - 1], 8);
    }
  }

  /** The fast path for a full byte agrees with bit counting. */
  lemma PopCountFullByte()
    ensures PopCount(0xFF) == 8
  {
    assert Pow2(8) - 1 == 0xFF;
    PopCountOnes(8);
  }

  /** sai_v6_prefix_length: copy the mask, then count byte by byte; a full
      byte adds 8, any other byte is shifted out in the copy bit by bit. */
  method V6PrefixLength(ip6: Ip6Addr) returns (prefixLength: nat)
    ensures prefixLength == BytePopCount(ip6)
    ensures prefixLength <= 128
  {
    var ip6Temp := new U8[16](i requires 0 <= i < 16 => ip6[i]);
    prefixLength := 0;
    for i := 0 to 16
      invariant prefixLength == BytePopCount(ip6[..i])
      invariant forall k :: i <= k < 16 ==> ip6Temp[k] == ip6[k]
    {
      assert ip6[..i + 1][..i] == ip6[..i];
      if ip6Temp[i] == 0xFF {
        PopCountFullByte();
        prefixLength := prefixLength + 8;
      } else {
        while ip6Temp[i] != 0
          invariant prefixLength + PopCount(ip6Temp[i]) == BytePopCount(ip6[..i + 1])
          invariant forall k :: i < k < 16 ==> ip6Temp[k] == ip6[k]
          decreases ip6Temp[i]
        {
          if ip6Temp[i] % 2 == 1 {
            prefixLength := prefixLength + 1;
          }
          ip6Temp[i] := ip6Temp[i] / 2;
        }
      }
    }
    assert ip6[..16] == ip6;
    BytePopCountBound(ip6);
  }

  // ---------------------------------------------------------------------
  // sai_route_entry_parse
  // ---------------------------------------------------------------------

  /** sai_unicast_route_entry_t. */
  datatype RouteEntry = RouteEntry(vrId: Handle, destination: IpPrefix)

  /** sai_route_entry_parse: the virtual router and the library address. An
      IPv4 address and mask are converted to host order; an IPv6 address is
      copied as it is; any other family leaves the zeroed address. */
  method RouteEntryParse(entry: RouteEntry) returns (vrfHandle: Handle, ipAddr: SwitchIpAddr)
    ensures vrfHandle == entry.vrId
    ensures entry.destination.family.FamilyIpv4? ==>
      ipAddr == IpV4(Ntohl(entry.destination.addr4), PopCount(Ntohl(entry.destination.mask4)))
    ensures entry.destination.family.FamilyIpv6? ==>
      ipAddr == IpV6(entry.destination.addr6, BytePopCount(entry.destination.mask6))
    ensures entry.destination.family.FamilyOther? ==> ipAddr == IpZero
    ensures ipAddr.IpV4? ==> ipAddr.prefixLen <= 32 && Ntohl(ipAddr.v4addr) == entry.destination.addr4
    ensures ipAddr.IpV6? ==> ipAddr.prefixLen <= 128
  {
    var dest := entry.destination;
    ipAddr := IpZero;
    vrfHandle := entry.vrId;
    if dest.family.FamilyIpv4? {
      var prefixLength := V4PrefixLength(Ntohl(dest.mask4));
      NtohlInvolution(dest.addr4);
      ipAddr := IpV4(Ntohl(dest.addr4), prefixLength);
    } else if dest.family.FamilyIpv6? {
      var prefixLength := V6PrefixLength(dest.mask6);
      ipAddr := IpV6(dest.addr6, prefixLength);
    }
  }

  /** Scenario: 10.0.0.0/24 in network order (the words a little-endian host
      reads as 0x0000000A and 0x00FFFFFF) becomes 0x0A000000 with length 24. */
  lemma ScenarioRouteV4()
    ensures Ntohl(0x0000_000A) == 0x0A00_0000
    ensures Ntohl(0x00FF_FFFF) == 0xFFFF_FF00 && 0xFFFF_FF00 == MaskOfLength(24)
    ensures PopCount(Ntohl(0x00FF_FFFF)) == 24
  {
    assert WordBytes(0x0000_000A) == [0, 0, 0, 10];
    assert WordBytes(0x00FF_FFFF) == [0, 255, 255, 255];
    Pow2Constants();
    V4PrefixOfContiguous(24);
  }

  // ---------------------------------------------------------------------
  // sai_route_entry_attribute_parse
  // ---------------------------------------------------------------------

  datatype RouteAttrId = NextHopIdAttr | TrapPriorityAttr | PacketActionAttr | OtherRouteAttr

  /** The attribute value union with the views the code reads. */
  datatype RouteAttrValue = RouteAttrValue(oid: Handle, u8: U8, action: PacketAction)

  datatype RouteAttr = RouteAttr(id: RouteAttrId, value: RouteAttrValue)

  function PickNextHop(a: RouteAttr): Option<Handle>
  {
    if a.id.NextHopIdAttr? then Some(a.value.oid) else None
  }

  function PickPriority(a: RouteAttr): Option<int>
  {
    if a.id.TrapPriorityAttr? then Some(a.value.u8) else None
  }

  function PickAction(a: RouteAttr): Option<PacketAction>
  {
    if a.id.PacketActionAttr? then Some(a.value.action) else None
  }

  /** The value the create call starts its action variable with (-1). */
  const NoAction: PacketAction := PacketActionRaw(-1)

  /** sai_route_entry_attribute_parse: the out-parameters start at the
      caller's values and each attribute of a known id overwrites its own. */
  method RouteEntryAttributeParse(attrs: seq<RouteAttr>, nhop0: Handle, action0: PacketAction, pri0: int)
    returns (nhopHandle: Handle, action: PacketAction, pri: int)
    ensures nhopHandle == LastOf(attrs, PickNextHop, nhop0)
    ensures action == LastOf(attrs, PickAction, action0)
    ensures pri == LastOf(attrs, PickPriority, pri0)
  {
    nhopHandle, action, pri := nhop0, action0, pri0;
    var index := 0;
    while index < |attrs|
      invariant 0 <= index <= |attrs|
      invariant nhopHandle == LastOf(attrs[..index], PickNextHop, nhop0)
      invariant action == LastOf(attrs[..index], PickAction, action0)
      invariant pri == LastOf(attrs[..index], PickPriority, pri0)
    {
      var attribute := attrs[index];
      assert attrs[..index + 1] == attrs[..index] + [attribute];
      LastOfSnoc(attrs[..index], attribute, PickNextHop, nhop0);
      LastOfSnoc(attrs[..index], attribute, PickAction, action0);
      LastOfSnoc(attrs[..index], attribute, PickPriority, pri0);
      match attribute.id {
        case NextHopIdAttr => nhopHandle := attribute.value.oid;
        case TrapPriorityAttr => pri := attribute.value.u8;
        case PacketActionAttr => action := attribute.value.action;
        case OtherRouteAttr =>
      }
      index := index + 1;
    }
    assert attrs[..index] == attrs;
  }

  /** Unknown attribute ids never change what the parse yields. */
  lemma UnknownRouteAttributesIgnored(attrs: seq<RouteAttr>, v: RouteAttrValue, nhop0: Handle, action0: PacketAction)
    ensures LastOf(attrs + [RouteAttr(OtherRouteAttr, v)], PickNextHop, nhop0) == LastOf(attrs, PickNextHop, nhop0)
    ensures LastOf(attrs + [RouteAttr(OtherRouteAttr, v)], PickAction, action0) == LastOf(attrs, PickAction, action0)
  {
    LastOfSnoc(attrs, RouteAttr(OtherRouteAttr, v), PickNextHop, nhop0);
    LastOfSnoc(attrs, RouteAttr(OtherRouteAttr, v), PickAction, action0);
  }

  /** The last NEXT_HOP_ID attribute decides the next hop. */
  lemma LastNextHopWins(attrs: seq<RouteAttr>, k: nat, nhop0: Handle)
    requires k < |attrs| && attrs[k].id.NextHopIdAttr?
    requires forall j :: k < j < |attrs| ==> !attrs[j].id.NextHopIdAttr?
    ensures LastOf(attrs, PickNextHop, nhop0) == attrs[k].value.oid
  {
    LastOfWins(attrs, k, PickNextHop, nhop0);
  }

  // ---------------------------------------------------------------------
  // Next-hop resolution in sai_create_route_entry
  // ---------------------------------------------------------------------

  /** The next hop a route is added with: an explicit next hop is kept; with
      none, a DROP action uses the CPU next hop of NULL_DROP and a TRAP action
      that of GLEAN; every other action, and no action, gives none (0).
      `cpuNhop` is switch_api_cpu_nhop_get. */
  function ResolveNextHop(nhop: Handle, action: PacketAction, cpuNhop: ReasonCode -> Handle): (r: Handle)
    ensures nhop != 0 ==> r == nhop
    ensures nhop == 0 && action == PacketDrop ==> r == cpuNhop(RcNullDrop)
    ensures nhop == 0 && action == PacketTrap ==> r == cpuNhop(RcGlean)
    ensures nhop == 0 && action != PacketDrop && action != PacketTrap ==> r == 0
  {
    if nhop == 0 && action != NoAction then
      match action
      case PacketDrop => cpuNhop(RcNullDrop)
      case PacketTrap => cpuNhop(RcGlean)
      case _ => nhop
    else nhop
  }

  /** What a create call does: its status and the route it adds, if any. */
  datatype RouteEffect = RouteEffect(status: Status, added: Option<(Handle, SwitchIpAddr, Handle)>)

  /** sai_create_route_entry: parse, resolve the next hop, and add the route
      only when a next hop results. `routeAdd` is switch_api_l3_route_add. */
  method CreateRouteEntry(entry: RouteEntry, attrs: seq<RouteAttr>,
                          cpuNhop: ReasonCode -> Handle,
                          routeAdd: (Handle, SwitchIpAddr, Handle) -> Status)
    returns (e: RouteEffect)
    ensures var nhop := ResolveNextHop(LastOf(attrs, PickNextHop, 0), LastOf(attrs, PickAction, NoAction), cpuNhop);
      (e.added.Some? <==> nhop != 0) &&
      (e.added.None? ==> e.status == Success) &&
      (e.added.Some? ==> e.added.value.0 == entry.vrId && e.added.value.2 == nhop &&
                         e.status == routeAdd(e.added.value.0, e.added.value.1, nhop))
    ensures e.added.Some? && entry.destination.family.FamilyIpv4? ==>
      e.added.value.1 == IpV4(Ntohl(entry.destination.addr4), PopCount(Ntohl(entry.destination.mask4)))
    ensures e.added.Some? && entry.destination.family.FamilyIpv6? ==>
      e.added.value.1 == IpV6(entry.destination.addr6, BytePopCount(entry.destination.mask6))
    ensures e.added.Some? && entry.destination.family.FamilyOther? ==> e.added.value.1 == IpZero
  {
    var vrfHandle, ipAddr := RouteEntryParse(entry);
    var nhopHandle, action, pri := RouteEntryAttributeParse(attrs, 0, NoAction, -1);
    nhopHandle := ResolveNextHop(nhopHandle, action, cpuNhop);
    if nhopHandle != 0 {
      var status := routeAdd(vrfHandle, ipAddr, nhopHandle);
      return RouteEffect(status, Some((vrfHandle, ipAddr, nhopHandle)));
    }
    return RouteEffect(Success, None);
  }

  /** An explicit next hop is used whatever the action; without one, a TRAP
      route goes to the GLEAN CPU next hop. */
  lemma ExplicitNextHopTakesPrecedence(attrs: seq<RouteAttr>, k: nat, cpuNhop: ReasonCode -> Handle)
    requires k < |attrs| && attrs[k].id.NextHopIdAttr? && attrs[k].value.oid != 0
    requires forall j :: k < j < |attrs| ==> !attrs[j].id.NextHopIdAttr?
    ensures ResolveNextHop(LastOf(attrs, PickNextHop, 0), LastOf(attrs, PickAction, NoAction), cpuNhop) == attrs[k].value.oid
  {
    LastOfWins(attrs, k, PickNextHop, 0);
  }

  /** A route with a FORWARD action and no next hop adds nothing. */
  lemma ForwardWithoutNextHopAddsNothing(attrs: seq<RouteAttr>, cpuNhop: ReasonCode -> Handle)
    requires forall j :: 0 <= j < |attrs| ==> !attrs[j].id.NextHopIdAttr?
    requires LastOf(attrs, PickAction, NoAction) == PacketForward
    ensures ResolveNextHop(LastOf(attrs, PickNextHop, 0), LastOf(attrs, PickAction, NoAction), cpuNhop) == 0
  {
    LastOfNone(attrs, PickNextHop, 0);
  }
}
