/** The ACL translator: per-shape qualifier capability tables, the table-shape
    classifier, the per-attribute field resolver, the value/mask transformer
    and the rule assembler. */
module Acl {
  import opened Common
  import opened SaiTypes
  import opened SwitchApi

  // ---------------------------------------------------------------------
  // Qualifier slots and attributes
  // ---------------------------------------------------------------------

  /** Number of qualifier slots, FIELD_END - FIELD_START + 1. */
  const FieldCount: nat := 30

  /** A qualifier slot: an attribute id's offset from the start of the field
      range. ACL table and ACL entry attributes share this numbering. */
  type Slot = s: nat | s < 30

  const SlotSrcIpv6: Slot := 0
  const SlotDstIpv6: Slot := 1
  const SlotSrcMac: Slot := 2
  const SlotDstMac: Slot := 3
  const SlotSrcIp: Slot := 4
  const SlotDstIp: Slot := 5
  const SlotInPorts: Slot := 6
  const SlotOutPorts: Slot := 7
  const SlotInPort: Slot := 8
  const SlotOutPort: Slot := 9
  const SlotOuterVlanId: Slot := 10
  const SlotOuterVlanPri: Slot := 11
  const SlotOuterVlanCfi: Slot := 12
  const SlotInnerVlanId: Slot := 13
  const SlotInnerVlanPri: Slot := 14
  const SlotInnerVlanCfi: Slot := 15
  const SlotL4SrcPort: Slot := 16
  const SlotL4DstPort: Slot := 17
  const SlotEtherType: Slot := 18
  const SlotIpProtocol: Slot := 19
  const SlotDscp: Slot := 20
  const SlotEcn: Slot := 21
  const SlotTtl: Slot := 22
  const SlotTos: Slot := 23
  const SlotIpFlags: Slot := 24
  const SlotTcpFlags: Slot := 25
  const SlotIpType: Slot := 26
  const SlotIpFrag: Slot := 27
  const SlotIpv6FlowLabel: Slot := 28
  const SlotTc: Slot := 29

  /** ACL attribute ids. FieldAttr covers the whole field range; OtherAttr is
      any id outside the field range that the code does not name. */
  datatype AttrId =
    | TableIdAttr
    | PriorityAttr
    | FieldAttr(slot: Slot)
    | RedirectAttr
    | PacketActionAttr
    | FloodAttr
    | OtherAttr

  /** sai_acl_field_data_t's data union, with the views the code reads. */
  datatype FieldData = FieldData(u8: U8, u16: U16, u32: U32, ip4: U32, mac: MacAddr, oid: Handle, objlist: seq<Handle>)

  /** sai_acl_field_data_t's mask union, with the views the code reads. */
  datatype FieldMask = FieldMask(u8: U8, u16: U16, ip4: U32, mac: MacAddr)

  datatype AclField = AclField(data: FieldData, mask: FieldMask)

  datatype AclAttr = AclAttr(id: AttrId, value: AclField)

  // ---------------------------------------------------------------------
  // Library ACL types and native fields
  // ---------------------------------------------------------------------

  /** switch_acl_type_t: the three shapes with a capability table, and the
      library's other ACL types, none of which has one. */
  datatype AclType = TypeIp | TypeIpv6 | TypeMac | TypeOther

  /** The order of the shapes in the library's enumeration as this model
      takes it (IPv4, IPv6, MAC); the classifier is stated for any order. */
  const LibraryTypeOrder: seq<AclType> := [TypeIp, TypeIpv6, TypeMac, TypeOther]

  datatype IpField =
    | IpSrc | IpDest | IpProto | IpL4SourcePort | IpL4DestPort | IpIcmpType | IpIcmpCode
    | IpTcpFlags | IpTtl | IpEthType | IpDscp | IpFlags | IpTos | IpFragment

  datatype Ipv6Field =
    | V6Src | V6Dest | V6IpProto | V6L4SourcePort | V6L4DestPort | V6IcmpType | V6IcmpCode
    | V6TcpFlags | V6Ttl | V6EthType | V6FlowLabel | V6Tos

  datatype MacField = MacSource | MacDest | MacVlanPri | MacVlanCfi | MacEthType

  /** A native field id of one shape. */
  datatype NativeField = IpF(ip: IpField) | Ipv6F(v6: Ipv6Field) | MacF(mac: MacField)

  /** SWITCH_ACL_IP_FIELD_MAX: the number of IPv4 native fields, which is also
      the size of the per-rule working arrays. */
  const IpFieldMax: nat := 14

  // ---------------------------------------------------------------------
  // Capability tables
  // ---------------------------------------------------------------------

  /** One capability table entry: -1, -2 or a native field id. */
  datatype Capability = Unsupported | PortRef | Native(field: NativeField)

  type CapTable = s: seq<Capability> | |s| == 30 witness seq(30, _ => Unsupported)

  const U := Unsupported
  const P := PortRef

  const IpAcl: CapTable := [
    U, U,                                   // IPv6
    U, U,                                   // MAC
    Native(IpF(IpSrc)), Native(IpF(IpDest)), // IPv4
    P, U, P, U,                             // ports
    U, U, U, U, U, U,                       // outer and inner VLAN
    Native(IpF(IpL4SourcePort)), Native(IpF(IpL4DestPort)),
    Native(IpF(IpEthType)),
    Native(IpF(IpProto)),
    Native(IpF(IpDscp)),
    U,                                      // ECN
    Native(IpF(IpTtl)),
    Native(IpF(IpTos)),
    Native(IpF(IpFlags)),
    Native(IpF(IpTcpFlags)),
    U, U, U, U                              // IP type, IP fragment, flow label, TC
  ]

  const Ipv6Acl: CapTable := [
    Native(Ipv6F(V6Src)), Native(Ipv6F(V6Dest)),
    U, U,
    U, U,
    P, U, P, U,
    U, U, U, U, U, U,
    Native(Ipv6F(V6L4SourcePort)), Native(Ipv6F(V6L4DestPort)),
    Native(Ipv6F(V6EthType)),
    Native(Ipv6F(V6IpProto)),
    U,                                      // DSCP
    U,                                      // ECN
    Native(Ipv6F(V6Ttl)),
    Native(Ipv6F(V6Tos)),
    U,                                      // IP flags
    Native(Ipv6F(V6TcpFlags)),
    U, U,
    Native(Ipv6F(V6FlowLabel)),
    U
  ]

  const MacAcl: CapTable := [
    U, U,
    Native(MacF(MacSource)), Native(MacF(MacDest)),
    U, U,
    P, U, P, U,
    U, Native(MacF(MacVlanPri)), Native(MacF(MacVlanCfi)), U, U, U,
    U, U,
    Native(MacF(MacEthType)),
    U, U, U, U, U, U, U, U, U, U, U
  ]

  /** get_p4_match_table: the capability table of a type, if it has one. */
  function MatchTable(t: AclType): (r: Option<CapTable>)
    ensures r.Some? <==> !t.TypeOther?
  {
    match t
    case TypeIp => Some(IpAcl)
    case TypeIpv6 => Some(Ipv6Acl)
    case TypeMac => Some(MacAcl)
    case TypeOther => None
  }

  /** Every entry of a shape's table is -1, -2 or a native field of that shape. */
  predicate FieldOfShape(t: AclType, f: NativeField)
  {
    match t
    case TypeIp => f.IpF?
    case TypeIpv6 => f.Ipv6F?
    case TypeMac => f.MacF?
    case TypeOther => false
  }

  lemma TablesHoldOwnFields(t: AclType, s: Slot)
    requires MatchTable(t).Some?
    ensures MatchTable(t).value[s].Native? ==> FieldOfShape(t, MatchTable(t).value[s].field)
    ensures MatchTable(t).value[SlotInPorts] == PortRef && MatchTable(t).value[SlotInPort] == PortRef
  {
  }

  // ---------------------------------------------------------------------
  // Table-shape classifier (match_table_type)
  // ---------------------------------------------------------------------

  /** Port and VLAN attributes that the classifier does not look up. */
  predicate SkippedInClassification(id: AttrId)
  {
    id == FieldAttr(SlotInPorts) || id == FieldAttr(SlotOutPorts) ||
    id == FieldAttr(SlotInPort) || id == FieldAttr(SlotOutPort) ||
    id == FieldAttr(SlotOuterVlanId) || id == FieldAttr(SlotInnerVlanId)
  }

  /** The classifier gives up on attribute a with this table. */
  predicate Rejects(table: CapTable, a: AclAttr)
  {
    !SkippedInClassification(a.id) && a.id.FieldAttr? && table[a.id.slot] == Unsupported
  }

  /** The first type in `order` that has a capability table. */
  function FirstTabled(order: seq<AclType>): (r: Option<AclType>)
    ensures r.Some? ==> r.value in order && MatchTable(r.value).Some?
    ensures r.None? <==> forall k :: 0 <= k < |order| ==> MatchTable(order[k]).None?
  {
    if |order| == 0 then None
    else if MatchTable(order[0]).Some? then Some(order[0])
    else FirstTabled(order[1..])
  }

  /** The table lookup indexes the table by the attribute id, so an id outside
      the field range must not be reached: every such attribute comes after
      one that the first tabled type already rejects. */
  predicate LookupsInRange(order: seq<AclType>, attrs: seq<AclAttr>)
  {
    match FirstTabled(order)
    case None => true
    case Some(t) =>
      forall j :: 0 <= j < |attrs| && !attrs[j].id.FieldAttr? ==>
        exists k :: 0 <= k < j && Rejects(MatchTable(t).value, attrs[k])
  }

  /** What the classifier computes: the first tabled type if that type's
      table rejects none of the attributes, and no type otherwise. */
  function Classification(order: seq<AclType>, attrs: seq<AclAttr>): (r: Option<AclType>)
    ensures r.Some? ==> r == FirstTabled(order)
  {
    match FirstTabled(order)
    case None => None
    case Some(t) =>
      if forall j :: 0 <= j < |attrs| ==> !Rejects(MatchTable(t).value, attrs[j]) then Some(t) else None
  }

  /** match_table_type: walk the types in order; for the first one with a
      table either every attribute is supported or the call fails at once. */
  method MatchTableType(order: seq<AclType>, attrs: seq<AclAttr>) returns (r: Option<AclType>)
    requires LookupsInRange(order, attrs)
    ensures r == Classification(order, attrs)
  {
    var i := 0;
    while i < |order|
      invariant 0 <= i <= |order|
      invariant forall k :: 0 <= k < i ==> MatchTable(order[k]).None?
      invariant FirstTabled(order) == FirstTabled(order[i..])
    {
      var table := MatchTable(order[i]);
      if table.Some? {
        var j := 0;
        while j < |attrs|
          invariant 0 <= j <= |attrs|
          invariant forall k :: 0 <= k < j ==> !Rejects(table.value, attrs[k])
        {
          var id := attrs[j].id;
          if !SkippedInClassification(id) {
            if !id.FieldAttr? {
              assert false;
            }
            if table.value[id.slot] == Unsupported {
              return None;
            }
          }
          j := j + 1;
        }
        return Some(order[i]);
      }
      assert order[i..][1..] == order[i + 1..];
      i := i + 1;
    }
    return None;
  }

  /** Attributes that the classifier skips never change its outcome. */
  lemma {:induction false} SkippedAttributesIrrelevant(order: seq<AclType>, attrs: seq<AclAttr>, a: AclAttr, k: nat)
    requires SkippedInClassification(a.id) && k <= |attrs|
    ensures Classification(order, attrs[..k] + [a] + attrs[k..]) == Classification(order, attrs)
  {
    var s := attrs[..k] + [a] + attrs[k..];
    if FirstTabled(order).Some? {
      var table := MatchTable(FirstTabled(order).value).value;
      assert (forall j :: 0 <= j < |s| ==> !Rejects(table, s[j])) <==>
             (forall j :: 0 <= j < |attrs| ==> !Rejects(table, attrs[j])) by {
        forall j | 0 <= j < |attrs|
          ensures attrs[j] == s[if j < k then j else j + 1]
        {
        }
        forall j | 0 <= j < |s| && j != k
          ensures s[j] == attrs[if j < k then j else j - 1]
        {
        }
      }
    }
  }

  /** With the library order only the IPv4 shape can ever be classified:
      IPv6 and MAC tables are never selected. */
  lemma OnlyFirstShapeClassified(attrs: seq<AclAttr>)
    ensures Classification(LibraryTypeOrder, attrs) == None || Classification(LibraryTypeOrder, attrs) == Some(TypeIp)
  {
    assert FirstTabled(LibraryTypeOrder) == Some(TypeIp);
  }

  /** The classifier succeeds exactly when every attribute it looks up is
      supported by the IPv4 table. */
  lemma ClassifiedIffIpSupports(attrs: seq<AclAttr>)
    ensures Classification(LibraryTypeOrder, attrs) == Some(TypeIp) <==>
            forall j :: 0 <= j < |attrs| ==> !Rejects(IpAcl, attrs[j])
  {
    assert FirstTabled(LibraryTypeOrder) == Some(TypeIp);
  }

  /** Counterexample: an IPv6 source address qualifier is supported by the
      IPv6 table, yet the classifier fails without trying that table. */
  lemma ClassifierRejectsIpv6Only()
    ensures Classification(LibraryTypeOrder, [AclAttr(FieldAttr(SlotSrcIpv6), AnyField)]) == None
    ensures Supports(TypeIpv6, [AclAttr(FieldAttr(SlotSrcIpv6), AnyField)])
  {
    var s := [AclAttr(FieldAttr(SlotSrcIpv6), AnyField)];
    assert FirstTabled(LibraryTypeOrder) == Some(TypeIp);
    assert Rejects(IpAcl, s[0]);
  }

  const AnyField := AclField(FieldData(0, 0, 0, 0, ZeroMac, 0, []), FieldMask(0, 0, 0, ZeroMac))

  /** The type has a table and that table rejects none of the attributes. */
  predicate Supports(t: AclType, attrs: seq<AclAttr>)
  {
    MatchTable(t).Some? && forall j :: 0 <= j < |attrs| ==> !Rejects(MatchTable(t).value, attrs[j])
  }

  /** The classifier as designed: the first type in order whose table
      supports every qualifier that is not a port or VLAN reference. */
  function ClassifyShape(order: seq<AclType>, attrs: seq<AclAttr>): (r: Option<AclType>)
    ensures r.Some? ==> r.value in order && Supports(r.value, attrs)
    ensures r.None? <==> forall k :: 0 <= k < |order| ==> !Supports(order[k], attrs)
  {
    if |order| == 0 then None
    else if Supports(order[0], attrs) then Some(order[0])
    else
      var r := ClassifyShape(order[1..], attrs);
      assert forall k :: 1 <= k < |order| ==> order[k] == order[1..][k - 1];
      r
  }

  /** The designed classifier picks the earliest supporting shape. */
  lemma {:induction false} ClassifyShapeIsFirst(order: seq<AclType>, attrs: seq<AclAttr>, k: nat)
    requires k < |order| && Supports(order[k], attrs)
    requires forall i :: 0 <= i < k ==> !Supports(order[i], attrs)
    ensures ClassifyShape(order, attrs) == Some(order[k])
  {
    if k > 0 {
      forall i | 0 <= i < k - 1
        ensures !Supports(order[1..][i], attrs)
      {
        assert order[1..][i] == order[i + 1];
      }
      ClassifyShapeIsFirst(order[1..], attrs, k - 1);
    }
  }

  /** Whenever the source's classifier succeeds, the designed one agrees. */
  lemma ClassificationAgreesWhenFound(order: seq<AclType>, attrs: seq<AclAttr>)
    requires Classification(order, attrs).Some?
    ensures ClassifyShape(order, attrs) == Classification(order, attrs)
  {
    FirstTabledPrefix(order, attrs);
  }

  lemma {:induction false} FirstTabledPrefix(order: seq<AclType>, attrs: seq<AclAttr>)
    requires FirstTabled(order).Some?
    requires forall j :: 0 <= j < |attrs| ==> !Rejects(MatchTable(FirstTabled(order).value).value, attrs[j])
    ensures ClassifyShape(order, attrs) == FirstTabled(order)
  {
    if MatchTable(order[0]).None? {
      FirstTabledPrefix(order[1..], attrs);
    }
  }

  /** Scenario: L4 ports and an IPv4 source classify as the IPv4 shape. */
  lemma ScenarioClassifyIpv4(v: AclField)
    ensures Classification(LibraryTypeOrder,
      [AclAttr(FieldAttr(SlotL4SrcPort), v), AclAttr(FieldAttr(SlotL4DstPort), v), AclAttr(FieldAttr(SlotSrcIp), v)]) == Some(TypeIp)
  {
    assert FirstTabled(LibraryTypeOrder) == Some(TypeIp);
  }

  /** Scenario: an IPv6 source and TTL give the IPv6 shape by design, which
      the source's classifier does not reach. */
  lemma ScenarioClassifyIpv6(v: AclField)
    ensures ClassifyShape(LibraryTypeOrder, [AclAttr(FieldAttr(SlotSrcIpv6), v), AclAttr(FieldAttr(SlotTtl), v)]) == Some(TypeIpv6)
    ensures Classification(LibraryTypeOrder, [AclAttr(FieldAttr(SlotSrcIpv6), v), AclAttr(FieldAttr(SlotTtl), v)]) == None
  {
    var s := [AclAttr(FieldAttr(SlotSrcIpv6), v), AclAttr(FieldAttr(SlotTtl), v)];
    assert Rejects(IpAcl, s[0]);
    assert FirstTabled(LibraryTypeOrder) == Some(TypeIp);
    assert !Rejects(Ipv6Acl, s[0]) && !Rejects(Ipv6Acl, s[1]);
    assert Supports(TypeIpv6, s);
    ClassifyShapeIsFirst(LibraryTypeOrder, s, 1);
  }

  /** Scenario: mixing an IPv4 and an IPv6 address matches no shape. */
  lemma ScenarioClassifyMixed(v: AclField)
    ensures ClassifyShape(LibraryTypeOrder, [AclAttr(FieldAttr(SlotSrcIp), v), AclAttr(FieldAttr(SlotDstIpv6), v)]) == None
  {
    var s := [AclAttr(FieldAttr(SlotSrcIp), v), AclAttr(FieldAttr(SlotDstIpv6), v)];
    assert Rejects(IpAcl, s[1]) && Rejects(Ipv6Acl, s[0]) && Rejects(MacAcl, s[0]);
    assert LibraryTypeOrder[1..] == [TypeIpv6, TypeMac, TypeOther];
    assert LibraryTypeOrder[1..][1..] == [TypeMac, TypeOther];
    assert LibraryTypeOrder[1..][1..][1..] == [TypeOther];
  }

  // ---------------------------------------------------------------------
  // Table creation
  // ---------------------------------------------------------------------

  /** sai_create_acl_table: classify, then ask the library for a list of that
      type (`listCreate`); the id is written only on success. */
  method CreateAclTable(order: seq<AclType>, attrs: seq<AclAttr>, listCreate: AclType -> Handle)
    returns (status: Status, tableId: Option<Handle>)
    requires LookupsInRange(order, attrs)
    ensures status == InvalidParameter <==> Classification(order, attrs).None?
    ensures status == Success || status == InvalidParameter
    ensures tableId.Some? <==> status == Success
    ensures tableId.Some? ==> tableId.value == listCreate(Classification(order, attrs).value)
  {
    var aclType := MatchTableType(order, attrs);
    if aclType.None? {
      return InvalidParameter, None;
    }
    return Success, Some(listCreate(aclType.value));
  }

  // ---------------------------------------------------------------------
  // Per-attribute field resolver (match_table_field)
  // ---------------------------------------------------------------------

  /** Resolution stops at attribute a: a field the table does not support. */
  predicate Blocks(table: CapTable, a: AclAttr)
  {
    a.id.FieldAttr? && table[a.id.slot] == Unsupported
  }

  /** Every field attribute resolves to -2 or a native field. */
  predicate FieldsResolve(table: CapTable, attrs: seq<AclAttr>)
  {
    forall j :: 0 <= j < |attrs| ==> !Blocks(table, attrs[j])
  }

  /** The position of the first blocking attribute at or after `from`, or the
      end of the list: the positions the resolver gets through. */
  function ScanEnd(table: CapTable, attrs: seq<AclAttr>, from: nat): (n: nat)
    requires from <= |attrs|
    ensures from <= n <= |attrs|
    ensures forall j :: from <= j < n ==> !Blocks(table, attrs[j])
    ensures n < |attrs| ==> Blocks(table, attrs[n])
    decreases |attrs| - from
  {
    if from == |attrs| || Blocks(table, attrs[from]) then from else ScanEnd(table, attrs, from + 1)
  }

  /** The resolver's array after its run: positions it got through that hold
      a field attribute carry the table entry, all others keep their value. */
  ghost predicate Resolved(table: CapTable, attrs: seq<AclAttr>, before: seq<Capability>, after: seq<Capability>)
  {
    |after| == |before| &&
    forall k :: 0 <= k < |after| ==>
      after[k] == if k < ScanEnd(table, attrs, 0) && attrs[k].id.FieldAttr? then table[attrs[k].id.slot] else before[k]
  }

  /** match_table_field: write the table entry of every field attribute at the
      attribute's position; fail at the first unsupported field. */
  method MatchTableField(t: AclType, attrs: seq<AclAttr>, matchFields: array<Capability>) returns (ok: bool)
    requires |attrs| <= matchFields.Length
    modifies matchFields
    ensures ok <==> MatchTable(t).Some? && FieldsResolve(MatchTable(t).value, attrs)
    ensures MatchTable(t).None? ==> matchFields[..] == old(matchFields[..])
    ensures MatchTable(t).Some? ==> Resolved(MatchTable(t).value, attrs, old(matchFields[..]), matchFields[..])
  {
    var table := MatchTable(t);
    if table.None? {
      return false;
    }
    var j := 0;
    while j < |attrs|
      invariant 0 <= j <= |attrs|
      invariant forall k :: 0 <= k < j ==> !Blocks(table.value, attrs[k])
      invariant forall k :: 0 <= k < matchFields.Length ==>
        matchFields[k] == if k < j && attrs[k].id.FieldAttr? then table.value[attrs[k].id.slot] else old(matchFields[k])
    {
      var id := attrs[j].id;
      if id.FieldAttr? {
        if table.value[id.slot] != Unsupported {
          matchFields[j] := table.value[id.slot];
        } else {
          assert ScanEnd(table.value, attrs, 0) == j;
          return false;
        }
      }
      j := j + 1;
    }
    assert ScanEnd(table.value, attrs, 0) == |attrs|;
    return true;
  }

  /** The resolved entry of every attribute position. */
  function CellsOf(table: CapTable, attrs: seq<AclAttr>): (cells: seq<Capability>)
    ensures |cells| == |attrs|
  {
    seq(|attrs|, j requires 0 <= j < |attrs| =>
      if attrs[j].id.FieldAttr? then table[attrs[j].id.slot] else Unsupported)
  }

  /** Port and VLAN qualifiers other than IN_PORT(S) are -1 in every table, so
      the resolver fails for any rule that carries one of them. */
  lemma ReferenceQualifiersBlock(t: AclType, attrs: seq<AclAttr>, k: nat)
    requires MatchTable(t).Some? && k < |attrs|
    requires attrs[k].id in {FieldAttr(SlotOutPorts), FieldAttr(SlotOutPort), FieldAttr(SlotOuterVlanId), FieldAttr(SlotInnerVlanId)}
    ensures !FieldsResolve(MatchTable(t).value, attrs)
  {
    assert Blocks(MatchTable(t).value, attrs[k]);
  }

  // ---------------------------------------------------------------------
  // Value/mask transformer (xform_field_value)
  // ---------------------------------------------------------------------

  /** The members of the library's key value union that the code writes. */
  datatype KeyMember =
    | MIpv4Source | MIpv4Dest | MIpProto | ML4SourcePort | ML4DestPort | MTcpFlags | MTtl
    | MEthType | MDscp | MIpFlags | MTos | MIpFrag
    | MSourceMac | MDestMac | MVlanPri | MVlanCfi

  datatype Datum = Scalar(n: nat) | Bytes(b: seq<U8>)

  /** The member of the key mask union last written: `mask`, `mask16` or
      `mac_mask`; MaskUnwritten when the transformer wrote none. */
  datatype KeyMask = MaskUnwritten | MaskScalar(m: nat) | Mask16(m: nat) | MaskMac(b: MacAddr)

  /** A key/value pair: the native field, the value members written (a member
      not in the map is left as allocated) and the mask. */
  datatype KeyValuePair = KeyValuePair(field: NativeField, value: map<KeyMember, Datum>, mask: KeyMask)

  /** A pair with its field set and nothing else written yet. */
  function BlankKey(f: NativeField): KeyValuePair
  {
    KeyValuePair(f, map[], MaskUnwritten)
  }

  function Put(k: KeyValuePair, m: KeyMember, d: Datum, mask: KeyMask): (r: KeyValuePair)
    ensures r.field == k.field && r.value.Keys == k.value.Keys + {m} && r.value[m] == d && r.mask == mask
  {
    k.(value := k.value[m := d], mask := mask)
  }

  /** The IPv4 branch of the transformer. */
  function XformIp(k: KeyValuePair, f: IpField, src: AclField): (r: KeyValuePair)
    requires k.value == map[]
    ensures r.field == k.field && r.value != map[] && r.mask != MaskUnwritten
    ensures |r.value.Keys| <= 2
  {
    match f
    case IpSrc => Put(k, MIpv4Source, Scalar(Ntohl(src.data.ip4)), MaskScalar(Ntohl(src.mask.ip4)))
    case IpDest => Put(k, MIpv4Dest, Scalar(Ntohl(src.data.ip4)), MaskScalar(Ntohl(src.mask.ip4)))
    case IpProto => Put(k, MIpProto, Scalar(src.data.u16), MaskScalar(src.mask.u16))
    case IpL4SourcePort => Put(k, ML4SourcePort, Scalar(src.data.u16), MaskScalar(src.mask.u16))
    case IpL4DestPort => Put(k, ML4DestPort, Scalar(src.data.u16), MaskScalar(src.mask.u16))
    case IpIcmpType | IpIcmpCode | IpTcpFlags =>
      // no break: control falls through into the TTL case
      var k1 := Put(k, MTcpFlags, Scalar(src.data.u8), MaskScalar(src.mask.u8));
      Put(k1, MTtl, Scalar(src.data.u8), MaskScalar(src.mask.u8))
    case IpTtl => Put(k, MTtl, Scalar(src.data.u8), MaskScalar(src.mask.u8))
    case IpEthType => Put(k, MEthType, Scalar(src.data.u16), MaskScalar(src.mask.u16))
    case IpDscp => Put(k, MDscp, Scalar(src.data.u8), MaskScalar(src.mask.u8))
    case IpFlags => Put(k, MIpFlags, Scalar(src.data.u8), MaskScalar(src.mask.u8))
    case IpTos => Put(k, MTos, Scalar(src.data.u8), MaskScalar(src.mask.u8))
    case IpFragment => Put(k, MIpFrag, Scalar(src.data.u8), MaskScalar(src.mask.u8))
  }

  /** The MAC branch of the transformer. */
  function XformMac(k: KeyValuePair, f: MacField, src: AclField): (r: KeyValuePair)
    requires k.value == map[]
    ensures r.field == k.field && r.value != map[] && r.mask != MaskUnwritten
    ensures |r.value.Keys| == 1
  {
    match f
    case MacSource => Put(k, MSourceMac, Bytes(src.data.mac), MaskMac(src.mask.mac))
    case MacDest => Put(k, MDestMac, Bytes(src.data.mac), MaskMac(src.mask.mac))
    case MacVlanPri => Put(k, MVlanPri, Scalar(src.data.u8), Mask16(src.mask.u8))
    case MacVlanCfi => Put(k, MVlanCfi, Scalar(src.data.u8), Mask16(src.mask.u8))
    case MacEthType => Put(k, MEthType, Scalar(src.data.u16), Mask16(src.mask.u16))
  }

  /** xform_field_value: translate one qualifier's value and mask for the
      table's type. Every IPv6 field, and any field the type's branch does not
      name, leaves the pair as it was. */
  function XformFieldValue(t: AclType, field: NativeField, src: AclField): (k: KeyValuePair)
    ensures k.field == field
    ensures |k.value.Keys| <= 2
    ensures k.value == map[] <==> k.mask == MaskUnwritten
    ensures !FieldOfShape(t, field) || t.TypeIpv6? ==> k == BlankKey(field)
  {
    if t.TypeIp? && field.IpF? then XformIp(BlankKey(field), field.ip, src)
    else if t.TypeMac? && field.MacF? then XformMac(BlankKey(field), field.mac, src)
    else BlankKey(field)
  }

  /** IPv4 addresses: value and mask are converted to host order, and
      converting them back yields the network-order words of the input. */
  lemma XformIpv4RoundTrip(f: IpField, src: AclField)
    requires f == IpSrc || f == IpDest
    ensures var k := XformFieldValue(TypeIp, IpF(f), src);
      var m := if f == IpSrc then MIpv4Source else MIpv4Dest;
      k.value.Keys == {m} && k.value[m].Scalar? && k.mask.MaskScalar? &&
      k.value[m].n < 0x1_0000_0000 && k.mask.m < 0x1_0000_0000 &&
      Ntohl(k.value[m].n) == src.data.ip4 && Ntohl(k.mask.m) == src.mask.ip4
  {
    NtohlInvolution(src.data.ip4);
    NtohlInvolution(src.mask.ip4);
  }

  /** The TCP-flags / ICMP case falls through into TTL: both members receive
      the 8-bit value and the mask ends as the 8-bit mask. */
  lemma XformTcpFlagsFallthrough(f: IpField, src: AclField)
    requires f == IpIcmpType || f == IpIcmpCode || f == IpTcpFlags
    ensures var k := XformFieldValue(TypeIp, IpF(f), src);
      k.value == map[MTcpFlags := Scalar(src.data.u8), MTtl := Scalar(src.data.u8)] &&
      k.mask == MaskScalar(src.mask.u8)
  {
  }

  /** MAC addresses: exactly the 6 address bytes go into the one value member
      and into the MAC mask. */
  lemma XformMacCopies(f: MacField, src: AclField)
    requires f == MacSource || f == MacDest
    ensures var k := XformFieldValue(TypeMac, MacF(f), src);
      var m := if f == MacSource then MSourceMac else MDestMac;
      k.value == map[m := Bytes(src.data.mac)] && |k.value[m].b| == 6 && k.mask == MaskMac(src.mask.mac)
  {
  }

  /** VLAN priority, VLAN CFI and Ethernet type in a MAC table use the 16-bit mask. */
  lemma XformMacScalarsUseMask16(f: MacField, src: AclField)
    requires f == MacVlanPri || f == MacVlanCfi || f == MacEthType
    ensures XformFieldValue(TypeMac, MacF(f), src).mask.Mask16?
  {
  }

  /** Scenario: destination 10.0.0.1/32, given in network byte order (the word
      a little-endian host reads as 0x0100000A), becomes 0x0A000001/0xFFFFFFFF. */
  lemma ScenarioIpv4DestKey(v: AclField)
    requires v.data.ip4 == 0x0100_000A && v.mask.ip4 == 0xFFFF_FFFF
    ensures XformFieldValue(TypeIp, IpF(IpDest), v) ==
      KeyValuePair(IpF(IpDest), map[MIpv4Dest := Scalar(0x0A00_0001)], MaskScalar(0xFFFF_FFFF))
  {
    assert WordBytes(0x0100_000A) == [1, 0, 0, 10];
    assert WordBytes(0xFFFF_FFFF) == [255, 255, 255, 255];
  }

  // ---------------------------------------------------------------------
  // Key list
  // ---------------------------------------------------------------------

  /** The key produced at one position: one pair for a native field, none for
      a reference (-2) or an unresolved (-1) position. */
  function KeyAt(t: AclType, c: Capability, a: AclAttr): seq<KeyValuePair>
  {
    if c.Native? then [XformFieldValue(t, c.field, a.value)] else []
  }

  /** The key list for positions 0 .. |cells| - 1, in position order. */
  function Keys(t: AclType, cells: seq<Capability>, attrs: seq<AclAttr>): seq<KeyValuePair>
    requires |cells| <= |attrs|
  {
    if |cells| == 0 then []
    else Keys(t, cells[..|cells| - 1], attrs) + KeyAt(t, cells[|cells| - 1], attrs[|cells| - 1])
  }

  /** The positions before p whose entry is a native field. */
  function NativeBefore(cells: seq<Capability>, p: nat): set<nat>
  {
    set j: nat | j < p && j < |cells| && cells[j].Native?
  }

  lemma NativeBeforeStep(cells: seq<Capability>, p: nat)
    requires p < |cells|
    ensures NativeBefore(cells, p + 1) == NativeBefore(cells, p) + (if cells[p].Native? then {p} else {})
    ensures p !in NativeBefore(cells, p)
  {
  }

  lemma NativeBeforePrefix(cells: seq<Capability>, n: nat, p: nat)
    requires p <= n <= |cells|
    ensures NativeBefore(cells[..n], p) == NativeBefore(cells, p)
  {
  }

  /** The key list holds exactly one pair per native position. */
  lemma {:induction false} KeysCount(t: AclType, cells: seq<Capability>, attrs: seq<AclAttr>)
    requires |cells| <= |attrs|
    ensures |Keys(t, cells, attrs)| == |NativeBefore(cells, |cells|)|
  {
    if |cells| > 0 {
      var n := |cells| - 1;
      KeysCount(t, cells[..n], attrs);
      NativeBeforePrefix(cells, n, n);
      NativeBeforeStep(cells, n);
    }
  }

  /** ... and the pair of native position p sits after those of the native
      positions before p: the list is in position order. */
  lemma {:induction false} KeyOfPosition(t: AclType, cells: seq<Capability>, attrs: seq<AclAttr>, p: nat)
    requires |cells| <= |attrs| && p < |cells| && cells[p].Native?
    ensures |NativeBefore(cells, p)| < |Keys(t, cells, attrs)|
    ensures Keys(t, cells, attrs)[|NativeBefore(cells, p)|] == XformFieldValue(t, cells[p].field, attrs[p].value)
  {
    var n := |cells| - 1;
    NativeBeforePrefix(cells, n, p);
    if p < n {
      KeyOfPosition(t, cells[..n], attrs, p);
    } else {
      KeysCount(t, cells[..n], attrs);
      NativeBeforePrefix(cells, n, n);
    }
  }

  /** Positions that are references or unresolved contribute no key. */
  lemma {:induction false} NoNativeNoKeys(t: AclType, cells: seq<Capability>, attrs: seq<AclAttr>)
    requires |cells| <= |attrs|
    requires forall j :: 0 <= j < |cells| ==> !cells[j].Native?
    ensures Keys(t, cells, attrs) == []
  {
    KeysCount(t, cells, attrs);
    assert NativeBefore(cells, |cells|) == {};
  }

  // ---------------------------------------------------------------------
  // Rule assembler (sai_create_acl_entry)
  // ---------------------------------------------------------------------

  function PickTableId(a: AclAttr): Option<Handle>
  {
    if a.id.TableIdAttr? then Some(a.value.data.oid) else None
  }

  function PickPriority(a: AclAttr): Option<U32>
  {
    if a.id.PriorityAttr? then Some(a.value.data.u32) else None
  }

  /** The action an action attribute selects; PACKET_ACTION selects DROP
      whatever packet action it carries. */
  function PickAction(a: AclAttr): Option<AclAction>
  {
    match a.id
    case RedirectAttr => Some(AclRedirect)
    case PacketActionAttr => Some(AclDrop)
    case FloodAttr => Some(AclFloodToVlan)
    case _ => None
  }

  function PickRedirect(a: AclAttr): Option<Handle>
  {
    if a.id.RedirectAttr? then Some(a.value.data.oid) else None
  }

  function TableIdOf(attrs: seq<AclAttr>): Handle { LastOf(attrs, PickTableId, 0) }
  function PriorityOf(attrs: seq<AclAttr>): U32 { LastOf(attrs, PickPriority, 0) }
  function ActionOf(attrs: seq<AclAttr>): AclAction { LastOf(attrs, PickAction, AclActionZero) }
  function RedirectOf(attrs: seq<AclAttr>): Handle { LastOf(attrs, PickRedirect, 0) }

  /** The handles an attribute adds to the reference list, in insertion
      order: every IN_PORTS element, the IN_PORT and the OUTER_VLAN_ID object. */
  function HandlesOf(a: AclAttr): seq<Handle>
  {
    if a.id == FieldAttr(SlotInPorts) then a.value.data.objlist
    else if a.id == FieldAttr(SlotInPort) || a.id == FieldAttr(SlotOuterVlanId) then [a.value.data.oid]
    else []
  }

  /** All handles, in the order they are inserted. */
  function InsertedHandles(attrs: seq<AclAttr>): seq<Handle>
  {
    if |attrs| == 0 then [] else InsertedHandles(attrs[..|attrs| - 1]) + HandlesOf(attrs[|attrs| - 1])
  }

  /** The rule handed to the library. */
  datatype AclRule = AclRule(table: Handle, priority: U32, keys: seq<KeyValuePair>, action: AclAction, redirect: Handle)

  /** What one call does: its status, the entry id written back (cleared to 0
      on entry, so 0 unless a rule is created), the rule created and the
      handles passed to switch_api_acl_reference, in call order. */
  datatype EntryEffect = EntryEffect(status: Status, entryId: Handle, rule: Option<AclRule>, references: seq<Handle>)

  /** The table's type, when the table id names a known table. */
  function TableTypeOf(attrs: seq<AclAttr>, aclGet: Handle -> Option<AclType>): Option<AclType>
  {
    if TableIdOf(attrs) == 0 then None else aclGet(TableIdOf(attrs))
  }

  /** The entry gets a rule: a known table of a tabled type, every field
      resolves and at least one key results. */
  predicate MakesRule(attrs: seq<AclAttr>, aclGet: Handle -> Option<AclType>)
  {
    match TableTypeOf(attrs, aclGet)
    case None => false
    case Some(t) =>
      MatchTable(t).Some? && FieldsResolve(MatchTable(t).value, attrs) &&
      |Keys(t, CellsOf(MatchTable(t).value, attrs), attrs)| > 0
  }

  lemma CellsPrefix(table: CapTable, attrs: seq<AclAttr>, n: nat)
    requires n <= |attrs|
    ensures CellsOf(table, attrs)[..n] == CellsOf(table, attrs[..n])
  {
  }

  /** What the attribute walk leaves in its variables. */
  datatype EntryAttributes = EntryAttributes(table: Handle, priority: U32, action: AclAction, redirect: Handle, handles: seq<Handle>)

  /** The walk's result as the attribute folds define it; the handle list is
      built by head insertion, so it holds the inserted handles reversed. */
  function AttributesOf(attrs: seq<AclAttr>): EntryAttributes
  {
    EntryAttributes(TableIdOf(attrs), PriorityOf(attrs), ActionOf(attrs), RedirectOf(attrs), Reverse(InsertedHandles(attrs)))
  }

  /** The effect of walking one more attribute: it updates only its own
      variable and puts its handles, reversed, at the head of the list. */
  function StepAttributes(w: EntryAttributes, a: AclAttr): EntryAttributes
  {
    EntryAttributes(
      if a.id.TableIdAttr? then a.value.data.oid else w.table,
      if a.id.PriorityAttr? then a.value.data.u32 else w.priority,
      if PickAction(a).Some? then PickAction(a).value else w.action,
      if a.id.RedirectAttr? then a.value.data.oid else w.redirect,
      Reverse(HandlesOf(a)) + w.handles)
  }

  /** One more attribute walked. */
  lemma AttributesStep(attrs: seq<AclAttr>, i: nat)
    requires i < |attrs|
    ensures AttributesOf(attrs[..i + 1]) == StepAttributes(AttributesOf(attrs[..i]), attrs[i])
  {
    var a := attrs[i];
    assert attrs[..i + 1] == attrs[..i] + [a];
    LastOfSnoc(attrs[..i], a, PickTableId, 0);
    LastOfSnoc(attrs[..i], a, PickPriority, 0);
    LastOfSnoc(attrs[..i], a, PickAction, AclActionZero);
    LastOfSnoc(attrs[..i], a, PickRedirect, 0);
    assert attrs[..i + 1][..i] == attrs[..i];
    ReverseAppend(InsertedHandles(attrs[..i]), HandlesOf(a));
  }

  /** Insert every element of `objs`, in order, at the head of `list`. */
  method InsertAllAtHead(list: seq<Handle>, objs: seq<Handle>) returns (r: seq<Handle>)
    ensures r == Reverse(objs) + list
    ensures |r| == |list| + |objs| && r[|objs|..] == list
    ensures forall k :: 0 <= k < |objs| ==> r[k] == objs[|objs| - 1 - k]
  {
    r := list;
    var j := 0;
    while j < |objs|
      invariant 0 <= j <= |objs|
      invariant r == Reverse(objs[..j]) + list
    {
      ReverseAppend(objs[..j], [objs[j]]);
      assert objs[..j + 1] == objs[..j] + [objs[j]];
      r := [objs[j]] + r;
      j := j + 1;
    }
    assert objs[..j] == objs;
    forall k | 0 <= k < |objs|
      ensures r[k] == objs[|objs| - 1 - k]
    {
      ReverseAt(objs, k);
    }
  }

  /** The attribute loop of sai_create_acl_entry: the last TABLE_ID, PRIORITY
      and action attributes win, and every port and outer VLAN object is
      inserted at the head of the handle list. */
  method WalkAttributes(attrs: seq<AclAttr>) returns (w: EntryAttributes)
    ensures w == AttributesOf(attrs)
  {
    w := EntryAttributes(0, 0, AclActionZero, 0, []);
    var i := 0;
    while i < |attrs|
      invariant 0 <= i <= |attrs|
      invariant w == AttributesOf(attrs[..i])
    {
      AttributesStep(attrs, i);
      w := WalkOne(w, attrs[i]);
      i := i + 1;
    }
    assert attrs[..i] == attrs;
  }

  /** The body of the attribute loop for one attribute. */
  method WalkOne(w0: EntryAttributes, a: AclAttr) returns (w: EntryAttributes)
    ensures w == StepAttributes(w0, a)
  {
    w := w0;
    match a.id {
      case TableIdAttr =>
        w := w.(table := a.value.data.oid);
      case PriorityAttr =>
        w := w.(priority := a.value.data.u32);
      case FieldAttr(s) =>
        if s == SlotInPorts {
          var handles := InsertAllAtHead(w.handles, a.value.data.objlist);
          w := w.(handles := handles);
        } else if s == SlotInPort || s == SlotOuterVlanId {
          w := w.(handles := [a.value.data.oid] + w.handles);
        }
      case RedirectAttr =>
        w := w.(action := AclRedirect, redirect := a.value.data.oid);
      case PacketActionAttr =>
        w := w.(action := AclDrop);
      case FloodAttr =>
        w := w.(action := AclFloodToVlan);
      case OtherAttr =>
    }
  }

  /** One more position of the key list. */
  lemma KeysSnoc(t: AclType, cells: seq<Capability>, attrs: seq<AclAttr>, n: nat)
    requires n < |cells| <= |attrs|
    ensures Keys(t, cells[..n + 1], attrs) == Keys(t, cells[..n], attrs) + KeyAt(t, cells[n], attrs[n])
  {
    assert cells[..n + 1][..n] == cells[..n];
  }

  /** The key loop of sai_create_acl_entry: one translated pair for every
      position of the working array that holds a native field. */
  method BuildKeys(t: AclType, attrs: seq<AclAttr>, matchFields: array<Capability>, ghost cells: seq<Capability>)
    returns (keys: seq<KeyValuePair>)
    requires |cells| == |attrs| <= matchFields.Length
    requires forall k :: 0 <= k < matchFields.Length ==>
      matchFields[k] == if k < |attrs| then cells[k] else Unsupported
    ensures keys == Keys(t, cells, attrs)
  {
    var kvp := new KeyValuePair[matchFields.Length](_ => BlankKey(IpF(IpSrc)));
    var j := 0;
    for n := 0 to matchFields.Length
      invariant j <= n
      invariant kvp[..j] == Keys(t, cells[..Covered(n, |attrs|)], attrs)
    {
      j := KeyStep(t, attrs, cells, matchFields[n], kvp, n, j);
    }
    assert cells[..|attrs|] == cells;
    keys := kvp[..j];
  }

  /** The positions of the attribute list among the first n array cells. */
  function Covered(n: nat, count: nat): (r: nat)
    ensures r <= n && r <= count && (r == n || r == count)
  {
    if n < count then n else count
  }

  /** One pass of the key loop: a native position's pair is written at j and
      j advances; any other position is skipped. */
  method KeyStep(t: AclType, attrs: seq<AclAttr>, ghost cells: seq<Capability>, c: Capability,
                 kvp: array<KeyValuePair>, n: nat, j: nat) returns (next: nat)
    requires |cells| == |attrs| && j <= n < kvp.Length
    requires c == if n < |attrs| then cells[n] else Unsupported
    requires kvp[..j] == Keys(t, cells[..Covered(n, |attrs|)], attrs)
    modifies kvp
    ensures j <= next <= j + 1 && next <= n + 1
    ensures kvp[..next] == Keys(t, cells[..Covered(n + 1, |attrs|)], attrs)
  {
    next := j;
    if c.Native? {
      var key := XformKey(t, c, attrs[n]);
      StoreKey(kvp, j, key);
      next := j + 1;
    }
    if n < |attrs| {
      KeysSnoc(t, cells, attrs, n);
    }
  }

  /** xform_field_value for one native position: the pair KeyAt gives it. */
  method XformKey(t: AclType, c: Capability, a: AclAttr) returns (key: KeyValuePair)
    requires c.Native?
    ensures [key] == KeyAt(t, c, a)
  {
    key := XformFieldValue(t, c.field, a.value);
  }

  /** One write of the key array: the filled prefix grows by the key. */
  method StoreKey(kvp: array<KeyValuePair>, j: nat, key: KeyValuePair)
    requires j < kvp.Length
    modifies kvp
    ensures kvp[..j + 1] == old(kvp[..j]) + [key]
  {
    kvp[j] := key;
  }


  /** sai_create_acl_entry. `aclGet` is switch_acl_get (the type of a known
      table) and `ruleCreate` the entry id the library hands back. */
  method CreateAclEntry(attrs: seq<AclAttr>, aclGet: Handle -> Option<AclType>, ruleCreate: AclRule -> Handle)
    returns (e: EntryEffect)
    requires |attrs| <= IpFieldMax
    ensures e.status == InvalidParameter <==> TableTypeOf(attrs, aclGet).None?
    ensures e.status == Success || e.status == InvalidParameter
    ensures e.rule.Some? <==> MakesRule(attrs, aclGet)
    ensures e.rule.Some? ==>
      var t := TableTypeOf(attrs, aclGet).value;
      e.rule.value == AclRule(TableIdOf(attrs), PriorityOf(attrs),
                              Keys(t, CellsOf(MatchTable(t).value, attrs), attrs),
                              ActionOf(attrs), RedirectOf(attrs)) &&
      e.entryId == ruleCreate(e.rule.value) &&
      e.references == Reverse(InsertedHandles(attrs))
    ensures e.rule.None? ==> e.entryId == 0 && e.references == []
  {
    var w := WalkAttributes(attrs);
    if w.table == 0 {
      return EntryEffect(InvalidParameter, 0, None, []);
    }
    var info := aclGet(w.table);
    if info.None? {
      return EntryEffect(InvalidParameter, 0, None, []);
    }
    var aclType := info.value;
    // every position starts out unknown (-1)
    var matchFields := new Capability[IpFieldMax](_ => Unsupported);
    var ok := MatchTableField(aclType, attrs, matchFields);
    if !ok {
      return EntryEffect(Success, 0, None, []);
    }
    var keys := BuildKeys(aclType, attrs, matchFields, CellsOf(MatchTable(aclType).value, attrs));
    if |keys| > 0 {
      var rule := AclRule(w.table, w.priority, keys, w.action, w.redirect);
      var entryId := ruleCreate(rule);
      // the handle list is walked from its head
      return EntryEffect(Success, entryId, Some(rule), w.handles);
    }
    return EntryEffect(Success, 0, None, []);
  }

  /** Last writer wins for the action: the last action attribute decides it. */
  lemma LastActionWins(attrs: seq<AclAttr>, k: nat)
    requires k < |attrs| && PickAction(attrs[k]).Some?
    requires forall j :: k < j < |attrs| ==> PickAction(attrs[j]).None?
    ensures ActionOf(attrs) == PickAction(attrs[k]).value
  {
    LastOfWins(attrs, k, PickAction, AclActionZero);
  }

  /** A trailing PACKET_ACTION selects DROP whatever its value, and with no
      action attribute at all the action stays 0. */
  lemma PacketActionMeansDrop(attrs: seq<AclAttr>, v: AclField)
    ensures ActionOf(attrs + [AclAttr(PacketActionAttr, v)]) == AclDrop
    ensures (forall j :: 0 <= j < |attrs| ==> PickAction(attrs[j]).None?) ==> ActionOf(attrs) == AclActionZero
  {
    LastOfSnoc(attrs, AclAttr(PacketActionAttr, v), PickAction, AclActionZero);
    if forall j :: 0 <= j < |attrs| ==> PickAction(attrs[j]).None? {
      LastOfNone(attrs, PickAction, AclActionZero);
    }
  }

  /** A created rule never references an OUTER_VLAN_ID object: such an
      attribute makes the resolver fail, so the handles all come from
      IN_PORTS and IN_PORT. */
  lemma {:induction false} RuleReferencesOnlyPorts(attrs: seq<AclAttr>, aclGet: Handle -> Option<AclType>)
    requires MakesRule(attrs, aclGet)
    ensures forall j :: 0 <= j < |attrs| ==> attrs[j].id != FieldAttr(SlotOuterVlanId)
  {
    var t := TableTypeOf(attrs, aclGet).value;
    forall j | 0 <= j < |attrs|
      ensures attrs[j].id != FieldAttr(SlotOuterVlanId)
    {
      if attrs[j].id == FieldAttr(SlotOuterVlanId) {
        ReferenceQualifiersBlock(t, attrs, j);
      }
    }
  }

  // ---------------------------------------------------------------------
  // OUTER_VLAN_ID as designed
  // ---------------------------------------------------------------------

  /** The tables as the reference handling evidently intends them: the outer
      VLAN id is a reference (-2) like IN_PORT(S). */
  function IntendedTable(t: AclType): (r: Option<CapTable>)
    ensures r.Some? <==> MatchTable(t).Some?
    ensures r.Some? ==> (r.value[SlotOuterVlanId] == PortRef &&
      forall s: Slot :: s != SlotOuterVlanId ==> r.value[s] == MatchTable(t).value[s])
  {
    match MatchTable(t)
    case None => None
    case Some(table) => Some(table[SlotOuterVlanId := PortRef])
  }

  /** With the intended tables an OUTER_VLAN_ID attribute inserted at any
      position neither blocks the resolver nor adds a key, and its object
      joins the reference list at that position. */
  lemma IntendedOuterVlanIsReference(t: AclType, attrs: seq<AclAttr>, v: AclField, k: nat)
    requires IntendedTable(t).Some? && k <= |attrs|
    ensures var table := IntendedTable(t).value;
      var s := attrs[..k] + [AclAttr(FieldAttr(SlotOuterVlanId), v)] + attrs[k..];
      FieldsResolve(table, s) == FieldsResolve(table, attrs) &&
      Keys(t, CellsOf(table, s), s) == Keys(t, CellsOf(table, attrs), attrs) &&
      InsertedHandles(s) == InsertedHandles(attrs[..k]) + [v.data.oid] + InsertedHandles(attrs[k..])
  {
    var table := IntendedTable(t).value;
    var a := AclAttr(FieldAttr(SlotOuterVlanId), v);
    var x, y := attrs[..k], attrs[k..];
    assert x + y == attrs;
    IntendedOuterVlanResolves(table, attrs, a, k);
    KeysIgnoreReference(t, table, x, a, y);
    InsertedHandlesInsert(x, a, y);
  }

  /** The handles of an attribute inserted between two lists come between
      theirs. */
  lemma InsertedHandlesInsert(x: seq<AclAttr>, a: AclAttr, y: seq<AclAttr>)
    ensures InsertedHandles(x + [a] + y) == InsertedHandles(x) + HandlesOf(a) + InsertedHandles(y)
  {
    InsertedHandlesAppend(x + [a], y);
    InsertedHandlesAppend(x, [a]);
    assert [a][..0] == [];
  }

  /** An attribute that does not block may be inserted anywhere without
      changing whether the resolver gets through. */
  lemma IntendedOuterVlanResolves(table: CapTable, attrs: seq<AclAttr>, a: AclAttr, k: nat)
    requires k <= |attrs| && !Blocks(table, a)
    ensures FieldsResolve(table, attrs[..k] + [a] + attrs[k..]) == FieldsResolve(table, attrs)
  {
    var s := attrs[..k] + [a] + attrs[k..];
    forall j | 0 <= j < |attrs|
      ensures attrs[j] == s[if j < k then j else j + 1]
    {
    }
    forall j | 0 <= j < |s| && j != k
      ensures s[j] == attrs[if j < k then j else j - 1]
    {
    }
  }

  /** An attribute the table maps to a reference adds no key wherever it
      stands. */
  lemma {:induction false} KeysIgnoreReference(t: AclType, table: CapTable, x: seq<AclAttr>, a: AclAttr, y: seq<AclAttr>)
    requires a.id.FieldAttr? && table[a.id.slot] == PortRef
    ensures Keys(t, CellsOf(table, x + [a] + y), x + [a] + y) == Keys(t, CellsOf(table, x + y), x + y)
  {
    var s, r := x + [a] + y, x + y;
    KeysLast(t, table, s);
    if |y| == 0 {
      assert s[..|s| - 1] == x == r;
    } else {
      var y0 := y[..|y| - 1];
      assert s[..|s| - 1] == x + [a] + y0 && r[..|r| - 1] == x + y0;
      assert s[|s| - 1] == r[|r| - 1];
      KeysLast(t, table, r);
      KeysIgnoreReference(t, table, x, a, y0);
    }
  }

  /** The key list of a non-empty list is that of its front followed by the
      key of its last attribute. */
  lemma KeysLast(t: AclType, table: CapTable, s: seq<AclAttr>)
    requires |s| > 0
    ensures var last := s[|s| - 1];
      Keys(t, CellsOf(table, s), s) ==
      Keys(t, CellsOf(table, s[..|s| - 1]), s[..|s| - 1]) +
      KeyAt(t, if last.id.FieldAttr? then table[last.id.slot] else Unsupported, last)
  {
    CellsPrefix(table, s, |s| - 1);
    KeysPrefixIrrelevant(t, CellsOf(table, s[..|s| - 1]), s[..|s| - 1], s);
  }

  /** The handles of two lists one after the other, in insertion order. */
  lemma {:induction false} InsertedHandlesAppend(x: seq<AclAttr>, y: seq<AclAttr>)
    ensures InsertedHandles(x + y) == InsertedHandles(x) + InsertedHandles(y)
  {
    if |y| == 0 {
      assert x + y == x;
    } else {
      var z, y0 := x + y, y[..|y| - 1];
      assert z[..|z| - 1] == x + y0;
      assert z[|z| - 1] == y[|y| - 1];
      calc {
        InsertedHandles(z);
        InsertedHandles(x + y0) + HandlesOf(y[|y| - 1]);
        { InsertedHandlesAppend(x, y0); }
        InsertedHandles(x) + InsertedHandles(y0) + HandlesOf(y[|y| - 1]);
        InsertedHandles(x) + InsertedHandles(y);
      }
    }
  }

  /** The key list depends only on the attributes at the positions it covers. */
  lemma {:induction false} KeysPrefixIrrelevant(t: AclType, cells: seq<Capability>, attrs: seq<AclAttr>, longer: seq<AclAttr>)
    requires |cells| <= |attrs| <= |longer| && attrs == longer[..|attrs|]
    ensures Keys(t, cells, attrs) == Keys(t, cells, longer)
  {
    if |cells| > 0 {
      KeysPrefixIrrelevant(t, cells[..|cells| - 1], attrs, longer);
    }
  }
}
