/** Host interfaces and traps: the translators from SAI trap ids, packet
    actions, trap channels and transmit types to the switch library's
    values, the attribute decoders of interface and trap creation, of trap
    update and of packet transmission, and the attributes handed to the
    packet-event notification. */
module HostIntf {
  import opened Common
  import opened SaiTypes
  import opened SwitchApi

  // ---------------------------------------------------------------------
  // Trap ids and reason codes
  // ---------------------------------------------------------------------

  /** sai_hostif_trap_id_t: the ids the translator names, and any other value. */
  datatype TrapId =
    | TrapStp | TrapLacp | TrapEapol | TrapLldp | TrapPvrst
    | TrapIgmpTypeQuery | TrapIgmpTypeLeave | TrapIgmpTypeV1Report | TrapIgmpTypeV2Report | TrapIgmpTypeV3Report
    | TrapSamplePacket | TrapArpRequest | TrapArpResponse | TrapDhcp | TrapOspf | TrapPim | TrapVrrp | TrapBgp
    | TrapDhcpv6 | TrapOspfv6 | TrapVrrpv6 | TrapBgpv6
    | TrapIpv6NeighborDiscovery | TrapIpv6MldV1V2 | TrapIpv6MldV1Report | TrapIpv6MldV1Done | TrapMldV2Report
    | TrapL3MtuError | TrapTtlError
    | TrapOther(code: int)

  /** switch_sai_to_switch_api_reason_code: each named trap id gives the
      reason code of the same name, every other id REASON_CODE_NONE. */
  function ReasonCodeOf(t: TrapId): (r: ReasonCode)
    ensures r == RcNone <==> t.TrapOther?
    ensures r != RcNullDrop && r != RcGlean
  {
    match t
    case TrapStp => RcStp
    case TrapLacp => RcLacp
    case TrapEapol => RcEapol
    case TrapLldp => RcLldp
    case TrapPvrst => RcPvrst
    case TrapIgmpTypeQuery => RcIgmpTypeQuery
    case TrapIgmpTypeLeave => RcIgmpTypeLeave
    case TrapIgmpTypeV1Report => RcIgmpTypeV1Report
    case TrapIgmpTypeV2Report => RcIgmpTypeV2Report
    case TrapIgmpTypeV3Report => RcIgmpTypeV3Report
    case TrapSamplePacket => RcSamplePacket
    case TrapArpRequest => RcArpRequest
    case TrapArpResponse => RcArpResponse
    case TrapDhcp => RcDhcp
    case TrapOspf => RcOspf
    case TrapPim => RcPim
    case TrapVrrp => RcVrrp
    case TrapBgp => RcBgp
    case TrapDhcpv6 => RcDhcpv6
    case TrapOspfv6 => RcOspfv6
    case TrapVrrpv6 => RcVrrpv6
    case TrapBgpv6 => RcBgpv6
    case TrapIpv6NeighborDiscovery => RcIpv6NeighborDiscovery
    case TrapIpv6MldV1V2 => RcIpv6MldV1V2
    case TrapIpv6MldV1Report => RcIpv6MldV1Report
    case TrapIpv6MldV1Done => RcIpv6MldV1Done
    case TrapMldV2Report => RcMldV2Report
    case TrapL3MtuError => RcL3MtuError
    case TrapTtlError => RcTtlError
    case TrapOther(_) => RcNone
  }

  /** The trap id of the same name as a reason code, if there is one: an
      independent statement of the naming correspondence. */
  function TrapIdNamed(r: ReasonCode): (t: Option<TrapId>)
    ensures t.Some? ==> !t.value.TrapOther? && ReasonCodeOf(t.value) == r
  {
    match r
    case RcStp => Some(TrapStp)
    case RcLacp => Some(TrapLacp)
    case RcEapol => Some(TrapEapol)
    case RcLldp => Some(TrapLldp)
    case RcPvrst => Some(TrapPvrst)
    case RcIgmpTypeQuery => Some(TrapIgmpTypeQuery)
    case RcIgmpTypeLeave => Some(TrapIgmpTypeLeave)
    case RcIgmpTypeV1Report => Some(TrapIgmpTypeV1Report)
    case RcIgmpTypeV2Report => Some(TrapIgmpTypeV2Report)
    case RcIgmpTypeV3Report => Some(TrapIgmpTypeV3Report)
    case RcSamplePacket => Some(TrapSamplePacket)
    case RcArpRequest => Some(TrapArpRequest)
    case RcArpResponse => Some(TrapArpResponse)
    case RcDhcp => Some(TrapDhcp)
    case RcOspf => Some(TrapOspf)
    case RcPim => Some(TrapPim)
    case RcVrrp => Some(TrapVrrp)
    case RcBgp => Some(TrapBgp)
    case RcDhcpv6 => Some(TrapDhcpv6)
    case RcOspfv6 => Some(TrapOspfv6)
    case RcVrrpv6 => Some(TrapVrrpv6)
    case RcBgpv6 => Some(TrapBgpv6)
    case RcIpv6NeighborDiscovery => Some(TrapIpv6NeighborDiscovery)
    case RcIpv6MldV1V2 => Some(TrapIpv6MldV1V2)
    case RcIpv6MldV1Report => Some(TrapIpv6MldV1Report)
    case RcIpv6MldV1Done => Some(TrapIpv6MldV1Done)
    case RcMldV2Report => Some(TrapMldV2Report)
    case RcL3MtuError => Some(TrapL3MtuError)
    case RcTtlError => Some(TrapTtlError)
    case _ => None
  }

  /** A named trap id is recovered from its reason code. */
  lemma ReasonCodeRoundTrip(t: TrapId)
    requires !t.TrapOther?
    ensures TrapIdNamed(ReasonCodeOf(t)) == Some(t)
  {
  }

  /** Distinct named trap ids give distinct reason codes. */
  lemma ReasonCodeInjective(t1: TrapId, t2: TrapId)
    requires !t1.TrapOther? && !t2.TrapOther? && ReasonCodeOf(t1) == ReasonCodeOf(t2)
    ensures t1 == t2
  {
    ReasonCodeRoundTrip(t1);
    ReasonCodeRoundTrip(t2);
  }

  // ---------------------------------------------------------------------
  // Packet actions, channels and transmit types
  // ---------------------------------------------------------------------

  /** switch_sai_action_to_switch_api_action. An action the switch does not
      name leaves the result uninitialised, so callers must not pass one. */
  function ActionOf(a: PacketAction): (r: AclAction)
    requires !a.PacketActionRaw?
    ensures r != AclActionZero
    ensures PacketActionOfAcl(r) == Some(a)
  {
    match a
    case PacketDrop => AclDrop
    case PacketForward => AclPermit
    case PacketTrap => AclRedirectToCpu
    case PacketLog => AclCopyToCpu
  }

  /** The inverse reading of an ACL action as a packet action. */
  function PacketActionOfAcl(r: AclAction): Option<PacketAction>
  {
    match r
    case AclDrop => Some(PacketDrop)
    case AclPermit => Some(PacketForward)
    case AclRedirectToCpu => Some(PacketTrap)
    case AclCopyToCpu => Some(PacketLog)
    case _ => None
  }

  /** sai_hostif_trap_channel_t. */
  datatype TrapChannel = ChannelFd | ChannelCb | ChannelNetdev | ChannelOther(code: int)

  /** switch_hostif_channel_t; ChannelZero is the value 0 the map starts with. */
  datatype HostifChannel = ChannelZero | HostifChannelCb | HostifChannelNetdev

  /** switch_sai_channel_to_switch_api_channel: FD and CB both use the
      callback channel, NETDEV the netdev channel, anything else 0. */
  function ChannelOf(c: TrapChannel): (r: HostifChannel)
    ensures r == ChannelZero <==> c.ChannelOther?
    ensures r == HostifChannelNetdev <==> c == ChannelNetdev
    ensures r == HostifChannelCb <==> c == ChannelFd || c == ChannelCb
  {
    match c
    case ChannelFd => HostifChannelCb
    case ChannelCb => HostifChannelCb
    case ChannelNetdev => HostifChannelNetdev
    case ChannelOther(_) => ChannelZero
  }

  /** sai_hostif_tx_type_t. */
  datatype TxType = TxPipelineBypass | TxPipelineLookup | TxOther(code: int)

  /** switch_sai_tx_type_to_switch_api_tx_type: only a pipeline lookup turns
      the bypass off. */
  function TxBypass(t: TxType): (bypass: bool)
    ensures bypass <==> t != TxPipelineLookup
  {
    match t
    case TxPipelineBypass => true
    case TxPipelineLookup => false
    case TxOther(_) => true
  }

  // ---------------------------------------------------------------------
  // sai_create_hostif
  // ---------------------------------------------------------------------

  /** sai_hostif_type_t. */
  datatype HostifType = HostifNetdev | HostifTypeOther(code: int)

  datatype HostifAttrId = HostifTypeAttr | RifOrPortIdAttr | NameAttr | OtherHostifAttr

  /** SAI character data: 32 bytes. */
  type CharData = s: seq<char> | |s| == 32 witness seq(32, _ => ' ')

  /** The attribute value union with the views the code reads. */
  datatype HostifAttrValue = HostifAttrValue(hostifType: HostifType, oid: Handle, chardata: CharData)

  datatype HostifAttr = HostifAttr(id: HostifAttrId, value: HostifAttrValue)

  /** switch_hostif_t. The struct is not initialised, so a field no
      attribute writes is None: its value is whatever the stack held. */
  datatype Hostif = Hostif(handle: Option<Handle>, intfName: Option<seq<char>>)

  /** One attribute applied to the interface: RIF_OR_PORT_ID sets the handle,
      NAME the first `nameSize` (HOSTIF_NAME_SIZE) characters of the name. */
  function ApplyHostifAttr(h: Hostif, a: HostifAttr, nameSize: nat): Hostif
    requires nameSize <= 32
  {
    match a.id
    case RifOrPortIdAttr => h.(handle := Some(a.value.oid))
    case NameAttr => h.(intfName := Some(a.value.chardata[..nameSize]))
    case _ => h
  }

  /** The interface the attributes describe, applied in order. */
  function HostifOf(attrs: seq<HostifAttr>, nameSize: nat): Hostif
    requires nameSize <= 32
  {
    if |attrs| == 0 then Hostif(None, None)
    else ApplyHostifAttr(HostifOf(attrs[..|attrs| - 1], nameSize), attrs[|attrs| - 1], nameSize)
  }

  /** The last RIF_OR_PORT_ID and the last NAME decide the interface; with
      no such attribute the field stays unwritten. */
  lemma {:induction false} HostifLastWriterWins(attrs: seq<HostifAttr>, nameSize: nat)
    requires nameSize <= 32
    ensures HostifOf(attrs, nameSize).handle ==
      (if exists j :: 0 <= j < |attrs| && attrs[j].id.RifOrPortIdAttr?
       then Some(attrs[LastIndex(attrs, HostifAttrId.RifOrPortIdAttr)].value.oid) else None)
    ensures HostifOf(attrs, nameSize).intfName ==
      (if exists j :: 0 <= j < |attrs| && attrs[j].id.NameAttr?
       then Some(attrs[LastIndex(attrs, HostifAttrId.NameAttr)].value.chardata[..nameSize]) else None)
  {
    if |attrs| > 0 {
      var init := attrs[..|attrs| - 1];
      HostifLastWriterWins(init, nameSize);
      assert forall j :: 0 <= j < |init| ==> init[j] == attrs[j];
    }
  }

  /** The position of the last attribute with the given id; it exists. */
  function LastIndex(attrs: seq<HostifAttr>, id: HostifAttrId): (k: nat)
    requires exists j :: 0 <= j < |attrs| && attrs[j].id == id
    ensures k < |attrs| && attrs[k].id == id
    ensures forall j :: k < j < |attrs| ==> attrs[j].id != id
  {
    if attrs[|attrs| - 1].id == id then |attrs| - 1
    else
      var init := attrs[..|attrs| - 1];
      assert forall j :: 0 <= j < |init| ==> init[j] == attrs[j];
      LastIndex(init, id)
  }

  /** A TYPE attribute other than NETDEV. */
  predicate RejectedType(a: HostifAttr)
  {
    a.id.HostifTypeAttr? && a.value.hostifType != HostifNetdev
  }

  /** What sai_create_hostif does: its status and the interface it creates. */
  datatype HostifEffect = HostifEffect(status: Status, created: Option<Hostif>, hifId: Option<Handle>)

  /** sai_create_hostif: stop with FAILURE at a TYPE other than NETDEV;
      otherwise create the interface the attributes describe.
      `hostifCreate` is switch_api_hostif_create. */
  method CreateHostif(attrs: seq<HostifAttr>, nameSize: nat, hostifCreate: Hostif -> Handle) returns (e: HostifEffect)
    requires nameSize <= 32
    ensures e.status == Failure <==> exists j :: 0 <= j < |attrs| && RejectedType(attrs[j])
    ensures e.status == Failure || e.status == Success
    ensures e.status == Failure ==> e.created.None? && e.hifId.None?
    ensures e.status == Success ==>
      e.created == Some(HostifOf(attrs, nameSize)) && e.hifId == Some(hostifCreate(HostifOf(attrs, nameSize)))
  {
    var hostif := Hostif(None, None);
    var index := 0;
    while index < |attrs|
      invariant 0 <= index <= |attrs|
      invariant forall j :: 0 <= j < index ==> !RejectedType(attrs[j])
      invariant hostif == HostifOf(attrs[..index], nameSize)
    {
      var attribute := attrs[index];
      assert attrs[..index + 1][..index] == attrs[..index];
      match attribute.id {
        case HostifTypeAttr =>
          if attribute.value.hostifType != HostifNetdev {
            return HostifEffect(Failure, None, None);
          }
        case RifOrPortIdAttr =>
          hostif := hostif.(handle := Some(attribute.value.oid));
        case NameAttr =>
          hostif := hostif.(intfName := Some(attribute.value.chardata[..nameSize]));
        case OtherHostifAttr =>
      }
      index := index + 1;
    }
    assert attrs[..index] == attrs;
    var hifId := hostifCreate(hostif);
    return HostifEffect(Success, Some(hostif), Some(hifId));
  }

  // ---------------------------------------------------------------------
  // Trap creation, update and removal
  // ---------------------------------------------------------------------

  datatype TrapAttrId = TrapPacketActionAttr | TrapPriorityAttr | TrapChannelAttr | TrapGroupAttr | OtherTrapAttr

  /** The attribute value union with the views the code reads. */
  datatype TrapAttrValue = TrapAttrValue(action: PacketAction, priority: U32, channel: TrapChannel, oid: Handle)

  datatype TrapAttr = TrapAttr(id: TrapAttrId, value: TrapAttrValue)

  /** switch_api_hostif_rcode_info_t. */
  datatype RcodeInfo = RcodeInfo(reasonCode: ReasonCode, action: AclAction, priority: U32, channel: HostifChannel, groupId: Handle)

  /** The zeroed info with its reason code set. */
  function BlankInfo(r: ReasonCode): RcodeInfo
  {
    RcodeInfo(r, AclActionZero, 0, ChannelZero, 0)
  }

  /** A packet action attribute must carry an action the switch names. */
  predicate TrapAttrDefined(a: TrapAttr)
  {
    a.id.TrapPacketActionAttr? ==> !a.value.action.PacketActionRaw?
  }

  /** One trap attribute applied to the info: it writes its own field and
      leaves every other field as it was; an unknown id changes nothing. */
  function ApplyTrapAttr(info: RcodeInfo, a: TrapAttr): (r: RcodeInfo)
    requires TrapAttrDefined(a)
    ensures r.reasonCode == info.reasonCode
    ensures r.action == (if a.id.TrapPacketActionAttr? then ActionOf(a.value.action) else info.action)
    ensures r.priority == (if a.id.TrapPriorityAttr? then a.value.priority else info.priority)
    ensures r.channel == (if a.id.TrapChannelAttr? then ChannelOf(a.value.channel) else info.channel)
    ensures r.groupId == (if a.id.TrapGroupAttr? then a.value.oid else info.groupId)
  {
    match a.id
    case TrapPacketActionAttr => info.(action := ActionOf(a.value.action))
    case TrapPriorityAttr => info.(priority := a.value.priority)
    case TrapChannelAttr => info.(channel := ChannelOf(a.value.channel))
    case TrapGroupAttr => info.(groupId := a.value.oid)
    case OtherTrapAttr => info
  }

  /** The attributes applied in order. */
  function ApplyTrapAttrs(info: RcodeInfo, attrs: seq<TrapAttr>): (r: RcodeInfo)
    requires forall j :: 0 <= j < |attrs| ==> TrapAttrDefined(attrs[j])
    ensures r.reasonCode == info.reasonCode
  {
    if |attrs| == 0 then info else ApplyTrapAttr(ApplyTrapAttrs(info, attrs[..|attrs| - 1]), attrs[|attrs| - 1])
  }

  function PickTrapAction(a: TrapAttr): Option<AclAction>
  {
    if a.id.TrapPacketActionAttr? && !a.value.action.PacketActionRaw? then Some(ActionOf(a.value.action)) else None
  }

  function PickTrapPriority(a: TrapAttr): Option<U32>
  {
    if a.id.TrapPriorityAttr? then Some(a.value.priority) else None
  }

  function PickTrapChannel(a: TrapAttr): Option<HostifChannel>
  {
    if a.id.TrapChannelAttr? then Some(ChannelOf(a.value.channel)) else None
  }

  function PickTrapGroup(a: TrapAttr): Option<Handle>
  {
    if a.id.TrapGroupAttr? then Some(a.value.oid) else None
  }

  /** Applying the attributes in order is last-writer-wins field by field:
      each field holds the value of the last attribute naming it. */
  lemma {:induction false} TrapAttrsLastWriterWins(info: RcodeInfo, attrs: seq<TrapAttr>)
    requires forall j :: 0 <= j < |attrs| ==> TrapAttrDefined(attrs[j])
    ensures ApplyTrapAttrs(info, attrs) ==
      RcodeInfo(info.reasonCode,
                LastOf(attrs, PickTrapAction, info.action),
                LastOf(attrs, PickTrapPriority, info.priority),
                LastOf(attrs, PickTrapChannel, info.channel),
                LastOf(attrs, PickTrapGroup, info.groupId))
  {
    if |attrs| > 0 {
      var init := attrs[..|attrs| - 1];
      TrapAttrsLastWriterWins(info, init);
      assert attrs == init + [attrs[|attrs| - 1]];
      LastOfSnoc(init, attrs[|attrs| - 1], PickTrapAction, info.action);
      LastOfSnoc(init, attrs[|attrs| - 1], PickTrapPriority, info.priority);
      LastOfSnoc(init, attrs[|attrs| - 1], PickTrapChannel, info.channel);
      LastOfSnoc(init, attrs[|attrs| - 1], PickTrapGroup, info.groupId);
    }
  }

  /** What a trap call hands the switch library, and the status it returns. */
  datatype TrapEffect = TrapEffect(status: Status, info: RcodeInfo)

  /** sai_create_hostif_trap: the zeroed info gets the trap's reason code,
      then every attribute in order. `reasonCodeCreate` is
      switch_api_hostif_reason_code_create. */
  method CreateHostifTrap(trapId: TrapId, attrs: seq<TrapAttr>, reasonCodeCreate: RcodeInfo -> Status) returns (e: TrapEffect)
    requires forall j :: 0 <= j < |attrs| ==> TrapAttrDefined(attrs[j])
    ensures e.info == ApplyTrapAttrs(BlankInfo(ReasonCodeOf(trapId)), attrs)
    ensures e.info.reasonCode == ReasonCodeOf(trapId)
    ensures e.status == reasonCodeCreate(e.info)
  {
    var rcodeApiInfo := BlankInfo(ReasonCodeOf(trapId));
    var index := 0;
    while index < |attrs|
      invariant 0 <= index <= |attrs|
      invariant rcodeApiInfo == ApplyTrapAttrs(BlankInfo(ReasonCodeOf(trapId)), attrs[..index])
    {
      var attribute := attrs[index];
      assert attrs[..index + 1][..index] == attrs[..index];
      match attribute.id {
        case TrapPacketActionAttr =>
          rcodeApiInfo := rcodeApiInfo.(action := ActionOf(attribute.value.action));
        case TrapPriorityAttr =>
          rcodeApiInfo := rcodeApiInfo.(priority := attribute.value.priority);
        case TrapChannelAttr =>
          rcodeApiInfo := rcodeApiInfo.(channel := ChannelOf(attribute.value.channel));
        case TrapGroupAttr =>
          rcodeApiInfo := rcodeApiInfo.(groupId := attribute.value.oid);
        case OtherTrapAttr =>
      }
      index := index + 1;
    }
    assert attrs[..index] == attrs;
    var status := reasonCodeCreate(rcodeApiInfo);
    return TrapEffect(status, rcodeApiInfo);
  }

  /** sai_set_hostif_trap_attribute: the zeroed info gets the reason code and
      the one field the attribute names. `reasonCodeUpdate` is
      switch_api_hostif_reason_code_update. */
  method SetHostifTrapAttribute(trapId: TrapId, attr: TrapAttr, reasonCodeUpdate: RcodeInfo -> Status) returns (e: TrapEffect)
    requires TrapAttrDefined(attr)
    ensures e.info == ApplyTrapAttr(BlankInfo(ReasonCodeOf(trapId)), attr)
    ensures e.status == reasonCodeUpdate(e.info)
  {
    var rcodeApiInfo := BlankInfo(ReasonCodeOf(trapId));
    match attr.id {
      case TrapPacketActionAttr =>
        rcodeApiInfo := rcodeApiInfo.(action := ActionOf(attr.value.action));
      case TrapPriorityAttr =>
        rcodeApiInfo := rcodeApiInfo.(priority := attr.value.priority);
      case TrapChannelAttr =>
        rcodeApiInfo := rcodeApiInfo.(channel := ChannelOf(attr.value.channel));
      case TrapGroupAttr =>
        rcodeApiInfo := rcodeApiInfo.(groupId := attr.value.oid);
      case OtherTrapAttr =>
    }
    var status := reasonCodeUpdate(rcodeApiInfo);
    return TrapEffect(status, rcodeApiInfo);
  }

  /** An update carries what a creation with that single attribute would:
      every other field is reset to zero rather than kept. */
  lemma SetIsCreateWithOneAttribute(trapId: TrapId, attr: TrapAttr)
    requires TrapAttrDefined(attr)
    ensures ApplyTrapAttr(BlankInfo(ReasonCodeOf(trapId)), attr) == ApplyTrapAttrs(BlankInfo(ReasonCodeOf(trapId)), [attr])
  {
    assert [attr][..0] == [];
  }

  /** sai_remove_hostif_trap: delete the trap's reason code.
      `reasonCodeDelete` is switch_api_hostif_reason_code_delete. */
  method RemoveHostifTrap(trapId: TrapId, reasonCodeDelete: ReasonCode -> Status) returns (status: Status, deleted: ReasonCode)
    ensures deleted == ReasonCodeOf(trapId) && status == reasonCodeDelete(deleted)
    ensures deleted == RcNone <==> trapId.TrapOther?
  {
    deleted := ReasonCodeOf(trapId);
    status := reasonCodeDelete(deleted);
  }

  // ---------------------------------------------------------------------
  // Packet transmission attributes
  // ---------------------------------------------------------------------

  datatype SendAttrId = TxTypeAttr | EgressPortOrLagAttr | OtherSendAttr

  datatype SendAttrValue = SendAttrValue(txType: TxType, oid: Handle)

  datatype SendAttr = SendAttr(id: SendAttrId, value: SendAttrValue)

  /** switch_hostif_packet_t with the fields the send path writes; the
      zeroed struct has no bypass and handle 0. */
  datatype TxPacket = TxPacket(pktSize: nat, txBypass: bool, handle: Handle)

  function PickBypass(a: SendAttr): Option<bool>
  {
    if a.id.TxTypeAttr? then Some(TxBypass(a.value.txType)) else None
  }

  function PickEgress(a: SendAttr): Option<Handle>
  {
    if a.id.EgressPortOrLagAttr? then Some(a.value.oid) else None
  }

  /** The packet description sai_send_hostif_packet hands to
      switch_api_hostif_tx_packet. */
  method SendPacketDescription(bufferSize: nat, attrs: seq<SendAttr>) returns (p: TxPacket)
    ensures p == TxPacket(bufferSize, LastOf(attrs, PickBypass, false), LastOf(attrs, PickEgress, 0))
  {
    p := TxPacket(bufferSize, false, 0);
    var index := 0;
    while index < |attrs|
      invariant 0 <= index <= |attrs|
      invariant p == TxPacket(bufferSize, LastOf(attrs[..index], PickBypass, false), LastOf(attrs[..index], PickEgress, 0))
    {
      var attribute := attrs[index];
      assert attrs[..index + 1] == attrs[..index] + [attribute];
      LastOfSnoc(attrs[..index], attribute, PickBypass, false);
      LastOfSnoc(attrs[..index], attribute, PickEgress, 0);
      match attribute.id {
        case TxTypeAttr => p := p.(txBypass := TxBypass(attribute.value.txType));
        case EgressPortOrLagAttr => p := p.(handle := attribute.value.oid);
        case OtherSendAttr =>
      }
      index := index + 1;
    }
    assert attrs[..index] == attrs;
  }

  /** Without a TX_TYPE attribute the zeroed struct sends through the
      pipeline (no bypass), unlike an explicit TX_TYPE of any value other
      than PIPELINE_LOOKUP. */
  lemma SendDefaultsToLookup(attrs: seq<SendAttr>)
    requires forall j :: 0 <= j < |attrs| ==> !attrs[j].id.TxTypeAttr?
    ensures !LastOf(attrs, PickBypass, false)
  {
    LastOfNone(attrs, PickBypass, false);
  }

  // ---------------------------------------------------------------------
  // sai_recv_hostif_packet_cb
  // ---------------------------------------------------------------------

  /** The packet the switch library delivers. */
  datatype RxPacket = RxPacket(pktSize: nat, reasonCode: ReasonCode, handle: Handle)

  datatype PacketAttr = PacketTrapIdAttr(reasonCode: ReasonCode) | PacketIngressPortAttr(port: Handle)

  /** The arguments of the packet-event notification. */
  datatype PacketEvent = PacketEvent(pktSize: nat, attrCount: nat, attrs: seq<PacketAttr>)

  /** sai_recv_hostif_packet_cb: fill the two-element attribute array and, if
      a packet-event notification is registered, call it. */
  method RecvPacketCallback(packet: RxPacket, notificationRegistered: bool) returns (event: Option<PacketEvent>)
    ensures event.Some? <==> notificationRegistered
    ensures event.Some? ==>
      event.value.pktSize == packet.pktSize && event.value.attrCount == |event.value.attrs| == 2 &&
      event.value.attrs[0] == PacketTrapIdAttr(packet.reasonCode) &&
      event.value.attrs[1] == PacketIngressPortAttr(packet.handle)
  {
    var maxAttrCount := 2;
    var attrList := new PacketAttr[maxAttrCount](_ => PacketIngressPortAttr(0));
    var attrCount := 0;
    attrList[attrCount] := PacketTrapIdAttr(packet.reasonCode);
    attrCount := attrCount + 1;
    attrList[attrCount] := PacketIngressPortAttr(packet.handle);
    attrCount := attrCount + 1;
    if notificationRegistered {
      return Some(PacketEvent(packet.pktSize, attrCount, attrList[..attrCount]));
    }
    return None;
  }
}
