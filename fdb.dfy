/** Forwarding database: the MAC entry key decoder, the attribute decoder
    with its early stop, the argument checks of entry creation and the
    decision logic of flushing. */
module Fdb {
  import opened Common
  import opened SaiTypes

  /** sai_fdb_entry_t. */
  datatype FdbEntry = FdbEntry(vlanId: U16, macAddress: MacAddr)

  /** switch_mac_entry_type_t and switch_mac_action_t. */
  datatype MacEntryType = MacEntryDynamic | MacEntryStatic
  datatype MacAction = MacActionDrop | MacActionForward

  /** switch_api_mac_entry_t. The create call does not initialise it, so a
      field nothing writes is None: its value is whatever the stack held. */
  datatype MacEntry = MacEntry(vlanHandle: Option<Handle>, mac: Option<MacAddr>,
                               entryType: Option<MacEntryType>, handle: Option<Handle>,
                               macAction: Option<MacAction>)

  const UnsetMacEntry := MacEntry(None, None, None, None, None)

  /** sai_fdb_entry_parse: the VLAN handle of the entry's VLAN and a copy of
      its 6 MAC bytes. `toHandle` is switch_api_vlan_id_to_handle_get. */
  method FdbEntryParse(entry: FdbEntry, m: MacEntry, toHandle: U16 -> Handle) returns (r: MacEntry)
    ensures r.vlanHandle == Some(toHandle(entry.vlanId))
    ensures r.mac.Some? && |r.mac.value| == 6 && forall i :: 0 <= i < 6 ==> r.mac.value[i] == entry.macAddress[i]
    ensures r.entryType == m.entryType && r.handle == m.handle && r.macAction == m.macAction
  {
    r := m.(vlanHandle := Some(toHandle(entry.vlanId)));
    r := r.(mac := Some(entry.macAddress));
  }

  // ---------------------------------------------------------------------
  // sai_fdb_entry_attribute_parse
  // ---------------------------------------------------------------------

  /** sai_fdb_entry_type_t. */
  datatype FdbEntryType = FdbDynamic | FdbStatic | FdbEntryTypeOther(code: int)

  datatype FdbAttrId = FdbTypeAttr | FdbPortIdAttr | FdbPacketActionAttr | OtherFdbAttr

  /** The attribute value union with the views the code reads: the u8 as an
      entry type and as a packet action, and the object id. */
  datatype FdbAttrValue = FdbAttrValue(entryType: FdbEntryType, action: PacketAction, oid: Handle)

  datatype FdbAttr = FdbAttr(id: FdbAttrId, value: FdbAttrValue)

  /** The attribute ends the parse: a packet action other than DROP or FORWARD. */
  predicate StopsParse(a: FdbAttr)
  {
    a.id.FdbPacketActionAttr? && a.value.action != PacketDrop && a.value.action != PacketForward
  }

  /** One attribute that does not stop the parse, applied to the entry. */
  function ApplyFdbAttr(m: MacEntry, a: FdbAttr): (r: MacEntry)
    requires !StopsParse(a)
    ensures r.vlanHandle == m.vlanHandle && r.mac == m.mac
  {
    match a.id
    case FdbTypeAttr =>
      (match a.value.entryType
       case FdbDynamic => m.(entryType := Some(MacEntryDynamic))
       case FdbStatic => m.(entryType := Some(MacEntryStatic))
       case FdbEntryTypeOther(_) => m)
    case FdbPortIdAttr => m.(handle := Some(a.value.oid))
    case FdbPacketActionAttr =>
      if a.value.action == PacketDrop then m.(macAction := Some(MacActionDrop))
      else m.(macAction := Some(MacActionForward))
    case OtherFdbAttr => m
  }

  /** The entry after the attributes, applied from the first until one stops
      the parse. */
  function ParseFdbAttrs(m: MacEntry, attrs: seq<FdbAttr>): (r: MacEntry)
    ensures r.vlanHandle == m.vlanHandle && r.mac == m.mac
    decreases |attrs|
  {
    if |attrs| == 0 || StopsParse(attrs[0]) then m
    else ParseFdbAttrs(ApplyFdbAttr(m, attrs[0]), attrs[1..])
  }

  /** sai_fdb_entry_attribute_parse. */
  method FdbEntryAttributeParse(attrs: seq<FdbAttr>, m: MacEntry) returns (r: MacEntry)
    ensures r == ParseFdbAttrs(m, attrs)
  {
    r := m;
    var i := 0;
    while i < |attrs|
      invariant 0 <= i <= |attrs|
      invariant ParseFdbAttrs(r, attrs[i..]) == ParseFdbAttrs(m, attrs)
    {
      var attribute := attrs[i];
      assert attrs[i..][0] == attribute && attrs[i..][1..] == attrs[i + 1..];
      match attribute.id {
        case FdbTypeAttr =>
          match attribute.value.entryType {
            case FdbDynamic => r := r.(entryType := Some(MacEntryDynamic));
            case FdbStatic => r := r.(entryType := Some(MacEntryStatic));
            case FdbEntryTypeOther(_) =>
          }
        case FdbPortIdAttr =>
          r := r.(handle := Some(attribute.value.oid));
        case FdbPacketActionAttr =>
          if attribute.value.action == PacketDrop {
            r := r.(macAction := Some(MacActionDrop));
          } else if attribute.value.action == PacketForward {
            r := r.(macAction := Some(MacActionForward));
          } else {
            return;
          }
        case OtherFdbAttr =>
      }
      i := i + 1;
    }
  }

  /** Once an attribute stops the parse, nothing after it is applied. */
  lemma {:induction false} AttributesAfterStopIgnored(m: MacEntry, attrs: seq<FdbAttr>, k: nat)
    requires k < |attrs| && StopsParse(attrs[k])
    ensures ParseFdbAttrs(m, attrs) == ParseFdbAttrs(m, attrs[..k])
    decreases k
  {
    if k > 0 && !StopsParse(attrs[0]) {
      assert attrs[1..][k - 1] == attrs[k];
      AttributesAfterStopIgnored(ApplyFdbAttr(m, attrs[0]), attrs[1..], k - 1);
      assert attrs[..k][1..] == attrs[1..][..k - 1];
    }
  }

  /** Without a stopping attribute and without PORT_ID the port handle stays. */
  lemma {:induction false} NoPortIdKeepsHandle(m: MacEntry, attrs: seq<FdbAttr>)
    requires forall j :: 0 <= j < |attrs| ==> !attrs[j].id.FdbPortIdAttr?
    ensures ParseFdbAttrs(m, attrs).handle == m.handle
    decreases |attrs|
  {
    if |attrs| > 0 && !StopsParse(attrs[0]) {
      NoPortIdKeepsHandle(ApplyFdbAttr(m, attrs[0]), attrs[1..]);
    }
  }

  /** Last writer wins for PORT_ID when the parse runs to the end. */
  lemma {:induction false} LastPortIdWins(m: MacEntry, attrs: seq<FdbAttr>, k: nat)
    requires forall j :: 0 <= j < |attrs| ==> !StopsParse(attrs[j])
    requires k < |attrs| && attrs[k].id.FdbPortIdAttr?
    requires forall j :: k < j < |attrs| ==> !attrs[j].id.FdbPortIdAttr?
    ensures ParseFdbAttrs(m, attrs).handle == Some(attrs[k].value.oid)
    decreases k
  {
    if k == 0 {
      NoPortIdKeepsHandle(ApplyFdbAttr(m, attrs[0]), attrs[1..]);
    } else {
      LastPortIdWins(ApplyFdbAttr(m, attrs[0]), attrs[1..], k - 1);
    }
  }

  /** An entry type other than DYNAMIC and STATIC leaves the type as it was. */
  lemma UnknownEntryTypeKeepsType(m: MacEntry, v: FdbAttrValue, rest: seq<FdbAttr>)
    requires v.entryType.FdbEntryTypeOther?
    ensures ParseFdbAttrs(m, [FdbAttr(FdbTypeAttr, v)] + rest) == ParseFdbAttrs(m, rest)
  {
    assert ([FdbAttr(FdbTypeAttr, v)] + rest)[1..] == rest;
  }

  // ---------------------------------------------------------------------
  // sai_create_fdb_entry
  // ---------------------------------------------------------------------

  /** What a create call does: its status and the entry it adds, if any. */
  datatype FdbEffect = FdbEffect(status: Status, added: Option<MacEntry>)

  /** sai_create_fdb_entry: a null entry (None) or a null attribute list
      fails before anything is parsed or added. `entryAdd` is
      switch_api_mac_table_entry_add. */
  method CreateFdbEntry(entry: Option<FdbEntry>, attrs: Option<seq<FdbAttr>>,
                        toHandle: U16 -> Handle, entryAdd: MacEntry -> Status)
    returns (e: FdbEffect)
    ensures e.status == InvalidParameter && e.added.None? <== entry.None? || attrs.None?
    ensures entry.Some? && attrs.Some? ==>
      e.added.Some? && e.status == entryAdd(e.added.value) &&
      e.added.value == ParseFdbAttrs(MacEntry(Some(toHandle(entry.value.vlanId)), Some(entry.value.macAddress), None, None, None), attrs.value)
  {
    if entry.None? {
      return FdbEffect(InvalidParameter, None);
    }
    if attrs.None? {
      return FdbEffect(InvalidParameter, None);
    }
    var macEntry := UnsetMacEntry;
    macEntry := FdbEntryParse(entry.value, macEntry, toHandle);
    assert macEntry.mac.value == entry.value.macAddress;
    macEntry := FdbEntryAttributeParse(attrs.value, macEntry);
    var status := entryAdd(macEntry);
    return FdbEffect(status, Some(macEntry));
  }

  // ---------------------------------------------------------------------
  // sai_flush_fdb_entries
  // ---------------------------------------------------------------------

  /** sai_fdb_flush_entry_type_t. */
  datatype FlushEntryType = FlushDynamic | FlushStatic | FlushEntryTypeOther(code: int)

  datatype FlushAttrId = FlushPortIdAttr | FlushVlanIdAttr | FlushEntryTypeAttr | OtherFlushAttr

  datatype FlushAttrValue = FlushAttrValue(oid: Handle, u16: U16, entryType: FlushEntryType)

  datatype FlushAttr = FlushAttr(id: FlushAttrId, value: FlushAttrValue)

  /** The deletion a flush asks the switch library for. */
  datatype FlushRequest = DeleteAll | DeleteByInterfaceVlan(port: Handle, vlan: Handle) | DeleteByInterface(port: Handle) | DeleteByVlan(vlan: Handle)

  /** An ENTRY_TYPE of DYNAMIC or STATIC, which the flush does not support. */
  predicate UnsupportedFlushType(a: FlushAttr)
  {
    a.id.FlushEntryTypeAttr? && (a.value.entryType == FlushDynamic || a.value.entryType == FlushStatic)
  }

  /** What a flush does: its status and the deletion it requests, if any. */
  datatype FlushEffect = FlushEffect(status: Status, request: Option<FlushRequest>)

  /** sai_flush_fdb_entries: NOT_SUPPORTED at the first DYNAMIC or STATIC
      entry type; otherwise the deletion selected by the flags. The flags
      start false and no attribute sets them, so no deletion is requested
      and the result is FAILURE. `toHandle` is switch_api_vlan_id_to_handle_get
      and `delete` the status of a deletion. */
  method FlushFdbEntries(attrs: seq<FlushAttr>, toHandle: U16 -> Handle, delete: FlushRequest -> Status)
    returns (e: FlushEffect)
    ensures e.status == NotSupported <==> exists j :: 0 <= j < |attrs| && UnsupportedFlushType(attrs[j])
    ensures e.status != NotSupported ==> e.status == Failure
    ensures e.request.None?
  {
    var portId: Handle := 0;
    var vlanId: U16 := 0;
    var flushAll := false;
    var portValid := false;
    var vlanValid := false;
    var entryType := FlushEntryTypeOther(0);
    for index := 0 to |attrs|
      invariant forall j :: 0 <= j < index ==> !UnsupportedFlushType(attrs[j])
    {
      var attribute := attrs[index];
      match attribute.id {
        case FlushPortIdAttr =>
          portId := attribute.value.oid;
        case FlushVlanIdAttr =>
          vlanId := attribute.value.u16;
        case FlushEntryTypeAttr =>
          entryType := attribute.value.entryType;
          if entryType == FlushDynamic || entryType == FlushStatic {
            return FlushEffect(NotSupported, None);
          }
        case OtherFlushAttr =>
      }
    }
    var request: Option<FlushRequest> := None;
    var status := Failure;
    if flushAll {
      request := Some(DeleteAll);
      status := delete(DeleteAll);
    } else if portValid && vlanValid {
      request := Some(DeleteByInterfaceVlan(portId, toHandle(vlanId)));
      status := delete(DeleteByInterfaceVlan(portId, toHandle(vlanId)));
    } else if portValid {
      request := Some(DeleteByInterface(portId));
      status := delete(DeleteByInterface(portId));
    } else if vlanValid {
      request := Some(DeleteByVlan(toHandle(vlanId)));
      status := delete(DeleteByVlan(toHandle(vlanId)));
    }
    return FlushEffect(status, request);
  }
}
