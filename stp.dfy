/** Spanning tree: the port-state translations in both directions and the
    VLAN membership passed to the switch library when a group is created. */
module Stp {
  import opened Common
  import opened SaiTypes

  /** sai_port_stp_port_state_t: the three named states and any other value. */
  datatype SaiStpState = SaiStpLearning | SaiStpForwarding | SaiStpBlocking | SaiStpOther(code: int)

  /** switch_stp_state_t: the states the translations name, and any other
      value the library may report. */
  datatype SwitchStpState = SwitchStpNone | SwitchStpLearning | SwitchStpForwarding | SwitchStpBlocking | SwitchStpOther(code: int)

  /** The map of sai_set_stp_port_state: the three states to their
      namesakes, anything else to STATE_NONE. */
  function ToSwitchState(s: SaiStpState): (r: SwitchStpState)
    ensures r == SwitchStpNone <==> s.SaiStpOther?
    ensures !r.SwitchStpOther?
  {
    match s
    case SaiStpLearning => SwitchStpLearning
    case SaiStpForwarding => SwitchStpForwarding
    case SaiStpBlocking => SwitchStpBlocking
    case SaiStpOther(_) => SwitchStpNone
  }

  /** The map of sai_get_stp_port_state: the three switch states to their
      namesakes, anything else (STATE_NONE included) to 0. */
  function FromSwitchState(w: SwitchStpState): (r: SaiStpState)
    ensures r == SaiStpOther(0) <==> !(w.SwitchStpLearning? || w.SwitchStpForwarding? || w.SwitchStpBlocking?)
  {
    match w
    case SwitchStpLearning => SaiStpLearning
    case SwitchStpForwarding => SaiStpForwarding
    case SwitchStpBlocking => SaiStpBlocking
    case _ => SaiStpOther(0)
  }

  /** Setting a named state and reading it back gives the same state. */
  lemma SetThenGetRoundTrip(s: SaiStpState)
    requires !s.SaiStpOther?
    ensures FromSwitchState(ToSwitchState(s)) == s
  {
  }

  /** Reading a named switch state and setting it again gives the same
      switch state. */
  lemma GetThenSetRoundTrip(w: SwitchStpState)
    requires w.SwitchStpLearning? || w.SwitchStpForwarding? || w.SwitchStpBlocking?
    ensures ToSwitchState(FromSwitchState(w)) == w
  {
  }

  /** Any other value set is read back as 0. */
  lemma UnnamedStateReadsAsZero(s: SaiStpState)
    requires s.SaiStpOther?
    ensures FromSwitchState(ToSwitchState(s)) == SaiStpOther(0)
  {
  }

  /** sai_set_stp_port_state. `portStateSet` is switch_api_stp_port_state_set. */
  method SetStpPortState(stpId: Handle, portId: Handle, state: SaiStpState,
                         portStateSet: (Handle, Handle, SwitchStpState) -> Status)
    returns (status: Status, sent: SwitchStpState)
    ensures sent == ToSwitchState(state) && status == portStateSet(stpId, portId, sent)
  {
    sent := ToSwitchState(state);
    status := portStateSet(stpId, portId, sent);
  }

  /** sai_get_stp_port_state. `portStateGet` is switch_api_stp_port_state_get:
      its status and the state it leaves in the variable, which starts as
      STATE_NONE. */
  method GetStpPortState(stpId: Handle, portId: Handle,
                         portStateGet: (Handle, Handle, SwitchStpState) -> (Status, SwitchStpState))
    returns (status: Status, state: SaiStpState)
    ensures var (st, w) := portStateGet(stpId, portId, SwitchStpNone);
      status == st && state == FromSwitchState(w)
  {
    var switchStpState := SwitchStpNone;
    var result := portStateGet(stpId, portId, switchStpState);
    status, switchStpState := result.0, result.1;
    state := FromSwitchState(switchStpState);
  }

  // ---------------------------------------------------------------------
  // sai_create_stp_entry
  // ---------------------------------------------------------------------

  type VlanId = U16

  datatype StpAttrId = StpVlanAttr | OtherStpAttr

  /** An attribute with the vlanlist view of its value. */
  datatype StpAttr = StpAttr(id: StpAttrId, vlanList: seq<VlanId>)

  /** The handles of a VLAN list, element by element. */
  function VlanHandles(vlans: seq<VlanId>, toHandle: VlanId -> Handle): (hs: seq<Handle>)
    ensures |hs| == |vlans|
    ensures forall i :: 0 <= i < |vlans| ==> hs[i] == toHandle(vlans[i])
  {
    seq(|vlans|, i requires 0 <= i < |vlans| => toHandle(vlans[i]))
  }

  /** The handle arrays passed to the group, one per VLAN attribute, in order. */
  function GroupAdds(attrs: seq<StpAttr>, toHandle: VlanId -> Handle): seq<seq<Handle>>
  {
    if |attrs| == 0 then []
    else GroupAdds(attrs[..|attrs| - 1], toHandle) +
         (if attrs[|attrs| - 1].id.StpVlanAttr? then [VlanHandles(attrs[|attrs| - 1].vlanList, toHandle)] else [])
  }

  /** The VLAN attributes of a list. */
  function VlanAttrs(attrs: seq<StpAttr>): seq<StpAttr>
  {
    if |attrs| == 0 then []
    else VlanAttrs(attrs[..|attrs| - 1]) + (if attrs[|attrs| - 1].id.StpVlanAttr? then [attrs[|attrs| - 1]] else [])
  }

  /** There is one group-add per VLAN attribute, and the k-th carries the
      handles of the k-th VLAN attribute's list. */
  lemma {:induction false} GroupAddsPerVlanAttribute(attrs: seq<StpAttr>, toHandle: VlanId -> Handle)
    ensures |GroupAdds(attrs, toHandle)| == |VlanAttrs(attrs)|
    ensures forall k :: 0 <= k < |VlanAttrs(attrs)| ==>
      VlanAttrs(attrs)[k].id.StpVlanAttr? &&
      GroupAdds(attrs, toHandle)[k] == VlanHandles(VlanAttrs(attrs)[k].vlanList, toHandle)
  {
    if |attrs| > 0 {
      GroupAddsPerVlanAttribute(attrs[..|attrs| - 1], toHandle);
    }
  }

  /** What sai_create_stp_entry does: the group id written back, the handle
      arrays passed to switch_api_stp_group_vlans_add in order, and the
      status. */
  datatype StpEffect = StpEffect(stpId: Handle, adds: seq<seq<Handle>>, status: Status)

  /** The handle array of one VLAN attribute: element i is the handle of
      VLAN i of the list. `toHandle` is switch_api_vlan_id_to_handle_get. */
  method VlanHandleArray(vlans: seq<VlanId>, toHandle: VlanId -> Handle) returns (handles: seq<Handle>)
    ensures handles == VlanHandles(vlans, toHandle)
  {
    var vlanHandle := new Handle[|vlans|];
    for index2 := 0 to |vlans|
      invariant forall i :: 0 <= i < index2 ==> vlanHandle[i] == toHandle(vlans[i])
    {
      vlanHandle[index2] := toHandle(vlans[index2]);
    }
    handles := vlanHandle[..];
  }

  /** sai_create_stp_entry: create the group, then add each VLAN attribute's
      handles to it; the status is that of the last add, SUCCESS when there
      is none. `groupCreate` is the id switch_api_stp_group_create returns. */
  method CreateStpEntry(attrs: seq<StpAttr>, groupCreate: Handle, toHandle: VlanId -> Handle,
                        vlansAdd: (Handle, seq<Handle>) -> Status)
    returns (e: StpEffect)
    ensures e.stpId == groupCreate
    ensures e.adds == GroupAdds(attrs, toHandle)
    ensures e.status == if |e.adds| == 0 then Success else vlansAdd(e.stpId, e.adds[|e.adds| - 1])
  {
    var stpId := groupCreate;
    var status := Success;
    var adds: seq<seq<Handle>> := [];
    for index1 := 0 to |attrs|
      invariant adds == GroupAdds(attrs[..index1], toHandle)
      invariant status == if |adds| == 0 then Success else vlansAdd(stpId, adds[|adds| - 1])
    {
      var attribute := attrs[index1];
      assert attrs[..index1 + 1][..index1] == attrs[..index1];
      if attribute.id.StpVlanAttr? {
        var vlanHandle := VlanHandleArray(attribute.vlanList, toHandle);
        status := vlansAdd(stpId, vlanHandle);
        adds := adds + [vlanHandle];
      }
    }
    assert attrs[..|attrs|] == attrs;
    return StpEffect(stpId, adds, status);
  }
}
