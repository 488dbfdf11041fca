# switchsai adapter core in Dafny

switchsai implements the Switch Abstraction Interface (SAI) on top of a
P4-programmed switch library ("switchapi"). Each SAI call takes a list of
attributes. The adapter decodes the list into a library structure, and the
decoding may reject the list. It then calls the matching library function.
This project models that decoding layer for eight object kinds:

- ACL tables and entries (`acl.dfy`): the capability tables of the three
  ACL shapes, the shape classifier, the field resolver, the value
  transformer and the assembly of a rule with its key list, action and
  port references.
- Routes (`route.dfy`): prefix lengths of IPv4 and IPv6 masks, the route
  key, the attribute parse and the choice of next hop.
- Host interfaces and traps (`hostintf.dfy`): the trap-id, action,
  channel and transmit-type translations, host interface creation, trap
  create/set/remove, the send-packet description and the receive callback's
  attribute list.
- Spanning tree (`stp.dfy`): the port-state translations in both directions
  and the VLAN handle arrays a new group receives.
- FDB (`fdb.dfy`): the MAC entry key, the attribute parse that stops at an
  unknown packet action, the argument checks of create and the flush
  decision.
- Next hops, router interfaces and neighbors (`nexthop.dfy`,
  `routerintf.dfy`, `neighbor.dfy`): the keys and descriptions built from
  the attributes and the ids that are rejected.

`common.dfy` holds:

- fixed-width integer types;
- `Option`;
- the last-writer-wins fold `LastOf`;
- `ntohl`, modelled as byte reversal on a little-endian host;
- sequence reversal.

`sai_types.dfy` holds the SAI types and the library types that several
object kinds share.

Every switchapi call is a function-typed parameter, for example
`routeAdd` or `nhopCreate`. Where the call happens, the data handed to it
is returned as an effect record, so every contract can say what was
passed. C enumerations become datatypes. Each datatype has one
constructor per value the code names, and a last constructor carries any
other value. A field that `memset` or an `= 0` initialiser zeroes becomes
its own `...Zero` value. A field that nothing initialises becomes `None`.

Methods model the code that loops and writes fields step by step. Each
method is proved against a specification function. Typically that
function is a fold over the attribute list (`LastOf`, `ParseFdbAttrs`,
`HostifOf`, `AttributesOf`). Lemmas then state what the source promises
about those functions.

## Model

| member | source | states |
|---|---|---|
| Common.Ntohl | src/sairoute.c:65 | the result's four bytes are the argument's bytes in reverse order |
| Common.NtohlInvolution | src/sairoute.c:63-65 | converting twice gives the original word back |
| Common.ReverseAppend | src/saiacl.c:386-422 | walking a list built by head insertion of a then b gives b reversed, then a reversed |
| Acl.MatchTable | src/saiacl.c:98-110 | IP, IPv6 and MAC each have a capability table; every other type has none |
| Acl.TablesHoldOwnFields | src/saiacl.c:34-97 | every native entry of a shape's table is a field of that shape; IN_PORTS and IN_PORT are references (-2) in every table |
| Acl.MatchTableType | src/saiacl.c:115-144 | the loop's result equals `Classification`: the first tabled type, if its table rejects no looked-up attribute, else none; ids outside the field range are never reached (requires) |
| Acl.SkippedAttributesIrrelevant | src/saiacl.c:126-133 | inserting a port or VLAN attribute anywhere never changes the classification |
| Acl.OnlyFirstShapeClassified | src/saiacl.c:120-143 | with the library's type order the classifier yields IP or nothing, never IPv6 or MAC |
| Acl.ClassifiedIffIpSupports | src/saiacl.c:120-143 | with that order, classification succeeds iff the IP table rejects none of the attributes |
| Acl.ClassifierRejectsIpv6Only | src/saiacl.c:134-137 | an IPv6 source qualifier is supported by the IPv6 table, yet the classifier returns none |
| Acl.ClassifyShape | src/saiacl.c:115-144 | the designed classifier: a result is a supporting type from the order; none iff no type in the order supports the attributes |
| Acl.ClassifyShapeIsFirst | src/saiacl.c:118-143 | the designed classifier returns the earliest supporting type |
| Acl.ClassificationAgreesWhenFound | src/saiacl.c:115-144 | whenever the source's classifier succeeds, the designed one gives the same type |
| Acl.FirstTabledPrefix | src/saiacl.c:120-140 | when the first tabled type supports every attribute, the designed classifier picks it |
| Acl.ScenarioClassifyIpv4 | src/saiacl.c:34-54 | L4 source/destination ports with an IPv4 source classify as the IP shape |
| Acl.ScenarioClassifyIpv6 | src/saiacl.c:55-75 | IPv6 source plus TTL is the IPv6 shape by design; the source's classifier returns none |
| Acl.ScenarioClassifyMixed | src/saiacl.c:34-75 | an IPv4 and an IPv6 address together match no shape |
| Acl.CreateAclTable | src/saiacl.c:302-314 | INVALID_PARAMETER iff classification fails; otherwise SUCCESS and the id the library creates for the classified type |
| Acl.ScanEnd | src/saiacl.c:155-168 | the first blocking position at or after `from`, or the end: every position before it resolves |
| Acl.MatchTableField | src/saiacl.c:147-170 | succeeds iff the type has a table and every field attribute resolves; writes each resolved entry at its attribute's position and nothing else |
| Acl.ReferenceQualifiersBlock | src/saiacl.c:155-167 | an OUT_PORT(S), OUTER_VLAN_ID or INNER_VLAN_ID qualifier makes resolution fail in every table |
| Acl.XformFieldValue | src/saiacl.c:172-287 | the pair keeps its field, gets at most two value members and a mask exactly when a value is written; an IPv6 table or a field of another shape leaves it blank |
| Acl.XformIpv4RoundTrip | src/saiacl.c:179-186 | IPv4 source/destination value and mask are converted to host order; converting back gives the input words |
| Acl.XformTcpFlagsFallthrough | src/saiacl.c:199-207 | ICMP type/code and TCP flags fall through into TTL: both members get the 8-bit value, with the 8-bit mask |
| Acl.XformMacCopies | src/saiacl.c:258-265 | source/destination MAC: the 6 bytes become the one value member and the MAC mask |
| Acl.XformMacScalarsUseMask16 | src/saiacl.c:266-277 | VLAN priority, CFI and Ethernet type in a MAC table use the 16-bit mask |
| Acl.ScenarioIpv4DestKey | src/saiacl.c:183-186 | 10.0.0.1/32 in network order becomes 0x0A000001 with mask 0xFFFFFFFF |
| Acl.KeysCount | src/saiacl.c:476-486 | the key list holds exactly one pair per native position |
| Acl.KeyOfPosition | src/saiacl.c:476-486 | the pair of native position p is the transform of attribute p, placed after the pairs of earlier native positions |
| Acl.NoNativeNoKeys | src/saiacl.c:477-478 | positions that are references or unresolved contribute no key |
| Acl.CellsPrefix | src/saiacl.c:158-166 | the resolved entries of a prefix of the attributes are the prefix of the resolved entries |
| Acl.AttributesStep | src/saiacl.c:374-450 | one more walked attribute updates only its own variable and puts its handles, reversed, at the head of the list |
| Acl.InsertAllAtHead | src/saiacl.c:389-397 | head-inserting a list gives it reversed in front of the old list |
| Acl.WalkAttributes | src/saiacl.c:374-450 | the attribute loop's table id, priority, action, redirect and handle list equal the last-writer-wins folds and the reversed inserted handles |
| Acl.KeysSnoc | src/saiacl.c:474-485 | one more position extends the key list by that position's key |
| Acl.BuildKeys | src/saiacl.c:471-486 | the key loop yields the transform of every native position, in position order |
| Acl.KeyStep | src/saiacl.c:475-484 | one pass of the key loop extends the filled prefix by the key of that position, or leaves it |
| Acl.CreateAclEntry | src/saiacl.c:352-514 | INVALID_PARAMETER iff the table id is 0 or unknown; a rule iff tabled, resolved and non-empty keys, carrying the last table id, priority, action and redirect and the key list; references are the handles in list order; otherwise entry id 0 and no references |
| Acl.LastActionWins | src/saiacl.c:427-448 | the last action attribute decides the action |
| Acl.PacketActionMeansDrop | src/saiacl.c:443-445 | a trailing PACKET_ACTION gives DROP whatever its value; with no action attribute the action stays 0 |
| Acl.RuleReferencesOnlyPorts | src/saiacl.c:415-423 | a created rule never comes from a list with an OUTER_VLAN_ID attribute, so its references come only from IN_PORTS and IN_PORT |
| Acl.IntendedTable | src/saiacl.c:34-97 | the tables with OUTER_VLAN_ID as a reference (-2), all other entries unchanged |
| Acl.IntendedOuterVlanIsReference | src/saiacl.c:415-423 | with those tables, an OUTER_VLAN_ID inserted at any position neither changes whether resolution succeeds nor adds a key, and its object joins the references at that position |
| Acl.IntendedOuterVlanResolves | src/saiacl.c:155-163 | an attribute that does not block may be inserted anywhere without changing whether the resolver gets through |
| Acl.KeysIgnoreReference | src/saiacl.c:474-485 | an attribute whose table entry is a reference (-2) adds no key wherever it stands |
| Acl.KeysLast | src/saiacl.c:474-485 | the key list of a list is that of its front followed by the key of its last attribute |
| Acl.InsertedHandlesAppend | src/saiacl.c:389-423 | the handles of two lists one after the other are inserted in that order |
| Acl.InsertedHandlesInsert | src/saiacl.c:389-423 | the handles of an attribute inserted between two lists come between theirs |
| Acl.KeysPrefixIrrelevant | src/saiacl.c:474-485 | the key list depends only on the attributes at the positions it covers |
| Route.V4PrefixLength | src/sairoute.c:23-32 | the count of set bits of the word, at most 32, and 0 for 0 |
| Route.V4PrefixOfContiguous | src/sairoute.c:23-32 | a mask of k leading ones has length k |
| Route.PopCountBound | src/sairoute.c:26-30 | a value below 2^n has at most n set bits |
| Route.V6PrefixLength | src/sairoute.c:34-51 | the byte-by-byte walk over the in-place copy counts every set bit of the 16 bytes, at most 128 |
| Route.PopCountFullByte | src/sairoute.c:40-41 | the 0xFF shortcut adds exactly the 8 bits the byte has |
| Route.RouteEntryParse | src/sairoute.c:53-73 | the virtual router; IPv4 gives the host-order address and the popcount of the host-order mask, whose conversion back is the input; IPv6 copies the address and counts the mask; any other family gives the zeroed address |
| Route.ScenarioRouteV4 | src/sairoute.c:62-66 | 10.0.0.0/24 in network order becomes 0x0A000000 with length 24 |
| Route.RouteEntryAttributeParse | src/sairoute.c:75-96 | next hop, action and priority are each the last value of their attribute, starting from the caller's values |
| Route.UnknownRouteAttributesIgnored | src/sairoute.c:84-94 | an unknown attribute id changes neither next hop nor action |
| Route.LastNextHopWins | src/sairoute.c:85-87 | the last NEXT_HOP_ID decides the next hop |
| Route.ResolveNextHop | src/sairoute.c:125-139 | an explicit next hop is kept; without one, DROP gives the NULL_DROP CPU next hop, TRAP the GLEAN one, anything else none |
| Route.CreateRouteEntry | src/sairoute.c:114-144 | a route is added iff a next hop results, with the parsed router, that next hop, and the add's status; its address is the host-order IPv4 address with the mask's length, the IPv6 copy with the mask's length, or the zeroed address for another family; otherwise SUCCESS and nothing added |
| Route.ExplicitNextHopTakesPrecedence | src/sairoute.c:125 | a non-zero last NEXT_HOP_ID is used whatever the action |
| Route.ForwardWithoutNextHopAddsNothing | src/sairoute.c:130-131 | FORWARD without a next hop resolves to none, so no route is added |
| HostIntf.ReasonCodeOf | src/saihostintf.c:261-356 | only unnamed trap ids give NONE; NULL_DROP and GLEAN are never produced |
| HostIntf.TrapIdNamed | src/saihostintf.c:261-356 | the inverse table names only named trap ids, and each reason code it names is the code the translator gives that trap id |
| HostIntf.ReasonCodeRoundTrip | src/saihostintf.c:261-356 | a named trap id is recovered from the reason code the translator gives it |
| HostIntf.ReasonCodeInjective | src/saihostintf.c:261-356 | two named trap ids with the same reason code are the same id |
| HostIntf.ActionOf | src/saihostintf.c:358-378 | each named packet action maps to a non-zero ACL action that identifies it; other values are excluded (requires: the result would be uninitialised) |
| HostIntf.ChannelOf | src/saihostintf.c:380-397 | FD and CB give CB, NETDEV gives NETDEV, anything else 0, each as an iff |
| HostIntf.TxBypass | src/saihostintf.c:628-642 | bypass iff the tx type is not PIPELINE_LOOKUP |
| HostIntf.LastIndex | src/saihostintf.c:45-63 | the position of the last attribute with the given id |
| HostIntf.HostifLastWriterWins | src/saihostintf.c:53-58 | handle and name are those of the last RIF_OR_PORT_ID and NAME attributes, uninitialised without one |
| HostIntf.CreateHostif | src/saihostintf.c:35-68 | FAILURE and nothing created iff some TYPE is not NETDEV; otherwise SUCCESS with the folded interface passed to create |
| HostIntf.ApplyTrapAttr | src/saihostintf.c:426-441 | one attribute sets exactly its own field (translated action and channel, priority, group) and keeps the reason code |
| HostIntf.ApplyTrapAttrs | src/saihostintf.c:424-442 | the attribute loop never changes the reason code |
| HostIntf.TrapAttrsLastWriterWins | src/saihostintf.c:424-442 | action, priority, channel and group are each the last value written to them |
| HostIntf.CreateHostifTrap | src/saihostintf.c:411-448 | the zeroed info with the trap's reason code and the folded attributes is passed to create; the status is create's |
| HostIntf.SetHostifTrapAttribute | src/saihostintf.c:488-519 | the zeroed info with the reason code and the one attribute is passed to update; the status is update's |
| HostIntf.SetIsCreateWithOneAttribute | src/saihostintf.c:488-519 | set builds the same info as create with that single attribute |
| HostIntf.RemoveHostifTrap | src/saihostintf.c:461-474 | the trap's reason code is deleted; NONE iff the trap id is unnamed |
| HostIntf.SendPacketDescription | src/saihostintf.c:659-694 | the packet carries the buffer size, the last TX_TYPE's bypass flag and the last egress port, each zero without one |
| HostIntf.SendDefaultsToLookup | src/saihostintf.c:670-679 | without a TX_TYPE attribute the packet goes through the pipeline |
| HostIntf.RecvPacketCallback | src/saihostintf.c:708-734 | an event exists iff a handler is registered; it carries the packet size and exactly two attributes, trap id then ingress port |
| Stp.ToSwitchState | src/saistp.c:112-133 | STATE_NONE iff the SAI state is unnamed; never an unnamed switch state |
| Stp.FromSwitchState | src/saistp.c:144-165 | 0 iff the library state is not one of the three named states |
| Stp.SetStpPortState | src/saistp.c:112-133 | the translated state is passed to the library and its status returned |
| Stp.GetStpPortState | src/saistp.c:144-165 | the library's status, and the translation of the state it reports |
| Stp.VlanHandles | src/saistp.c:47-50 | one handle per VLAN of the list, element by element |
| Stp.GroupAddsPerVlanAttribute | src/saistp.c:42-54 | one group add per VLAN attribute, in order, each with that attribute's handles |
| Stp.VlanHandleArray | src/saistp.c:46-50 | the filled array holds the handle of each listed VLAN at its index |
| Stp.CreateStpEntry | src/saistp.c:31-56 | the created group id, one add per VLAN attribute in order, and the status of the last add or SUCCESS |
| Fdb.FdbEntryParse | src/saifdb.c:23-28 | the VLAN handle of the entry's VLAN and the 6 MAC bytes; other fields untouched |
| Fdb.ApplyFdbAttr | src/saifdb.c:41-70 | a non-stopping attribute never touches the VLAN handle or the MAC |
| Fdb.ParseFdbAttrs | src/saifdb.c:30-73 | the parse never touches the VLAN handle or the MAC |
| Fdb.FdbEntryAttributeParse | src/saifdb.c:30-73 | the loop's entry equals the front-to-back application that stops at the first unknown packet action |
| Fdb.AttributesAfterStopIgnored | src/saifdb.c:68-69 | attributes after a packet action other than DROP or FORWARD are not applied |
| Fdb.NoPortIdKeepsHandle | src/saifdb.c:54-56 | without PORT_ID the port handle is unchanged |
| Fdb.LastPortIdWins | src/saifdb.c:54-56 | when the parse runs to the end, the last PORT_ID is the handle |
| Fdb.UnknownEntryTypeKeepsType | src/saifdb.c:42-52 | a TYPE other than DYNAMIC or STATIC changes nothing |
| Fdb.CreateFdbEntry | src/saifdb.c:88-113 | a null entry or attribute list gives INVALID_PARAMETER and no add; otherwise the parsed entry is added and the add's status returned |
| Fdb.FlushFdbEntries | src/saifdb.c:208-269 | NOT_SUPPORTED iff some ENTRY_TYPE is DYNAMIC or STATIC; otherwise FAILURE, and no deletion is ever requested |
| NextHop.NhopIpOf | src/sainexthop.c:52-65 | IPv4 gives a /32 host-order address whose conversion back is the input, IPv6 a /128 copy, another family nothing |
| NextHop.CreateNextHopEntry | src/sainexthop.c:37-75 | INVALID_PARAMETER and no create iff an unknown id is present; otherwise SUCCESS and the key of last written values is created |
| NextHop.ValidIffAddressSet | src/sainexthop.c:46-65 | the key is valid iff an address was set iff some IP attribute has an IPv4 or IPv6 family |
| NextHop.LastIpv4AddressRoundTrip | src/sainexthop.c:54-58 | for a last IPv4 address: a valid /32 key whose address converts back to the input |
| NextHop.OtherFamilyIgnored | src/sainexthop.c:52-65 | an IP attribute of another family leaves the key unchanged |
| NextHop.LastRouterInterfaceWins | src/sainexthop.c:66-67 | the last ROUTER_INTERFACE_ID is the key's interface |
| RouterIntf.CreateRouterInterface | src/sairouterintf.c:34-77 | INVALID_PARAMETER and no create iff an unknown id is present; otherwise SUCCESS and the description of last written values; the PORT_ID and VLAN_ID asserts hold (requires) |
| RouterIntf.TypeMatchesUnion | src/sairouterintf.c:53-62 | L3 goes with a port/LAG handle, L3_VLAN with a VLAN id, the zeroed type with the zeroed union |
| RouterIntf.UnboundWithoutPortOrVlan | src/sairouterintf.c:43-62 | the type stays zeroed iff there is no PORT_ID or VLAN_ID |
| RouterIntf.SourceMacIgnored | src/sairouterintf.c:63-64 | SRC_MAC_ADDRESS changes nothing |
| RouterIntf.ScenarioPortInterface | src/sairouterintf.c:47-57 | VRF, TYPE=PORT, PORT_ID satisfy the asserts and give an L3 interface on that port |
| Neighbor.NeighborAddressVersusNextHop | src/saineighbor.c:26-36 | neighbor and next-hop addresses of one SAI address differ by the IPv4 byte order only |
| Neighbor.NeighborEntryParse | src/saineighbor.c:22-37 | the interface is always set; IPv4 gives L3 and the unconverted /32 address, IPv6 L3 and the /128 copy, another family nothing more |
| Neighbor.NeighborEntryAttributeParse | src/saineighbor.c:39-55 | the MAC is the last DST_MAC_ADDRESS, everything else untouched |
| Neighbor.NeighborEntryNexthopGet | src/saineighbor.c:57-67 | the key is {interface, address, valid}, and the found handle is stored |
| Neighbor.CreateNeighborEntry | src/saineighbor.c:84-97 | SUCCESS; the added neighbor has the entry's interface, rw type and address, the last MAC and the handle found for `NeighborKey(entry)` |
| Neighbor.RemoveNeighborEntry | src/saineighbor.c:112-123 | the same `NeighborKey(entry)` as create, and the status of removing the neighbor found through it |
| Neighbor.NeighborKeyMissesNextHop | src/saineighbor.c:29 | the neighbor key for 10.0.0.1 on interface 1 differs from the key of the next hop created for it |
| Neighbor.IntendedNeighborKeyMatchesNextHop | src/saineighbor.c:22-37 | with the host-order conversion, a neighbor's key equals the key of any next hop created for the same interface and address |
| Neighbor.Ipv6NeighborKeyAsIntended | src/saineighbor.c:31-36 | for IPv6 the key as written is already the intended one |

## Left out

- Library calls (switchapi) are parameters or recorded effects. Their
  behaviour, their ids and any table state they keep are outside the model.
- Numeric values of the SAI and library enumerations are not modelled. The
  library's ACL type order is a parameter; `LibraryTypeOrder` is the
  order IP, IPv6, MAC, none.
- A zeroed library field is modelled as its own `...Zero` constructor. The
  headers that fix whether it aliases an enumerator numbered 0 are not part
  of this model.
- `HOSTIF_NAME_SIZE` is not part of this model. It is the parameter
  `nameSize`, at most 32.
- These functions are not modelled: the remove, set and get calls that only
  parse and forward, or are empty stubs; the ACL deletes; the route
  remove/set/get; FDB remove/set/get; the STP entry remove/set/get; hostif
  remove/set/get; trap groups; user-defined traps.
  `sai_remove_hostif_trap` and `sai_remove_neighbor_entry` are modelled.
- Memory management is not modelled. That covers malloc failure paths, the
  tommy list nodes and the `free` of the caller's object list.
- The packet transport, the callback registration and logging are not
  modelled. The receive handler is reduced to whether it is registered.
- The ACL key-value storage layout is not modelled. Every shape's keys use
  IP-sized storage in C, but key pairs here are a tagged datatype.
- Router-interface union overlap is not modelled. In C, a VLAN id written
  over a port handle shares storage with it. Here the union is a tagged
  value written together with the interface type.
- Acl.CreateAclEntry: it requires at most 14 attributes
  (`SWITCH_ACL_IP_FIELD_MAX`, counted from the enumerators the code names).
  The C writes the 14-cell array only at the position of a field attribute
  whose table entry is not -1, so it over-runs only when such an attribute
  stands at position 14 or later. A longer list whose extra attributes are
  TABLE_ID, PRIORITY or actions is handled by the C but excluded here: the
  requires is stronger than the C needs.
- Acl.MatchTableType: attribute ids outside the field range would index
  outside the table. `LookupsInRange` excludes them, so that undefined case
  is not modelled.
- HostIntf.ActionOf: an unnamed packet action would return an
  uninitialised value. The requires excludes it.
- RouterIntf.CreateRouterInterface: a PORT_ID or VLAN_ID attribute that the
  loop reaches needs an earlier TYPE attribute of the matching kind. The
  assert demands this, and reading the type before any TYPE is undefined.
- Acl.CreateAclTable: the test `acl_type < 0` (src/saiacl.c:310) is read
  as a signed comparison, so a failed classification (-1) gives
  INVALID_PARAMETER. `switch_acl_type_t` is a library enumeration whose
  declaration is not part of this model. If the compiler makes it unsigned
  (no negative enumerator), the test is never true: the -1 reaches
  `switch_api_acl_list_create` as a large type and SUCCESS is returned.
  The model does not capture that reading.
- Stp.FromSwitchState: the `*stp_port_state = 0` of src/saistp.c:162 is
  modelled as the separate value `SaiStpOther(0)`. The SAI header that
  numbers `sai_port_stp_port_state_t` is not part of this model; if it
  numbers SAI_PORT_STP_STATE_LEARNING as 0, a library state of NONE or any
  unnamed state is reported as LEARNING. The same holds for
  Stp.UnnamedStateReadsAsZero, which then means "reads as LEARNING".
- Route.CreateRouteEntry: the C action is an `int` that starts at -1. It is
  modelled as a packet action with `PacketActionRaw(-1)` as the starting
  value. The trap priority is parsed but never used, as in the source.
- Fdb.FlushFdbEntries: the delete branches are modelled but can never be
  taken, because no attribute sets the flags. The commented-out
  ENTRY_TYPE=ALL case is absent, as in the source.
- Fdb.CreateFdbEntry: the status of the VLAN-to-handle lookup is ignored,
  as in the source. The lookup is a function to a handle.
- Prefix lengths are unbounded naturals. The contracts bound them by 32 and
  128, so no truncation arises.

## Findings

| source | as written | input that shows it | evidently intended | confidence | as-written member | corrected member |
|---|---|---|---|---|---|---|
| src/saiacl.c:134-137 | `match_table_type` returns -1 as soon as the first tabled type rejects an attribute, so later tables are never tried | one IPv6 source address qualifier | try each type in order and pick the first whose table supports every qualifier | high; not executed | Acl.ClassifierRejectsIpv6Only | Acl.ClassifyShapeIsFirst |
| src/saiacl.c:415-423 | OUTER_VLAN_ID is -1 in every table, so `match_table_field` fails for it and the rule is silently not created; the reference code for it is dead | TABLE_ID of an IP table, SRC_IP, OUTER_VLAN_ID | OUTER_VLAN_ID is a reference (-2) like IN_PORT, and its object is referenced | medium; not executed | Acl.ReferenceQualifiersBlock | Acl.IntendedOuterVlanIsReference |
| src/saineighbor.c:29 | the neighbor's IPv4 address is stored without `ntohl`, while a next hop's key for the same address converts it (src/sainexthop.c:56), so the neighbor's next-hop lookup uses a different key | neighbor 10.0.0.1 on router interface 1 after creating a next hop 10.0.0.1 on interface 1 | convert with `ntohl` as the next hop does, so both keys agree | medium; not executed | Neighbor.NeighborKeyMissesNextHop | Neighbor.IntendedNeighborKeyMatchesNextHop |
