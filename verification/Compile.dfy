/** Everything a revision turns into before any of it is applied, and the layout it gets. */
module Compiler {
  import opened Netip
  import opened Ordering
  import opened Domain
  import opened Links
  import opened FirewallPlanner
  import opened Validation
  import opened Revision
  import opened EgressPlanner
  import opened DnsPlanner

  datatype Compiled = Compiled(plan: FirewallPlan, specs: seq<EgressSpec>, dns: DnsPlan)

  /** The plan is completed with its SOCKS endpoints before it is fingerprinted anywhere. */
  ghost function Completed(plan: FirewallPlan, specs: seq<EgressSpec>): FirewallPlan {
    plan.(socks := Endpoints(specs, EndpointClients(plan)))
  }

  ghost function CompiledOf(state: DesiredState, uplink: string, upstreams: set<string>): Result<Compiled> {
    var plan := PlanOf(state, uplink);
    if plan.Err? then Err(plan.error)
    else
      var specs := SpecsOf(ById(state.tunnels), upstreams, PlacementsOf(plan.value));
      if specs.Err? then Err(specs.error)
      else
        var full := Completed(plan.value, specs.value);
        var dns := DnsPlanOf(state, full, specs.value);
        if dns.Err? then Err(dns.error) else Ok(Compiled(full, specs.value, dns.value))
  }

  /** What follows the plan: the tunnels' specs, the plan completed with their endpoints, and DNS. */
  method Complete(state: DesiredState, ghost uplink: string, plan: FirewallPlan, upstreams: set<string>)
    returns (r: Result<Compiled>)
    requires PlanOf(state, uplink) == Ok(plan)
    ensures r == CompiledOf(state, uplink, upstreams)
  {
    hide PlanOf;
    var specs :- BuildEgressSpecs(state, plan, upstreams);
    var endpoints := SocksEndpoints(specs, plan);
    var full := plan.(socks := endpoints);
    var dns :- BuildDnsPlan(state, full, specs);
    return Ok(Compiled(full, specs, dns));
  }

  // ------------------------------------------------------------------
  // The layout, as a function of the enabled tunnels alone
  // ------------------------------------------------------------------

  ghost function EgressOrder(tunnels: seq<Tunnel>): seq<string> {
    SortedNames(EgressTunnelIds(tunnels))
  }

  ghost function PrivateOrder(tunnels: seq<Tunnel>): seq<Tunnel> {
    Sort(TunnelLe, PrivateTunnels(tunnels))
  }

  /** The tunnels in layout order: egresses by name, then private networks by name. */
  ghost function TunnelOrder(tunnels: seq<Tunnel>): seq<string> {
    EgressOrder(tunnels) + IdsOf(PrivateOrder(tunnels))
  }

  ghost function IdsOf(tunnels: seq<Tunnel>): seq<string> {
    seq(|tunnels|, i requires 0 <= i < |tunnels| => tunnels[i].id)
  }

  ghost function SpecAt(tunnels: seq<Tunnel>, k: nat): EgressSpec
    requires k < |TunnelOrder(tunnels)| && k < LINK_LIMIT
    requires TunnelOrder(tunnels)[k] in ById(tunnels)
  {
    var id := TunnelOrder(tunnels)[k];
    EgressSpec(
      id, NamespaceOf(id), EgressInterface(id),
      LINK_BASE.addr + 4 * k + 1, LINK_BASE.addr + 4 * k + 2,
      DIRECT_MARK + 1 + k, ROUTE_TABLE_BASE + k, SOCKS_PORT_BASE + k, ById(tunnels)[id].kind)
  }

  ghost predicate HasLayout(tunnels: seq<Tunnel>, specs: seq<EgressSpec>) {
    var order := TunnelOrder(tunnels);
    && |specs| == |order| <= LINK_LIMIT
    && (forall k :: 0 <= k < |order| ==> order[k] in ById(tunnels))
    && (forall k :: 0 <= k < |order| ==> specs[k] == SpecAt(tunnels, k))
  }

  lemma TunnelIdsPrefix(tunnels: seq<Tunnel>)
    requires DistinctTunnelIds(tunnels) && tunnels != []
    ensures DistinctTunnelIds(tunnels[..|tunnels| - 1])
    ensures forall t :: t in tunnels[..|tunnels| - 1] ==> t.id != tunnels[|tunnels| - 1].id
    ensures forall t :: t in tunnels <==> t in tunnels[..|tunnels| - 1] || t == tunnels[|tunnels| - 1]
  {
    var front, last := tunnels[..|tunnels| - 1], tunnels[|tunnels| - 1];
    forall t | t in front ensures t.id != last.id {
      var k :| 0 <= k < |front| && front[k] == t;
      assert tunnels[k] == t;
    }
    assert tunnels == front + [last];
  }

  lemma {:induction false} ByIdHas(tunnels: seq<Tunnel>, t: Tunnel)
    requires DistinctTunnelIds(tunnels) && t in tunnels
    ensures t.id in ById(tunnels) && ById(tunnels)[t.id] == t
  {
    TunnelIdsPrefix(tunnels);
    if t != tunnels[|tunnels| - 1] {
      ByIdHas(tunnels[..|tunnels| - 1], t);
    }
  }

  lemma {:induction false} ByIdIsMember(tunnels: seq<Tunnel>, id: string)
    requires id in ById(tunnels)
    ensures ById(tunnels)[id] in tunnels && ById(tunnels)[id].id == id
  {
    if id != tunnels[|tunnels| - 1].id {
      ByIdIsMember(tunnels[..|tunnels| - 1], id);
    }
  }

  lemma {:induction false} PrivateMembers(tunnels: seq<Tunnel>, t: Tunnel)
    ensures t in PrivateTunnels(tunnels) <==> t in tunnels && t.role == PrivateNetworkRole
  {
    if tunnels != [] {
      PrivateMembers(tunnels[..|tunnels| - 1], t);
      assert tunnels == tunnels[..|tunnels| - 1] + [tunnels[|tunnels| - 1]];
    }
  }

  lemma {:induction false} PrivateDistinct(tunnels: seq<Tunnel>)
    requires DistinctTunnelIds(tunnels)
    ensures DistinctTunnelIds(PrivateTunnels(tunnels))
  {
    if tunnels != [] {
      var front, last := tunnels[..|tunnels| - 1], tunnels[|tunnels| - 1];
      PrivateDistinct(front);
      forall t | t in PrivateTunnels(front) ensures t.id != last.id {
        PrivateMembers(front, t);
        var k :| 0 <= k < |front| && front[k] == t;
        assert tunnels[k] == t;
      }
    }
  }

  lemma PrivateOrderMembers(tunnels: seq<Tunnel>)
    requires DistinctTunnelIds(tunnels)
    ensures DistinctTunnelIds(PrivateOrder(tunnels))
    ensures forall t :: t in PrivateOrder(tunnels) <==> t in tunnels && t.role == PrivateNetworkRole
  {
    PrivateDistinct(tunnels);
    TunnelsStayDistinct(PrivateTunnels(tunnels), PrivateOrder(tunnels));
    SameElements(PrivateTunnels(tunnels), PrivateOrder(tunnels));
    forall t ensures t in PrivateTunnels(tunnels) <==> t in tunnels && t.role == PrivateNetworkRole {
      PrivateMembers(tunnels, t);
    }
  }

  lemma EgressPosition(tunnels: seq<Tunnel>, id: string)
    requires DistinctTunnelIds(tunnels) && id in EgressTunnelIds(tunnels)
    ensures id in ById(tunnels) && ById(tunnels)[id].role == EgressRole
  {
    var t :| t in tunnels && t.role == EgressRole && t.id == id;
    ByIdHas(tunnels, t);
  }

  lemma PrivatePosition(tunnels: seq<Tunnel>, k: nat)
    requires DistinctTunnelIds(tunnels) && k < |PrivateOrder(tunnels)|
    ensures PrivateOrder(tunnels)[k].id in ById(tunnels)
    ensures ById(tunnels)[PrivateOrder(tunnels)[k].id] == PrivateOrder(tunnels)[k]
    ensures PrivateOrder(tunnels)[k].role == PrivateNetworkRole
  {
    PrivateOrderMembers(tunnels);
    hide PrivateOrder, DistinctTunnelIds, ById;
    assert PrivateOrder(tunnels)[k] in PrivateOrder(tunnels);
    ByIdHas(tunnels, PrivateOrder(tunnels)[k]);
  }

  lemma OrderAt(tunnels: seq<Tunnel>, k: nat)
    requires k < |TunnelOrder(tunnels)|
    ensures |TunnelOrder(tunnels)| == |EgressOrder(tunnels)| + |PrivateOrder(tunnels)|
    ensures k < |EgressOrder(tunnels)| ==>
      TunnelOrder(tunnels)[k] == EgressOrder(tunnels)[k] && TunnelOrder(tunnels)[k] in EgressTunnelIds(tunnels)
    ensures k >= |EgressOrder(tunnels)| ==>
      TunnelOrder(tunnels)[k] == PrivateOrder(tunnels)[k - |EgressOrder(tunnels)|].id
  {
    hide EgressTunnelIds, PrivateOrder;
    if k < |EgressOrder(tunnels)| {
      assert EgressOrder(tunnels)[k] in EgressOrder(tunnels);
    }
  }

  lemma PositionRole(tunnels: seq<Tunnel>, k: nat)
    requires DistinctTunnelIds(tunnels) && k < |TunnelOrder(tunnels)|
    ensures TunnelOrder(tunnels)[k] in ById(tunnels)
    ensures ById(tunnels)[TunnelOrder(tunnels)[k]].role
      == (if k < |EgressOrder(tunnels)| then EgressRole else PrivateNetworkRole)
  {
    hide TunnelOrder, DistinctTunnelIds, ById, PrivateOrder, EgressOrder, EgressTunnelIds;
    OrderAt(tunnels, k);
    if k < |EgressOrder(tunnels)| {
      EgressPosition(tunnels, TunnelOrder(tunnels)[k]);
    } else {
      PrivatePosition(tunnels, k - |EgressOrder(tunnels)|);
    }
  }

  /** Every tunnel takes exactly one position. */
  lemma OrderIsDistinct(tunnels: seq<Tunnel>)
    requires DistinctTunnelIds(tunnels)
    ensures Distinct(TunnelOrder(tunnels))
  {
    var egress, private_, order := EgressOrder(tunnels), PrivateOrder(tunnels), TunnelOrder(tunnels);
    PrivateOrderMembers(tunnels);
    forall i, j | 0 <= i < j < |order| ensures order[i] != order[j] {
      PositionRole(tunnels, i);
      PositionRole(tunnels, j);
      if i >= |egress| {
        assert private_[i - |egress|].id != private_[j - |egress|].id;
      }
    }
  }

  lemma {:induction false} TunnelPlacementsAppend(a: seq<EgressGroup>, b: seq<EgressGroup>)
    ensures TunnelPlacements(a + b) == TunnelPlacements(a) + TunnelPlacements(b)
  {
    if b == [] {
      assert a + b == a;
    } else {
      assert (a + b)[..|a + b| - 1] == a + b[..|b| - 1];
      TunnelPlacementsAppend(a, b[..|b| - 1]);
    }
  }

  lemma {:induction false} AllPlaced(groups: seq<EgressGroup>)
    requires forall g :: g in groups ==> g.id != DIRECT
    ensures |TunnelPlacements(groups)| == |groups|
    ensures forall k :: 0 <= k < |groups| ==>
      TunnelPlacements(groups)[k] == Placement(groups[k].id, groups[k].mark, groups[k].iface)
  {
    if groups != [] {
      AllPlaced(groups[..|groups| - 1]);
    }
  }

  /** In a valid revision no device names an egress the revision lacks. */
  lemma EgressesAreTunnels(state: DesiredState)
    requires ValidRevision(state)
    ensures TunnelEgresses(state) == EgressTunnelIds(state.tunnels)
    ensures DIRECT !in EgressTunnelIds(state.tunnels)
  {
    forall e | e in Egresses(state.devices) && e != DIRECT ensures e in EgressTunnelIds(state.tunnels) {
      var d :| d in state.devices && d.egress == e;
      var i :| 0 <= i < |state.devices| && state.devices[i] == d;
      assert ValidChoice(state.devices[i], state.tunnels);
    }
    forall t | t in state.tunnels ensures t.id != DIRECT {
      var i :| 0 <= i < |state.tunnels| && state.tunnels[i] == t;
      assert ValidRevisionTunnel(state.tunnels[i]);
    }
  }

  lemma TunnelGroupIds(state: DesiredState)
    requires ValidRevision(state) && AddressesParse(state.devices)
    ensures var groups := TunnelGroups(state, EgressOrder(state.tunnels));
      forall g :: g in groups ==> g.id != DIRECT
  {
    EgressesAreTunnels(state);
    var ids := EgressOrder(state.tunnels);
    var groups := TunnelGroups(state, ids);
    forall g | g in groups ensures g.id != DIRECT {
      var k :| 0 <= k < |groups| && groups[k] == g;
      assert ids[k] in EgressTunnelIds(state.tunnels);
    }
  }

  /** A plan carries the groups and networks of its revision. */
  ghost predicate CarriesRevision(plan: FirewallPlan, state: DesiredState, uplink: string) {
    && AddressesParse(state.devices)
    && plan.egresses == EgressGroups(state, uplink)
    && plan.internals == InternalNetworks(state)
  }

  /** The placements of these tunnels, in order, with marks counting up from the first. */
  ghost predicate PlacedFrom(placements: seq<Placement>, ids: seq<string>, firstMark: int) {
    && |placements| == |ids|
    && forall k :: 0 <= k < |ids| ==> placements[k] == Placement(ids[k], U32(firstMark + k), EgressInterface(ids[k]))
  }

  lemma PlacedAppend(a: seq<Placement>, b: seq<Placement>, idsA: seq<string>, idsB: seq<string>, firstMark: int)
    requires PlacedFrom(a, idsA, firstMark) && PlacedFrom(b, idsB, firstMark + |idsA|)
    ensures PlacedFrom(a + b, idsA + idsB, firstMark)
  {
    forall k | 0 <= k < |idsA + idsB|
      ensures (a + b)[k] == Placement((idsA + idsB)[k], U32(firstMark + k), EgressInterface((idsA + idsB)[k]))
    {
      if k >= |idsA| {
        assert b[k - |idsA|]
          == Placement(idsB[k - |idsA|], U32(firstMark + |idsA| + (k - |idsA|)), EgressInterface(idsB[k - |idsA|]));
      }
    }
  }

  lemma GroupPlacements(state: DesiredState, ids: seq<string>)
    requires AddressesParse(state.devices)
    requires forall g :: g in TunnelGroups(state, ids) ==> g.id != DIRECT
    ensures PlacedFrom(TunnelPlacements(TunnelGroups(state, ids)), ids, DIRECT_MARK + 1)
  {
    AllPlaced(TunnelGroups(state, ids));
  }

  lemma EgressPlacements(state: DesiredState, uplink: string)
    requires ValidRevision(state) && AddressesParse(state.devices)
    ensures PlacedFrom(TunnelPlacements(EgressGroups(state, uplink)), EgressOrder(state.tunnels), DIRECT_MARK + 1)
  {
    EgressesAreTunnels(state);
    TunnelGroupIds(state);
    var ids := EgressOrder(state.tunnels);
    assert EgressGroups(state, uplink) == DirectGroups(state, uplink) + TunnelGroups(state, ids);
    assert TunnelPlacements(DirectGroups(state, uplink)) == [];
    hide PlacedFrom, EgressGroups, DirectGroups, TunnelGroups, TunnelPlacements, ValidRevision;
    GroupPlacements(state, ids);
    TunnelPlacementsAppend(DirectGroups(state, uplink), TunnelGroups(state, ids));
  }

  lemma NumberedPlacements(private_: seq<Tunnel>, firstMark: int, permitted: map<string, seq<Addr>>,
      proxied: map<string, bool>)
    ensures PlacedFrom(NetworkPlacements(Networks(private_, firstMark, permitted, proxied)), IdsOf(private_), firstMark)
  {
  }

  lemma PrivatePlacements(state: DesiredState)
    requires ValidRevision(state) && AddressesParse(state.devices)
    ensures PlacedFrom(NetworkPlacements(InternalNetworks(state)), IdsOf(PrivateOrder(state.tunnels)),
                       DIRECT_MARK + 1 + |EgressOrder(state.tunnels)|)
  {
    EgressesAreTunnels(state);
    hide PlacedFrom, Networks, NetworkPlacements, ValidRevision, Permitted, Proxied, EgressTunnelIds, TunnelEgresses,
         IdsOf;
    NumberedPlacements(PrivateOrder(state.tunnels), DIRECT_MARK + 1 + |EgressOrder(state.tunnels)|,
                       Permitted(state.devices, state.tunnels), Proxied(state.tunnels));
  }

  lemma PlacementOrder(state: DesiredState, uplink: string, plan: FirewallPlan)
    requires ValidRevision(state) && CarriesRevision(plan, state, uplink)
    ensures PlacedFrom(PlacementsOf(plan), TunnelOrder(state.tunnels), DIRECT_MARK + 1)
  {
    hide EgressGroups, InternalNetworks, TunnelPlacements, NetworkPlacements, ValidRevision, EgressOrder, PrivateOrder,
         PlacedFrom, IdsOf;
    EgressPlacements(state, uplink);
    PrivatePlacements(state);
    PlacedAppend(TunnelPlacements(plan.egresses), NetworkPlacements(plan.internals),
                 EgressOrder(state.tunnels), IdsOf(PrivateOrder(state.tunnels)), DIRECT_MARK + 1);
  }

  lemma {:induction false} SpecsPointwise(byId: map<string, Tunnel>, upstreams: set<string>, placements: seq<Placement>)
    requires SpecsOf(byId, upstreams, placements).Ok?
    ensures var specs := SpecsOf(byId, upstreams, placements).value;
      && |specs| == |placements|
      && forall k :: 0 <= k < |placements| ==> SpecFor(byId, upstreams, placements[k], k) == Ok(specs[k])
  {
    if placements != [] {
      SpecsPointwise(byId, upstreams, placements[..|placements| - 1]);
    }
  }

  lemma SpecsHaveLayout(tunnels: seq<Tunnel>, upstreams: set<string>, placements: seq<Placement>,
      specs: seq<EgressSpec>)
    requires DistinctTunnelIds(tunnels)
    requires PlacedFrom(placements, TunnelOrder(tunnels), DIRECT_MARK + 1)
    requires SpecsOf(ById(tunnels), upstreams, placements) == Ok(specs)
    ensures HasLayout(tunnels, specs)
  {
    var order, byId := TunnelOrder(tunnels), ById(tunnels);
    hide TunnelOrder, ById, SpecsOf, DistinctTunnelIds;
    SpecsPointwise(byId, upstreams, placements);
    forall k | 0 <= k < |order| ensures k < LINK_LIMIT && order[k] in byId && specs[k] == SpecAt(tunnels, k) {
      PositionRole(tunnels, k);
      ByIdIsMember(tunnels, order[k]);
      LinkExists(k);
      assert SpecFor(byId, upstreams, placements[k], k) == Ok(specs[k]);
    }
    assert |order| > 0 ==> order[|order| - 1] in byId;
  }

  /** The parts of a successful compilation. */
  lemma CompiledParts(state: DesiredState, uplink: string, upstreams: set<string>, c: Compiled)
    requires CompiledOf(state, uplink, upstreams) == Ok(c)
    ensures CarriesRevision(c.plan, state, uplink)
    ensures var plan := PlanOf(state, uplink);
      && plan.Ok? && CarriesRevision(plan.value, state, uplink)
      && SpecsOf(ById(state.tunnels), upstreams, PlacementsOf(plan.value)) == Ok(c.specs)
      && c.plan == Completed(plan.value, c.specs)
      && PlacementsOf(plan.value) == PlacementsOf(c.plan)
      && EndpointClients(plan.value) == EndpointClients(c.plan)
  {
    hide EgressGroups, InternalNetworks, DnsDestinationsOf, PortACLs, TunnelPlacements, NetworkPlacements, SpecsOf,
         DnsPlanOf, Endpoints, NetworkClients, GroupClients, ById, AddressBook, TunnelCount;
  }

  /** Every tunnel's mark, interface, link, table and port is a function of the enabled tunnels:
  devices, their egress choices and revocations do not enter into it. */
  lemma LayoutDependsOnTunnels(state: DesiredState, uplink: string, upstreams: set<string>)
    requires ValidRevision(state) && CompiledOf(state, uplink, upstreams).Ok?
    ensures HasLayout(state.tunnels, CompiledOf(state, uplink, upstreams).value.specs)
  {
    var c := CompiledOf(state, uplink, upstreams).value;
    CompiledParts(state, uplink, upstreams, c);
    hide CompiledOf, PlanOf, CarriesRevision, PlacementsOf, TunnelOrder, HasLayout, PlacedFrom;
    PlacementOrder(state, uplink, c.plan);
    SpecsHaveLayout(state.tunnels, upstreams, PlacementsOf(c.plan), c.specs);
  }

  /** No two tunnels share a mark, a route table, a SOCKS port, an interface or a link address; a
  mark and its table always differ by the same constant, so a rule an earlier revision left
  behind never names another tunnel's table; and no port or mark wraps. */
  lemma LayoutIsInjective(tunnels: seq<Tunnel>, specs: seq<EgressSpec>, i: nat, j: nat)
    requires DistinctTunnelIds(tunnels) && HasLayout(tunnels, specs)
    requires i < |specs| && j < |specs| && i != j
    ensures specs[i].mark != specs[j].mark && specs[i].mark != DIRECT_MARK
    ensures specs[i].routeTable != specs[j].routeTable
    ensures specs[i].mark - specs[i].routeTable == DIRECT_MARK + 1 - ROUTE_TABLE_BASE
    ensures specs[i].socksPort != specs[j].socksPort && SOCKS_PORT_BASE <= specs[i].socksPort < 27464
    ensures specs[i].hostVeth != specs[j].hostVeth && specs[i].tunnelId != specs[j].tunnelId
    ensures {specs[i].hostAddress, specs[i].peerAddress} !! {specs[j].hostAddress, specs[j].peerAddress}
    ensures specs[i].hostAddress != specs[i].peerAddress
    ensures Contains(LINK_BASE, specs[i].hostAddress) && Contains(LINK_BASE, specs[i].peerAddress)
  {
    OrderIsDistinct(tunnels);
    var order := TunnelOrder(tunnels);
    assert order[i] != order[j];
    InterfaceInjective(order[i], order[j]);
    LinkExists(i);
    LinksAreDisjoint(i, j, specs[i].hostAddress);
    LinksAreDisjoint(i, j, specs[i].peerAddress);
  }

  lemma InterfaceInjective(a: string, b: string)
    ensures EgressInterface(a) == EgressInterface(b) ==> a == b
  {
    assert EgressInterface(a)[3..] == a && EgressInterface(b)[3..] == b;
  }

  /** The order in which a configuration lists its devices, tunnels and ACLs leaves no trace in
  the revision, hence none in anything compiled from it. */
  lemma RevisionForgetsOrder(a: Config, b: Config)
    requires Valid(a) && a.hub == b.hub
    requires multiset(a.devices) == multiset(b.devices)
    requires multiset(a.tunnels) == multiset(b.tunnels)
    requires multiset(a.acls) == multiset(b.acls)
    ensures RevisionOf(a) == RevisionOf(b)
  {
    LexPreorder();
    DeviceOrder(a.devices);
    SortForgetsOrder(DeviceLe, a.devices, b.devices);
    TunnelOrderIsTotal(a.tunnels);
    SortForgetsOrder(TunnelLe, a.tunnels, b.tunnels);
    ACLOrder(a.acls);
    SortForgetsOrder(ACLLe, a.acls, b.acls);
  }

  lemma DeviceOrder(devices: seq<Device>)
    requires DistinctDevices(devices)
    ensures TotalPreorder(DeviceLe) && NoTies(DeviceLe, devices)
  {
    LexPreorder();
    forall x, y ensures DeviceLe(x, y) || DeviceLe(y, x) { LexTotal(x.id, y.id); }
    forall x, y, z | DeviceLe(x, y) && DeviceLe(y, z) ensures DeviceLe(x, z) { LexTransitive(x.id, y.id, z.id); }
    forall x, y | x in devices && y in devices && DeviceLe(x, y) && DeviceLe(y, x) ensures x == y {
      LexAntisymmetric(x.id, y.id);
      var i :| 0 <= i < |devices| && devices[i] == x;
      var j :| 0 <= j < |devices| && devices[j] == y;
      assert SameIdentity(devices[i], devices[j]) && SameIdentity(devices[j], devices[i]);
    }
  }

  lemma TunnelOrderIsTotal(tunnels: seq<Tunnel>)
    requires DistinctTunnelIds(tunnels)
    ensures TotalPreorder(TunnelLe) && NoTies(TunnelLe, tunnels)
  {
    forall x, y ensures TunnelLe(x, y) || TunnelLe(y, x) { LexTotal(x.id, y.id); }
    forall x, y, z | TunnelLe(x, y) && TunnelLe(y, z) ensures TunnelLe(x, z) { LexTransitive(x.id, y.id, z.id); }
    forall x, y | x in tunnels && y in tunnels && TunnelLe(x, y) && TunnelLe(y, x) ensures x == y {
      LexAntisymmetric(x.id, y.id);
      var i :| 0 <= i < |tunnels| && tunnels[i] == x;
      var j :| 0 <= j < |tunnels| && tunnels[j] == y;
      assert i == j;
    }
  }

  lemma ACLOrder(acls: seq<ClientACL>)
    ensures TotalPreorder(ACLLe) && NoTies(ACLLe, acls)
  {
    forall x, y ensures ACLLe(x, y) || ACLLe(y, x) {
      LexTotal(x.source, y.source);
      LexTotal(x.target, y.target);
    }
    forall x, y, z | ACLLe(x, y) && ACLLe(y, z) ensures ACLLe(x, z) { ACLTransitive(x, y, z); }
    forall x, y | ACLLe(x, y) && ACLLe(y, x) ensures x == y { ACLAntisymmetric(x, y); }
  }

  lemma ACLAntisymmetric(x: ClientACL, y: ClientACL)
    requires ACLLe(x, y) && ACLLe(y, x)
    ensures x == y
  {
    if x.source != y.source { LexAntisymmetric(x.source, y.source); }
    else if x.target != y.target { LexAntisymmetric(x.target, y.target); }
  }

  lemma ACLTransitive(x: ClientACL, y: ClientACL, z: ClientACL)
    requires ACLLe(x, y) && ACLLe(y, z)
    ensures ACLLe(x, z)
  {
    if x.source != y.source || y.source != z.source {
      LexTransitive(x.source, y.source, z.source) by { LexTotal(x.source, x.source); LexTotal(y.source, y.source); }
      if x.source == z.source { LexAntisymmetric(x.source, y.source); }
    } else if x.target != y.target || y.target != z.target {
      LexTransitive(x.target, y.target, z.target) by { LexTotal(x.target, x.target); LexTotal(y.target, y.target); }
      if x.target == z.target { LexAntisymmetric(x.target, y.target); }
    }
  }
}
