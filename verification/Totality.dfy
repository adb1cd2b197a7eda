/** When a valid revision compiles: every error of the compiler that its validity does not rule out. */
module Totality {
  import opened Netip
  import opened Ordering
  import opened Domain
  import opened Links
  import opened FirewallPlanner
  import opened Validation
  import opened Revision
  import opened EgressPlanner
  import opened DnsPlanner
  import opened Compiler
  import opened PlanFacts
  import opened CompiledPass
  import opened IngressPlanner
  import opened HostCompiler

  ghost predicate AllHaveUpstreams(tunnels: seq<Tunnel>, upstreams: set<string>) {
    forall i :: 0 <= i < |tunnels| ==> tunnels[i].id in upstreams
  }

  // ---- every tunnel takes one position ----

  lemma OrderNames(tunnels: seq<Tunnel>, id: string)
    requires DistinctTunnelIds(tunnels) && forall i :: 0 <= i < |tunnels| ==> tunnels[i].role != UnsupportedRole
    ensures id in TunnelOrder(tunnels) <==> id in IdsOf(tunnels)
  {
    hide TunnelOrder, EgressOrder, PrivateOrder;
    if id in TunnelOrder(tunnels) {
      var k :| 0 <= k < |TunnelOrder(tunnels)| && TunnelOrder(tunnels)[k] == id;
      PositionRole(tunnels, k);
      ByIdIsMember(tunnels, id);
      IdListed(tunnels, ById(tunnels)[id]);
    }
    if id in IdsOf(tunnels) {
      var i :| 0 <= i < |tunnels| && tunnels[i].id == id;
      Positioned(tunnels, tunnels[i]);
    }
  }

  lemma IdListed(tunnels: seq<Tunnel>, t: Tunnel)
    requires t in tunnels
    ensures t.id in IdsOf(tunnels)
  {
    var i :| 0 <= i < |tunnels| && tunnels[i] == t;
    assert IdsOf(tunnels)[i] == t.id;
  }

  lemma Positioned(tunnels: seq<Tunnel>, t: Tunnel)
    requires DistinctTunnelIds(tunnels) && t in tunnels && t.role != UnsupportedRole
    ensures t.id in TunnelOrder(tunnels)
  {
    hide PrivateOrder, DistinctTunnelIds;
    if t.role == EgressRole {
      assert t.id in EgressOrder(tunnels);
    } else {
      PrivateOrderMembers(tunnels);
      IdListed(PrivateOrder(tunnels), t);
    }
  }

  lemma OrderLength(tunnels: seq<Tunnel>)
    requires DistinctTunnelIds(tunnels) && forall i :: 0 <= i < |tunnels| ==> tunnels[i].role != UnsupportedRole
    ensures |TunnelOrder(tunnels)| == |tunnels|
  {
    hide TunnelOrder;
    var names := set id | id in IdsOf(tunnels);
    forall id ensures id in TunnelOrder(tunnels) <==> id in names { OrderNames(tunnels, id); }
    OrderIsDistinct(tunnels);
    DistinctLength(TunnelOrder(tunnels), names);
    DistinctLength(IdsOf(tunnels), names);
  }

  // ---- the three stages ----

  lemma PlanExistsIff(state: DesiredState, uplink: string)
    requires ValidRevision(state)
    ensures PlanOf(state, uplink).Ok? <==> uplink != "" && |EgressOrder(state.tunnels)| <= LINK_LIMIT
    ensures PlanOf(state, uplink).Ok? ==> CarriesRevision(PlanOf(state, uplink).value, state, uplink)
  {
    hide EgressGroups, InternalNetworks, DnsDestinationsOf, PortACLs, AddressBook, TunnelCount, TunnelEgresses;
    ValidTunnelsAreDistinct(state);
    EgressesAreTunnels(state);
    GroupCount(state, uplink);
    NamesCardinality(TunnelEgresses(state));
  }

  lemma {:induction false} SpecsExistIff(byId: map<string, Tunnel>, upstreams: set<string>, placements: seq<Placement>)
    ensures SpecsOf(byId, upstreams, placements).Ok? <==>
      forall k :: 0 <= k < |placements| ==> SpecFor(byId, upstreams, placements[k], k).Ok?
  {
    hide SpecFor;
    if placements != [] {
      var front := placements[..|placements| - 1];
      SpecsExistIff(byId, upstreams, front);
      assert forall k :: 0 <= k < |front| ==> front[k] == placements[k];
    }
  }

  lemma SpecExistsIff(state: DesiredState, upstreams: set<string>, placements: seq<Placement>, k: nat)
    requires ValidRevision(state) && PlacedFrom(placements, TunnelOrder(state.tunnels), DIRECT_MARK + 1)
      && k < |placements|
    ensures SpecFor(ById(state.tunnels), upstreams, placements[k], k).Ok? <==>
      TunnelOrder(state.tunnels)[k] in upstreams && k < LINK_LIMIT
  {
    hide TunnelOrder, ById, ValidRevision;
    ValidTunnelsAreDistinct(state);
    PositionRole(state.tunnels, k);
    ByIdIsMember(state.tunnels, TunnelOrder(state.tunnels)[k]);
    LinkExists(k);
  }

  lemma AllSpecsExistIff(state: DesiredState, upstreams: set<string>, placements: seq<Placement>)
    requires ValidRevision(state) && PlacedFrom(placements, TunnelOrder(state.tunnels), DIRECT_MARK + 1)
    ensures SpecsOf(ById(state.tunnels), upstreams, placements).Ok? <==>
      AllHaveUpstreams(state.tunnels, upstreams) && |state.tunnels| <= LINK_LIMIT
  {
    hide TunnelOrder, ById, SpecsOf, SpecFor, ValidRevision, PlacedFrom;
    var order := TunnelOrder(state.tunnels);
    SpecsExistIff(ById(state.tunnels), upstreams, placements);
    PlacedLength(placements, order);
    ValidRoles(state);
    OrderLength(state.tunnels);
    forall k | 0 <= k < |placements|
      ensures SpecFor(ById(state.tunnels), upstreams, placements[k], k).Ok? <==> order[k] in upstreams && k < LINK_LIMIT
    {
      SpecExistsIff(state, upstreams, placements, k);
    }
    forall id ensures id in order <==> id in IdsOf(state.tunnels) { OrderNames(state.tunnels, id); }
    EveryName(order, state.tunnels, upstreams);
    if |order| > LINK_LIMIT { assert !SpecFor(ById(state.tunnels), upstreams, placements[LINK_LIMIT], LINK_LIMIT).Ok?; }
  }

  lemma PlacedLength(placements: seq<Placement>, ids: seq<string>)
    requires PlacedFrom(placements, ids, DIRECT_MARK + 1)
    ensures |placements| == |ids|
  {
  }

  lemma ValidRoles(state: DesiredState)
    requires ValidRevision(state)
    ensures DistinctTunnelIds(state.tunnels) && forall i :: 0 <= i < |state.tunnels| ==>
      state.tunnels[i].role != UnsupportedRole
  {
  }

  lemma EveryName(order: seq<string>, tunnels: seq<Tunnel>, upstreams: set<string>)
    requires forall id :: id in order <==> id in IdsOf(tunnels)
    ensures (forall k :: 0 <= k < |order| ==> order[k] in upstreams) <==> AllHaveUpstreams(tunnels, upstreams)
  {
    if forall k :: 0 <= k < |order| ==> order[k] in upstreams {
      forall i | 0 <= i < |tunnels| ensures tunnels[i].id in upstreams { assert IdsOf(tunnels)[i] in order; }
    }
    if AllHaveUpstreams(tunnels, upstreams) {
      forall k | 0 <= k < |order| ensures order[k] in upstreams {
        assert order[k] in IdsOf(tunnels);
        var i :| 0 <= i < |tunnels| && IdsOf(tunnels)[i] == order[k];
      }
    }
  }

  /** Once there is a layout, a valid revision always has a DNS plan. */
  lemma DnsPlanExists(state: DesiredState, uplink: string, plan: FirewallPlan, specs: seq<EgressSpec>)
    requires ValidRevision(state) && CarriesRevision(plan, state, uplink) && HasLayout(state.tunnels, specs)
    ensures DnsPlanOf(state, plan, specs).Ok?
  {
    hide EgressGroups, InternalNetworks, HasLayout, ValidRevision, ZonesAnswerable, GroupsHaveSpecs, AddressesParse;
    HubAnswers(state);
    ZonesHaveResolvers(state);
    GroupsAreServed(state, uplink, specs);
  }

  lemma HubAnswers(state: DesiredState)
    requires ValidRevision(state)
    ensures state.hub.dnsAddress.Some? && AddressesParse(state.devices)
  {
    ValidTunnelsAreDistinct(state);
  }

  lemma ZonesHaveResolvers(state: DesiredState)
    requires ValidRevision(state) && AddressesParse(state.devices)
    ensures ZonesAnswerable(InternalNetworks(state))
  {
    hide ValidRevision, AddressesParse, EgressOrder, Permitted, Proxied, NetworkRoutes, InternalNetworks, PrivateOrder;
    NetworksShape(state);
    ValidTunnelsAreDistinct(state);
    var networks := InternalNetworks(state);
    forall i | 0 <= i < |networks| ensures networks[i].zones != [] ==> networks[i].resolvers != [] {
      PrivateMember(state, i);
      assert ValidRevisionTunnel(PrivateOrder(state.tunnels)[i]);
      NoZonesNoZones(PrivateOrder(state.tunnels)[i]);
    }
  }

  lemma NoZonesNoZones(t: Tunnel)
    ensures t.dnsZones == [] ==> NetworkZones(t) == []
  {
  }

  lemma GroupsAreServed(state: DesiredState, uplink: string, specs: seq<EgressSpec>)
    requires ValidRevision(state) && AddressesParse(state.devices) && HasLayout(state.tunnels, specs)
      && state.hub.dnsAddress.Some?
    ensures GroupsHaveSpecs(EgressGroups(state, uplink), specs, state.hub.dnsAddress.value)
  {
    hide ValidRevision, AddressesParse, HasLayout, EgressGroups, TunnelOrder, SpecOf, Chose, ClientsFit, Sort,
         DistinctTunnelIds, ValidRevisionTunnel;
    var groups := EgressGroups(state, uplink);
    ValidTunnelsAreDistinct(state);
    forall i | 0 <= i < |groups| ensures EgressResolverFor(groups[i], specs, state.hub.dnsAddress.value).Some? {
      GroupsFit(state, uplink, i);
      if groups[i].id != DIRECT {
        var t :| t in state.tunnels && t.role == EgressRole && t.id == groups[i].id;
        Positioned(state.tunnels, t);
        var k :| 0 <= k < |TunnelOrder(state.tunnels)| && TunnelOrder(state.tunnels)[k] == t.id;
        LayoutNames(state.tunnels, specs, k);
        SpecFound(specs, k);
      }
    }
  }

  lemma LayoutNames(tunnels: seq<Tunnel>, specs: seq<EgressSpec>, k: nat)
    requires HasLayout(tunnels, specs) && k < |TunnelOrder(tunnels)|
    ensures k < |specs| && specs[k].tunnelId == TunnelOrder(tunnels)[k]
  {
    hide TunnelOrder, ById;
  }

  /** A valid revision compiles just when the uplink is known, every tunnel's upstream could be loaded,
  there are links for all of them, and the host's key is the one the configuration names: nothing else
  a valid configuration says can fail it. */
  lemma CompilesIff(state: DesiredState, uplink: string, upstreams: set<string>, keys: KeyStore)
    requires ValidRevision(state)
    ensures HostCompiles(state, uplink, upstreams, keys) <==>
      && uplink != "" && AllHaveUpstreams(state.tunnels, upstreams) && |state.tunnels| <= LINK_LIMIT
      && HubKeyFits(state.hub, keys)
  {
    hide ValidRevision, CompiledOf, HubKey, HubKeyFits, IngressSpecOf, AllHaveUpstreams;
    PolicyCompilesIff(state, uplink, upstreams);
    IngressExistsIff(state, keys);
  }

  lemma PolicyCompilesIff(state: DesiredState, uplink: string, upstreams: set<string>)
    requires ValidRevision(state)
    ensures CompiledOf(state, uplink, upstreams).Ok? <==>
      uplink != "" && AllHaveUpstreams(state.tunnels, upstreams) && |state.tunnels| <= LINK_LIMIT
  {
    hide ValidRevision, PlanOf, SpecsOf, ById, PlacementsOf, DnsPlanOf, EgressGroups, InternalNetworks, TunnelOrder,
         EgressOrder, AllHaveUpstreams, HasLayout, PlacedFrom, Endpoints, EndpointClients, DistinctTunnelIds;
    PlanExistsIff(state, uplink);
    ValidRoles(state);
    EgressesFit(state.tunnels);
    if PlanOf(state, uplink).Ok? {
      var plan := PlanOf(state, uplink).value;
      PlacementOrder(state, uplink, plan);
      AllSpecsExistIff(state, upstreams, PlacementsOf(plan));
      if SpecsOf(ById(state.tunnels), upstreams, PlacementsOf(plan)).Ok? {
        var specs := SpecsOf(ById(state.tunnels), upstreams, PlacementsOf(plan)).value;
        SpecsHaveLayout(state.tunnels, upstreams, PlacementsOf(plan), specs);
        DnsPlanExists(state, uplink, Completed(plan, specs), specs);
      }
    }
  }

  lemma EgressesFit(tunnels: seq<Tunnel>)
    requires DistinctTunnelIds(tunnels) && forall i :: 0 <= i < |tunnels| ==> tunnels[i].role != UnsupportedRole
    ensures |EgressOrder(tunnels)| <= |tunnels|
  {
    hide EgressOrder, PrivateOrder, DistinctTunnelIds;
    OrderLength(tunnels);
    assert TunnelOrder(tunnels) == EgressOrder(tunnels) + IdsOf(PrivateOrder(tunnels));
  }
}
