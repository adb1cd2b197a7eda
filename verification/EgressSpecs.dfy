/** One isolated namespace per tunnel, laid out by the tunnel's position in the plan. */
module EgressPlanner {
  import opened Netip
  import opened Ordering
  import opened Domain
  import opened Links
  import opened FirewallPlanner

  datatype Placement = Placement(id: string, mark: Mark, device: string)

  ghost function TunnelPlacements(groups: seq<EgressGroup>): seq<Placement> {
    if groups == [] then []
    else
      var last := groups[|groups| - 1];
      TunnelPlacements(groups[..|groups| - 1]) +
      (if last.id != DIRECT then [Placement(last.id, last.mark, last.iface)] else [])
  }

  ghost function NetworkPlacements(networks: seq<InternalNetwork>): seq<Placement> {
    seq(|networks|, i requires 0 <= i < |networks| =>
      Placement(networks[i].tunnelId, networks[i].mark, networks[i].iface))
  }

  ghost function PlacementsOf(plan: FirewallPlan): seq<Placement> {
    TunnelPlacements(plan.egresses) + NetworkPlacements(plan.internals)
  }

  /** Every tunnel that needs a namespace: the egresses, then the private networks. */
  method Placements(plan: FirewallPlan) returns (result: seq<Placement>)
    ensures result == PlacementsOf(plan)
  {
    result := [];
    for i := 0 to |plan.egresses|
      invariant result == TunnelPlacements(plan.egresses[..i])
    {
      TakeNext(plan.egresses, i);
      var group := plan.egresses[i];
      if group.id != DIRECT {
        result := result + [Placement(group.id, group.mark, group.iface)];
      }
    }
    assert plan.egresses[..|plan.egresses|] == plan.egresses;
    ghost var tunnels := result;
    for i := 0 to |plan.internals|
      invariant result == tunnels + NetworkPlacements(plan.internals[..i])
    {
      var network := plan.internals[i];
      result := result + [Placement(network.tunnelId, network.mark, network.iface)];
      assert NetworkPlacements(plan.internals[..i + 1]) ==
             NetworkPlacements(plan.internals[..i]) + [Placement(network.tunnelId, network.mark, network.iface)];
    }
    assert plan.internals[..|plan.internals|] == plan.internals;
  }

  ghost function ById(tunnels: seq<Tunnel>): map<string, Tunnel> {
    if tunnels == [] then map[]
    else
      var last := tunnels[|tunnels| - 1];
      ById(tunnels[..|tunnels| - 1])[last.id := last]
  }

  function NamespaceOf(id: string): string { "vpn-hub-" + id }

  /** The layout of one placement, or why it has none. */
  ghost function SpecFor(byId: map<string, Tunnel>, upstreams: set<string>, p: Placement,
      index: nat): Result<EgressSpec> {
    if p.id !in byId then Err(TunnelNotInRevision)
    else if byId[p.id].kind == UnsupportedType then Err(NoEgressDriver)
    else if byId[p.id].id !in upstreams then Err(NoUpstreamConfiguration)
    else if LinkOf(LINK_BASE, index).Err? then Err(OutOfLinkAddresses)
    else
      var link := LinkOf(LINK_BASE, index).value;
      var tunnel := byId[p.id];
      Ok(EgressSpec(tunnel.id, NamespaceOf(tunnel.id), p.device, link.host, link.peer, p.mark,
                    ROUTE_TABLE_BASE + index, U16(SOCKS_PORT_BASE + index), tunnel.kind))
  }

  ghost function SpecsOf(byId: map<string, Tunnel>, upstreams: set<string>,
      placements: seq<Placement>): Result<seq<EgressSpec>> {
    if placements == [] then Ok([])
    else
      var k := |placements| - 1;
      var front := SpecsOf(byId, upstreams, placements[..k]);
      if front.Err? then front
      else
        var last := SpecFor(byId, upstreams, placements[k], k);
        if last.Err? then Err(last.error) else Ok(front.value + [last.value])
  }

  lemma {:induction false} FailureIsFinal(byId: map<string, Tunnel>, upstreams: set<string>, placements: seq<Placement>,
      i: nat)
    requires i <= |placements| && SpecsOf(byId, upstreams, placements[..i]).Err?
    ensures SpecsOf(byId, upstreams, placements) == SpecsOf(byId, upstreams, placements[..i])
    decreases |placements| - i
  {
    if i == |placements| {
      assert placements[..i] == placements;
    } else {
      TakeNext(placements, i);
      FailureIsFinal(byId, upstreams, placements, i + 1);
    }
  }

  lemma SpecsGrow(byId: map<string, Tunnel>, upstreams: set<string>, placements: seq<Placement>, i: nat)
    requires i < |placements| && SpecsOf(byId, upstreams, placements[..i]).Ok?
    ensures var spec := SpecFor(byId, upstreams, placements[i], i);
      SpecsOf(byId, upstreams, placements[..i + 1]) ==
      if spec.Err? then Err(spec.error) else Ok(SpecsOf(byId, upstreams, placements[..i]).value + [spec.value])
  {
    TakeNext(placements, i);
  }

  method IndexTunnels(tunnels: seq<Tunnel>) returns (byId: map<string, Tunnel>)
    ensures byId == ById(tunnels)
  {
    byId := map[];
    for i := 0 to |tunnels|
      invariant byId == ById(tunnels[..i])
    {
      TakeNext(tunnels, i);
      byId := byId[tunnels[i].id := tunnels[i]];
    }
    assert tunnels[..|tunnels|] == tunnels;
  }

  method SpecForPlacement(byId: map<string, Tunnel>, upstreams: set<string>, p: Placement, index: nat)
    returns (r: Result<EgressSpec>)
    ensures r == SpecFor(byId, upstreams, p, index)
  {
    if p.id !in byId { return Err(TunnelNotInRevision); }
    var tunnel := byId[p.id];
    if tunnel.kind == UnsupportedType { return Err(NoEgressDriver); }
    if tunnel.id !in upstreams { return Err(NoUpstreamConfiguration); }
    var link := LinkAddresses(LINK_BASE, index);
    if link.Err? { return Err(OutOfLinkAddresses); }
    return Ok(EgressSpec(
      tunnel.id, NamespaceOf(tunnel.id), p.device, link.value.host, link.value.peer, p.mark,
      ROUTE_TABLE_BASE + index, U16(SOCKS_PORT_BASE + index), tunnel.kind));
  }

  lemma NoSpecs(byId: map<string, Tunnel>, upstreams: set<string>)
    ensures SpecsOf(byId, upstreams, []) == Ok([])
  {
  }

  method BuildEgressSpecs(state: DesiredState, plan: FirewallPlan, upstreams: set<string>)
    returns (r: Result<seq<EgressSpec>>)
    ensures r == SpecsOf(ById(state.tunnels), upstreams, PlacementsOf(plan))
  {
    hide SpecFor, ById, PlacementsOf, SpecsOf;
    var byId := IndexTunnels(state.tunnels);
    var placements := Placements(plan);
    var specs: seq<EgressSpec> := [];
    NoSpecs(byId, upstreams);
    assert placements[..0] == [];
    for index := 0 to |placements|
      invariant SpecsOf(byId, upstreams, placements[..index]) == Ok(specs)
    {
      SpecsGrow(byId, upstreams, placements, index);
      var spec := SpecForPlacement(byId, upstreams, placements[index], index);
      if spec.Err? {
        FailureIsFinal(byId, upstreams, placements, index + 1);
        return Err(spec.error);
      }
      specs := specs + [spec.value];
    }
    assert placements[..|placements|] == placements;
    return Ok(specs);
  }

  // ------------------------------------------------------------------
  // SOCKS endpoints
  // ------------------------------------------------------------------

  ghost function GroupClients(groups: seq<EgressGroup>): map<string, seq<Addr>> {
    if groups == [] then map[]
    else
      var last := groups[|groups| - 1];
      GroupClients(groups[..|groups| - 1])[last.id := last.clients]
  }

  ghost function NetworkClients(networks: seq<InternalNetwork>, before: map<string, seq<Addr>>): map<string,
      seq<Addr>> {
    if networks == [] then before
    else
      var last := networks[|networks| - 1];
      NetworkClients(networks[..|networks| - 1], before)[last.tunnelId := last.clients]
  }

  ghost function EndpointClients(plan: FirewallPlan): map<string, seq<Addr>> {
    NetworkClients(plan.internals, GroupClients(plan.egresses))
  }

  function EndpointFor(spec: EgressSpec, permitted: map<string, seq<Addr>>): SocksEndpoint {
    SocksEndpoint(spec.tunnelId, spec.hostAddress, spec.hostVeth, spec.socksPort, Lookup(permitted, spec.tunnelId))
  }

  ghost function Endpoints(specs: seq<EgressSpec>, permitted: map<string, seq<Addr>>): seq<SocksEndpoint> {
    if specs == [] then []
    else
      var last := specs[|specs| - 1];
      Endpoints(specs[..|specs| - 1], permitted) +
      (if last.socksPort == 0 then [] else [EndpointFor(last, permitted)])
  }

  method SocksEndpoints(specs: seq<EgressSpec>, plan: FirewallPlan) returns (endpoints: seq<SocksEndpoint>)
    ensures endpoints == Endpoints(specs, EndpointClients(plan))
  {
    var permitted: map<string, seq<Addr>> := map[];
    for i := 0 to |plan.egresses|
      invariant permitted == GroupClients(plan.egresses[..i])
    {
      TakeNext(plan.egresses, i);
      permitted := permitted[plan.egresses[i].id := plan.egresses[i].clients];
    }
    assert plan.egresses[..|plan.egresses|] == plan.egresses;
    ghost var groups := permitted;
    for i := 0 to |plan.internals|
      invariant permitted == NetworkClients(plan.internals[..i], groups)
    {
      TakeNext(plan.internals, i);
      permitted := permitted[plan.internals[i].tunnelId := plan.internals[i].clients];
    }
    assert plan.internals[..|plan.internals|] == plan.internals;
    endpoints := [];
    for i := 0 to |specs|
      invariant endpoints == Endpoints(specs[..i], permitted)
    {
      TakeNext(specs, i);
      if specs[i].socksPort == 0 { continue; }
      endpoints := endpoints + [EndpointFor(specs[i], permitted)];
    }
    assert specs[..|specs|] == specs;
  }
}
