/** The resolver policy of a revision: which process answers which clients, and from where. */
module DnsPlanner {
  import opened Netip
  import opened Ordering
  import opened Domain
  import opened FirewallPlanner

  /** Hyphens are not allowed in a set name. */
  function SafeIdentifier(s: string): string {
    seq(|s|, i requires 0 <= i < |s| => if s[i] == '-' then '_' else s[i])
  }

  /** The first spec of a tunnel. */
  ghost function SpecOf(specs: seq<EgressSpec>, id: string): Option<EgressSpec> {
    if specs == [] then None
    else if specs[0].tunnelId == id then Some(specs[0])
    else SpecOf(specs[1..], id)
  }

  method FindSpec(specs: seq<EgressSpec>, id: string) returns (r: Option<EgressSpec>)
    ensures r == SpecOf(specs, id)
  {
    for i := 0 to |specs|
      invariant SpecOf(specs, id) == SpecOf(specs[i..], id)
    {
      if specs[i].tunnelId == id {
        return Some(specs[i]);
      }
      assert specs[i..][1..] == specs[i + 1..];
    }
    return None;
  }

  ghost predicate ZonesAnswerable(networks: seq<InternalNetwork>) {
    forall i :: 0 <= i < |networks| ==> networks[i].zones != [] ==> networks[i].resolvers != []
  }

  predicate ZoneLe(a: DnsZoneRoute, b: DnsZoneRoute) { LexLe(a.zone, b.zone) }
  predicate PrivateResolverLe(a: DnsPrivateResolver, b: DnsPrivateResolver) { LexLe(a.tunnelId, b.tunnelId) }
  predicate EgressResolverLe(a: DnsEgressResolver, b: DnsEgressResolver) { LexLe(a.egressId, b.egressId) }

  ghost function ForwardAddress(specs: seq<EgressSpec>, id: string): Option<Addr> {
    var spec := SpecOf(specs, id);
    if spec.Some? then Some(spec.value.peerAddress) else None
  }

  function ZoneRoute(network: InternalNetwork, zone: string, forward: Option<Addr>): DnsZoneRoute {
    DnsZoneRoute(zone, network.resolvers, forward, "internal_" + SafeIdentifier(network.tunnelId))
  }

  function ZoneRoutes(network: InternalNetwork, forward: Option<Addr>): seq<DnsZoneRoute> {
    seq(|network.zones|, i requires 0 <= i < |network.zones| => ZoneRoute(network, network.zones[i], forward))
  }

  ghost function AllZoneRoutes(networks: seq<InternalNetwork>, specs: seq<EgressSpec>): seq<DnsZoneRoute> {
    if networks == [] then []
    else
      var last := networks[|networks| - 1];
      AllZoneRoutes(networks[..|networks| - 1], specs) + ZoneRoutes(last, ForwardAddress(specs, last.tunnelId))
  }

  ghost function PrivateResolvers(networks: seq<InternalNetwork>, specs: seq<EgressSpec>): seq<DnsPrivateResolver> {
    if networks == [] then []
    else
      var last := networks[|networks| - 1];
      var spec := SpecOf(specs, last.tunnelId);
      PrivateResolvers(networks[..|networks| - 1], specs) +
      (if last.zones == [] || spec.None? then []
       else [DnsPrivateResolver(last.tunnelId, spec.value.namespace, spec.value.peerAddress, last.resolvers)])
  }

  ghost function EgressResolverFor(group: EgressGroup, specs: seq<EgressSpec>, dns: Addr): Option<DnsEgressResolver> {
    var clients := Sort(AddrLe, group.addresses);
    if group.id == DIRECT then Some(DnsEgressResolver(group.id, clients, Some(dns), None, None))
    else
      var spec := SpecOf(specs, group.id);
      if spec.None? then None
      else Some(DnsEgressResolver(group.id, clients, Some(spec.value.hostAddress), Some(spec.value.namespace),
        Some(spec.value.peerAddress)))
  }

  ghost predicate GroupsHaveSpecs(groups: seq<EgressGroup>, specs: seq<EgressSpec>, dns: Addr) {
    forall i :: 0 <= i < |groups| ==> groups[i].addresses != [] ==> EgressResolverFor(groups[i], specs, dns).Some?
  }

  ghost function EgressResolvers(groups: seq<EgressGroup>, specs: seq<EgressSpec>, dns: Addr): seq<DnsEgressResolver>
    requires GroupsHaveSpecs(groups, specs, dns)
  {
    if groups == [] then []
    else
      var last := groups[|groups| - 1];
      EgressResolvers(groups[..|groups| - 1], specs, dns) +
      (if last.addresses == [] then [] else [EgressResolverFor(last, specs, dns).value])
  }

  ghost function DnsPlanOf(state: DesiredState, plan: FirewallPlan, specs: seq<EgressSpec>): Result<DnsPlan> {
    if state.hub.dnsAddress.None? then Err(DnsAddressRequired)
    else if !ZonesAnswerable(plan.internals) then Err(ZoneWithoutResolver)
    else if !GroupsHaveSpecs(plan.egresses, specs, state.hub.dnsAddress.value) then Err(NoMatchingSpec)
    else Ok(DnsPlan(
      Sort(ZoneLe, AllZoneRoutes(plan.internals, specs)),
      Sort(PrivateResolverLe, PrivateResolvers(plan.internals, specs)),
      Sort(EgressResolverLe, EgressResolvers(plan.egresses, specs, state.hub.dnsAddress.value))))
  }

  method ZoneRoutesFor(network: InternalNetwork, forward: Option<Addr>) returns (routes: seq<DnsZoneRoute>)
    ensures routes == ZoneRoutes(network, forward)
  {
    routes := [];
    for i := 0 to |network.zones|
      invariant |routes| == i
      invariant forall k :: 0 <= k < i ==> routes[k] == ZoneRoute(network, network.zones[k], forward)
    {
      routes := routes + [ZoneRoute(network, network.zones[i], forward)];
    }
  }

  method PrivateZones(networks: seq<InternalNetwork>, specs: seq<EgressSpec>)
    returns (r: Result<(seq<DnsZoneRoute>, seq<DnsPrivateResolver>)>)
    ensures r == if ZonesAnswerable(networks)
      then Ok((AllZoneRoutes(networks, specs), PrivateResolvers(networks, specs)))
                 else Err(ZoneWithoutResolver)
  {
    var zones: seq<DnsZoneRoute> := [];
    var resolvers: seq<DnsPrivateResolver> := [];
    for i := 0 to |networks|
      invariant ZonesAnswerable(networks[..i])
      invariant zones == AllZoneRoutes(networks[..i], specs)
      invariant resolvers == PrivateResolvers(networks[..i], specs)
    {
      var network := networks[i];
      TakeNext(networks, i);
      if network.zones == [] {
        assert ZoneRoutes(network, ForwardAddress(specs, network.tunnelId)) == [];
        continue;
      }
      if network.resolvers == [] {
        return Err(ZoneWithoutResolver);
      }
      var spec := FindSpec(specs, network.tunnelId);
      var forward := None;
      if spec.Some? {
        forward := Some(spec.value.peerAddress);
        resolvers := resolvers
          + [DnsPrivateResolver(network.tunnelId, spec.value.namespace, spec.value.peerAddress, network.resolvers)];
      }
      var routes := ZoneRoutesFor(network, forward);
      zones := zones + routes;
    }
    assert networks[..|networks|] == networks;
    return Ok((zones, resolvers));
  }

  method EgressResolverForGroup(group: EgressGroup, specs: seq<EgressSpec>, dns: Addr)
    returns (r: Option<DnsEgressResolver>)
    ensures r == EgressResolverFor(group, specs, dns)
  {
    var clients := Sort(AddrLe, group.addresses);
    if group.id == DIRECT {
      return Some(DnsEgressResolver(group.id, clients, Some(dns), None, None));
    }
    var spec := FindSpec(specs, group.id);
    if spec.None? {
      return None;
    }
    return Some(DnsEgressResolver(
      group.id, clients, Some(spec.value.hostAddress), Some(spec.value.namespace), Some(spec.value.peerAddress)));
  }

  method ClientResolvers(groups: seq<EgressGroup>, specs: seq<EgressSpec>, dns: Addr)
    returns (r: Result<seq<DnsEgressResolver>>)
    ensures r == if GroupsHaveSpecs(groups, specs, dns) then Ok(EgressResolvers(groups, specs, dns))
      else Err(NoMatchingSpec)
  {
    var resolvers: seq<DnsEgressResolver> := [];
    for i := 0 to |groups|
      invariant GroupsHaveSpecs(groups[..i], specs, dns)
      invariant resolvers == EgressResolvers(groups[..i], specs, dns)
    {
      TakeNext(groups, i);
      if groups[i].addresses == [] { continue; }
      var resolver := EgressResolverForGroup(groups[i], specs, dns);
      if resolver.None? {
        return Err(NoMatchingSpec);
      }
      resolvers := resolvers + [resolver.value];
    }
    assert groups[..|groups|] == groups;
    return Ok(resolvers);
  }

  method BuildDnsPlan(state: DesiredState, plan: FirewallPlan, specs: seq<EgressSpec>) returns (r: Result<DnsPlan>)
    ensures r == DnsPlanOf(state, plan, specs)
  {
    if state.hub.dnsAddress.None? {
      return Err(DnsAddressRequired);
    }
    var private_ :- PrivateZones(plan.internals, specs);
    var resolvers :- ClientResolvers(plan.egresses, specs, state.hub.dnsAddress.value);
    return Ok(DnsPlan(
      Sort(ZoneLe, private_.0), Sort(PrivateResolverLe, private_.1), Sort(EgressResolverLe, resolvers)));
  }
}
