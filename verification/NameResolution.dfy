/** Where a device's names are looked up, through the configurations of the resolvers it is served by. */
module NameResolution {
  import opened Netip
  import opened Ordering
  import opened Domain
  import opened Links
  import opened FirewallPlanner
  import opened Validation
  import opened Revision
  import opened EgressPlanner
  import opened DnsPlanner
  import opened Compiler
  import opened Nftables
  import opened PlanFacts
  import opened SetFacts
  import opened PolicySets
  import KillSwitch
  import Steering
  import opened DnsAgreement
  import opened DnsTransition
  import opened CompiledPass
  import opened ResolverTexts

  // ------------------------------------------------------------------
  // What a resolver does with its configuration
  // ------------------------------------------------------------------

  function ListensAt(text: Text): Option<Addr> {
    match text
    case PrivateText(listen, _) => Some(listen)
    case PublicText(address) => address
    case ClientText(_, hub, _) => hub
    case TornText => None
  }

  ghost predicate Matched(zones: seq<DnsZoneRoute>, name: string, z: DnsZoneRoute) { z in zones && Under(name, z.zone) }

  ghost predicate ForwardedTo(z: DnsZoneRoute, to: Addr) {
    if z.forwardAddress.Some? then z.forwardAddress == Some(to) else Some(to) in z.resolvers
  }

  /** A zone sends queries for this name to this address. */
  ghost predicate ZoneSends(zones: seq<DnsZoneRoute>, name: string, to: Addr) {
    exists z :: Matched(zones, name, z) && ForwardedTo(z, to)
  }

  ghost predicate InNoZone(zones: seq<DnsZoneRoute>, name: string) { forall z :: !Matched(zones, name, z) }

  /** A query for this name may be sent on to this address.  The zones of a valid configuration share no
  names, so at most one is matched. */
  ghost predicate Asks(text: Text, name: string, to: Addr) {
    match text
    case PrivateText(_, resolvers) => Some(to) in resolvers
    case PublicText(_) => false
    case ClientText(zones, _, upstream) => ZoneSends(zones, name, to) || (InNoZone(zones, name) && upstream == Some(to))
    case TornText => false
  }

  /** Addresses learned for this name are added to the set of this name. */
  ghost predicate Collects(text: Text, name: string, set_: string) {
    text.ClientText? && exists z :: Matched(text.zones, name, z) && z.set_ == set_
  }

  // ------------------------------------------------------------------
  // What should become of a query
  // ------------------------------------------------------------------

  /** The name lies in a zone of this private network. */
  ghost predicate BelongsTo(state: DesiredState, s: Tunnel, name: string) {
    && s in state.tunnels && s.role == PrivateNetworkRole
    && exists i :: 0 <= i < |s.dnsZones| && Under(name, NormalizeZone(s.dnsZones[i]))
  }

  /** The far end of a tunnel's link, inside its namespace. */
  ghost predicate FarEnd(state: DesiredState, id: string, a: Addr) {
    exists k :: 0 <= k < |TunnelOrder(state.tunnels)| && TunnelOrder(state.tunnels)[k] == id
      && a == LINK_BASE.addr + 4 * k + 2
  }

  ghost predicate NetworkTakes(state: DesiredState, name: string, to: Addr) {
    exists s :: BelongsTo(state, s, name) && FarEnd(state, s.id, to)
  }

  ghost predicate InNoNetwork(state: DesiredState, name: string) { forall s :: !BelongsTo(state, s, name) }

  /** A network's names are asked in its namespace; any other name in that of the device's egress. */
  ghost predicate ShouldAsk(state: DesiredState, egress: string, name: string, to: Addr) {
    NetworkTakes(state, name, to) || (InNoNetwork(state, name) && egress != DIRECT && FarEnd(state, egress, to))
  }

  /** What a name resolves to is to be added to the set of the network it belongs to. */
  ghost predicate ShouldCollect(state: DesiredState, name: string, set_: string) {
    exists s :: BelongsTo(state, s, name) && set_ == SetName(InternalSet(s.id))
  }

  // ------------------------------------------------------------------
  // The zones of the plan
  // ------------------------------------------------------------------

  lemma {:induction false} ZoneRoutesFrom(networks: seq<InternalNetwork>, specs: seq<EgressSpec>, z: DnsZoneRoute)
    ensures z in AllZoneRoutes(networks, specs) <==>
      exists n :: n in networks && z in ZoneRoutes(n, ForwardAddress(specs, n.tunnelId))
  {
    hide ForwardAddress, ZoneRoutes;
    if networks != [] {
      var front, last := networks[..|networks| - 1], networks[|networks| - 1];
      assert networks == front + [last];
      ZoneRoutesFrom(front, specs, z);
    }
  }

  lemma ZoneRoutesOf(n: InternalNetwork, forward: Option<Addr>, z: DnsZoneRoute)
    ensures z in ZoneRoutes(n, forward) <==>
      z.zone in n.zones && z == DnsZoneRoute(z.zone, n.resolvers, forward, SetName(InternalSet(n.tunnelId)))
  {
    if z in ZoneRoutes(n, forward) {
      var i :| 0 <= i < |n.zones| && ZoneRoutes(n, forward)[i] == z;
    }
    if z.zone in n.zones && z == DnsZoneRoute(z.zone, n.resolvers, forward, SetName(InternalSet(n.tunnelId))) {
      var i :| 0 <= i < |n.zones| && n.zones[i] == z.zone;
      assert ZoneRoutes(n, forward)[i] == z;
    }
  }

  /** The planned network of a private tunnel. */
  lemma NetworkOfTunnel(state: DesiredState, uplink: string, upstreams: set<string>, c: Compiled, i: nat)
    requires Compiles(state, uplink, upstreams, c) && i < |PrivateOrder(state.tunnels)|
    ensures |c.plan.internals| == |PrivateOrder(state.tunnels)|
    ensures var n, s := c.plan.internals[i], PrivateOrder(state.tunnels)[i];
      && s in state.tunnels && s.role == PrivateNetworkRole
      && n.tunnelId == s.id && n.zones == NetworkZones(s) && n.resolvers == s.dnsServers
  {
    hide Compiles, ValidRevision, Permitted, Proxied, PrivateOrder, EgressOrder, AddressesParse, U32, NetworkRoutes,
         NetworkZones, Flag, EgressInterface, EgressGroups, HasLayout, EndpointClients, Endpoints;
    CompiledCarries(state, uplink, upstreams, c);
    NetworksShape(state);
    PrivateMember(state, i);
  }

  lemma ZonesOf(s: Tunnel, zone: string)
    ensures zone in NetworkZones(s) <==> exists i :: 0 <= i < |s.dnsZones| && zone == NormalizeZone(s.dnsZones[i])
  {
    hide NormalizeZone, Sort;
    ghost var all := seq(|s.dnsZones|, i requires 0 <= i < |s.dnsZones| => NormalizeZone(s.dnsZones[i]));
    SameElements(all, Sort(LexLe, all));
    assert NetworkZones(s) == Sort(LexLe, all);
    if zone in all { var i :| 0 <= i < |all| && all[i] == zone; }
    if i :| 0 <= i < |s.dnsZones| && zone == NormalizeZone(s.dnsZones[i]) { assert all[i] == zone; }
  }

  /** A tunnel's spec names its far end and its namespace. */
  lemma SpecPlace(state: DesiredState, uplink: string, upstreams: set<string>, c: Compiled, id: string)
    requires Compiles(state, uplink, upstreams, c) && SpecOf(c.specs, id).Some?
    ensures FarEnd(state, id, SpecOf(c.specs, id).value.peerAddress)
    ensures SpecOf(c.specs, id).value.namespace == "vpn-hub-" + id
  {
    hide Compiles, EgressGroups, InternalNetworks, EndpointClients, Endpoints, ValidRevision, AddressesParse, SpecOf,
         TunnelOrder;
    CompiledCarries(state, uplink, upstreams, c);
    SpecOfFirst(c.specs, id);
    var spec := SpecOf(c.specs, id).value;
    var k :| 0 <= k < |c.specs| && c.specs[k] == spec;
    assert spec == SpecAt(state.tunnels, k);
  }

  lemma FarEndUnique(state: DesiredState, id: string, a: Addr, b: Addr)
    requires ValidRevision(state) && FarEnd(state, id, a) && FarEnd(state, id, b)
    ensures a == b
  {
    hide TunnelOrder, ValidRevision;
    ValidTunnelsAreDistinct(state);
    OrderIsDistinct(state.tunnels);
    var j :| 0 <= j < |TunnelOrder(state.tunnels)| && TunnelOrder(state.tunnels)[j] == id
      && a == LINK_BASE.addr + 4 * j + 2;
    var k :| 0 <= k < |TunnelOrder(state.tunnels)| && TunnelOrder(state.tunnels)[k] == id
      && b == LINK_BASE.addr + 4 * k + 2;
    assert j == k;
  }

  /** Every zone of every private network is forwarded to the far end of that network's link, and what it
  resolves to is put into that network's set; and there are no other zones. */
  lemma ZoneRouteIs(state: DesiredState, uplink: string, upstreams: set<string>, c: Compiled, z: DnsZoneRoute)
    requires Compiles(state, uplink, upstreams, c)
    ensures z in c.dns.zones <==> exists s :: RouteOf(state, s, z)
  {
    hide Compiles, AllZoneRoutes, ZoneRoutes, ForwardAddress, SpecOf, Sort, PrivateOrder, FarEnd, PrivateResolvers,
         EgressResolvers, GroupsHaveSpecs, ValidRevision, NetworkZones;
    DnsParts(state, uplink, upstreams, c);
    CompilesIsValid(state, uplink, upstreams, c);
    ValidTunnelsAreDistinct(state);
    PrivateOrderMembers(state.tunnels);
    SameElements(AllZoneRoutes(c.plan.internals, c.specs), c.dns.zones);
    ZoneRoutesFrom(c.plan.internals, c.specs, z);
    if z in c.dns.zones {
      var n :| n in c.plan.internals && z in ZoneRoutes(n, ForwardAddress(c.specs, n.tunnelId));
      var i :| 0 <= i < |c.plan.internals| && c.plan.internals[i] == n;
      NetworkCountIs(state, uplink, upstreams, c);
      RouteFrom(state, uplink, upstreams, c, i, z);
    }
    if s :| RouteOf(state, s, z) {
      var i :| 0 <= i < |PrivateOrder(state.tunnels)| && PrivateOrder(state.tunnels)[i] == s;
      RouteFrom(state, uplink, upstreams, c, i, z);
      NetworkCountIs(state, uplink, upstreams, c);
      assert c.plan.internals[i] in c.plan.internals;
    }
  }

  lemma NetworkCountIs(state: DesiredState, uplink: string, upstreams: set<string>, c: Compiled)
    requires Compiles(state, uplink, upstreams, c)
    ensures |c.plan.internals| == |PrivateOrder(state.tunnels)|
  {
    hide Compiles, PrivateOrder, EgressGroups, InternalNetworks, HasLayout, EndpointClients, Endpoints, ValidRevision,
         AddressesParse;
    CompiledCarries(state, uplink, upstreams, c);
    NetworkCount(state);
  }

  ghost predicate RouteOf(state: DesiredState, s: Tunnel, z: DnsZoneRoute) {
    && s in state.tunnels && s.role == PrivateNetworkRole && z.zone in NetworkZones(s)
    && z.resolvers == s.dnsServers && z.set_ == SetName(InternalSet(s.id))
    && z.forwardAddress.Some? && FarEnd(state, s.id, z.forwardAddress.value)
  }

  lemma RouteFrom(state: DesiredState, uplink: string, upstreams: set<string>, c: Compiled, i: nat, z: DnsZoneRoute)
    requires Compiles(state, uplink, upstreams, c) && i < |PrivateOrder(state.tunnels)|
    ensures |c.plan.internals| == |PrivateOrder(state.tunnels)|
    ensures z in ZoneRoutes(c.plan.internals[i], ForwardAddress(c.specs, c.plan.internals[i].tunnelId)) <==>
      RouteOf(state, PrivateOrder(state.tunnels)[i], z)
  {
    hide Compiles, ZoneRoutes, SpecOf, PrivateOrder, FarEnd, NetworkZones, ValidRevision, SetName;
    NetworkOfTunnel(state, uplink, upstreams, c, i);
    CompilesIsValid(state, uplink, upstreams, c);
    var n, s := c.plan.internals[i], PrivateOrder(state.tunnels)[i];
    assert n in c.plan.internals;
    NetworkHasSpec(state, uplink, upstreams, c, n);
    SpecPlace(state, uplink, upstreams, c, n.tunnelId);
    ZoneRoutesOf(n, ForwardAddress(c.specs, n.tunnelId), z);
    if RouteOf(state, s, z) {
      FarEndUnique(state, s.id, z.forwardAddress.value, SpecOf(c.specs, n.tunnelId).value.peerAddress);
    }
  }

  // ------------------------------------------------------------------
  // The resolvers of the plan
  // ------------------------------------------------------------------

  /** The resolver that serves a device's egress, and what it is configured with. */
  lemma DeviceResolver(state: DesiredState, uplink: string, upstreams: set<string>, c: Compiled, d: Device)
    returns (x: DnsEgressResolver)
    requires Compiles(state, uplink, upstreams, c) && d in state.devices
    ensures x in c.dns.egressResolvers && x.egressId == d.egress
    ensures x.hubAddress.Some? && Answers(state, d.egress, x.hubAddress.value)
    ensures if d.egress == DIRECT then x.namespace.None? && x.namespaceAddress.None?
            else x.namespaceAddress.Some? && FarEnd(state, d.egress, x.namespaceAddress.value)
                 && x.namespace == Some("vpn-hub-" + d.egress)
  {
    hide Compiles, EgressGroups, InternalNetworks, HasLayout, EndpointClients, Endpoints, ValidRevision, AddressesParse,
         Answers, ClientsFit, EgressResolverFor, EgressResolvers, SpecOf, Sort, GroupsHaveSpecs, AllZoneRoutes,
         PrivateResolvers, FarEnd;
    CompiledCarries(state, uplink, upstreams, c);
    RevisionDevices(state);
    DnsPlanParts(state, uplink, upstreams, c);
    var groups, dns := c.plan.egresses, state.hub.dnsAddress.value;
    SameElements(EgressResolvers(groups, c.specs, dns), c.dns.egressResolvers);
    var i := DeviceHasGroup(state, uplink, d);
    GroupsFit(state, uplink, i);
    var a := d.address.value.addr;
    assert HasAddress(d, a) && Chose(state.devices, d.egress, a);
    assert a in groups[i].addresses;
    ResolverExists(groups, c.specs, dns, i);
    x := EgressResolverFor(groups[i], c.specs, dns).value;
    EgressResolversAre(groups, c.specs, dns, x);
    ResolverPlanAnswers(state, uplink, upstreams, c, i, x);
    ResolverFields(groups[i], c.specs, dns);
    if d.egress != DIRECT { SpecPlace(state, uplink, upstreams, c, d.egress); }
  }

  lemma ResolverExists(groups: seq<EgressGroup>, specs: seq<EgressSpec>, dns: Addr, i: nat)
    requires GroupsHaveSpecs(groups, specs, dns) && i < |groups| && groups[i].addresses != []
    ensures EgressResolverFor(groups[i], specs, dns).Some?
  {
  }

  lemma ResolverFields(g: EgressGroup, specs: seq<EgressSpec>, dns: Addr)
    requires EgressResolverFor(g, specs, dns).Some?
    ensures var x := EgressResolverFor(g, specs, dns).value;
      if g.id == DIRECT then x.namespace.None? && x.namespaceAddress.None?
      else SpecOf(specs, g.id).Some? && x.namespaceAddress == Some(SpecOf(specs, g.id).value.peerAddress)
           && x.namespace == Some(SpecOf(specs, g.id).value.namespace)
  {
    hide SpecOf, Sort;
  }

  lemma ClientTextIs(dns: DnsPlan, x: DnsEgressResolver)
    requires OneText(dns) && x in dns.egressResolvers
    ensures TextOf(dns, ClientUnit(x.egressId)) == Some(ClientText(dns.zones, x.hubAddress, x.namespaceAddress))
  {
    hide TextOf, PrivateTexts, PublicTexts;
    var i :| 0 <= i < |dns.egressResolvers| && dns.egressResolvers[i] == x;
    assert ClientTexts(dns)[i] == (ClientUnit(x.egressId), ClientText(dns.zones, x.hubAddress, x.namespaceAddress));
  }

  lemma PrivateTextIs(dns: DnsPlan, r: DnsPrivateResolver)
    requires OneText(dns) && r in dns.privateResolvers
    ensures TextOf(dns, PrivateUnit(r.tunnelId)) == Some(PrivateText(r.address, r.resolvers))
  {
    hide TextOf, ClientTexts, PublicTexts;
    var i :| 0 <= i < |dns.privateResolvers| && dns.privateResolvers[i] == r;
    assert PrivateTexts(dns.privateResolvers)[i] == (PrivateUnit(r.tunnelId), PrivateText(r.address, r.resolvers));
  }

  lemma {:induction false} PublicTextAt(resolvers: seq<DnsEgressResolver>, x: DnsEgressResolver) returns (i: nat)
    requires x in resolvers && x.namespace.Some?
    ensures i < |PublicTexts(resolvers)|
      && PublicTexts(resolvers)[i] == (PublicUnit(x.egressId), PublicText(x.namespaceAddress))
  {
    var front, last := resolvers[..|resolvers| - 1], resolvers[|resolvers| - 1];
    assert resolvers == front + [last];
    if x == last { i := |PublicTexts(front)|; } else { i := PublicTextAt(front, x); }
  }

  lemma PublicTextIs(dns: DnsPlan, x: DnsEgressResolver)
    requires OneText(dns) && x in dns.egressResolvers && x.namespace.Some?
    ensures TextOf(dns, PublicUnit(x.egressId)) == Some(PublicText(x.namespaceAddress))
  {
    hide TextOf, ClientTexts, PrivateTexts, PublicTexts;
    var i := PublicTextAt(dns.egressResolvers, x);
  }

  // ------------------------------------------------------------------
  // The theorems
  // ------------------------------------------------------------------

  lemma SendsIff(state: DesiredState, uplink: string, upstreams: set<string>, c: Compiled, name: string, to: Addr)
    requires Compiles(state, uplink, upstreams, c)
    ensures ZoneSends(c.dns.zones, name, to) <==> NetworkTakes(state, name, to)
  {
    hide Compiles, BelongsTo, RouteOf, FarEnd, Under, ValidRevision, ForwardedTo;
    CompilesIsValid(state, uplink, upstreams, c);
    if ZoneSends(c.dns.zones, name, to) {
      var z :| Matched(c.dns.zones, name, z) && ForwardedTo(z, to);
      var s := MatchedBelongs(state, uplink, upstreams, c, z, name);
      RouteSends(state, s, z, to);
    }
    if NetworkTakes(state, name, to) {
      var s :| BelongsTo(state, s, name) && FarEnd(state, s.id, to);
      var z := BelongsMatched(state, uplink, upstreams, c, s, name);
      RouteSends(state, s, z, to);
    }
  }

  lemma CollectsIff(state: DesiredState, uplink: string, upstreams: set<string>, c: Compiled, name: string,
      set_: string)
    requires Compiles(state, uplink, upstreams, c)
    ensures (exists z :: Matched(c.dns.zones, name, z) && z.set_ == set_) <==> ShouldCollect(state, name, set_)
  {
    hide Compiles, BelongsTo, FarEnd, Under, ValidRevision, SetName, NetworkZones;
    if z :| Matched(c.dns.zones, name, z) && z.set_ == set_ {
      var s := MatchedBelongs(state, uplink, upstreams, c, z, name);
    }
    if s :| BelongsTo(state, s, name) && set_ == SetName(InternalSet(s.id)) {
      var z := BelongsMatched(state, uplink, upstreams, c, s, name);
    }
  }

  lemma NoneIff(state: DesiredState, uplink: string, upstreams: set<string>, c: Compiled, name: string)
    requires Compiles(state, uplink, upstreams, c)
    ensures InNoZone(c.dns.zones, name) <==> InNoNetwork(state, name)
  {
    hide Compiles, BelongsTo, RouteOf, Matched;
    if z :| Matched(c.dns.zones, name, z) { var s := MatchedBelongs(state, uplink, upstreams, c, z, name); }
    if s :| BelongsTo(state, s, name) { var z := BelongsMatched(state, uplink, upstreams, c, s, name); }
  }

  lemma MatchedBelongs(state: DesiredState, uplink: string, upstreams: set<string>, c: Compiled, z: DnsZoneRoute,
      name: string)
    returns (s: Tunnel)
    requires Compiles(state, uplink, upstreams, c) && Matched(c.dns.zones, name, z)
    ensures RouteOf(state, s, z) && BelongsTo(state, s, name)
  {
    hide Compiles, FarEnd, NormalizeZone, Under, SetName, NetworkZones;
    ZoneRouteIs(state, uplink, upstreams, c, z);
    s :| RouteOf(state, s, z);
    ZonesOf(s, z.zone);
  }

  lemma BelongsMatched(state: DesiredState, uplink: string, upstreams: set<string>, c: Compiled, s: Tunnel,
      name: string)
    returns (z: DnsZoneRoute)
    requires Compiles(state, uplink, upstreams, c) && BelongsTo(state, s, name)
    ensures RouteOf(state, s, z) && Matched(c.dns.zones, name, z)
  {
    hide Compiles, FarEnd, Under, SetName, RouteOf, BelongsTo;
    z := RouteExists(state, uplink, upstreams, c, s, name);
    ZoneRouteIs(state, uplink, upstreams, c, z);
  }

  lemma RouteSends(state: DesiredState, s: Tunnel, z: DnsZoneRoute, to: Addr)
    requires ValidRevision(state) && RouteOf(state, s, z)
    ensures ForwardedTo(z, to) <==> FarEnd(state, s.id, to)
  {
    hide FarEnd, ValidRevision, SetName, NetworkZones;
    if FarEnd(state, s.id, to) { FarEndUnique(state, s.id, to, z.forwardAddress.value); }
  }

  lemma RouteExists(state: DesiredState, uplink: string, upstreams: set<string>, c: Compiled, s: Tunnel, name: string)
    returns (z: DnsZoneRoute)
    requires Compiles(state, uplink, upstreams, c) && BelongsTo(state, s, name)
    ensures RouteOf(state, s, z) && Under(name, z.zone)
  {
    hide Compiles, FarEnd, NormalizeZone, Under, ValidRevision, SetName, PrivateOrder, SpecOf, NetworkZones;
    CompilesIsValid(state, uplink, upstreams, c);
    ValidTunnelsAreDistinct(state);
    PrivateOrderMembers(state.tunnels);
    var k :| 0 <= k < |s.dnsZones| && Under(name, NormalizeZone(s.dnsZones[k]));
    ZonesOf(s, NormalizeZone(s.dnsZones[k]));
    var i :| 0 <= i < |PrivateOrder(state.tunnels)| && PrivateOrder(state.tunnels)[i] == s;
    NetworkOfTunnel(state, uplink, upstreams, c, i);
    assert c.plan.internals[i] in c.plan.internals;
    NetworkHasSpec(state, uplink, upstreams, c, c.plan.internals[i]);
    SpecPlace(state, uplink, upstreams, c, s.id);
    z := DnsZoneRoute(NormalizeZone(s.dnsZones[k]), s.dnsServers, Some(SpecOf(c.specs, s.id).value.peerAddress),
      SetName(InternalSet(s.id)));
  }

  /** Every device's names are looked up where they belong: its own resolver, listening where its queries
  are brought, sends a private network's names into that network's namespace and adds what they
  resolve to to that network's set, and sends every other name into the namespace of its egress. */
  lemma NamesAreAskedWhereTheyBelong(state: DesiredState, uplink: string, upstreams: set<string>, c: Compiled,
      d: Device, name: string)
    requires Compiles(state, uplink, upstreams, c) && d in state.devices
    ensures var text := TextOf(c.dns, ClientUnit(d.egress));
      && text.Some? && ListensAt(text.value).Some? && Answers(state, d.egress, ListensAt(text.value).value)
      && (forall to: Addr :: Asks(text.value, name, to) <==> ShouldAsk(state, d.egress, name, to))
      && (forall set_ :: Collects(text.value, name, set_) <==> ShouldCollect(state, name, set_))
  {
    hide Compiles, TextOf, Answers, FarEnd, OneText, ValidRevision, ZoneSends, NetworkTakes, InNoZone, InNoNetwork,
         ShouldCollect, Matched;
    CompilesIsValid(state, uplink, upstreams, c);
    CompiledHasOneText(state, uplink, upstreams, c);
    var x := DeviceResolver(state, uplink, upstreams, c, d);
    ClientTextIs(c.dns, x);
    NoneIff(state, uplink, upstreams, c, name);
    forall to: Addr
      ensures Asks(ClientText(c.dns.zones, x.hubAddress, x.namespaceAddress), name, to) <==>
        ShouldAsk(state, d.egress, name, to)
    {
      SendsIff(state, uplink, upstreams, c, name, to);
      if d.egress != DIRECT && FarEnd(state, d.egress, to) {
        FarEndUnique(state, d.egress, to, x.namespaceAddress.value);
      }
    }
    forall set_
      ensures Collects(ClientText(c.dns.zones, x.hubAddress, x.namespaceAddress), name, set_) <==>
        ShouldCollect(state, name, set_)
    {
      CollectsIff(state, uplink, upstreams, c, name, set_);
    }
  }

  /** In the namespace of an egress a public resolver listens where the device's own sends to. */
  lemma PublicResolverListens(state: DesiredState, uplink: string, upstreams: set<string>, c: Compiled, d: Device)
    requires Compiles(state, uplink, upstreams, c) && d in state.devices && d.egress != DIRECT
    ensures var text := TextOf(c.dns, PublicUnit(d.egress));
      text.Some? && ListensAt(text.value).Some? && FarEnd(state, d.egress, ListensAt(text.value).value)
  {
    hide Compiles, TextOf, Answers, FarEnd, OneText;
    CompiledHasOneText(state, uplink, upstreams, c);
    var x := DeviceResolver(state, uplink, upstreams, c, d);
    PublicTextIs(c.dns, x);
  }

  /** In the namespace of a private network with zones a resolver listens where its names are sent to, and
  asks exactly the servers the network names. */
  lemma PrivateResolverAsks(state: DesiredState, uplink: string, upstreams: set<string>, c: Compiled, s: Tunnel,
      name: string, to: Addr)
    requires Compiles(state, uplink, upstreams, c)
    requires s in state.tunnels && s.role == PrivateNetworkRole && s.dnsZones != []
    ensures var text := TextOf(c.dns, PrivateUnit(s.id));
      && text.Some? && ListensAt(text.value).Some? && FarEnd(state, s.id, ListensAt(text.value).value)
      && (Asks(text.value, name, to) <==> Some(to) in s.dnsServers)
  {
    hide Compiles, TextOf, FarEnd, OneText;
    CompiledHasOneText(state, uplink, upstreams, c);
    var r := PrivateResolverOf(state, uplink, upstreams, c, s);
    PrivateTextIs(c.dns, r);
  }

  lemma PrivateResolverOf(state: DesiredState, uplink: string, upstreams: set<string>, c: Compiled, s: Tunnel)
    returns (r: DnsPrivateResolver)
    requires Compiles(state, uplink, upstreams, c)
    requires s in state.tunnels && s.role == PrivateNetworkRole && s.dnsZones != []
    ensures r in c.dns.privateResolvers && r.tunnelId == s.id && r.resolvers == s.dnsServers
    ensures FarEnd(state, s.id, r.address) && r.namespace == "vpn-hub-" + s.id
  {
    hide Compiles, FarEnd, PrivateOrder, SpecOf, PrivateResolvers, EgressResolvers, GroupsHaveSpecs, AllZoneRoutes,
         Sort, ValidRevision, NormalizeZone;
    CompilesIsValid(state, uplink, upstreams, c);
    ValidTunnelsAreDistinct(state);
    PrivateOrderMembers(state.tunnels);
    DnsParts(state, uplink, upstreams, c);
    var i :| 0 <= i < |PrivateOrder(state.tunnels)| && PrivateOrder(state.tunnels)[i] == s;
    NetworkOfTunnel(state, uplink, upstreams, c, i);
    var n := c.plan.internals[i];
    assert n in c.plan.internals && |n.zones| == |s.dnsZones|;
    NetworkHasSpec(state, uplink, upstreams, c, n);
    SpecPlace(state, uplink, upstreams, c, s.id);
    var spec := SpecOf(c.specs, s.id).value;
    r := DnsPrivateResolver(s.id, spec.namespace, spec.peerAddress, n.resolvers);
    Planned(c.plan.internals, c.specs, n);
    SameElements(PrivateResolvers(c.plan.internals, c.specs), c.dns.privateResolvers);
  }

  lemma {:induction false} Planned(networks: seq<InternalNetwork>, specs: seq<EgressSpec>, n: InternalNetwork)
    requires n in networks && n.zones != [] && SpecOf(specs, n.tunnelId).Some?
    ensures var spec := SpecOf(specs, n.tunnelId).value;
      DnsPrivateResolver(n.tunnelId, spec.namespace, spec.peerAddress, n.resolvers) in PrivateResolvers(networks, specs)
  {
    hide SpecOf;
    var front, last := networks[..|networks| - 1], networks[|networks| - 1];
    assert networks == front + [last];
    if n != last { Planned(front, specs, n); }
  }

  // ------------------------------------------------------------------
  // One network for each name
  // ------------------------------------------------------------------

  /** Where a tunnel's zone stands among all zones. */
  lemma {:induction false} ZonePlace(tunnels: seq<Tunnel>, i: nat, k: nat)
    requires i < |tunnels| && k < |tunnels[i].dnsZones|
    ensures var start := |AllZones(tunnels[..i])|;
      && start + |tunnels[i].dnsZones| <= |AllZones(tunnels)|
      && AllZones(tunnels)[start + k] == NormalizeZone(tunnels[i].dnsZones[k])
  {
    hide NormalizeZone;
    var front, last := tunnels[..|tunnels| - 1], |tunnels| - 1;
    if i < last {
      ZonePlace(front, i, k);
      assert front[..i] == tunnels[..i];
    }
  }

  lemma {:induction false} ZonesBefore(tunnels: seq<Tunnel>, i: nat, j: nat)
    requires i < j <= |tunnels|
    ensures |AllZones(tunnels[..i])| + |tunnels[i].dnsZones| <= |AllZones(tunnels[..j])|
    decreases j - i
  {
    hide NormalizeZone;
    assert tunnels[..j][..j - 1] == tunnels[..j - 1];
    if i < j - 1 { ZonesBefore(tunnels, i, j - 1); }
  }

  /** In a valid configuration a name belongs to one private network at most, by one zone, so that which
  zone a resolver tries first is of no account. */
  lemma OneZoneForEachName(cfg: Config, s: Tunnel, k: nat, t: Tunnel, l: nat, name: string)
    requires Valid(cfg) && s in cfg.tunnels && t in cfg.tunnels && k < |s.dnsZones| && l < |t.dnsZones|
    requires Under(name, NormalizeZone(s.dnsZones[k])) && Under(name, NormalizeZone(t.dnsZones[l]))
    ensures s == t && k == l
  {
    hide NormalizeZone, AllZones, Under, ValidDevices, ValidHub, ValidTunnel, ValidChoice, RoutesApart;
    var zones := AllZones(cfg.tunnels);
    var i :| 0 <= i < |cfg.tunnels| && cfg.tunnels[i] == s;
    var j :| 0 <= j < |cfg.tunnels| && cfg.tunnels[j] == t;
    ZonePlace(cfg.tunnels, i, k);
    ZonePlace(cfg.tunnels, j, l);
    if i < j { ZonesBefore(cfg.tunnels, i, j); } else if j < i { ZonesBefore(cfg.tunnels, j, i); }
    var p, q := |AllZones(cfg.tunnels[..i])| + k, |AllZones(cfg.tunnels[..j])| + l;
    assert ShareName(zones[p], zones[q]);
  }
}
