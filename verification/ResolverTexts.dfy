/** What a resolver's configuration file says follows from the firewall plan: each resolver of a
compiled revision has one text, and revisions with equal plans have equal DNS plans. */
module ResolverTexts {
  import opened Netip
  import opened Ordering
  import opened Domain
  import opened Links
  import opened FirewallPlanner
  import opened Validation
  import opened Revision
  import opened EgressPlanner
  import opened DnsPlanner
  import opened Compiler
  import opened PlanFacts
  import opened PolicySets
  import KillSwitch
  import DnsAgreement
  import opened DnsTransition

  // ---- one text for each resolver ----

  /** No resolver is listed with two texts. */
  ghost predicate Consistent(units: seq<(Unit, Text)>) {
    forall i, j :: 0 <= i < |units| && 0 <= j < |units| && units[i].0 == units[j].0 ==> units[i].1 == units[j].1
  }

  lemma {:induction false} FindConsistent(units: seq<(Unit, Text)>, k: nat)
    requires Consistent(units) && k < |units|
    ensures Find(units, units[k].0) == Some(units[k].1)
  {
    if units[0].0 != units[k].0 {
      assert units[1..][k - 1] == units[k];
      FindConsistent(units[1..], k - 1);
    }
  }

  ghost predicate SamePrivate(a: DnsPrivateResolver, b: DnsPrivateResolver) {
    a.tunnelId == b.tunnelId ==> a.address == b.address && a.resolvers == b.resolvers
  }

  ghost predicate SameEgress(a: DnsEgressResolver, b: DnsEgressResolver) {
    a.egressId == b.egressId ==> a.hubAddress == b.hubAddress && a.namespaceAddress == b.namespaceAddress
  }

  ghost predicate Agreeing(dns: DnsPlan) {
    && (forall a, b :: a in dns.privateResolvers && b in dns.privateResolvers ==> SamePrivate(a, b))
    && (forall a, b :: a in dns.egressResolvers && b in dns.egressResolvers ==> SameEgress(a, b))
  }

  lemma {:induction false} PublicTextFrom(resolvers: seq<DnsEgressResolver>, i: nat) returns (r: DnsEgressResolver)
    requires i < |PublicTexts(resolvers)|
    ensures r in resolvers && PublicTexts(resolvers)[i] == (PublicUnit(r.egressId), PublicText(r.namespaceAddress))
  {
    var front, last := resolvers[..|resolvers| - 1], resolvers[|resolvers| - 1];
    if i < |PublicTexts(front)| { r := PublicTextFrom(front, i); } else { r := last; }
  }

  ghost predicate IsTextOf(dns: DnsPlan, u: Unit, text: Text) {
    match u {
      case PrivateUnit(id) => exists r ::
        r in dns.privateResolvers && r.tunnelId == id && text == PrivateText(r.address, r.resolvers)
      case PublicUnit(id) => exists r ::
        r in dns.egressResolvers && r.egressId == id && text == PublicText(r.namespaceAddress)
      case ClientUnit(id) =>
        exists r :: r in dns.egressResolvers && r.egressId == id
          && text == ClientText(dns.zones, r.hubAddress, r.namespaceAddress)
    }
  }

  lemma ListedText(dns: DnsPlan, i: nat)
    requires i < |TextsOf(dns)|
    ensures IsTextOf(dns, TextsOf(dns)[i].0, TextsOf(dns)[i].1)
  {
    hide PublicTexts;
    var p, q := |dns.privateResolvers|, |PublicTexts(dns.egressResolvers)|;
    if i < p {
      assert dns.privateResolvers[i] in dns.privateResolvers;
    } else if i < p + q {
      var r := PublicTextFrom(dns.egressResolvers, i - p);
    } else {
      assert dns.egressResolvers[i - p - q] in dns.egressResolvers;
    }
  }

  lemma AgreeingTexts(dns: DnsPlan, u: Unit, s: Text, t: Text)
    requires Agreeing(dns) && IsTextOf(dns, u, s) && IsTextOf(dns, u, t)
    ensures s == t
  {
    match u {
      case PrivateUnit(id) =>
        var a :| a in dns.privateResolvers && a.tunnelId == id && s == PrivateText(a.address, a.resolvers);
        var b :| b in dns.privateResolvers && b.tunnelId == id && t == PrivateText(b.address, b.resolvers);
        assert SamePrivate(a, b);
      case PublicUnit(id) =>
        var a :| a in dns.egressResolvers && a.egressId == id && s == PublicText(a.namespaceAddress);
        var b :| b in dns.egressResolvers && b.egressId == id && t == PublicText(b.namespaceAddress);
        assert SameEgress(a, b);
      case ClientUnit(id) =>
        var a :| a in dns.egressResolvers && a.egressId == id
          && s == ClientText(dns.zones, a.hubAddress, a.namespaceAddress);
        var b :| b in dns.egressResolvers && b.egressId == id
          && t == ClientText(dns.zones, b.hubAddress, b.namespaceAddress);
        assert SameEgress(a, b);
    }
  }

  lemma AgreeingIsOneText(dns: DnsPlan)
    requires Agreeing(dns)
    ensures OneText(dns)
  {
    hide Agreeing, IsTextOf, PrivateTexts, PublicTexts, ClientTexts, Find;
    var all := TextsOf(dns);
    forall i, j | 0 <= i < |all| && 0 <= j < |all| && all[i].0 == all[j].0 ensures all[i].1 == all[j].1 {
      ListedText(dns, i);
      ListedText(dns, j);
      AgreeingTexts(dns, all[i].0, all[i].1, all[j].1);
    }
    var a, b, c := PrivateTexts(dns.privateResolvers), PublicTexts(dns.egressResolvers), ClientTexts(dns);
    forall i | 0 <= i < |a| ensures TextOf(dns, a[i].0) == Some(a[i].1) {
      assert all[i] == a[i];
      FindConsistent(all, i);
    }
    forall i | 0 <= i < |b| ensures TextOf(dns, b[i].0) == Some(b[i].1) {
      assert all[|a| + i] == b[i];
      FindConsistent(all, |a| + i);
    }
    forall i | 0 <= i < |c| ensures TextOf(dns, c[i].0) == Some(c[i].1) {
      assert all[|a| + |b| + i] == c[i];
      FindConsistent(all, |a| + |b| + i);
    }
  }

  lemma {:induction false} PrivateResolverFrom(networks: seq<InternalNetwork>, specs: seq<EgressSpec>,
      r: DnsPrivateResolver)
    returns (n: InternalNetwork)
    requires r in PrivateResolvers(networks, specs)
    ensures n in networks && n.tunnelId == r.tunnelId && n.resolvers == r.resolvers
    ensures SpecOf(specs, r.tunnelId).Some? && SpecOf(specs, r.tunnelId).value.peerAddress == r.address
  {
    hide SpecOf;
    var front, last := networks[..|networks| - 1], networks[|networks| - 1];
    if r in PrivateResolvers(front, specs) { n := PrivateResolverFrom(front, specs, r); } else { n := last; }
  }

  lemma NetworksDistinct(state: DesiredState, uplink: string, upstreams: set<string>, c: Compiled, m: InternalNetwork,
      n: InternalNetwork)
    requires Compiles(state, uplink, upstreams, c)
    requires m in c.plan.internals && n in c.plan.internals && m.tunnelId == n.tunnelId
    ensures m == n
  {
    hide Compiles, EgressGroups, InternalNetworks, HasLayout, EndpointClients, Endpoints, ValidRevision, AddressesParse,
         PrivateOrder, EgressOrder, ClientsFit, NetworkRoutes, TunnelOrder, DistinctTunnelIds;
    CompiledCarries(state, uplink, upstreams, c);
    NetworkCount(state);
    var i :| 0 <= i < |c.plan.internals| && c.plan.internals[i] == m;
    var j :| 0 <= j < |c.plan.internals| && c.plan.internals[j] == n;
    NetworkAt(state, i);
    NetworkAt(state, j);
    PrivateIdsApart(state, i, j);
  }

  lemma PrivateIdsApart(state: DesiredState, i: nat, j: nat)
    requires ValidRevision(state) && i < |PrivateOrder(state.tunnels)| && j < |PrivateOrder(state.tunnels)|
    requires PrivateOrder(state.tunnels)[i].id == PrivateOrder(state.tunnels)[j].id
    ensures i == j
  {
    hide ValidRevision, PrivateOrder;
    ValidTunnelsAreDistinct(state);
    PrivateOrderMembers(state.tunnels);
  }

  /** Every resolver a compiled revision plans has one configuration. */
  lemma CompiledHasOneText(state: DesiredState, uplink: string, upstreams: set<string>, c: Compiled)
    requires Compiles(state, uplink, upstreams, c)
    ensures OneText(c.dns)
  {
    hide Compiles, PrivateResolvers, EgressResolvers, GroupsHaveSpecs, SpecOf, Sort, OneText;
    DnsParts(state, uplink, upstreams, c);
    var groups, dns := c.plan.egresses, state.hub.dnsAddress.value;
    SameElements(PrivateResolvers(c.plan.internals, c.specs), c.dns.privateResolvers);
    SameElements(EgressResolvers(groups, c.specs, dns), c.dns.egressResolvers);
    forall a, b | a in c.dns.privateResolvers && b in c.dns.privateResolvers ensures SamePrivate(a, b) {
      var m := PrivateResolverFrom(c.plan.internals, c.specs, a);
      var n := PrivateResolverFrom(c.plan.internals, c.specs, b);
      if a.tunnelId == b.tunnelId { NetworksDistinct(state, uplink, upstreams, c, m, n); }
    }
    forall a, b | a in c.dns.egressResolvers && b in c.dns.egressResolvers ensures SameEgress(a, b) {
      DnsAgreement.EgressResolversAre(groups, c.specs, dns, a);
      DnsAgreement.EgressResolversAre(groups, c.specs, dns, b);
    }
    AgreeingIsOneText(c.dns);
  }

  // ---- the firewall plan decides the DNS plan ----

  lemma DnsParts(state: DesiredState, uplink: string, upstreams: set<string>, c: Compiled)
    requires Compiles(state, uplink, upstreams, c)
    ensures state.hub.dnsAddress.Some? && c.plan.dnsAddress == state.hub.dnsAddress
    ensures GroupsHaveSpecs(c.plan.egresses, c.specs, state.hub.dnsAddress.value)
    ensures c.dns == DnsPlan(
      Sort(ZoneLe, AllZoneRoutes(c.plan.internals, c.specs)),
      Sort(PrivateResolverLe, PrivateResolvers(c.plan.internals, c.specs)),
      Sort(EgressResolverLe, EgressResolvers(c.plan.egresses, c.specs, state.hub.dnsAddress.value)))
  {
    hide EgressGroups, InternalNetworks, DnsDestinationsOf, PortACLs, SpecsOf, Endpoints, NetworkClients, GroupClients,
         ById, AddressBook, PlacementsOf, ValidRevision, AddressesParse, GroupsHaveSpecs, EgressResolvers,
         AllZoneRoutes, PrivateResolvers, TunnelCount;
  }

  /** The parts of a spec the DNS plan is made from are the same. */
  ghost predicate SameSite(a: EgressSpec, b: EgressSpec) {
    a.tunnelId == b.tunnelId && a.namespace == b.namespace && a.hostAddress == b.hostAddress
      && a.peerAddress == b.peerAddress
  }

  ghost predicate SameSites(a: seq<EgressSpec>, b: seq<EgressSpec>) {
    |a| == |b| && forall k :: 0 <= k < |a| ==> SameSite(a[k], b[k])
  }

  ghost predicate Indexed(byId: map<string, Tunnel>) { forall id :: id in byId ==> byId[id].id == id }

  lemma {:induction false} PlacementsDecide(m: map<string, Tunnel>, n: map<string, Tunnel>, some: set<string>,
      others: set<string>, placements: seq<Placement>)
    requires Indexed(m) && Indexed(n) && SpecsOf(m, some, placements).Ok? && SpecsOf(n, others, placements).Ok?
    ensures SameSites(SpecsOf(m, some, placements).value, SpecsOf(n, others, placements).value)
    ensures |SpecsOf(m, some, placements).value| == |placements|
  {
    hide LinkOf;
    if placements != [] {
      PlacementsDecide(m, n, some, others, placements[..|placements| - 1]);
    }
  }

  lemma {:induction false} SpecOfSame(a: seq<EgressSpec>, b: seq<EgressSpec>, id: string)
    requires SameSites(a, b)
    ensures SpecOf(a, id).Some? == SpecOf(b, id).Some?
    ensures SpecOf(a, id).Some? ==> SameSite(SpecOf(a, id).value, SpecOf(b, id).value)
  {
    if a != [] {
      assert SameSite(a[0], b[0]);
      SpecOfSame(a[1..], b[1..], id);
    }
  }

  lemma {:induction false} NetworksSame(networks: seq<InternalNetwork>, a: seq<EgressSpec>, b: seq<EgressSpec>)
    requires SameSites(a, b)
    ensures AllZoneRoutes(networks, a) == AllZoneRoutes(networks, b)
    ensures PrivateResolvers(networks, a) == PrivateResolvers(networks, b)
  {
    hide SpecOf, SameSites, ZoneRoutes;
    if networks != [] {
      NetworksSame(networks[..|networks| - 1], a, b);
      SpecOfSame(a, b, networks[|networks| - 1].tunnelId);
    }
  }

  lemma {:induction false} GroupsSame(groups: seq<EgressGroup>, a: seq<EgressSpec>, b: seq<EgressSpec>, dns: Addr)
    requires SameSites(a, b) && GroupsHaveSpecs(groups, a, dns) && GroupsHaveSpecs(groups, b, dns)
    ensures EgressResolvers(groups, a, dns) == EgressResolvers(groups, b, dns)
  {
    hide SpecOf, SameSites, Sort;
    if groups != [] {
      var front, last := groups[..|groups| - 1], groups[|groups| - 1];
      assert forall i :: 0 <= i < |front| ==> front[i] == groups[i];
      GroupsSame(front, a, b, dns);
      SpecOfSame(a, b, last.id);
    }
  }

  /** Two compiled revisions with one firewall plan have one DNS plan: a change of what a resolver is
  to be started from is a change of the plan, which the transition's record is about. */
  lemma PlanDecidesDns(s: DesiredState, uplink: string, upstreams: set<string>, c: Compiled, t: DesiredState,
      other: string, others: set<string>, d: Compiled)
    requires Compiles(s, uplink, upstreams, c) && Compiles(t, other, others, d) && c.plan == d.plan
    ensures c.dns == d.dns
  {
    hide Compiles, AllZoneRoutes, PrivateResolvers, EgressResolvers, GroupsHaveSpecs, SameSites, Sort;
    CompiledSites(s, uplink, upstreams, c, t, other, others, d);
    DnsParts(s, uplink, upstreams, c);
    DnsParts(t, other, others, d);
    NetworksSame(c.plan.internals, c.specs, d.specs);
    GroupsSame(c.plan.egresses, c.specs, d.specs, s.hub.dnsAddress.value);
  }

  lemma CompiledSites(s: DesiredState, uplink: string, upstreams: set<string>, c: Compiled, t: DesiredState,
      other: string, others: set<string>, d: Compiled)
    requires Compiles(s, uplink, upstreams, c) && Compiles(t, other, others, d) && c.plan == d.plan
    ensures SameSites(c.specs, d.specs)
  {
    hide ValidRevision, CompiledOf, PlanOf, EgressGroups, InternalNetworks, EndpointClients, PlacementsOf, SpecsOf,
         AddressesParse, Endpoints, ById, SameSites;
    CompiledParts(s, uplink, upstreams, c);
    CompiledParts(t, other, others, d);
    forall id | id in ById(s.tunnels) ensures ById(s.tunnels)[id].id == id { ByIdIsMember(s.tunnels, id); }
    forall id | id in ById(t.tunnels) ensures ById(t.tunnels)[id].id == id { ByIdIsMember(t.tunnels, id); }
    PlacementsDecide(ById(s.tunnels), ById(t.tunnels), upstreams, others, PlacementsOf(c.plan));
  }

  /** The DNS plan of the revisions that compile to this firewall plan. */
  ghost function DnsFor(plan: FirewallPlan): DnsPlan {
    if exists state, uplink, upstreams, c :: Compiles(state, uplink, upstreams, c) && c.plan == plan then
      var state, uplink, upstreams, c :| Compiles(state, uplink, upstreams, c) && c.plan == plan;
      c.dns
    else DnsPlan([], [], [])
  }

  lemma DnsForIs(state: DesiredState, uplink: string, upstreams: set<string>, c: Compiled)
    requires Compiles(state, uplink, upstreams, c)
    ensures DnsFor(c.plan) == c.dns
  {
    hide Compiles;
    var s, other, others, d :| Compiles(s, other, others, d) && d.plan == c.plan && DnsFor(c.plan) == d.dns;
    PlanDecidesDns(state, uplink, upstreams, c, s, other, others, d);
  }
}
