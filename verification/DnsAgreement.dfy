/** One resolver address per device, derived five ways: from the position of its egress in the
plan, from its namespace's link, by the resolver plan, by the redirect of its queries and by the
input chain.  They all agree. */
module DnsAgreement {
  import opened Netip
  import opened Ordering
  import opened Domain
  import opened Links
  import opened FirewallPlanner
  import opened Validation
  import opened Revision
  import opened EgressPlanner
  import opened DnsPlanner
  import opened Compiler
  import opened Nftables
  import opened Renderer
  import opened PlanFacts
  import opened SetFacts
  import opened PolicySets
  import opened KillSwitch
  import opened PolicyRouting
  import opened Steering

  /** The address that answers the clients of an egress: the hub's own for direct, otherwise the
  near end of the egress's link. */
  ghost predicate Answers(state: DesiredState, egress: string, a: Addr) {
    if egress == DIRECT then state.hub.dnsAddress == Some(a)
    else exists k ::
      0 <= k < |EgressOrder(state.tunnels)| && EgressOrder(state.tunnels)[k] == egress
      && a == LINK_BASE.addr + 4 * k + 1
  }

  lemma AnswersUnique(state: DesiredState, egress: string, a: Addr, b: Addr)
    requires Answers(state, egress, a) && Answers(state, egress, b)
    ensures a == b
  {
    if egress != DIRECT {
      var j :| 0 <= j < |EgressOrder(state.tunnels)| && EgressOrder(state.tunnels)[j] == egress
        && a == LINK_BASE.addr + 4 * j + 1;
      var k :| 0 <= k < |EgressOrder(state.tunnels)| && EgressOrder(state.tunnels)[k] == egress
        && b == LINK_BASE.addr + 4 * k + 1;
      assert j == k;
    }
  }

  // ------------------------------------------------------------------
  // By position in the plan
  // ------------------------------------------------------------------

  lemma CountBefore(state: DesiredState, uplink: string, k: nat)
    requires ValidRevision(state) && AddressesParse(state.devices) && k < |EgressOrder(state.tunnels)|
    ensures |DirectGroups(state, uplink)| + k < |EgressGroups(state, uplink)|
    ensures TunnelCount(EgressGroups(state, uplink)[..|DirectGroups(state, uplink)| + k]) == k
  {
    hide ValidRevision, EgressGroups, EgressOrder, AddressesParse, AddressesOf, TunnelGroup, EgressTunnelIds;
    GroupsShape(state, uplink);
    TunnelGroupIds(state);
    var direct, tunnels := DirectGroups(state, uplink), TunnelGroups(state, EgressOrder(state.tunnels));
    assert EgressGroups(state, uplink)[..|direct| + k] == direct + tunnels[..k];
    TunnelCountAppends(direct, tunnels[..k]);
    forall g | g in tunnels[..k] ensures g.id != DIRECT { assert g in tunnels; }
    NoDirectCount(tunnels[..k]);
    assert TunnelCount(direct) == 0 by { if direct != [] { assert direct[..0] == []; } }
  }

  lemma OrderFits(state: DesiredState, uplink: string, upstreams: set<string>, c: Compiled)
    requires Compiles(state, uplink, upstreams, c)
    ensures |EgressOrder(state.tunnels)| <= |TunnelOrder(state.tunnels)| == |c.specs| <= LINK_LIMIT
  {
    hide Compiles, EgressOrder, PrivateOrder, ById, EgressGroups, InternalNetworks, EndpointClients, Endpoints,
         ValidRevision, AddressesParse;
    CompiledCarries(state, uplink, upstreams, c);
  }

  /** The plan's own arithmetic gives each group the near end of its link. */
  lemma ResolverAnswers(state: DesiredState, uplink: string, upstreams: set<string>, c: Compiled, i: nat)
    requires Compiles(state, uplink, upstreams, c) && i < |c.plan.egresses|
    ensures ResolverOf(c.plan.egresses, i, state.hub.dnsAddress).Some?
    ensures Answers(state, c.plan.egresses[i].id, ResolverOf(c.plan.egresses, i, state.hub.dnsAddress).value)
  {
    hide Compiles, EgressOrder, TunnelOrder, EgressGroups, InternalNetworks, HasLayout, EndpointClients, Endpoints,
         ValidRevision, AddressesParse, TunnelCount, LinkOf, DirectGroups, AddressesOf, Permitted, Proxied,
         EgressTunnelIds, DnsDestinationsOf, PortACLs, AddressBook;
    CompiledCarries(state, uplink, upstreams, c);
    PlanFields(state, uplink, upstreams, c);
    GroupsShape(state, uplink);
    OrderFits(state, uplink, upstreams, c);
    var direct := |DirectGroups(state, uplink)|;
    if i < direct {
      DirectGroupAt(state, uplink, i);
    } else {
      var k := i - direct;
      TunnelGroupAt(state, uplink, k);
      EgressesAreTunnels(state);
      CountBefore(state, uplink, k);
      LinkExists(k);
    }
  }

  // ------------------------------------------------------------------
  // By matching client lists
  // ------------------------------------------------------------------

  lemma {:induction false} DestinationForIs(group: EgressGroup, destinations: seq<DnsDestination>)
    ensures DestinationFor(group, destinations).Some? ==>
      DestinationFor(group, destinations).value in destinations
        && DestinationFor(group, destinations).value.clients == group.addresses
    ensures (exists x :: x in destinations && x.clients == group.addresses) ==>
      DestinationFor(group, destinations).Some?
  {
    if destinations != [] {
      DestinationForIs(group, destinations[1..]);
      assert destinations == [destinations[0]] + destinations[1..];
    }
  }

  ghost function EntryFor(groups: seq<EgressGroup>, k: nat, direct: Option<Addr>): DnsEntry
    requires k < |groups|
  {
    DnsEntry(groups[k].id, DnsDestination(Sort(AddrLe, groups[k].addresses), ResolverOf(groups, k, direct)))
  }

  lemma NoEntries(direct: Option<Addr>)
    ensures DnsEntries([], direct) == []
  {
  }

  lemma {:induction false} DnsEntriesAre(groups: seq<EgressGroup>, n: nat, direct: Option<Addr>, x: DnsEntry)
    requires n <= |groups|
    ensures x in DnsEntries(groups[..n], direct) <==>
      exists k :: 0 <= k < n && groups[k].addresses != [] && x == EntryFor(groups, k, direct)
  {
    hide ResolverOf, Sort, DnsEntries;
    if n > 0 {
      DnsEntriesAre(groups, n - 1, direct, x);
      DnsEntriesGrow(groups, n - 1, direct);
    } else {
      NoEntries(direct);
      assert groups[..0] == [];
    }
  }

  lemma AddrOrder(s: seq<Addr>)
    ensures TotalPreorder(AddrLe) && NoTies(AddrLe, s)
  {
  }

  lemma DestinationsAre(groups: seq<EgressGroup>, direct: Option<Addr>, x: DnsDestination)
    ensures x in DnsDestinationsOf(groups, direct) <==>
      exists k :: 0 <= k < |groups| && groups[k].addresses != [] && x == EntryFor(groups, k, direct).destination
  {
    hide ResolverOf, DnsEntries, Sort, EntryFor;
    var entries := DnsEntries(groups, direct);
    var sorted := Sort(DnsEntryLe, entries);
    SameElements(entries, sorted);
    assert groups[..|groups|] == groups;
    if x in Destinations(sorted) {
      var i :| 0 <= i < |sorted| && sorted[i].destination == x;
      assert sorted[i] in sorted;
      DnsEntriesAre(groups, |groups|, direct, sorted[i]);
    }
    if k :| 0 <= k < |groups| && groups[k].addresses != [] && x == EntryFor(groups, k, direct).destination {
      DnsEntriesAre(groups, |groups|, direct, EntryFor(groups, k, direct));
      var i :| 0 <= i < |sorted| && sorted[i] == EntryFor(groups, k, direct);
      assert Destinations(sorted)[i] == x;
    }
  }

  lemma GroupsAreSorted(state: DesiredState, uplink: string, i: nat)
    requires ValidRevision(state) && AddressesParse(state.devices) && i < |EgressGroups(state, uplink)|
    ensures Sort(AddrLe, EgressGroups(state, uplink)[i].addresses) == EgressGroups(state, uplink)[i].addresses
  {
    hide ValidRevision, EgressGroups, DirectGroups, EgressOrder, AddressesParse, AddressesOf, Permitted, Proxied,
         EgressTunnelIds, EgressInterface, Sort, Lookup, Flag, U32;
    GroupsShape(state, uplink);
    var direct := |DirectGroups(state, uplink)|;
    if i < direct { DirectGroupAt(state, uplink, i); } else { TunnelGroupAt(state, uplink, i - direct); }
    var egress := if i < direct then DIRECT else EgressOrder(state.tunnels)[i - direct];
    SortedTwice(AddressesOf(state.devices, egress));
  }

  lemma SortedTwice(s: seq<Addr>)
    ensures Sort(AddrLe, Sort(AddrLe, s)) == Sort(AddrLe, s)
  {
    AddrOrder(Sort(AddrLe, s));
    SortSorted(AddrLe, s);
    SortOfSorted(AddrLe, Sort(AddrLe, s));
  }

  /** Two groups that share a client are the same group. */
  lemma GroupsAreApart(state: DesiredState, uplink: string, i: nat, j: nat, a: Addr)
    requires ValidRevision(state) && AddressesParse(state.devices)
    requires i < |EgressGroups(state, uplink)| && j < |EgressGroups(state, uplink)|
    requires a in EgressGroups(state, uplink)[i].addresses && a in EgressGroups(state, uplink)[j].addresses
    ensures EgressGroups(state, uplink)[i].id == EgressGroups(state, uplink)[j].id
  {
    hide ValidRevision, EgressGroups, AddressesParse;
    GroupsFit(state, uplink, i);
    GroupsFit(state, uplink, j);
    RevisionDevices(state);
  }

  /** Matching client lists finds each group its own resolver, and no group another's. */
  lemma GroupIsServed(state: DesiredState, uplink: string, upstreams: set<string>, c: Compiled, i: nat)
    requires Compiles(state, uplink, upstreams, c) && i < |c.plan.egresses|
    ensures var g, served := c.plan.egresses[i], ServedBy(c.plan, c.plan.egresses[i]);
      && (g.addresses == [] ==> served.None?)
      && (g.addresses != [] ==> served.Some? && served.value.clients == g.addresses
                                && served.value.resolver.Some? && Answers(state, g.id, served.value.resolver.value))
  {
    hide Compiles, EgressGroups, InternalNetworks, HasLayout, EndpointClients, Endpoints, ValidRevision, AddressesParse,
         ResolverOf, Answers, DnsDestinationsOf, PortACLs, AddressBook, DestinationFor;
    CompiledCarries(state, uplink, upstreams, c);
    PlanFields(state, uplink, upstreams, c);
    var groups, direct := c.plan.egresses, state.hub.dnsAddress;
    var g := groups[i];
    DestinationForIs(g, c.plan.dnsDestinations);
    if g.addresses != [] {
      GroupsAreSorted(state, uplink, i);
      DestinationsAre(groups, direct, EntryFor(groups, i, direct).destination);
      var x := DestinationFor(g, c.plan.dnsDestinations).value;
      DestinationsAre(groups, direct, x);
      var j :| 0 <= j < |groups| && groups[j].addresses != [] && x == EntryFor(groups, j, direct).destination;
      GroupsAreSorted(state, uplink, j);
      GroupsAreApart(state, uplink, i, j, g.addresses[0]);
      ResolverAnswers(state, uplink, upstreams, c, j);
    }
  }

  // ------------------------------------------------------------------
  // By the layout and by the resolver plan
  // ------------------------------------------------------------------

  /** The namespace of the device's egress is reached at the same address. */
  lemma SpecAnswers(state: DesiredState, uplink: string, upstreams: set<string>, c: Compiled, d: Device, a: Addr)
    requires Compiles(state, uplink, upstreams, c) && d in state.devices && d.egress != DIRECT
      && Answers(state, d.egress, a)
    ensures exists k :: 0 <= k < |c.specs| && c.specs[k].tunnelId == d.egress && c.specs[k].hostAddress == a
  {
    hide Compiles, EgressGroups, InternalNetworks, HasLayout, EndpointClients, Endpoints, ValidRevision, AddressesParse,
         EgressOrder, TunnelOrder;
    CompiledCarries(state, uplink, upstreams, c);
    OrderFits(state, uplink, upstreams, c);
    var k :| 0 <= k < |EgressOrder(state.tunnels)| && EgressOrder(state.tunnels)[k] == d.egress
      && a == LINK_BASE.addr + 4 * k + 1;
    OrderParts(state.tunnels, k);
    LayoutAt(state.tunnels, c.specs, k);
    assert c.specs[k].hostAddress == a;
  }

  lemma {:induction false} SpecOfFirst(specs: seq<EgressSpec>, id: string)
    ensures SpecOf(specs, id).Some? ==> SpecOf(specs, id).value in specs && SpecOf(specs, id).value.tunnelId == id
  {
    if specs != [] { SpecOfFirst(specs[1..], id); }
  }

  lemma SpecHostAnswers(state: DesiredState, uplink: string, upstreams: set<string>, c: Compiled, id: string)
    requires Compiles(state, uplink, upstreams, c) && id in EgressTunnelIds(state.tunnels) && SpecOf(c.specs, id).Some?
    ensures Answers(state, id, SpecOf(c.specs, id).value.hostAddress)
  {
    hide Compiles, EgressGroups, InternalNetworks, EndpointClients, Endpoints, HasLayout, ValidRevision, AddressesParse,
         SpecOf, EgressTunnelIds, ValidRevisionTunnel, ById, TunnelOrder, EgressOrder, Answers;
    CompiledCarries(state, uplink, upstreams, c);
    ValidTunnelsAreDistinct(state);
    EgressesAreTunnels(state);
    SpecOfFirst(c.specs, id);
    var spec := SpecOf(c.specs, id).value;
    var k :| 0 <= k < |c.specs| && c.specs[k] == spec;
    LayoutAt(state.tunnels, c.specs, k);
    EgressIdPosition(state.tunnels, k, id);
    AnswersAt(state, k, id);
  }

  lemma EgressIdPosition(tunnels: seq<Tunnel>, k: nat, id: string)
    requires DistinctTunnelIds(tunnels) && k < |TunnelOrder(tunnels)| && TunnelOrder(tunnels)[k] == id
      && id in EgressTunnelIds(tunnels)
    ensures k < |EgressOrder(tunnels)| && EgressOrder(tunnels)[k] == id
  {
    hide TunnelOrder, EgressOrder, PrivateOrder, EgressTunnelIds, DistinctTunnelIds, ById;
    PositionRole(tunnels, k);
    EgressPosition(tunnels, id);
    OrderParts(tunnels, k);
  }

  lemma AnswersAt(state: DesiredState, k: nat, id: string)
    requires k < |EgressOrder(state.tunnels)| && EgressOrder(state.tunnels)[k] == id && id != DIRECT && k < LINK_LIMIT
    ensures Answers(state, id, LINK_BASE.addr + 4 * k + 1)
  {
  }

  lemma {:induction false} EgressResolversAre(groups: seq<EgressGroup>, specs: seq<EgressSpec>, dns: Addr,
      x: DnsEgressResolver)
    requires GroupsHaveSpecs(groups, specs, dns)
    ensures x in EgressResolvers(groups, specs, dns) <==>
      exists k :: 0 <= k < |groups| && groups[k].addresses != [] && EgressResolverFor(groups[k], specs, dns) == Some(x)
  {
    hide EgressResolverFor;
    if groups != [] {
      var front, n := groups[..|groups| - 1], |groups| - 1;
      EgressResolversAre(front, specs, dns, x);
      assert forall k :: 0 <= k < n ==> front[k] == groups[k];
    }
  }

  lemma DnsPlanParts(state: DesiredState, uplink: string, upstreams: set<string>, c: Compiled)
    requires Compiles(state, uplink, upstreams, c)
    ensures state.hub.dnsAddress.Some? && GroupsHaveSpecs(c.plan.egresses, c.specs, state.hub.dnsAddress.value)
    ensures c.dns.egressResolvers
      == Sort(EgressResolverLe, EgressResolvers(c.plan.egresses, c.specs, state.hub.dnsAddress.value))
  {
    hide EgressGroups, InternalNetworks, DnsDestinationsOf, PortACLs, SpecsOf, Endpoints, NetworkClients, GroupClients,
         ById, PlanOf, PlacementsOf, ValidDevices, ValidRevisionTunnel, AddressesParse, GroupsHaveSpecs,
         EgressResolvers, AllZoneRoutes, PrivateResolvers;
  }

  /** The resolver plan gives each group's clients the same address. */
  lemma ResolverPlanAnswers(state: DesiredState, uplink: string, upstreams: set<string>, c: Compiled, i: nat,
      x: DnsEgressResolver)
    requires Compiles(state, uplink, upstreams, c) && i < |c.plan.egresses| && state.hub.dnsAddress.Some?
    requires EgressResolverFor(c.plan.egresses[i], c.specs, state.hub.dnsAddress.value) == Some(x)
    ensures x.egressId == c.plan.egresses[i].id && x.clients == c.plan.egresses[i].addresses
    ensures x.hubAddress.Some? && Answers(state, c.plan.egresses[i].id, x.hubAddress.value)
  {
    hide Compiles, EgressGroups, InternalNetworks, HasLayout, EndpointClients, Endpoints, ValidRevision, AddressesParse,
         SpecOf, ClientsFit, Chose, EgressOrder;
    CompiledCarries(state, uplink, upstreams, c);
    GroupsAreSorted(state, uplink, i);
    GroupsFit(state, uplink, i);
    if c.plan.egresses[i].id != DIRECT {
      SpecHostAnswers(state, uplink, upstreams, c, c.plan.egresses[i].id);
    }
  }

  /** Whatever resolver is planned for a device's address listens where the device is answered,
  and one is planned. */
  lemma PlannedResolver(state: DesiredState, uplink: string, upstreams: set<string>, c: Compiled, d: Device, addr: Addr,
      a: Addr)
    requires Compiles(state, uplink, upstreams, c) && d in state.devices && HasAddress(d, addr)
      && Answers(state, d.egress, a)
    ensures exists x :: x in c.dns.egressResolvers && addr in x.clients
    ensures forall x :: x in c.dns.egressResolvers && addr in x.clients ==>
      x.egressId == d.egress && x.hubAddress == Some(a)
  {
    hide Compiles, EgressGroups, InternalNetworks, HasLayout, EndpointClients, Endpoints, ValidRevision, AddressesParse,
         Answers, ClientsFit, EgressResolverFor, EgressResolvers, HasAddress, EgressDevice;
    CompiledCarries(state, uplink, upstreams, c);
    DnsPlanParts(state, uplink, upstreams, c);
    var groups, dns := c.plan.egresses, state.hub.dnsAddress.value;
    SameElements(EgressResolvers(groups, c.specs, dns), c.dns.egressResolvers);
    var i := DeviceHasGroup(state, uplink, d);
    GroupsFit(state, uplink, i);
    assert addr in groups[i].addresses;
    var own := EgressResolverFor(groups[i], c.specs, dns);
    ResolverPlanAnswers(state, uplink, upstreams, c, i, own.value);
    EgressResolversAre(groups, c.specs, dns, own.value);
    assert own.value in c.dns.egressResolvers;
    forall x | x in c.dns.egressResolvers && addr in x.clients
      ensures x.egressId == d.egress && x.hubAddress == Some(a)
    {
      EgressResolversAre(groups, c.specs, dns, x);
      var k :| 0 <= k < |groups| && groups[k].addresses != [] && EgressResolverFor(groups[k], c.specs, dns) == Some(x);
      ResolverPlanAnswers(state, uplink, upstreams, c, k, x);
      GroupsAreApart(state, uplink, i, k, addr);
      AnswersUnique(state, d.egress, a, x.hubAddress.value);
    }
  }

  // ------------------------------------------------------------------
  // By the table
  // ------------------------------------------------------------------

  /** The set of one egress's DNS clients holds exactly the devices that chose it. */
  lemma DnsClientSetMeans(state: DesiredState, uplink: string, upstreams: set<string>, c: Compiled, r: Ruleset,
      t: Tables, id: string, a: Addr)
    requires Compiles(state, uplink, upstreams, c) && Installed(c.plan, r, t)
    ensures InSet(t, DnsClientSet(id), a) <==> Chose(state.devices, id, a)
  {
    hide Compiles, Installed, Chose, SetsOf, EgressGroups, InternalNetworks, ListsAdmitted, RendersWith, HasLayout,
         Declared, EndpointClients, Endpoints, ServedBy, Answers, ValidRevision, AddressesParse;
    CompiledCarries(state, uplink, upstreams, c);
    var admitted := InstalledSets(c.plan, r, t);
    InDnsClientSet(c.plan, admitted, id, a);
    GroupsHold(state, uplink, id, a);
    forall i | 0 <= i < |c.plan.egresses|
      ensures ServedBy(c.plan, c.plan.egresses[i]).Some? && a in ServedBy(c.plan, c.plan.egresses[i]).value.clients <==>
        a in c.plan.egresses[i].addresses
    {
      GroupIsServed(state, uplink, upstreams, c, i);
    }
  }

  lemma AdmittedSetMeans(state: DesiredState, uplink: string, upstreams: set<string>, c: Compiled, r: Ruleset,
      t: Tables, a: Addr)
    requires Compiles(state, uplink, upstreams, c) && Installed(c.plan, r, t)
    ensures InSet(t, AdmittedSet, a) <==> exists d :: d in state.devices && HasAddress(d, a)
  {
    hide Compiles, Installed, SetsOf, EgressGroups, InternalNetworks, RendersWith, HasLayout, Declared, EndpointClients,
         Endpoints, ValidRevision, AddressesParse, ClientsFit, SortedBy, Distinct;
    CompiledCarries(state, uplink, upstreams, c);
    var admitted := InstalledSets(c.plan, r, t);
    InAdmittedSet(c.plan, admitted, a);
    if a in AddressesIn(c.plan.egresses) {
      var i, k :| 0 <= i < |c.plan.egresses| && 0 <= k < |c.plan.egresses[i].addresses|
        && c.plan.egresses[i].addresses[k] == a;
      GroupsFit(state, uplink, i);
      assert a in c.plan.egresses[i].addresses;
      var d :| d in state.devices && d.egress == c.plan.egresses[i].id && HasAddress(d, a);
    }
    if d :| d in state.devices && HasAddress(d, a) {
      var i := DeviceHasGroup(state, uplink, d);
      GroupsFit(state, uplink, i);
      assert Chose(state.devices, c.plan.egresses[i].id, a);
      var k :| 0 <= k < |c.plan.egresses[i].addresses| && c.plan.egresses[i].addresses[k] == a;
      assert a in AddressesIn(c.plan.egresses);
    }
  }

  /** Every group that serves this client resolves at this address. */
  ghost predicate ServedAt(plan: FirewallPlan, groups: seq<EgressGroup>, t: Tables, client: Addr, a: Addr) {
    forall i :: 0 <= i < |groups| ==>
      InSet(t, DnsClientSet(groups[i].id), client) && ServedBy(plan, groups[i]).Some? ==>
        ServedBy(plan, groups[i]).value.resolver == Some(a)
  }

  ghost predicate Serves(plan: FirewallPlan, groups: seq<EgressGroup>, t: Tables, client: Addr) {
    exists i :: 0 <= i < |groups| && InSet(t, DnsClientSet(groups[i].id), client) && ServedBy(plan, groups[i]).Some?
  }

  lemma PairWalk(x: Rule, y: Rule, t: Tables, p: Packet)
    ensures Walk([x, y], t, p) ==
      (var first := if Applies(x, t, p) then Act(x.actions, p) else Going(p);
       if first.Stopped? then first else if Applies(y, t, first.packet) then Act(y.actions, first.packet) else first)
  {
    hide Applies, Act;
    assert [x, y] == [x] + [y];
    WalkAppend([x], [y], t, p);
    WalkOne(x, t, p);
    WalkOne(y, t, if Applies(x, t, p) && Act(x.actions, p).Going? then Act(x.actions, p).packet else p);
  }

  lemma RedirectWalk(plan: FirewallPlan, ref: SetRef, resolver: Option<Addr>, t: Tables, p: Packet)
    requires p.iif == plan.ingress && AsksDns(p)
    ensures Walk(RedirectRules(plan, ref, resolver), t, p) ==
      if InSet(t, ref, p.saddr)
        then Stopped(Some(Accepted), p.(daddr := if resolver.Some? then resolver.value else p.daddr, dport := 53))
      else Going(p)
  {
    hide InSet, Walk;
    var rules := RedirectRules(plan, ref, resolver);
    PairWalk(rules[0], rules[1], t, p);
    var udp, tcp := rules[0].matches, rules[1].matches;
    assert udp[0] == IifIs(plan.ingress) && udp[1] == Source(In(ref)) && udp[2] == DestPort(Udp, 53);
    assert tcp[0] == IifIs(plan.ingress) && tcp[1] == Source(In(ref)) && tcp[2] == DestPort(Tcp, 53);
    assert Matches(udp[1], t, p) <==> InSet(t, ref, p.saddr);
    assert Matches(tcp[1], t, p) <==> InSet(t, ref, p.saddr);
  }

  lemma {:induction false} DnsRedirectsWalk(plan: FirewallPlan, groups: seq<EgressGroup>, t: Tables, p: Packet, a: Addr)
    requires p.iif == plan.ingress && AsksDns(p) && ServedAt(plan, groups, t, p.saddr, a)
    ensures Walk(DnsRedirects(plan, groups), t, p) ==
      if Serves(plan, groups, t, p.saddr) then Stopped(Some(Accepted), p.(daddr := a, dport := 53)) else Going(p)
  {
    hide InSet, Walk, ServedBy, RedirectRules, AsksDns;
    if groups != [] {
      var front, last := groups[..|groups| - 1], groups[|groups| - 1];
      assert forall i :: 0 <= i < |front| ==> groups[i] == front[i];
      DnsRedirectsWalk(plan, front, t, p, a);
      var served := ServedBy(plan, last);
      assert Serves(plan, groups, t, p.saddr) <==>
        Serves(plan, front, t, p.saddr) || (InSet(t, DnsClientSet(last.id), p.saddr) && served.Some?);
      var rest := if served.None? then [] else RedirectRules(plan, DnsClientSet(last.id), served.value.resolver);
      WalkAppend(DnsRedirects(plan, front), rest, t, p);
      if served.Some? { RedirectWalk(plan, DnsClientSet(last.id), served.value.resolver, t, p); }
        else { NoRules(t, p); }
    } else {
      NoRules(t, p);
    }
  }

  lemma NoRules(t: Tables, p: Packet)
    ensures Walk([], t, p) == Going(p)
  {
  }

  lemma ResolveWalk(plan: FirewallPlan, ref: SetRef, resolver: Option<Addr>, t: Tables, p: Packet)
    requires p.iif == plan.ingress && AsksDns(p)
    ensures Walk(ResolveRules(plan, ref, resolver), t, p) ==
      if InSet(t, ref, p.saddr) && resolver == Some(p.daddr) then Stopped(Some(Accepted), p) else Going(p)
  {
    hide InSet, Walk;
    var rules := ResolveRules(plan, ref, resolver);
    PairWalk(rules[0], rules[1], t, p);
    HostHolds(resolver, t, p.daddr);
    var udp, tcp := rules[0].matches, rules[1].matches;
    assert udp[0] == IifIs(plan.ingress) && udp[3] == DestPort(Udp, 53) && tcp[0] == IifIs(plan.ingress)
      && tcp[3] == DestPort(Tcp, 53);
    assert udp[1] == Source(In(ref)) && udp[2] == Destination(Block(HostText(resolver)));
    assert tcp[1] == Source(In(ref)) && tcp[2] == Destination(Block(HostText(resolver)));
    assert Matches(udp[1], t, p) <==> InSet(t, ref, p.saddr);
    assert Matches(tcp[1], t, p) <==> InSet(t, ref, p.saddr);
  }

  lemma RefuseWalk(plan: FirewallPlan, ref: SetRef, t: Tables, p: Packet)
    requires p.iif == plan.ingress && AsksDns(p)
    ensures Walk(RefuseRules(plan, ref), t, p) == if InSet(t, ref, p.saddr) then Stopped(Some(Dropped), p) else Going(p)
  {
    hide InSet, Walk;
    var rules := RefuseRules(plan, ref);
    PairWalk(rules[0], rules[1], t, p);
    var udp, tcp := rules[0].matches, rules[1].matches;
    assert udp[0] == IifIs(plan.ingress) && udp[1] == Source(In(ref)) && udp[2] == DestPort(Udp, 53);
    assert tcp[0] == IifIs(plan.ingress) && tcp[1] == Source(In(ref)) && tcp[2] == DestPort(Tcp, 53);
    assert Matches(udp[1], t, p) <==> InSet(t, ref, p.saddr);
    assert Matches(tcp[1], t, p) <==> InSet(t, ref, p.saddr);
  }

  lemma {:induction false} DnsInputWalk(plan: FirewallPlan, groups: seq<EgressGroup>, t: Tables, p: Packet, a: Addr)
    requires p.iif == plan.ingress && AsksDns(p) && ServedAt(plan, groups, t, p.saddr, a)
    ensures Walk(DnsInputRules(plan, groups), t, p) ==
      if Serves(plan, groups, t, p.saddr) then Stopped(Some(if p.daddr == a then Accepted else Dropped), p)
        else Going(p)
  {
    hide InSet, Walk, ServedBy, ResolveRules, RefuseRules, AsksDns;
    if groups != [] {
      var front, last := groups[..|groups| - 1], groups[|groups| - 1];
      assert forall i :: 0 <= i < |front| ==> groups[i] == front[i];
      DnsInputWalk(plan, front, t, p, a);
      var served := ServedBy(plan, last);
      assert Serves(plan, groups, t, p.saddr) <==>
        Serves(plan, front, t, p.saddr) || (InSet(t, DnsClientSet(last.id), p.saddr) && served.Some?);
      if served.Some? {
        var ref := DnsClientSet(last.id);
        WalkAppend(DnsInputRules(plan, front), ResolveRules(plan, ref, served.value.resolver)
          + RefuseRules(plan, ref), t, p);
        WalkAppend(ResolveRules(plan, ref, served.value.resolver), RefuseRules(plan, ref), t, p);
        ResolveWalk(plan, ref, served.value.resolver, t, p);
        RefuseWalk(plan, ref, t, p);
      } else {
        assert DnsInputRules(plan, groups) == DnsInputRules(plan, front) + [];
        assert DnsInputRules(plan, front) + [] == DnsInputRules(plan, front);
      }
    } else {
      NoRules(t, p);
    }
  }

  /** Port 53 from clients ends here at the latest. */
  lemma ServiceRefusesDns(plan: FirewallPlan, admitted: seq<Addr>, t: Tables, p: Packet)
    requires p.iif == plan.ingress && AsksDns(p)
    ensures Walk(ServiceRules(plan, admitted), t, p) == Stopped(Some(Dropped), p)
  {
    hide Walk;
    var rules := ServiceRules(plan, admitted);
    assert rules == [rules[0], rules[1]] + rules[2..];
    WalkAppend([rules[0], rules[1]], rules[2..], t, p);
    PairWalk(rules[0], rules[1], t, p);
    assert rules[0].matches[0] == IifIs(plan.ingress) && rules[0].matches[1] == DestPort(Udp, 53);
    assert rules[1].matches[0] == IifIs(plan.ingress) && rules[1].matches[1] == DestPort(Tcp, 53);
  }

  /** A device is served by its own group, at the address its egress answers on. */
  lemma DeviceServed(state: DesiredState, uplink: string, upstreams: set<string>, c: Compiled, r: Ruleset, t: Tables,
      d: Device, client: Addr)
    returns (a: Addr)
    requires Compiles(state, uplink, upstreams, c) && Installed(c.plan, r, t) && d in state.devices
      && HasAddress(d, client)
    ensures Answers(state, d.egress, a)
    ensures ServedAt(c.plan, c.plan.egresses, t, client, a) && Serves(c.plan, c.plan.egresses, t, client)
  {
    hide Compiles, Installed, InSet, EgressGroups, InternalNetworks, HasLayout, EndpointClients, Endpoints,
         ValidRevision, AddressesParse, Answers, ServedBy, ClientsFit, HasAddress;
    CompiledCarries(state, uplink, upstreams, c);
    RevisionDevices(state);
    var groups := c.plan.egresses;
    var i := DeviceHasGroup(state, uplink, d);
    GroupsFit(state, uplink, i);
    GroupIsServed(state, uplink, upstreams, c, i);
    assert Chose(state.devices, groups[i].id, client);
    assert client in groups[i].addresses;
    a := ServedBy(c.plan, groups[i]).value.resolver.value;
    DnsClientSetMeans(state, uplink, upstreams, c, r, t, d.egress, client);
    forall j | 0 <= j < |groups| && InSet(t, DnsClientSet(groups[j].id), client) && ServedBy(c.plan, groups[j]).Some?
      ensures ServedBy(c.plan, groups[j]).value.resolver == Some(a)
    {
      DnsClientSetMeans(state, uplink, upstreams, c, r, t, groups[j].id, client);
      SameAddressSameDevice(state, d, groups[j].id, client);
      GroupIsServed(state, uplink, upstreams, c, j);
      AnswersUnique(state, d.egress, a, ServedBy(c.plan, groups[j]).value.resolver.value);
    }
  }

  lemma SameAddressSameDevice(state: DesiredState, d: Device, egress: string, a: Addr)
    requires ValidRevision(state) && d in state.devices && HasAddress(d, a) && Chose(state.devices, egress, a)
    ensures egress == d.egress
  {
    hide ValidRevision;
    RevisionDevices(state);
  }

  lemma InstalledDns(plan: FirewallPlan, r: Ruleset, t: Tables) returns (admitted: seq<Addr>)
    requires Installed(plan, r, t)
    ensures r.input == InputRules(plan, admitted) && r.preroutingNat == PreroutingNatRules(plan, admitted)
  {
    hide SetsOf, ListsAdmitted, PreroutingRules, ForwardRules, InputRules, OutputMarkRules, OutputRules,
         PreroutingNatRules;
    admitted := InstalledSets(plan, r, t);
  }

  lemma InputWalk(plan: FirewallPlan, admitted: seq<Addr>, t: Tables, p: Packet, a: Addr)
    requires p.iif == plan.ingress && AsksDns(p) && ServedAt(plan, plan.egresses, t, p.saddr, a)
    ensures Filter(InputRules(plan, admitted), Dropped, t, p) == Accepted <==>
      if Serves(plan, plan.egresses, t, p.saddr) then p.daddr == a
      else InSet(t, AdmittedSet, p.saddr) && admitted != [] && plan.dnsAddress == Some(p.daddr)
  {
    hide InSet, Walk, DnsInputRules, ResolveRules, ServiceRules, AsksDns, ServedAt, Serves;
    WalkAppend(DnsInputRules(plan, plan.egresses) + HubDnsRules(plan, admitted), ServiceRules(plan, admitted), t, p);
    WalkAppend(DnsInputRules(plan, plan.egresses), HubDnsRules(plan, admitted), t, p);
    DnsInputWalk(plan, plan.egresses, t, p, a);
    ServiceRefusesDns(plan, admitted, t, p);
    NoRules(t, p);
    ResolveWalk(plan, AdmittedSet, plan.dnsAddress, t, p);
  }

  /** The input chain lets a client ask exactly one resolver, and a stranger none. */
  lemma InputIsExact(state: DesiredState, uplink: string, upstreams: set<string>, c: Compiled, r: Ruleset, t: Tables,
      p: Packet)
    requires Compiles(state, uplink, upstreams, c) && Installed(c.plan, r, t) && p.iif == INGRESS && AsksDns(p)
    ensures Filter(r.input, Dropped, t, p) == Accepted <==>
      exists d :: d in state.devices && HasAddress(d, p.saddr) && Answers(state, d.egress, p.daddr)
  {
    hide Compiles, Installed, InSet, InputRules, Filter, AsksDns, ServedBy, PortACLs, AddressBook, DnsDestinationsOf,
         AddressesParse, Answers, ValidRevision;
    PlanFields(state, uplink, upstreams, c);
    CompilesIsValid(state, uplink, upstreams, c);
    var admitted := InstalledDns(c.plan, r, t);
    if d :| d in state.devices && HasAddress(d, p.saddr) {
      var a := DeviceServed(state, uplink, upstreams, c, r, t, d, p.saddr);
      InputWalk(c.plan, admitted, t, p, a);
      forall e | e in state.devices && HasAddress(e, p.saddr) && Answers(state, e.egress, p.daddr)
        ensures p.daddr == a
      {
        assert Chose(state.devices, e.egress, p.saddr);
        SameAddressSameDevice(state, d, e.egress, p.saddr);
        AnswersUnique(state, d.egress, a, p.daddr);
      }
    } else {
      StrangerUnserved(state, uplink, upstreams, c, r, t, p.saddr);
      InputWalk(c.plan, admitted, t, p, 0);
    }
  }

  lemma CompilesIsValid(state: DesiredState, uplink: string, upstreams: set<string>, c: Compiled)
    requires Compiles(state, uplink, upstreams, c)
    ensures ValidRevision(state)
  {
    hide ValidRevision, CompiledOf;
  }

  lemma StrangerUnserved(state: DesiredState, uplink: string, upstreams: set<string>, c: Compiled, r: Ruleset,
      t: Tables, client: Addr)
    requires Compiles(state, uplink, upstreams, c) && Installed(c.plan, r, t)
    requires forall d :: d in state.devices ==> !HasAddress(d, client)
    ensures !Serves(c.plan, c.plan.egresses, t, client) && ServedAt(c.plan, c.plan.egresses, t, client, 0)
      && !InSet(t, AdmittedSet, client)
  {
    hide Compiles, Installed, InSet, HasAddress, ServedBy;
    AdmittedSetMeans(state, uplink, upstreams, c, r, t, client);
    forall i | 0 <= i < |c.plan.egresses| ensures !InSet(t, DnsClientSet(c.plan.egresses[i].id), client) {
      DnsClientSetMeans(state, uplink, upstreams, c, r, t, c.plan.egresses[i].id, client);
    }
  }

  lemma NatWalk(plan: FirewallPlan, admitted: seq<Addr>, t: Tables, p: Packet, a: Addr)
    requires p.iif == plan.ingress && AsksDns(p)
    requires ServedAt(plan, plan.egresses, t, p.saddr, a) && Serves(plan, plan.egresses, t, p.saddr)
    ensures After(PreroutingNatRules(plan, admitted), t, p) == p.(daddr := a, dport := 53)
  {
    hide InSet, Walk, DnsRedirects, RedirectRules, AsksDns, ServedAt, Serves;
    var hub := if admitted != [] && plan.dnsAddress.Some?
      then RedirectRules(plan, AdmittedSet, plan.dnsAddress) else [];
    var quic := if plan.altUdp443
      then [Rule([IifIs(plan.uplink), DestPort(Udp, REALITY_PORT)], [Dnat(None, plan.listenPort)])] else [];
    WalkAppend(DnsRedirects(plan, plan.egresses) + hub, quic, t, p);
    WalkAppend(DnsRedirects(plan, plan.egresses), hub, t, p);
    DnsRedirectsWalk(plan, plan.egresses, t, p, a);
  }

  /** Wherever a device sends its queries, they are brought to the one resolver that answers its
  egress, and the input chain accepts them there. */
  lemma QueriesReachTheResolver(state: DesiredState, uplink: string, upstreams: set<string>, c: Compiled, r: Ruleset,
      t: Tables, h: Host, d: Device, p: Packet, a: Addr)
    requires Compiles(state, uplink, upstreams, c) && Installed(c.plan, r, t)
    requires d in state.devices && HasAddress(d, p.saddr) && p.iif == INGRESS && AsksDns(p)
    requires Answers(state, d.egress, a) && a in h.local
    ensures Path(c.plan, r, t, h, p) == Delivered(a, 53)
  {
    hide Compiles, Installed, InSet, InputRules, Filter, ServedBy, PortACLs, AddressBook, DnsDestinationsOf,
         AddressesParse, Answers, PreroutingNatRules, After, Routed, ServedAt, Serves, HasAddress;
    PlanFields(state, uplink, upstreams, c);
    var admitted := InstalledDns(c.plan, r, t);
    var b := DeviceServed(state, uplink, upstreams, c, r, t, d, p.saddr);
    AnswersUnique(state, d.egress, a, b);
    var marked := After(r.prerouting, t, p);
    MangleKeepsRoute(r.prerouting, t, p);
    InstalledMangle(c.plan, r, t);
    NatWalk(c.plan, admitted, t, marked, a);
    InputIsExact(state, uplink, upstreams, c, r, t, marked.(daddr := a, dport := 53));
  }

  lemma InstalledMangle(plan: FirewallPlan, r: Ruleset, t: Tables)
    requires Installed(plan, r, t)
    ensures OnlyMarks(r.prerouting)
  {
    hide SetsOf, ListsAdmitted, ForwardRules, InputRules, OutputMarkRules, OutputRules, PreroutingNatRules;
    var admitted := InstalledSets(plan, r, t);
  }

  ghost predicate OnlyMarks(rules: seq<Rule>) {
    forall i, k :: 0 <= i < |rules| && 0 <= k < |rules[i].actions| ==> !rules[i].actions[k].Dnat?
  }

  ghost predicate SameRoute(p: Packet, q: Packet) {
    q == p.(mark := q.mark, ctMark := q.ctMark)
  }

  lemma {:induction false} MarksKeepRoute(actions: seq<Action>, p: Packet)
    requires forall k :: 0 <= k < |actions| ==> !actions[k].Dnat?
    ensures SameRoute(p, Act(actions, p).packet)
  {
    if actions != [] {
      match actions[0]
      case SetMark(mark) => MarksKeepRoute(actions[1..], p.(mark := mark));
      case SaveMark => MarksKeepRoute(actions[1..], p.(ctMark := p.mark));
      case ClampMss => MarksKeepRoute(actions[1..], p);
      case _ =>
    }
  }

  /** Marking does not touch addresses, ports or interfaces. */
  lemma {:induction false} MangleKeepsRoute(rules: seq<Rule>, t: Tables, p: Packet)
    ensures OnlyMarks(rules) ==> SameRoute(p, After(rules, t, p))
  {
    hide Applies, Act;
    if rules != [] && OnlyMarks(rules) {
      assert OnlyMarks(rules[1..]) by { assert forall i :: 0 <= i < |rules[1..]| ==> rules[1..][i] == rules[i + 1]; }
      if !Applies(rules[0], t, p) {
        MangleKeepsRoute(rules[1..], t, p);
      } else {
        MarksKeepRoute(rules[0].actions, p);
        MangleKeepsRoute(rules[1..], t, Act(rules[0].actions, p).packet);
      }
    }
  }
}
