/** The kill switch: what the forward chain lets through, decided from devices, tunnels and
permissions alone.

Routing is the adversary: the outgoing interface is arbitrary.  The claims are about new packets
arriving from clients; established traffic is accepted first. */
module KillSwitch {
  import opened Netip
  import opened Ordering
  import opened Domain
  import opened Links
  import opened FirewallPlanner
  import opened Validation
  import opened Revision
  import opened EgressPlanner
  import opened DnsPlanner
  import opened Compiler
  import opened Nftables
  import opened Renderer
  import opened PlanFacts
  import opened PolicySets

  // ------------------------------------------------------------------
  // The policy
  // ------------------------------------------------------------------

  ghost predicate IsDevice(devices: seq<Device>, id: string, a: Addr) {
    exists d :: d in devices && d.id == id && HasAddress(d, a)
  }

  ghost predicate ACLPermits(state: DesiredState, rule: ClientACL, p: Packet) {
    && (if rule.source == ANY then state.hub.clientCidr.Some? && Contains(state.hub.clientCidr.value, p.saddr)
        else IsDevice(state.devices, rule.source, p.saddr))
    && IsDevice(state.devices, rule.target, p.daddr)
    && p.protocol == rule.protocol && p.dport == rule.port
  }

  /** A client ACL opens the way from this client to that one. */
  ghost predicate Crosses(state: DesiredState, p: Packet) {
    exists i :: 0 <= i < |state.acls| && ACLPermits(state, state.acls[i], p)
  }

  /** The packet leaves by the egress its sender chose. */
  ghost predicate ByEgress(state: DesiredState, uplink: string, p: Packet) {
    exists d :: d in state.devices && HasAddress(d, p.saddr) && p.oif == EgressDevice(d.egress, uplink)
  }

  /** The packet enters a private network that holds its destination and allows its sender. */
  ghost predicate ToNetwork(state: DesiredState, t: Tables, p: Packet) {
    exists s :: && s in state.tunnels && s.role == PrivateNetworkRole && p.oif == EgressInterface(s.id)
                && Permits(state.devices, s, p.saddr) && (Reaches(s, p.daddr) || Learned(t, s.id, p.daddr))
  }

  ghost predicate AtProxy(state: DesiredState, k: nat, p: Packet) {
    && k < |TunnelOrder(state.tunnels)|
    && p.oif == EgressInterface(TunnelOrder(state.tunnels)[k])
    && p.protocol == Tcp && p.dport == SOCKS_PORT_BASE + k
  }

  /** The packet addresses the SOCKS port of a tunnel that allows its sender. */
  ghost predicate ToProxy(state: DesiredState, p: Packet) {
    exists k: nat, s :: AtProxy(state, k, p) && s in state.tunnels && s.id == TunnelOrder(state.tunnels)[k]
      && Permits(state.devices, s, p.saddr)
  }

  ghost predicate MayLeave(state: DesiredState, uplink: string, t: Tables, p: Packet) {
    ByEgress(state, uplink, p) || ToNetwork(state, t, p) || ToProxy(state, p)
  }

  predicate DnsOverTls(p: Packet) { p.protocol == Tcp && p.dport == 853 }

  /** The policy for a new packet from a client. */
  ghost function ForwardPolicy(state: DesiredState, uplink: string, t: Tables, p: Packet): Verdict {
    if p.oif == INGRESS then (if Crosses(state, p) then Accepted else Dropped)
    else if DnsOverTls(p) then Rejected
    else if MayLeave(state, uplink, t, p) then Accepted
    else Dropped
  }

  // ------------------------------------------------------------------
  // Walking the chain
  // ------------------------------------------------------------------

  lemma HeadPasses(t: Tables, p: Packet)
    requires !p.established
    ensures Walk(FORWARD_HEAD, t, p) == Going(p)
  {
    var clamp, accept := Rule([OpensTcp], [ClampMss]), Rule([Established], [Accept]);
    assert FORWARD_HEAD == [clamp] + [accept];
    WalkAppend([clamp], [accept], t, p);
    WalkOne(clamp, t, p);
    WalkOne(accept, t, p);
    assert accept.matches[0] == Established;
    assert Act(clamp.actions, p) == Going(p) by {
      assert clamp.actions[1..] == [];
    }
  }

  lemma IngressWalk(plan: FirewallPlan, t: Tables, p: Packet)
    requires p.iif == plan.ingress
    ensures Walk(IngressRules(plan), t, p) ==
      if p.oif == plan.ingress then Stopped(Some(Dropped), p)
      else if DnsOverTls(p) then Stopped(Some(Rejected), p)
      else Going(p)
  {
    var stay := Rule([IifIs(plan.ingress), OifIs(plan.ingress)], [Drop]);
    var dot := Rule([IifIs(plan.ingress), DestPort(Tcp, 853)], [Reject]);
    assert IngressRules(plan) == [stay] + [dot];
    WalkAppend([stay], [dot], t, p);
    WalkOne(stay, t, p);
    WalkOne(dot, t, p);
    assert stay.matches[0] == IifIs(plan.ingress) && stay.matches[1] == OifIs(plan.ingress);
    assert dot.matches[0] == IifIs(plan.ingress) && dot.matches[1] == DestPort(Tcp, 853);
  }

  lemma ForwardWalk(plan: FirewallPlan, t: Tables, p: Packet)
    requires p.iif == plan.ingress && !p.established
    ensures Filter(ForwardRules(plan), Dropped, t, p) ==
      if SomeApplies(ACLRules(plan), t, p) then Accepted
      else if p.oif == plan.ingress then Dropped
      else if DnsOverTls(p) then Rejected
      else if SomeApplies(LeaveRules(plan), t, p) then Accepted
      else Dropped
  {
    hide Walk, SomeApplies, ACLRules, IngressRules, LeaveRules, Applies, DnsOverTls, AllGive;
    WalkAppend(FORWARD_HEAD + ACLRules(plan) + IngressRules(plan), LeaveRules(plan), t, p);
    WalkAppend(FORWARD_HEAD + ACLRules(plan), IngressRules(plan), t, p);
    WalkAppend(FORWARD_HEAD, ACLRules(plan), t, p);
    HeadPasses(t, p);
    ACLsAccept(plan);
    WalkUniform(ACLRules(plan), Accepted, t, p);
    IngressWalk(plan, t, p);
    LeaveAccepts(plan);
    WalkUniform(LeaveRules(plan), Accepted, t, p);
  }

  lemma ACLsAccept(plan: FirewallPlan)
    ensures AllGive(ACLRules(plan), Accepted)
  {
  }

  lemma AllGiveAppend(a: seq<Rule>, b: seq<Rule>, v: Verdict)
    requires AllGive(a, v) && AllGive(b, v)
    ensures AllGive(a + b, v)
  {
  }

  lemma {:induction false} ProxiesAccept(plan: FirewallPlan, groups: seq<EgressGroup>, networks: seq<InternalNetwork>)
    ensures AllGive(ProxiedGroupRules(plan, groups), Accepted) && AllGive(ProxiedNetworkRules(plan, networks), Accepted)
    decreases |groups| + |networks|
  {
    if groups != [] { ProxiesAccept(plan, groups[..|groups| - 1], networks); }
    if networks != [] { ProxiesAccept(plan, groups, networks[..|networks| - 1]); }
  }

  lemma LeaveAccepts(plan: FirewallPlan)
    ensures AllGive(LeaveRules(plan), Accepted)
  {
    ProxiesAccept(plan, plan.egresses, plan.internals);
    AllGiveAppend(NetworkRules(plan), GroupRules(plan), Accepted);
    AllGiveAppend(NetworkRules(plan) + GroupRules(plan), ProxiedGroupRules(plan, plan.egresses), Accepted);
    AllGiveAppend(NetworkRules(plan) + GroupRules(plan) + ProxiedGroupRules(plan, plan.egresses),
                  ProxiedNetworkRules(plan, plan.internals), Accepted);
    AllGiveAppend(NetworkRules(plan) + GroupRules(plan) + ProxiedGroupRules(plan, plan.egresses)
                  + ProxiedNetworkRules(plan, plan.internals), EndpointRules(plan), Accepted);
  }

  // ---- which rules apply ----

  lemma SomeAppliesAppend(a: seq<Rule>, b: seq<Rule>, t: Tables, p: Packet)
    ensures SomeApplies(a + b, t, p) <==> SomeApplies(a, t, p) || SomeApplies(b, t, p)
  {
    if SomeApplies(a, t, p) {
      var i :| 0 <= i < |a| && Applies(a[i], t, p);
      assert (a + b)[i] == a[i];
    }
    if SomeApplies(b, t, p) {
      var i :| 0 <= i < |b| && Applies(b[i], t, p);
      assert (a + b)[|a| + i] == b[i];
    }
  }

  lemma ACLRuleApplies(plan: FirewallPlan, acl: ClientPortACL, t: Tables, p: Packet)
    requires p.iif == plan.ingress
    ensures Applies(ACLRule(plan, acl), t, p) <==>
      && p.oif == plan.ingress
      && Holds(Block(if acl.source.None? then plan.clientCidr else HostText(acl.source)), t, p.saddr)
      && Holds(Block(HostText(acl.target)), t, p.daddr)
      && p.protocol == acl.protocol && p.dport == acl.port
  {
    var m := ACLRule(plan, acl).matches;
    assert m[0] == IifIs(plan.ingress) && m[1] == OifIs(plan.ingress);
    assert Matches(m[2], t, p) <==>
      Holds(Block(if acl.source.None? then plan.clientCidr else HostText(acl.source)), t, p.saddr);
    assert Matches(m[3], t, p) <==> Holds(Block(HostText(acl.target)), t, p.daddr);
    assert Matches(m[4], t, p) <==> p.protocol == acl.protocol && p.dport == acl.port;
  }

  lemma HostHolds(h: Option<Addr>, t: Tables, a: Addr)
    ensures Holds(Block(HostText(h)), t, a) <==> h == Some(a)
  {
    if h.Some? { HostContains(h.value, a); }
  }

  lemma NetworkRuleApplies(plan: FirewallPlan, n: InternalNetwork, t: Tables, p: Packet)
    requires p.iif == plan.ingress
    ensures Applies(NetworkRule(plan, n), t, p) <==>
      InSet(t, AllowedSet(n.tunnelId), p.saddr) && InSet(t, InternalSet(n.tunnelId), p.daddr) && p.oif == n.iface
  {
    hide InSet;
    var m := NetworkRule(plan, n).matches;
    assert m[0] == IifIs(plan.ingress) && m[3] == OifIs(n.iface);
    assert Matches(m[1], t, p) <==> InSet(t, AllowedSet(n.tunnelId), p.saddr);
    assert Matches(m[2], t, p) <==> InSet(t, InternalSet(n.tunnelId), p.daddr);
  }

  lemma GroupRuleApplies(plan: FirewallPlan, g: EgressGroup, t: Tables, p: Packet)
    requires p.iif == plan.ingress
    ensures Applies(GroupRule(plan, g), t, p) <==> InSet(t, ClientSet(g.id), p.saddr) && p.oif == g.iface
  {
    hide InSet;
    var m := GroupRule(plan, g).matches;
    assert m[0] == IifIs(plan.ingress) && m[2] == OifIs(g.iface);
    assert Matches(m[1], t, p) <==> InSet(t, ClientSet(g.id), p.saddr);
  }

  lemma EndpointRuleApplies(plan: FirewallPlan, e: SocksEndpoint, t: Tables, p: Packet)
    requires p.iif == plan.ingress
    ensures Applies(EndpointRule(plan, e), t, p) <==>
      InSet(t, AllowedSet(e.tunnelId), p.saddr) && p.oif == e.iface && p.protocol == Tcp && p.dport == e.port
  {
    hide InSet;
    var m := EndpointRule(plan, e).matches;
    assert m[0] == IifIs(plan.ingress) && m[2] == OifIs(e.iface) && m[3] == DestPort(Tcp, e.port);
    assert Matches(m[1], t, p) <==> InSet(t, AllowedSet(e.tunnelId), p.saddr);
  }

  lemma ProxyRuleApplies(plan: FirewallPlan, iface: string, t: Tables, p: Packet)
    ensures Applies(ProxyRule(plan, iface), t, p) ==> p.iif == iface
  {
    assert ProxyRule(plan, iface).matches[0] == IifIs(iface);
  }

  /** The holes a proxy's own connections pass through are not open to clients. */
  lemma {:induction false} ProxiesDoNotApply(plan: FirewallPlan, groups: seq<EgressGroup>,
      networks: seq<InternalNetwork>, t: Tables, p: Packet)
    requires forall g :: g in groups && g.proxied ==> g.iface != p.iif
    requires forall n :: n in networks ==> n.iface != p.iif
    ensures !SomeApplies(ProxiedGroupRules(plan, groups), t, p)
      && !SomeApplies(ProxiedNetworkRules(plan, networks), t, p)
    decreases |groups| + |networks|
  {
    hide Applies;
    if groups != [] {
      var last := groups[|groups| - 1];
      ProxiesDoNotApply(plan, groups[..|groups| - 1], networks, t, p);
      ProxyRuleApplies(plan, last.iface, t, p);
      SomeAppliesAppend(ProxiedGroupRules(plan, groups[..|groups| - 1]), if last.proxied
        then [ProxyRule(plan, last.iface)] else [], t, p);
    }
    if networks != [] {
      var last := networks[|networks| - 1];
      ProxiesDoNotApply(plan, groups, networks[..|networks| - 1], t, p);
      ProxyRuleApplies(plan, last.iface, t, p);
      SomeAppliesAppend(ProxiedNetworkRules(plan, networks[..|networks| - 1]), if last.proxied
        then [ProxyRule(plan, last.iface)] else [], t, p);
    }
  }

  // ------------------------------------------------------------------
  // The rules say the policy
  // ------------------------------------------------------------------

  lemma GroupRulesSay(state: DesiredState, uplink: string, upstreams: set<string>, c: Compiled, r: Ruleset, t: Tables,
      p: Packet)
    requires Compiles(state, uplink, upstreams, c) && Installed(c.plan, r, t) && p.iif == c.plan.ingress
    ensures SomeApplies(GroupRules(c.plan), t, p) <==> ByEgress(state, uplink, p)
  {
    hide Compiles, Installed, Applies, InSet, EgressGroups, InternalNetworks, HasLayout, ValidRevision, GroupRule,
         EndpointClients, Endpoints, AddressesParse;
    CompiledCarries(state, uplink, upstreams, c);
    var rules := GroupRules(c.plan);
    forall i | 0 <= i < |rules|
      ensures Applies(rules[i], t, p) <==>
        Chose(state.devices, c.plan.egresses[i].id, p.saddr)
        && p.oif == EgressDevice(c.plan.egresses[i].id, uplink)
    {
      GroupsFit(state, uplink, i);
      GroupRuleApplies(c.plan, c.plan.egresses[i], t, p);
      ClientSetMeans(state, uplink, upstreams, c, r, t, c.plan.egresses[i].id, p.saddr);
    }
    if ByEgress(state, uplink, p) {
      var d :| d in state.devices && HasAddress(d, p.saddr) && p.oif == EgressDevice(d.egress, uplink);
      var i := DeviceHasGroup(state, uplink, d);
      assert Applies(rules[i], t, p);
    }
  }

  lemma NetworkRulesSay(state: DesiredState, uplink: string, upstreams: set<string>, c: Compiled, r: Ruleset, t: Tables,
      p: Packet)
    requires Compiles(state, uplink, upstreams, c) && Installed(c.plan, r, t) && p.iif == c.plan.ingress
    ensures SomeApplies(NetworkRules(c.plan), t, p) <==> ToNetwork(state, t, p)
  {
    hide Compiles, Installed, Applies, InSet, EgressGroups, InternalNetworks, HasLayout, ValidRevision, NetworkRule,
         EndpointClients, Endpoints, AddressesParse, Reaches, Learned, Permits, PrivateOrder, EgressOrder, ClientsFit,
         NetworkRoutes;
    CompiledCarries(state, uplink, upstreams, c);
    NetworkCount(state);
    var rules, private_ := NetworkRules(c.plan), PrivateOrder(state.tunnels);
    forall i | 0 <= i < |rules|
      ensures private_[i] in state.tunnels && private_[i].role == PrivateNetworkRole
      ensures Applies(rules[i], t, p) <==>
        && p.oif == EgressInterface(private_[i].id) && Permits(state.devices, private_[i], p.saddr)
        && (Reaches(private_[i], p.daddr) || Learned(t, private_[i].id, p.daddr))
    {
      NetworkAt(state, i);
      NetworkRuleApplies(c.plan, c.plan.internals[i], t, p);
      AllowedSetMeans(state, uplink, upstreams, c, r, t, private_[i], p.saddr);
      InternalSetMeans(state, uplink, upstreams, c, r, t, private_[i], p.daddr);
    }
    if ToNetwork(state, t, p) {
      var s :| && s in state.tunnels && s.role == PrivateNetworkRole && p.oif == EgressInterface(s.id)
               && Permits(state.devices, s, p.saddr) && (Reaches(s, p.daddr) || Learned(t, s.id, p.daddr));
      var i := PrivateTunnelIndex(state, s);
      assert Applies(rules[i], t, p);
    }
  }

  lemma EndpointRuleSays(state: DesiredState, uplink: string, upstreams: set<string>, c: Compiled, r: Ruleset,
      t: Tables, p: Packet, k: nat, s: Tunnel)
    requires Compiles(state, uplink, upstreams, c) && Installed(c.plan, r, t) && p.iif == c.plan.ingress
    requires |c.plan.socks| == |c.specs| == |TunnelOrder(state.tunnels)| && k < |c.plan.socks|
    requires s in state.tunnels && s.id == TunnelOrder(state.tunnels)[k]
    ensures Applies(EndpointRules(c.plan)[k], t, p) <==> AtProxy(state, k, p) && Permits(state.devices, s, p.saddr)
  {
    hide Compiles, Installed, Applies, InSet, EndpointRule, EndpointClients, Permits, TunnelOrder;
    EndpointAt(state, uplink, upstreams, c, k);
    EndpointRuleApplies(c.plan, c.plan.socks[k], t, p);
    AllowedSetMeans(state, uplink, upstreams, c, r, t, s, p.saddr);
  }

  lemma OrderNamesTunnels(state: DesiredState, uplink: string, upstreams: set<string>, c: Compiled, k: nat)
    returns (s: Tunnel)
    requires Compiles(state, uplink, upstreams, c) && k < |c.specs|
    ensures |c.specs| == |TunnelOrder(state.tunnels)| && s in state.tunnels && s.id == TunnelOrder(state.tunnels)[k]
  {
    hide Compiles, TunnelOrder, ById, EgressGroups, InternalNetworks, EndpointClients, Endpoints, HasLayout,
         ValidRevision, AddressesParse;
    CompiledCarries(state, uplink, upstreams, c);
    LayoutAt(state.tunnels, c.specs, k);
    ByIdIsMember(state.tunnels, TunnelOrder(state.tunnels)[k]);
    s := ById(state.tunnels)[TunnelOrder(state.tunnels)[k]];
  }

  lemma EndpointRulesSay(state: DesiredState, uplink: string, upstreams: set<string>, c: Compiled, r: Ruleset,
      t: Tables, p: Packet)
    requires Compiles(state, uplink, upstreams, c) && Installed(c.plan, r, t) && p.iif == c.plan.ingress
    ensures SomeApplies(EndpointRules(c.plan), t, p) <==> ToProxy(state, p)
  {
    hide Compiles, Installed, Applies, TunnelOrder, Permits, EndpointRule, EgressInterface;
    EndpointCount(state, uplink, upstreams, c);
    if SomeApplies(EndpointRules(c.plan), t, p) {
      var k :| 0 <= k < |EndpointRules(c.plan)| && Applies(EndpointRules(c.plan)[k], t, p);
      var s := OrderNamesTunnels(state, uplink, upstreams, c, k);
      EndpointRuleSays(state, uplink, upstreams, c, r, t, p, k, s);
    }
    if ToProxy(state, p) {
      var k: nat, s :| AtProxy(state, k, p) && s in state.tunnels && s.id == TunnelOrder(state.tunnels)[k]
        && Permits(state.devices, s, p.saddr);
      EndpointRuleSays(state, uplink, upstreams, c, r, t, p, k, s);
    }
  }

  lemma InterfacesApart(id: string)
    ensures EgressInterface(id) != INGRESS
  {
    assert EgressInterface(id)[0] == 'v' && INGRESS[0] == 'a';
  }

  lemma ProxiesSay(state: DesiredState, uplink: string, upstreams: set<string>, c: Compiled, t: Tables, p: Packet)
    requires Compiles(state, uplink, upstreams, c) && p.iif == INGRESS
    ensures !SomeApplies(ProxiedGroupRules(c.plan, c.plan.egresses), t, p)
    ensures !SomeApplies(ProxiedNetworkRules(c.plan, c.plan.internals), t, p)
  {
    hide Compiles, Applies, EgressGroups, InternalNetworks, HasLayout, ValidRevision, EgressInterface, EndpointClients,
         Endpoints, AddressesParse, Chose, ClientsFit, PrivateOrder, EgressOrder, NetworkRoutes;
    CompiledCarries(state, uplink, upstreams, c);
    forall g | g in c.plan.egresses && g.proxied ensures g.iface != p.iif {
      var i :| 0 <= i < |c.plan.egresses| && c.plan.egresses[i] == g;
      GroupsFit(state, uplink, i);
      InterfacesApart(g.id);
    }
    forall n | n in c.plan.internals ensures n.iface != p.iif {
      var i :| 0 <= i < |c.plan.internals| && c.plan.internals[i] == n;
      NetworkCount(state);
      NetworkAt(state, i);
      InterfacesApart(n.tunnelId);
    }
    ProxiesDoNotApply(c.plan, c.plan.egresses, c.plan.internals, t, p);
  }

  lemma LeaveRulesSay(state: DesiredState, uplink: string, upstreams: set<string>, c: Compiled, r: Ruleset, t: Tables,
      p: Packet)
    requires Compiles(state, uplink, upstreams, c) && Installed(c.plan, r, t) && p.iif == INGRESS
      && c.plan.ingress == INGRESS
    ensures SomeApplies(LeaveRules(c.plan), t, p) <==> MayLeave(state, uplink, t, p)
  {
    hide Compiles, Installed, SomeApplies, NetworkRules, GroupRules, ProxiedGroupRules, ProxiedNetworkRules,
         EndpointRules, ByEgress, ToNetwork, ToProxy;
    var n, g := NetworkRules(c.plan), GroupRules(c.plan);
    var pg, pn := ProxiedGroupRules(c.plan, c.plan.egresses), ProxiedNetworkRules(c.plan, c.plan.internals);
    SomeAppliesAppend(n + g + pg + pn, EndpointRules(c.plan), t, p);
    SomeAppliesAppend(n + g + pg, pn, t, p);
    SomeAppliesAppend(n + g, pg, t, p);
    SomeAppliesAppend(n, g, t, p);
    NetworkRulesSay(state, uplink, upstreams, c, r, t, p);
    GroupRulesSay(state, uplink, upstreams, c, r, t, p);
    ProxiesSay(state, uplink, upstreams, c, t, p);
    EndpointRulesSay(state, uplink, upstreams, c, r, t, p);
  }

  // ---- client ACLs ----

  lemma PlanFields(state: DesiredState, uplink: string, upstreams: set<string>, c: Compiled)
    requires Compiles(state, uplink, upstreams, c)
    ensures c.plan.ingress == INGRESS && c.plan.uplink == uplink && uplink != ""
    ensures c.plan.clientCidr == state.hub.clientCidr && c.plan.dnsAddress == state.hub.dnsAddress
    ensures state.hub.clientCidr.Some? && state.hub.dnsAddress.Some?
    ensures c.plan.realityPort == if state.hub.realityEnabled then REALITY_PORT else 0
    ensures AddressesParse(state.devices)
    ensures c.plan.acls == PortACLs(state.acls, AddressBook(state.devices))
    ensures c.plan.dnsDestinations == DnsDestinationsOf(c.plan.egresses, state.hub.dnsAddress)
  {
    hide EgressGroups, InternalNetworks, DnsDestinationsOf, PortACLs, SpecsOf, DnsPlanOf, Endpoints, NetworkClients,
         GroupClients, ById, AddressBook, TunnelCount, PlacementsOf, ValidDevices, ValidRevisionTunnel, AddressesParse;
    assert ValidHub(state.hub);
  }

  lemma ACLSays(state: DesiredState, plan: FirewallPlan, i: nat, t: Tables, p: Packet)
    requires ValidRevision(state) && ACLsResolve(state) && AddressesParse(state.devices) && i < |state.acls|
    requires plan.ingress == INGRESS && plan.clientCidr == state.hub.clientCidr && p.iif == INGRESS
    ensures Applies(ACLRule(plan, PortACL(state.acls[i], AddressBook(state.devices))), t, p) <==>
      p.oif == INGRESS && ACLPermits(state, state.acls[i], p)
  {
    hide ValidRevision, AddressBook, Applies, DeviceIds, IsDevice;
    var rule, book := state.acls[i], AddressBook(state.devices);
    var acl := PortACL(rule, book);
    assert ValidACL(rule, DeviceIds(state.devices));
    ACLRuleApplies(plan, acl, t, p);
    ResolvesTo(state, rule.target, p.daddr);
    HostHolds(acl.target, t, p.daddr);
    if rule.source != ANY {
      ResolvesTo(state, rule.source, p.saddr);
      HostHolds(acl.source, t, p.saddr);
    }
  }

  lemma ResolvesTo(state: DesiredState, id: string, a: Addr)
    requires ValidRevision(state) && AddressesParse(state.devices) && id in DeviceIds(state.devices)
    ensures id in AddressBook(state.devices)
    ensures Resolve(AddressBook(state.devices), id) == Some(a) <==> IsDevice(state.devices, id, a)
  {
    hide AddressBook;
    ValidTunnelsAreDistinct(state);
    RevisionDevices(state);
    var d :| d in state.devices && d.id == id;
    BookHas(state.devices, d);
    assert HasAddress(d, d.address.value.addr);
  }

  lemma ACLRulesSay(state: DesiredState, uplink: string, upstreams: set<string>, c: Compiled, t: Tables, p: Packet)
    requires Compiles(state, uplink, upstreams, c) && ACLsResolve(state) && p.iif == INGRESS
    ensures SomeApplies(ACLRules(c.plan), t, p) <==> p.oif == INGRESS && Crosses(state, p)
  {
    hide CompiledOf, ValidRevision, ACLsResolve, Applies, AddressBook, ACLPermits, PortACLs, ACLRule, PortACL,
         DnsDestinationsOf, AddressesParse;
    PlanFields(state, uplink, upstreams, c);
    var book := AddressBook(state.devices);
    var rules := ACLRules(c.plan);
    if SomeApplies(rules, t, p) {
      var k :| 0 <= k < |rules| && Applies(rules[k], t, p);
      PortACLMembers(state.acls, book, c.plan.acls[k]);
      var i :| 0 <= i < |state.acls| && PortACL(state.acls[i], book) == c.plan.acls[k];
      ACLSays(state, c.plan, i, t, p);
    }
    if p.oif == INGRESS && Crosses(state, p) {
      var i :| 0 <= i < |state.acls| && ACLPermits(state, state.acls[i], p);
      PortACLMembers(state.acls, book, PortACL(state.acls[i], book));
      var k :| 0 <= k < |c.plan.acls| && c.plan.acls[k] == PortACL(state.acls[i], book);
      ACLSays(state, c.plan, i, t, p);
      assert Applies(rules[k], t, p);
    }
  }

  lemma ACLsStay(plan: FirewallPlan, t: Tables, p: Packet)
    requires p.iif == plan.ingress && p.oif != plan.ingress
    ensures !SomeApplies(ACLRules(plan), t, p)
  {
    hide Applies, ACLRule, Holds;
    forall i | 0 <= i < |plan.acls| ensures !Applies(ACLRules(plan)[i], t, p) {
      ACLRuleApplies(plan, plan.acls[i], t, p);
    }
  }

  // ------------------------------------------------------------------
  // The theorems
  // ------------------------------------------------------------------

  lemma InstalledForward(plan: FirewallPlan, r: Ruleset, t: Tables)
    requires Installed(plan, r, t)
    ensures r.forward == ForwardRules(plan)
  {
    hide ListsAdmitted, SetsOf, PreroutingRules, ForwardRules, InputRules, OutputMarkRules, OutputRules,
         PreroutingNatRules;
  }

  /** What may leave the hub does not depend on the client ACLs. */
  lemma LeavingIsPolicy(state: DesiredState, uplink: string, upstreams: set<string>, c: Compiled, r: Ruleset, t: Tables,
      p: Packet)
    requires Compiles(state, uplink, upstreams, c) && Installed(c.plan, r, t)
    requires p.iif == INGRESS && p.oif != INGRESS && !p.established
    ensures Filter(r.forward, Dropped, t, p) == ForwardPolicy(state, uplink, t, p)
  {
    hide Compiles, Installed, SomeApplies, ACLRules, LeaveRules, ForwardRules, MayLeave, PortACLs, AddressBook, Filter,
         DnsDestinationsOf, AddressesParse;
    PlanFields(state, uplink, upstreams, c);
    InstalledForward(c.plan, r, t);
    ForwardWalk(c.plan, t, p);
    ACLsStay(c.plan, t, p);
    LeaveRulesSay(state, uplink, upstreams, c, r, t, p);
  }

  /** The kill switch, exactly: the emitted forward chain gives every new packet from a client the
  verdict the policy gives it, whatever interface routing chose. */
  lemma KillSwitchIsExact(state: DesiredState, uplink: string, upstreams: set<string>, c: Compiled, r: Ruleset,
      t: Tables, p: Packet)
    requires Compiles(state, uplink, upstreams, c) && ACLsResolve(state) && Installed(c.plan, r, t)
    requires p.iif == INGRESS && !p.established
    ensures Filter(r.forward, Dropped, t, p) == ForwardPolicy(state, uplink, t, p)
  {
    hide Compiles, Installed, SomeApplies, ACLRules, LeaveRules, ForwardRules, MayLeave, Crosses, PortACLs, AddressBook,
         Filter, DnsDestinationsOf, AddressesParse, ACLsResolve;
    if p.oif != INGRESS {
      LeavingIsPolicy(state, uplink, upstreams, c, r, t, p);
    } else {
      PlanFields(state, uplink, upstreams, c);
      InstalledForward(c.plan, r, t);
      ForwardWalk(c.plan, t, p);
      ACLRulesSay(state, uplink, upstreams, c, t, p);
    }
  }

  /** The uplink is not one of the hub's own links. */
  predicate UplinkApart(uplink: string) { uplink != INGRESS && !("vh-" <= uplink) }

  lemma UplinkIsNoTunnel(uplink: string, id: string)
    requires UplinkApart(uplink)
    ensures uplink != EgressInterface(id)
  {
    assert EgressInterface(id)[..3] == "vh-";
  }

  /** Only a device whose egress is `direct` ever leaves by the uplink. */
  lemma OnlyDirectLeavesByUplink(state: DesiredState, uplink: string, upstreams: set<string>, c: Compiled, r: Ruleset,
      t: Tables, p: Packet)
    requires Compiles(state, uplink, upstreams, c) && Installed(c.plan, r, t) && UplinkApart(uplink)
    requires p.iif == INGRESS && p.oif == uplink && !p.established
    ensures Filter(r.forward, Dropped, t, p) == Accepted <==> !DnsOverTls(p) && Chose(state.devices, DIRECT, p.saddr)
  {
    hide Compiles, Installed, Filter, EgressInterface, Permits, Reaches, Learned, TunnelOrder, UplinkApart;
    UplinkIsNoTunnel(uplink, "");
    assert uplink != INGRESS by { UplinkIsNotIngress(uplink); }
    LeavingIsPolicy(state, uplink, upstreams, c, r, t, p);
    forall id ensures uplink != EgressInterface(id) { UplinkIsNoTunnel(uplink, id); }
  }

  lemma UplinkIsNotIngress(uplink: string)
    requires UplinkApart(uplink)
    ensures uplink != INGRESS
  {
  }
}
