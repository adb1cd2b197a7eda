/** What the table does to everything that is not a client's own traffic: the tunnels' processes dialling
their providers, packets for the hub itself, packets from the uplink, and established connections. */
module HubTraffic {
  import opened Netip
  import opened Ordering
  import opened Domain
  import opened Links
  import opened FirewallPlanner
  import opened Validation
  import opened Revision
  import opened EgressPlanner
  import opened DnsPlanner
  import opened Compiler
  import opened Nftables
  import opened Renderer
  import opened PlanFacts
  import opened PolicySets
  import opened KillSwitch
  import opened PolicyRouting
  import opened Steering
  import opened DnsAgreement
  import opened Fallback
  import opened OwnTraffic

  // ------------------------------------------------------------------
  // The forward chain, for every packet
  // ------------------------------------------------------------------

  /** A tunnel whose process runs in its namespace, as sing-box and OpenVPN do, dials out by the uplink. */
  ghost predicate DialsOut(state: DesiredState, uplink: string, p: Packet) {
    p.oif == uplink
    && exists s :: s in state.tunnels && (s.kind == Xray || s.kind == OpenVPN) && p.iif == EgressInterface(s.id)
  }

  /** The policy for any packet that is forwarded. */
  ghost function ForwardVerdict(state: DesiredState, uplink: string, t: Tables, p: Packet): Verdict {
    if p.established then Accepted
    else if p.iif == INGRESS then ForwardPolicy(state, uplink, t, p)
    else if DialsOut(state, uplink, p) then Accepted
    else Dropped
  }

  lemma ProxyRuleIs(plan: FirewallPlan, iface: string, t: Tables, p: Packet)
    ensures Applies(ProxyRule(plan, iface), t, p) <==> p.iif == iface && p.oif == plan.uplink
  {
    var m := ProxyRule(plan, iface).matches;
    assert m[0] == IifIs(iface) && m[1] == OifIs(plan.uplink);
  }

  lemma {:induction false} ProxiedGroupsApply(plan: FirewallPlan, groups: seq<EgressGroup>, t: Tables, p: Packet)
    ensures SomeApplies(ProxiedGroupRules(plan, groups), t, p) <==>
      p.oif == plan.uplink && exists i :: 0 <= i < |groups| && groups[i].proxied && groups[i].iface == p.iif
  {
    hide Applies;
    if groups != [] {
      var front, last := groups[..|groups| - 1], groups[|groups| - 1];
      ProxiedGroupsApply(plan, front, t, p);
      ProxyRuleIs(plan, last.iface, t, p);
      var one := if last.proxied then [ProxyRule(plan, last.iface)] else [];
      SomeAppliesAppend(ProxiedGroupRules(plan, front), one, t, p);
      assert forall i :: 0 <= i < |front| ==> front[i] == groups[i];
      if last.proxied { assert SomeApplies(one, t, p) <==> Applies(one[0], t, p); }
    }
  }

  lemma {:induction false} ProxiedNetworksApply(plan: FirewallPlan, networks: seq<InternalNetwork>, t: Tables,
      p: Packet)
    ensures SomeApplies(ProxiedNetworkRules(plan, networks), t, p) <==>
      p.oif == plan.uplink && exists i :: 0 <= i < |networks| && networks[i].proxied && networks[i].iface == p.iif
  {
    hide Applies;
    if networks != [] {
      var front, last := networks[..|networks| - 1], networks[|networks| - 1];
      ProxiedNetworksApply(plan, front, t, p);
      ProxyRuleIs(plan, last.iface, t, p);
      var one := if last.proxied then [ProxyRule(plan, last.iface)] else [];
      SomeAppliesAppend(ProxiedNetworkRules(plan, front), one, t, p);
      assert forall i :: 0 <= i < |front| ==> front[i] == networks[i];
      if last.proxied { assert SomeApplies(one, t, p) <==> Applies(one[0], t, p); }
    }
  }

  ghost predicate FromIngress(plan: FirewallPlan, rules: seq<Rule>) {
    forall i :: 0 <= i < |rules| ==> |rules[i].matches| > 0 && rules[i].matches[0] == IifIs(plan.ingress)
  }

  /** Rules about clients do not touch other packets. */
  lemma ClientRulesPass(plan: FirewallPlan, rules: seq<Rule>, t: Tables, p: Packet)
    requires FromIngress(plan, rules) && p.iif != plan.ingress
    ensures !SomeApplies(rules, t, p)
  {
    forall i | 0 <= i < |rules| ensures !Applies(rules[i], t, p) {
      assert !Matches(rules[i].matches[0], t, p);
    }
  }

  lemma {:induction false} NoneApplies(rules: seq<Rule>, t: Tables, p: Packet)
    requires !SomeApplies(rules, t, p)
    ensures Walk(rules, t, p) == Going(p)
  {
    hide Applies;
    if rules != [] {
      assert forall i :: 0 <= i < |rules[1..]| ==> rules[1..][i] == rules[i + 1];
      NoneApplies(rules[1..], t, p);
    }
  }

  lemma LeaveForOthers(plan: FirewallPlan, t: Tables, p: Packet)
    requires p.iif != plan.ingress
    ensures SomeApplies(LeaveRules(plan), t, p) <==>
      SomeApplies(ProxiedGroupRules(plan, plan.egresses), t, p)
      || SomeApplies(ProxiedNetworkRules(plan, plan.internals), t, p)
  {
    hide SomeApplies, ProxiedGroupRules, ProxiedNetworkRules;
    var n, g, e := NetworkRules(plan), GroupRules(plan), EndpointRules(plan);
    var pg, pn := ProxiedGroupRules(plan, plan.egresses), ProxiedNetworkRules(plan, plan.internals);
    SomeAppliesAppend(n + g + pg + pn, e, t, p);
    SomeAppliesAppend(n + g + pg, pn, t, p);
    SomeAppliesAppend(n + g, pg, t, p);
    SomeAppliesAppend(n, g, t, p);
    ClientRulesPass(plan, n, t, p);
    ClientRulesPass(plan, g, t, p);
    ClientRulesPass(plan, e, t, p);
  }

  lemma OthersWalk(plan: FirewallPlan, t: Tables, p: Packet)
    requires p.iif != plan.ingress && !p.established
    ensures Filter(ForwardRules(plan), Dropped, t, p) ==
      if SomeApplies(LeaveRules(plan), t, p) then Accepted else Dropped
  {
    hide Walk, SomeApplies, LeaveRules, AllGive, Applies;
    WalkAppend(FORWARD_HEAD + ACLRules(plan) + IngressRules(plan), LeaveRules(plan), t, p);
    WalkAppend(FORWARD_HEAD + ACLRules(plan), IngressRules(plan), t, p);
    WalkAppend(FORWARD_HEAD, ACLRules(plan), t, p);
    HeadPasses(t, p);
    ClientRulesPass(plan, ACLRules(plan), t, p);
    NoneApplies(ACLRules(plan), t, p);
    ClientRulesPass(plan, IngressRules(plan), t, p);
    NoneApplies(IngressRules(plan), t, p);
    LeaveAccepts(plan);
    WalkUniform(LeaveRules(plan), Accepted, t, p);
  }

  /** What conntrack has let in stays in. */
  lemma EstablishedPasses(plan: FirewallPlan, t: Tables, p: Packet)
    requires p.established
    ensures Filter(ForwardRules(plan), Dropped, t, p) == Accepted
  {
    hide ACLRules, IngressRules, LeaveRules;
    var clamp, accept := Rule([OpensTcp], [ClampMss]), Rule([Match.Established], [Accept]);
    assert FORWARD_HEAD == [clamp] + [accept];
    assert ForwardRules(plan) == [clamp] + ([accept] + (ACLRules(plan) + IngressRules(plan) + LeaveRules(plan)));
    WalkAppend([clamp], [accept] + (ACLRules(plan) + IngressRules(plan) + LeaveRules(plan)), t, p);
    WalkOne(clamp, t, p);
    assert Act(clamp.actions, p) == Going(p) by { assert clamp.actions[1..] == []; }
    WalkAppend([accept], ACLRules(plan) + IngressRules(plan) + LeaveRules(plan), t, p);
    WalkOne(accept, t, p);
    assert accept.matches[0] == Match.Established;
  }

  lemma {:induction false} ProxiedHas(tunnels: seq<Tunnel>, s: Tunnel)
    requires DistinctTunnelIds(tunnels) && s in tunnels
    ensures Flag(Proxied(tunnels), s.id) <==> RunsInNamespace(s)
  {
    TunnelIdsPrefix(tunnels);
    if s != tunnels[|tunnels| - 1] { ProxiedHas(tunnels[..|tunnels| - 1], s); }
  }

  lemma NetworkProxied(state: DesiredState, i: nat)
    requires ValidRevision(state) && AddressesParse(state.devices) && i < |PrivateOrder(state.tunnels)|
    ensures |InternalNetworks(state)| == |PrivateOrder(state.tunnels)|
    ensures InternalNetworks(state)[i].proxied <==> RunsInNamespace(PrivateOrder(state.tunnels)[i])
    ensures InternalNetworks(state)[i].iface == EgressInterface(PrivateOrder(state.tunnels)[i].id)
    ensures PrivateOrder(state.tunnels)[i] in state.tunnels
  {
    hide ValidRevision, Permitted, Proxied, PrivateOrder, EgressOrder, AddressesParse, U32, NetworkRoutes,
         NetworkZones, Flag, EgressInterface, RunsInNamespace;
    NetworksShape(state);
    PrivateMember(state, i);
    ValidTunnelsAreDistinct(state);
    ProxiedHas(state.tunnels, PrivateOrder(state.tunnels)[i]);
  }

  /** The groups' openings are those of the egresses that run in their namespaces. */
  lemma GroupOpenings(state: DesiredState, uplink: string, iface: string)
    requires ValidRevision(state) && AddressesParse(state.devices)
    ensures (exists i :: 0 <= i < |EgressGroups(state, uplink)| && EgressGroups(state, uplink)[i].proxied
                         && EgressGroups(state, uplink)[i].iface == iface) <==>
      exists s :: s in state.tunnels && s.role == EgressRole && RunsInNamespace(s) && iface == EgressInterface(s.id)
  {
    hide ValidRevision, Permitted, Proxied, EgressOrder, AddressesParse, U32, Flag, EgressInterface, RunsInNamespace,
         EgressGroups, DirectGroups, AddressesOf;
    ValidTunnelsAreDistinct(state);
    GroupsShape(state, uplink);
    var groups, direct := EgressGroups(state, uplink), |DirectGroups(state, uplink)|;
    if i :| 0 <= i < |groups| && groups[i].proxied && groups[i].iface == iface {
      if i < direct {
        DirectGroupAt(state, uplink, i);
      } else {
        TunnelGroupAt(state, uplink, i - direct);
        var s :| s in state.tunnels && s.role == EgressRole && s.id == EgressOrder(state.tunnels)[i - direct];
        ProxiedHas(state.tunnels, s);
      }
    }
    if s :| s in state.tunnels && s.role == EgressRole && RunsInNamespace(s) && iface == EgressInterface(s.id) {
      var i, k := TunnelGroupIndex(state, uplink, s);
      ProxiedHas(state.tunnels, s);
      assert groups[i].proxied && groups[i].iface == iface;
    }
  }

  lemma NetworkOpenings(state: DesiredState, iface: string)
    requires ValidRevision(state) && AddressesParse(state.devices)
    ensures (exists i :: 0 <= i < |InternalNetworks(state)| && InternalNetworks(state)[i].proxied
                         && InternalNetworks(state)[i].iface == iface) <==>
      exists s :: && s in state.tunnels && s.role == PrivateNetworkRole && RunsInNamespace(s)
                  && iface == EgressInterface(s.id)
  {
    hide ValidRevision, PrivateOrder, AddressesParse, EgressInterface, RunsInNamespace, InternalNetworks;
    NetworkCount(state);
    var networks := InternalNetworks(state);
    if i :| 0 <= i < |networks| && networks[i].proxied && networks[i].iface == iface {
      NetworkProxied(state, i);
      PrivateMember(state, i);
    }
    if s :| s in state.tunnels && s.role == PrivateNetworkRole && RunsInNamespace(s) && iface == EgressInterface(s.id) {
      var i := PrivateTunnelIndex(state, s);
      NetworkProxied(state, i);
      assert networks[i].proxied && networks[i].iface == iface;
    }
  }

  lemma RolesKnown(state: DesiredState, s: Tunnel)
    requires ValidRevision(state) && s in state.tunnels
    ensures s.role == EgressRole || s.role == PrivateNetworkRole
  {
    ValidTunnelsAreDistinct(state);
    assert ValidRevisionTunnel(s);
  }

  /** Of what does not come from a client, the forward chain lets out the tunnels' own processes, by the
  uplink, and nothing else. */
  lemma OnlyProxiesDialOut(state: DesiredState, uplink: string, upstreams: set<string>, c: Compiled, r: Ruleset,
      t: Tables, p: Packet)
    requires Compiles(state, uplink, upstreams, c) && Installed(c.plan, r, t) && p.iif != INGRESS && !p.established
    ensures Filter(r.forward, Dropped, t, p) == if DialsOut(state, uplink, p) then Accepted else Dropped
  {
    hide Compiles, Installed, SomeApplies, LeaveRules, ForwardRules, Filter, PortACLs, AddressBook, DnsDestinationsOf,
         EgressGroups, InternalNetworks, ValidRevision, HasLayout, EndpointClients, Endpoints, AddressesParse,
         ProxiedGroupRules, ProxiedNetworkRules, EgressInterface;
    CompiledCarries(state, uplink, upstreams, c);
    PlanFields(state, uplink, upstreams, c);
    InstalledForward(c.plan, r, t);
    OthersWalk(c.plan, t, p);
    LeaveForOthers(c.plan, t, p);
    ProxiedGroupsApply(c.plan, c.plan.egresses, t, p);
    ProxiedNetworksApply(c.plan, c.plan.internals, t, p);
    GroupOpenings(state, uplink, p.iif);
    NetworkOpenings(state, p.iif);
    forall s | s in state.tunnels ensures s.role == EgressRole || s.role == PrivateNetworkRole { RolesKnown(state, s); }
  }

  /** The forward chain, for every packet there is. */
  lemma ForwardIsExact(state: DesiredState, uplink: string, upstreams: set<string>, c: Compiled, r: Ruleset, t: Tables,
      p: Packet)
    requires Compiles(state, uplink, upstreams, c) && ACLsResolve(state) && Installed(c.plan, r, t)
    ensures Filter(r.forward, Dropped, t, p) == ForwardVerdict(state, uplink, t, p)
  {
    hide Compiles, Installed, Filter, ForwardPolicy, DialsOut, ACLsResolve;
    if p.established {
      InstalledForward(c.plan, r, t);
      EstablishedPasses(c.plan, t, p);
    } else if p.iif == INGRESS {
      KillSwitchIsExact(state, uplink, upstreams, c, r, t, p);
    } else {
      OnlyProxiesDialOut(state, uplink, upstreams, c, r, t, p);
    }
  }

  // ------------------------------------------------------------------
  // The input chain, for every packet
  // ------------------------------------------------------------------

  /** What the hub serves to anyone who can reach it. */
  predicate Serviced(hub: Hub, p: Packet) {
    || p.protocol == Icmp
    || (p.protocol == Tcp && p.dport == MANAGEMENT_PORT)
    || (p.protocol == Udp && hub.endpointPort == Some(p.dport))
    || (p.protocol == Tcp && p.dport == REALITY_PORT && hub.realityEnabled)
  }

  /** The policy for any packet addressed to the hub. */
  ghost predicate Welcome(state: DesiredState, p: Packet) {
    if p.iif == INGRESS && AsksDns(p) then
      exists d :: d in state.devices && HasAddress(d, p.saddr) && Answers(state, d.egress, p.daddr)
    else
      || p.established
      || (if p.iif == LOOPBACK then
            p.mark == 0 || (state.devices != [] && state.hub.dnsAddress == Some(p.daddr) && AsksDns(p))
          else Serviced(state.hub, p))
  }

  const DNS_REFUSALS: seq<Rule> :=
    [Rule([IifIs(INGRESS), DestPort(Udp, 53)], [Drop]), Rule([IifIs(INGRESS), DestPort(Tcp, 53)], [Drop])]
  const KEEP := Rule([Match.Established], [Accept])

  function Services(plan: FirewallPlan): seq<Rule> {
    [Rule([IifIs(LOOPBACK)], [Accept]), Rule([ProtocolIs(Icmp)], [Accept]),
     Rule([DestPort(Tcp, plan.managementPort)], [Accept]), Rule([DestPort(Udp, plan.listenPort)], [Accept])]
    + (if plan.realityPort != 0 then [Rule([DestPort(Tcp, plan.realityPort)], [Accept])] else [])
  }

  lemma ServicesSay(plan: FirewallPlan, t: Tables, p: Packet)
    ensures AllGive(Services(plan), Accepted)
    ensures SomeApplies(Services(plan), t, p) <==>
      || p.iif == LOOPBACK || p.protocol == Icmp || (p.protocol == Tcp && p.dport == plan.managementPort)
      || (p.protocol == Udp && p.dport == plan.listenPort)
      || (plan.realityPort != 0 && p.protocol == Tcp && p.dport == plan.realityPort)
  {
    hide Applies;
    var s := Services(plan);
    OneMatch(s[0], t, p);
    OneMatch(s[1], t, p);
    OneMatch(s[2], t, p);
    OneMatch(s[3], t, p);
    if plan.realityPort != 0 { OneMatch(s[4], t, p); }
    assert forall i :: 0 <= i < |s| && Applies(s[i], t, p) ==> SomeApplies(s, t, p);
  }

  lemma OneMatch(rule: Rule, t: Tables, p: Packet)
    requires |rule.matches| == 1
    ensures Applies(rule, t, p) <==> Matches(rule.matches[0], t, p)
  {
  }

  lemma ServiceRulesAre(plan: FirewallPlan, admitted: seq<Addr>)
    requires plan.ingress == INGRESS
    ensures ServiceRules(plan, admitted) ==
      DNS_REFUSALS + [KEEP] + LoopbackDns(plan, admitted) + [Rule([IifIs(LOOPBACK), MARKED], [Drop])] + Services(plan)
  {
  }

  lemma LoopbackDnsPasses(plan: FirewallPlan, admitted: seq<Addr>, t: Tables, p: Packet)
    requires p.iif != LOOPBACK || p.mark == 0
    ensures Walk(LoopbackDns(plan, admitted), t, p) == Going(p)
  {
    hide Walk;
    var rules := LoopbackDns(plan, admitted);
    NoRules(t, p);
    if rules != [] {
      PairWalk(rules[0], rules[1], t, p);
      assert rules[0].matches[0] == IifIs(LOOPBACK) && rules[0].matches[1] == MARKED;
      assert rules[1].matches[0] == IifIs(LOOPBACK) && rules[1].matches[1] == MARKED;
    }
  }

  lemma RefusalsPass(t: Tables, p: Packet)
    requires p.iif != INGRESS || !AsksDns(p)
    ensures Walk(DNS_REFUSALS, t, p) == Going(p)
  {
    hide Walk;
    PairWalk(DNS_REFUSALS[0], DNS_REFUSALS[1], t, p);
    assert DNS_REFUSALS[0].matches[0] == IifIs(INGRESS) && DNS_REFUSALS[0].matches[1] == DestPort(Udp, 53);
    assert DNS_REFUSALS[1].matches[0] == IifIs(INGRESS) && DNS_REFUSALS[1].matches[1] == DestPort(Tcp, 53);
  }

  /** The hub's services, for what is neither a client's query nor a marked packet over loopback. */
  lemma ServicesWalk(plan: FirewallPlan, admitted: seq<Addr>, t: Tables, p: Packet)
    requires plan.ingress == INGRESS && (p.iif != INGRESS || !AsksDns(p))
    requires p.established || p.iif != LOOPBACK || p.mark == 0
    ensures Filter(ServiceRules(plan, admitted), Dropped, t, p) ==
      if p.established || SomeApplies(Services(plan), t, p) then Accepted else Dropped
  {
    hide Walk, LoopbackDns, AsksDns, Services, SomeApplies, AllGive;
    var refuse := Rule([IifIs(LOOPBACK), MARKED], [Drop]);
    var tail := LoopbackDns(plan, admitted) + [refuse] + Services(plan);
    ServiceRulesAre(plan, admitted);
    assert ServiceRules(plan, admitted) == DNS_REFUSALS + [KEEP] + tail;
    WalkAppend(DNS_REFUSALS + [KEEP], tail, t, p);
    WalkAppend(DNS_REFUSALS, [KEEP], t, p);
    RefusalsPass(t, p);
    WalkOne(KEEP, t, p);
    assert KEEP.matches[0] == Match.Established;
    if !p.established {
      WalkAppend(LoopbackDns(plan, admitted) + [refuse], Services(plan), t, p);
      WalkAppend(LoopbackDns(plan, admitted), [refuse], t, p);
      LoopbackDnsPasses(plan, admitted, t, p);
      WalkOne(refuse, t, p);
      assert refuse.matches[0] == IifIs(LOOPBACK) && refuse.matches[1] == MARKED;
      ServicesSay(plan, t, p);
      WalkUniform(Services(plan), Accepted, t, p);
    }
  }

  lemma {:induction false} DnsRulesPass(plan: FirewallPlan, groups: seq<EgressGroup>, t: Tables, p: Packet)
    requires p.iif != plan.ingress || !AsksDns(p)
    ensures Walk(DnsInputRules(plan, groups), t, p) == Going(p)
  {
    hide Applies, ServedBy, Walk, ResolveRules, RefuseRules, AsksDns;
    if groups == [] {
      NoRules(t, p);
    } else {
      var front, last := groups[..|groups| - 1], groups[|groups| - 1];
      DnsRulesPass(plan, front, t, p);
      var served := ServedBy(plan, last);
      if served.Some? {
        var ref := DnsClientSet(last.id);
        WalkAppend(DnsInputRules(plan, front), ResolveRules(plan, ref, served.value.resolver)
          + RefuseRules(plan, ref), t, p);
        WalkAppend(ResolveRules(plan, ref, served.value.resolver), RefuseRules(plan, ref), t, p);
        PairsPass(plan, ref, served.value.resolver, t, p);
      } else {
        assert DnsInputRules(plan, front) + [] == DnsInputRules(plan, front);
      }
    }
  }

  lemma PairsPass(plan: FirewallPlan, ref: SetRef, resolver: Option<Addr>, t: Tables, p: Packet)
    requires p.iif != plan.ingress || !AsksDns(p)
    ensures Walk(ResolveRules(plan, ref, resolver), t, p) == Going(p) && Walk(RefuseRules(plan, ref), t, p) == Going(p)
  {
    hide Walk;
    var a, b := ResolveRules(plan, ref, resolver), RefuseRules(plan, ref);
    PairWalk(a[0], a[1], t, p);
    PairWalk(b[0], b[1], t, p);
    assert a[0].matches[0] == IifIs(plan.ingress) && a[1].matches[0] == IifIs(plan.ingress);
    assert a[0].matches[3] == DestPort(Udp, 53) && a[1].matches[3] == DestPort(Tcp, 53);
    assert b[0].matches[0] == IifIs(plan.ingress) && b[1].matches[0] == IifIs(plan.ingress);
    assert b[0].matches[2] == DestPort(Udp, 53) && b[1].matches[2] == DestPort(Tcp, 53);
  }

  lemma ListenPortIs(state: DesiredState, uplink: string, upstreams: set<string>, c: Compiled)
    requires Compiles(state, uplink, upstreams, c)
    ensures state.hub.endpointPort == Some(c.plan.listenPort) && c.plan.managementPort == MANAGEMENT_PORT
    ensures c.plan.altUdp443 == state.hub.udp443
  {
    hide EgressGroups, InternalNetworks, DnsDestinationsOf, PortACLs, SpecsOf, DnsPlanOf, Endpoints, NetworkClients,
         GroupClients, ById, AddressBook, TunnelCount, PlacementsOf, ValidRevision, AddressesParse;
  }

  lemma ServiceVerdict(state: DesiredState, uplink: string, upstreams: set<string>, c: Compiled, r: Ruleset, t: Tables,
      p: Packet)
    requires Compiles(state, uplink, upstreams, c) && Installed(c.plan, r, t)
    requires (p.iif != INGRESS || !AsksDns(p)) && (p.established || p.iif != LOOPBACK || p.mark == 0)
    ensures Filter(r.input, Dropped, t, p) == Accepted <==>
      p.established || p.iif == LOOPBACK || Serviced(state.hub, p)
  {
    hide Compiles, Installed, PortACLs, AddressBook, DnsDestinationsOf, AddressesParse, ListsAdmitted, RendersWith,
         Walk, ServiceRules, DnsInputRules, ResolveRules, AsksDns, SetsOf, InputRules, Services, SomeApplies;
    PlanFields(state, uplink, upstreams, c);
    ListenPortIs(state, uplink, upstreams, c);
    var admitted := InstalledSets(c.plan, r, t);
    InputParts(c.plan, r, t, admitted);
    WalkAppend(DnsInputRules(c.plan, c.plan.egresses) + HubDnsRules(c.plan, admitted),
      ServiceRules(c.plan, admitted), t, p);
    WalkAppend(DnsInputRules(c.plan, c.plan.egresses), HubDnsRules(c.plan, admitted), t, p);
    DnsRulesPass(c.plan, c.plan.egresses, t, p);
    NoRules(t, p);
    PairsPass(c.plan, AdmittedSet, c.plan.dnsAddress, t, p);
    ServicesWalk(c.plan, admitted, t, p);
    ServicesSay(c.plan, t, p);
  }

  /** The input chain, for every packet there is. */
  lemma InputIsPolicy(state: DesiredState, uplink: string, upstreams: set<string>, c: Compiled, r: Ruleset, t: Tables,
      p: Packet)
    requires Compiles(state, uplink, upstreams, c) && Installed(c.plan, r, t)
    ensures Filter(r.input, Dropped, t, p) == Accepted <==> Welcome(state, p)
  {
    hide Compiles, Installed, Filter, AsksDns, HasAddress, Answers, Serviced;
    if p.iif == INGRESS && AsksDns(p) {
      InputIsExact(state, uplink, upstreams, c, r, t, p);
    } else if p.iif == LOOPBACK && p.mark != 0 && !p.established {
      FallbackReachesOnlyTheResolver(state, uplink, upstreams, c, r, t, p);
    } else {
      ServiceVerdict(state, uplink, upstreams, c, r, t, p);
    }
  }

  // ------------------------------------------------------------------
  // Marking and translation, for every packet
  // ------------------------------------------------------------------

  /** The mangle chain: a client's packet takes the first private network holding its destination; what
  stays between clients is left alone; anything else takes its sender's egress. */
  lemma MangleIs(plan: FirewallPlan, t: Tables, p: Packet, mark: Mark)
    requires plan.clientCidr.Some? && MarksAgree(plan.egresses, t, p.saddr, mark)
    ensures FirstHolding(plan.internals, t, p.daddr).Some? ==>
      FirstHolding(plan.internals, t, p.daddr).value < |plan.internals|
    ensures After(PreroutingRules(plan), t, p) ==
      if p.iif != plan.ingress then p
      else if FirstHolding(plan.internals, t, p.daddr).Some? then
        Steering.Marked(p, plan.internals[FirstHolding(plan.internals, t, p.daddr).value].mark)
      else if Contains(plan.clientCidr.value, p.daddr) then p
      else Steering.Marked(p, if Member(plan.egresses, t, p.saddr) then mark else p.mark)
  {
    hide Walk, NetworkMarkRules, GroupMarkRules, FirstHolding, Member, MarksAgree, Contains;
    var foreign, stay := Rule([IifIsNot(plan.ingress)], [Accept]),
      Rule([Destination(Block(plan.clientCidr))], [Return]);
    var n, g := NetworkMarkRules(plan.internals), GroupMarkRules(plan.egresses);
    WalkAppend([foreign] + n + [stay] + g, [SAVE_MARK], t, p);
    WalkAppend([foreign] + n + [stay], g, t, p);
    WalkAppend([foreign] + n, [stay], t, p);
    WalkAppend([foreign], n, t, p);
    WalkOne(foreign, t, p);
    assert foreign.matches[0] == IifIsNot(plan.ingress) && stay.matches[0] == Destination(Block(plan.clientCidr));
    NetworkMarks(plan.internals, t, p);
    WalkOne(stay, t, p);
    assert Applies(stay, t, p) <==> Contains(plan.clientCidr.value, p.daddr);
    GroupMarks(plan.egresses, t, p, mark);
    SaveMarkWalk(t, if Member(plan.egresses, t, p.saddr) then p.(mark := mark) else p);
  }

  /** What does not come from clients is not marked, so that routing treats it as its own table says. */
  lemma OthersAreNotMarked(state: DesiredState, uplink: string, upstreams: set<string>, c: Compiled, r: Ruleset,
      t: Tables, p: Packet)
    requires Compiles(state, uplink, upstreams, c) && Installed(c.plan, r, t) && p.iif != INGRESS
    ensures After(r.prerouting, t, p) == p
  {
    hide Compiles, Installed, PreroutingRules, PortACLs, AddressBook, DnsDestinationsOf, AddressesParse;
    PlanFields(state, uplink, upstreams, c);
    var admitted := RenderedChains(c.plan, r, t);
    ForeignMangle(c.plan, t, p);
  }

  lemma ForeignMangle(plan: FirewallPlan, t: Tables, p: Packet)
    requires p.iif != plan.ingress
    ensures After(PreroutingRules(plan), t, p) == p
  {
    hide NetworkMarkRules, GroupMarkRules;
    var foreign := Rule([IifIsNot(plan.ingress)], [Accept]);
    var rest := NetworkMarkRules(plan.internals) + [Rule([Destination(Block(plan.clientCidr))], [Return])]
      + GroupMarkRules(plan.egresses) + [Rule([], [SaveMark])];
    assert PreroutingRules(plan) == [foreign] + rest;
    WalkAppend([foreign], rest, t, p);
    WalkOne(foreign, t, p);
    assert foreign.matches[0] == IifIsNot(plan.ingress);
  }

  /** From one client to another: the packet keeps to the main table whatever its sender's egress is, so
  that it arrives just when an ACL opens the way. */
  lemma BetweenClients(state: DesiredState, uplink: string, upstreams: set<string>, c: Compiled, r: Ruleset, t: Tables,
      h: Host, d: Device, p: Packet)
    requires Compiles(state, uplink, upstreams, c) && ACLsResolve(state) && Installed(c.plan, r, t)
    requires UplinkApart(uplink) && Coherent(h.rules) && p.mark == 0
    requires d in state.devices && HasAddress(d, p.saddr) && p.iif == INGRESS && !p.established && !AsksDns(p)
    requires p.daddr !in h.local && Contains(state.hub.clientCidr.value, p.daddr)
    requires Owner(PrivateOrder(state.tunnels), t, p.daddr).None?
    ensures Path(c.plan, r, t, h, p) == if Crosses(state, p.(oif := INGRESS)) then Leaves(INGRESS) else Refused
  {
    hide Compiles, Installed, MarksAgree, Member, PreroutingRules, After, Filter, Path, PrivateOrder, FirstHolding,
         Owner, EgressGroups, InternalNetworks, HasLayout, EndpointClients, Endpoints, DnsDestinationsOf, PortACLs,
         AddressBook, ValidRevision, AddressesParse, UplinkApart, HasAddress, EgressMark, ACLsResolve, Crosses,
         AsksDns, Routed;
    CompiledCarries(state, uplink, upstreams, c);
    PlanFields(state, uplink, upstreams, c);
    UplinkIsNotIngress(uplink);
    var mark := DeviceGroup(state, uplink, upstreams, c, r, t, d, p.saddr);
    NetworkCount(state);
    OwnerAt(state, uplink, upstreams, c, r, t, p.daddr, 0);
    assert c.plan.internals[0..] == c.plan.internals && PrivateOrder(state.tunnels)[0..] == PrivateOrder(state.tunnels);
    MangleIs(c.plan, t, p, mark);
    PathIsForwarded(c.plan, r, t, h, p, p);
    Unrouted(h, MainRoute(c.plan, p.daddr));
    KillSwitchIsExact(state, uplink, upstreams, c, r, t, p.(oif := INGRESS));
  }

  lemma Unrouted(h: Host, main: string)
    requires Coherent(h.rules)
    ensures Routed(h, 0, main) == main
  {
    assert forall q :: q in h.rules ==> q.mark != 0;
    assert forall table :: RoutingRule(0, table).mark == 0;
  }

  lemma {:induction false} RedirectsPassOthers(plan: FirewallPlan, groups: seq<EgressGroup>, t: Tables, p: Packet)
    requires p.iif != plan.ingress
    ensures Walk(DnsRedirects(plan, groups), t, p) == Going(p)
  {
    hide ServedBy, Walk, RedirectRules;
    if groups == [] {
      NoRules(t, p);
    } else {
      var front, last := groups[..|groups| - 1], groups[|groups| - 1];
      RedirectsPassOthers(plan, front, t, p);
      var served := ServedBy(plan, last);
      var more := if served.None? then [] else RedirectRules(plan, DnsClientSet(last.id), served.value.resolver);
      WalkAppend(DnsRedirects(plan, front), more, t, p);
      NoRules(t, p);
      if served.Some? { RedirectPassesOthers(plan, DnsClientSet(last.id), served.value.resolver, t, p); }
    }
  }

  lemma RedirectPassesOthers(plan: FirewallPlan, ref: SetRef, resolver: Option<Addr>, t: Tables, p: Packet)
    requires p.iif != plan.ingress
    ensures Walk(RedirectRules(plan, ref, resolver), t, p) == Going(p)
  {
    hide Walk;
    var a := RedirectRules(plan, ref, resolver);
    PairWalk(a[0], a[1], t, p);
    assert a[0].matches[0] == IifIs(plan.ingress) && a[1].matches[0] == IifIs(plan.ingress);
  }

  /** A packet from elsewhere is translated just when it comes by the uplink to UDP port 443 and the hub
  was asked to take handshakes there. */
  lemma TranslationForOthers(state: DesiredState, uplink: string, upstreams: set<string>, c: Compiled, r: Ruleset,
      t: Tables, p: Packet)
    requires Compiles(state, uplink, upstreams, c) && Installed(c.plan, r, t) && p.iif != INGRESS
    ensures state.hub.endpointPort.Some?
    ensures After(r.preroutingNat, t, p) ==
      if state.hub.udp443 && p.iif == uplink && p.protocol == Udp && p.dport == REALITY_PORT
        then p.(dport := state.hub.endpointPort.value) else p
  {
    hide Compiles, Installed, DnsRedirects, RedirectRules, PortACLs, AddressBook, DnsDestinationsOf, AddressesParse,
         Walk;
    PlanFields(state, uplink, upstreams, c);
    ListenPortIs(state, uplink, upstreams, c);
    var plan := c.plan;
    var admitted := RenderedChains(plan, r, t);
    var hub := if admitted != [] && plan.dnsAddress.Some?
      then RedirectRules(plan, AdmittedSet, plan.dnsAddress) else [];
    var rule := Rule([IifIs(plan.uplink), DestPort(Udp, REALITY_PORT)], [Dnat(None, plan.listenPort)]);
    var quic := if plan.altUdp443 then [rule] else [];
    WalkAppend(DnsRedirects(plan, plan.egresses) + hub, quic, t, p);
    WalkAppend(DnsRedirects(plan, plan.egresses), hub, t, p);
    RedirectsPassOthers(plan, plan.egresses, t, p);
    NoRules(t, p);
    RedirectPassesOthers(plan, AdmittedSet, plan.dnsAddress, t, p);
    WalkOne(rule, t, p);
    assert rule.matches[0] == IifIs(plan.uplink) && rule.matches[1] == DestPort(Udp, REALITY_PORT);
  }

  /** A client can connect: its handshake from the outside is delivered to the endpoint's port, whether it
  was sent there or, where the hub takes that, to port 443. */
  lemma HandshakesArrive(state: DesiredState, uplink: string, upstreams: set<string>, c: Compiled, r: Ruleset,
      t: Tables, h: Host, p: Packet)
    requires Compiles(state, uplink, upstreams, c) && Installed(c.plan, r, t)
    requires UplinkApart(uplink) && uplink != LOOPBACK && p.iif == uplink && p.protocol == Udp && p.daddr in h.local
    requires state.hub.endpointPort == Some(p.dport) || (state.hub.udp443 && p.dport == REALITY_PORT)
    ensures state.hub.endpointPort.Some?
    ensures Path(c.plan, r, t, h, p) == Delivered(p.daddr, state.hub.endpointPort.value)
  {
    hide Compiles, Installed, Filter, After, UplinkApart, Answers, HasAddress;
    UplinkIsNotIngress(uplink);
    OthersAreNotMarked(state, uplink, upstreams, c, r, t, p);
    TranslationForOthers(state, uplink, upstreams, c, r, t, p);
    InputIsPolicy(state, uplink, upstreams, c, r, t, p.(dport := state.hub.endpointPort.value));
  }

  // ------------------------------------------------------------------
  // The hub's own packets
  // ------------------------------------------------------------------

  lemma NetworkMark(state: DesiredState, uplink: string, upstreams: set<string>, c: Compiled, j: nat)
    requires Compiles(state, uplink, upstreams, c) && j < |PrivateOrder(state.tunnels)|
    ensures |c.plan.internals| == |PrivateOrder(state.tunnels)| && c.plan.internals[j].mark != 0
    ensures c.plan.internals[j].mark == FIRST_MARK + |EgressOrder(state.tunnels)| + j
    ensures c.plan.internals[j].iface == EgressInterface(PrivateOrder(state.tunnels)[j].id)
    ensures c.plan.internals[j].tunnelId == PrivateOrder(state.tunnels)[j].id
  {
    hide Compiles, EgressGroups, InternalNetworks, HasLayout, EndpointClients, Endpoints, ValidRevision, AddressesParse,
         EgressOrder, PrivateOrder, EgressInterface, ClientsFit, NetworkRoutes;
    CompiledCarries(state, uplink, upstreams, c);
    OrderFits(state, uplink, upstreams, c);
    OrderParts(state.tunnels, j);
    NetworkCount(state);
    NetworkAt(state, j);
  }

  lemma GroupMarkKnown(state: DesiredState, uplink: string, upstreams: set<string>, c: Compiled, i: nat)
    requires Compiles(state, uplink, upstreams, c) && i < |c.plan.egresses|
    ensures c.plan.egresses[i].mark != 0
    ensures forall j :: 0 <= j < |c.plan.internals| ==> c.plan.internals[j].mark != c.plan.egresses[i].mark
  {
    hide Compiles, EgressGroups, InternalNetworks, HasLayout, EndpointClients, Endpoints, ValidRevision, AddressesParse,
         EgressOrder, PrivateOrder, TunnelOrder;
    CompiledCarries(state, uplink, upstreams, c);
    OrderFits(state, uplink, upstreams, c);
    GroupMarkIs(state, uplink, i);
    NetworkMarksApart(state, uplink, upstreams, c, c.plan.egresses[i].id, c.plan.egresses[i].mark);
  }

  /** A mark of a network's, or none: what strays is what leaves by another link than the network's. */
  lemma OwnStrays(state: DesiredState, uplink: string, upstreams: set<string>, c: Compiled, j: Option<nat>, p: Packet)
    requires Compiles(state, uplink, upstreams, c) && |c.plan.internals| == |PrivateOrder(state.tunnels)|
    requires j.Some? ==> j.value < |c.plan.internals|
    requires p.mark == if j.Some? then c.plan.internals[j.value].mark else 0
    ensures StraysFrom(c.plan, p) <==> j.Some? && p.oif != EgressInterface(PrivateOrder(state.tunnels)[j.value].id)
  {
    hide Compiles, EgressInterface, PrivateOrder, EgressOrder;
    if j.Some? { NetworkMark(state, uplink, upstreams, c, j.value); }
    forall i | 0 <= i < |c.plan.egresses| ensures c.plan.egresses[i].mark != p.mark {
      GroupMarkKnown(state, uplink, upstreams, c, i);
    }
    forall i | 0 <= i < |c.plan.internals|
      ensures c.plan.internals[i].mark == p.mark <==> j == Some(i)
    {
      NetworkMark(state, uplink, upstreams, c, i);
    }
  }

  /** The network at this place claims the address, and none after it does. */
  ghost predicate LastToClaim(order: seq<Tunnel>, t: Tables, a: Addr, j: nat) {
    j < |order| && Claims(t, order[j], a) && forall i :: j < i < |order| ==> !Claims(t, order[i], a)
  }

  /** A packet the hub sends of its own, where it goes being up to routing: one for an address that a
  private network claims gets out by the link of the last such network and no other way, so that with
  its tunnel missing it is dropped; any other gets out. */
  lemma OwnTrafficStays(state: DesiredState, uplink: string, upstreams: set<string>, c: Compiled, r: Ruleset, t: Tables,
      p: Packet, oif: string)
    requires Compiles(state, uplink, upstreams, c) && Installed(c.plan, r, t) && p.mark == 0
    ensures var order := PrivateOrder(state.tunnels);
      Filter(r.output, Accepted, t, After(r.outputMark, t, p).(oif := oif)) == Accepted <==>
      forall j: nat :: LastToClaim(order, t, p.daddr, j) ==> oif == EgressInterface(order[j].id)
  {
    hide Compiles, Installed, EgressGroups, InternalNetworks, HasLayout, EndpointClients, Endpoints, ValidRevision,
         AddressesParse, PrivateOrder, EgressOrder, ClientsFit, NetworkRoutes, InSet, LastHolding, Claims, StraysFrom,
         OutputRules, OutputMarkRules, Filter, EgressInterface, After;
    CompiledCarries(state, uplink, upstreams, c);
    NetworkCount(state);
    InstalledOutput(c.plan, r, t);
    OwnTrafficIsMarked(c.plan, t, p);
    var last, order := LastHolding(c.plan.internals, t, p.daddr), PrivateOrder(state.tunnels);
    var q := After(r.outputMark, t, p).(oif := oif);
    forall i | 0 <= i < |order|
      ensures InSet(t, InternalSet(c.plan.internals[i].tunnelId), p.daddr) <==> Claims(t, order[i], p.daddr)
    {
      ClaimedIff(state, uplink, upstreams, c, r, t, i, p.daddr);
    }
    OwnStrays(state, uplink, upstreams, c, last, q);
    OutputIs(c.plan, t, q);
    if last.Some? { assert Claims(t, order[last.value], p.daddr); }
  }

  lemma ClaimedIff(state: DesiredState, uplink: string, upstreams: set<string>, c: Compiled, r: Ruleset, t: Tables,
      i: nat, a: Addr)
    requires Compiles(state, uplink, upstreams, c) && Installed(c.plan, r, t) && i < |PrivateOrder(state.tunnels)|
    ensures |c.plan.internals| == |PrivateOrder(state.tunnels)|
    ensures InSet(t, InternalSet(c.plan.internals[i].tunnelId), a) <==> Claims(t, PrivateOrder(state.tunnels)[i], a)
  {
    hide Compiles, Installed, EgressGroups, InternalNetworks, HasLayout, EndpointClients, Endpoints, ValidRevision,
         AddressesParse, PrivateOrder, EgressOrder, InSet, Reaches, Learned;
    CompiledCarries(state, uplink, upstreams, c);
    NetworkMark(state, uplink, upstreams, c, i);
    PrivateMember(state, i);
    InternalSetMeans(state, uplink, upstreams, c, r, t, PrivateOrder(state.tunnels)[i], a);
  }
}
