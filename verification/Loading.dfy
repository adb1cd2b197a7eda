/** When the rendered file loads.  It is one transaction, so a single rule that does not parse keeps
the whole revision off the host; of a valid configuration, only a client ACL can contain one. */
module Loading {
  import opened Netip
  import opened Ordering
  import opened Domain
  import opened FirewallPlanner
  import opened Validation
  import opened Revision
  import opened EgressPlanner
  import opened Compiler
  import opened Nftables
  import opened Renderer
  import opened PlanFacts
  import opened SetFacts
  import opened PolicySets
  import opened KillSwitch
  import opened DnsAgreement
  import opened Revocation

  ghost predicate AllParse(s: seq<Option<Cidr>>) { forall i :: 0 <= i < |s| ==> s[i].Some? }

  ghost predicate RoutesParse(state: DesiredState) {
    forall t :: t in state.tunnels ==> AllParse(t.routes)
  }

  lemma ChainAppend(a: seq<Rule>, b: seq<Rule>)
    ensures ChainParses(a + b) <==> ChainParses(a) && ChainParses(b)
  {
    hide RuleParses;
    forall i | 0 <= i < |a| ensures (a + b)[i] == a[i] {}
    forall i | 0 <= i < |b| ensures (a + b)[|a| + i] == b[i] {}
  }

  ghost predicate SetsParse(sets: seq<SetDecl>) { forall i :: 0 <= i < |sets| ==> SetParses(sets[i]) }

  lemma SetsAppend(a: seq<SetDecl>, b: seq<SetDecl>)
    requires SetsParse(a) && SetsParse(b)
    ensures SetsParse(a + b)
  {
  }

  lemma HostSetParses(ref: SetRef, addresses: seq<Addr>)
    ensures SetParses(SetDecl(ref, Hosts(addresses)))
  {
  }

  lemma {:induction false} DnsSetsParse(plan: FirewallPlan, groups: seq<EgressGroup>)
    ensures SetsParse(DnsClientSets(plan, groups))
  {
    hide ServedBy, Hosts, SetParses;
    if groups != [] {
      var last := groups[|groups| - 1];
      DnsSetsParse(plan, groups[..|groups| - 1]);
      var served := ServedBy(plan, last);
      if served.Some? { HostSetParses(DnsClientSet(last.id), served.value.clients); }
    }
  }

  lemma {:induction false} UncoveredParse(addresses: seq<Option<Addr>>, routes: seq<Option<Cidr>>)
    ensures AllParse(UncoveredResolvers(addresses, routes))
  {
    if addresses != [] { UncoveredParse(addresses[..|addresses| - 1], routes); }
  }

  lemma NetworkRoutesParse(t: Tunnel)
    requires AllParse(t.routes)
    ensures AllParse(NetworkRoutes(t))
  {
    hide UncoveredResolvers, Sort;
    UncoveredParse(t.dnsServers, t.routes);
    var all := t.routes + UncoveredResolvers(t.dnsServers, t.routes);
    var sorted := NetworkRoutes(t);
    assert sorted == Sort<Option<Cidr>>(RouteLe, all);
    forall i | 0 <= i < |sorted| ensures sorted[i].Some? {
      assert sorted[i] in multiset(sorted);
      assert sorted[i] in multiset(all);
      assert sorted[i] in all;
    }
  }

  lemma InternalsParse(state: DesiredState, networks: seq<InternalNetwork>)
    requires ValidRevision(state) && AddressesParse(state.devices) && RoutesParse(state)
      && networks == InternalNetworks(state)
    ensures SetsParse(InternalSets(networks))
  {
    hide ValidRevision, InternalNetworks, AddressesParse, NetworkRoutes, PrivateOrder, EgressOrder, ClientsFit;
    NetworkCount(state);
    forall i | 0 <= i < |networks| ensures SetParses(InternalSets(networks)[i]) {
      NetworkAt(state, i);
      NetworkRoutesParse(PrivateOrder(state.tunnels)[i]);
    }
  }

  lemma AllSetsParse(state: DesiredState, uplink: string, upstreams: set<string>, c: Compiled, admitted: seq<Addr>)
    requires Compiles(state, uplink, upstreams, c) && RoutesParse(state)
    ensures SetsParse(SetsOf(c.plan, admitted))
  {
    hide Compiles, ValidRevision, AddressesParse, EgressGroups, InternalNetworks, HasLayout, EndpointClients, Endpoints,
         SetParses, Hosts, RoutesParse, DnsClientSets, FirstEntries, AllowedRoles;
    CompiledCarries(state, uplink, upstreams, c);
    var clients, admission, resolving := ClientSets(c.plan.egresses), AdmissionSets(admitted),
      DnsClientSets(c.plan, c.plan.egresses);
    var allowed, internals := AllowedSetDecls(FirstEntries(AllowedRoles(c.plan))), InternalSets(c.plan.internals);
    forall i | 0 <= i < |clients| ensures SetParses(clients[i]) {
      HostSetParses(clients[i].ref, c.plan.egresses[i].addresses);
    }
    forall i | 0 <= i < |allowed| ensures SetParses(allowed[i]) {
      HostSetParses(allowed[i].ref, FirstEntries(AllowedRoles(c.plan))[i].clients);
    }
    HostSetParses(AdmittedSet, admitted);
    DnsSetsParse(c.plan, c.plan.egresses);
    InternalsParse(state, c.plan.internals);
    SetsAppend(clients, admission);
    SetsAppend(clients + admission, resolving);
    SetsAppend(clients + admission + resolving, allowed);
    SetsAppend(clients + admission + resolving + allowed, internals);
  }

  // ---- chains ----

  lemma PreroutingParses(plan: FirewallPlan)
    requires plan.clientCidr.Some?
    ensures ChainParses(PreroutingRules(plan))
  {
    hide ChainParses;
    var foreign, stay, save := [Rule([IifIsNot(plan.ingress)], [Accept])],
      [Rule([Destination(Block(plan.clientCidr))], [Return])], [Rule([], [SaveMark])];
    var n, g := NetworkMarkRules(plan.internals), GroupMarkRules(plan.egresses);
    MarkRulesParse(plan);
    PlainParse(foreign);
    PlainParse(stay);
    PlainParse(save);
    ChainAppend(foreign + n + stay + g, save);
    ChainAppend(foreign + n + stay, g);
    ChainAppend(foreign + n, stay);
    ChainAppend(foreign, n);
  }

  /** Rules that compare with no unparsed text. */
  ghost predicate Plain(rules: seq<Rule>) {
    forall i, k :: 0 <= i < |rules| && 0 <= k < |rules[i].matches| ==> MatchParses(rules[i].matches[k])
  }

  lemma PlainParse(rules: seq<Rule>)
    requires Plain(rules)
    ensures ChainParses(rules)
  {
  }

  lemma MarkRulesParse(plan: FirewallPlan)
    ensures ChainParses(NetworkMarkRules(plan.internals)) && ChainParses(GroupMarkRules(plan.egresses))
    ensures ChainParses(DestinationMarkRules(plan.internals)) && ChainParses(NetworkStayRules(plan.internals))
  {
  }

  lemma ACLRuleParses(plan: FirewallPlan, acl: ClientPortACL)
    requires plan.clientCidr.Some?
    ensures RuleParses(ACLRule(plan, acl)) <==> acl.target.Some?
  {
    var m := ACLRule(plan, acl).matches;
    assert MatchParses(m[3]) <==> acl.target.Some?;
  }

  lemma {:induction false} ProxyRulesParse(plan: FirewallPlan, groups: seq<EgressGroup>, networks: seq<InternalNetwork>)
    ensures ChainParses(ProxiedGroupRules(plan, groups)) && ChainParses(ProxiedNetworkRules(plan, networks))
    decreases |groups| + |networks|
  {
    if groups != [] { ProxyRulesParse(plan, groups[..|groups| - 1], networks); }
    if networks != [] { ProxyRulesParse(plan, groups, networks[..|networks| - 1]); }
  }

  lemma LeaveParses(plan: FirewallPlan)
    ensures ChainParses(LeaveRules(plan))
  {
    var n, g, e := NetworkRules(plan), GroupRules(plan), EndpointRules(plan);
    var pg, pn := ProxiedGroupRules(plan, plan.egresses), ProxiedNetworkRules(plan, plan.internals);
    PlainParse(n);
    PlainParse(g);
    PlainParse(e);
    ProxyRulesParse(plan, plan.egresses, plan.internals);
    ChainAppend(n + g + pg + pn, e);
    ChainAppend(n + g + pg, pn);
    ChainAppend(n + g, pg);
    ChainAppend(n, g);
  }

  /** The forward chain parses when every client ACL has a target to name. */
  lemma ForwardParses(plan: FirewallPlan)
    requires plan.clientCidr.Some?
    ensures ChainParses(ForwardRules(plan)) <==> forall i :: 0 <= i < |plan.acls| ==> plan.acls[i].target.Some?
  {
    hide ChainParses, LeaveRules, ACLRules;
    PlainParse(FORWARD_HEAD);
    PlainParse(IngressRules(plan));
    LeaveParses(plan);
    ACLChainParses(plan);
    ChainAppend(FORWARD_HEAD + ACLRules(plan) + IngressRules(plan), LeaveRules(plan));
    ChainAppend(FORWARD_HEAD + ACLRules(plan), IngressRules(plan));
    ChainAppend(FORWARD_HEAD, ACLRules(plan));
  }

  lemma ACLChainParses(plan: FirewallPlan)
    requires plan.clientCidr.Some?
    ensures ChainParses(ACLRules(plan)) <==> forall i :: 0 <= i < |plan.acls| ==> plan.acls[i].target.Some?
  {
    hide ACLRule, RuleParses;
    forall i | 0 <= i < |plan.acls| ensures RuleParses(ACLRules(plan)[i]) <==> plan.acls[i].target.Some? {
      ACLRuleParses(plan, plan.acls[i]);
    }
  }

  ghost predicate ResolversKnown(plan: FirewallPlan, groups: seq<EgressGroup>) {
    forall i :: 0 <= i < |groups| ==> ServedBy(plan, groups[i]).Some? ==> ServedBy(plan, groups[i]).value.resolver.Some?
  }

  lemma {:induction false} DnsInputParses(plan: FirewallPlan, groups: seq<EgressGroup>)
    requires ResolversKnown(plan, groups)
    ensures ChainParses(DnsInputRules(plan, groups)) && ChainParses(DnsRedirects(plan, groups))
  {
    hide ServedBy, ChainParses, ResolveRules, RefuseRules, RedirectRules;
    if groups == [] {
      PlainParse([]);
    } else {
      var front, last := groups[..|groups| - 1], groups[|groups| - 1];
      assert forall i :: 0 <= i < |front| ==> front[i] == groups[i];
      DnsInputParses(plan, front);
      var served := ServedBy(plan, last);
      if served.Some? {
        ResolveParses(plan, DnsClientSet(last.id), served.value.resolver);
        ChainAppend(ResolveRules(plan, DnsClientSet(last.id), served.value.resolver),
          RefuseRules(plan, DnsClientSet(last.id)));
        ChainAppend(DnsInputRules(plan, front),
                    ResolveRules(plan, DnsClientSet(last.id), served.value.resolver)
                      + RefuseRules(plan, DnsClientSet(last.id)));
        ChainAppend(DnsRedirects(plan, front), RedirectRules(plan, DnsClientSet(last.id), served.value.resolver));
      } else {
        assert DnsInputRules(plan, front) + [] == DnsInputRules(plan, front)
          && DnsRedirects(plan, front) + [] == DnsRedirects(plan, front);
      }
    }
  }

  lemma ResolveParses(plan: FirewallPlan, ref: SetRef, resolver: Option<Addr>)
    requires resolver.Some?
    ensures ChainParses(ResolveRules(plan, ref, resolver)) && ChainParses(RefuseRules(plan, ref))
      && ChainParses(RedirectRules(plan, ref, resolver))
  {
    PlainParse(ResolveRules(plan, ref, resolver));
    PlainParse(RefuseRules(plan, ref));
    PlainParse(RedirectRules(plan, ref, resolver));
  }

  lemma InputParses(plan: FirewallPlan, admitted: seq<Addr>)
    requires plan.dnsAddress.Some? && ResolversKnown(plan, plan.egresses)
    ensures ChainParses(InputRules(plan, admitted)) && ChainParses(PreroutingNatRules(plan, admitted))
  {
    hide ChainParses, ResolversKnown, DnsInputRules, DnsRedirects, ResolveRules, RedirectRules, ServiceRules;
    DnsInputParses(plan, plan.egresses);
    ResolveParses(plan, AdmittedSet, plan.dnsAddress);
    ServiceParses(plan, admitted);
    PlainParse([]);
    var hub := if admitted != [] && plan.dnsAddress.Some?
      then RedirectRules(plan, AdmittedSet, plan.dnsAddress) else [];
    var quic := if plan.altUdp443
      then [Rule([IifIs(plan.uplink), DestPort(Udp, REALITY_PORT)], [Dnat(None, plan.listenPort)])] else [];
    PlainParse(quic);
    ChainAppend(DnsInputRules(plan, plan.egresses) + HubDnsRules(plan, admitted), ServiceRules(plan, admitted));
    ChainAppend(DnsInputRules(plan, plan.egresses), HubDnsRules(plan, admitted));
    ChainAppend(DnsRedirects(plan, plan.egresses) + hub, quic);
    ChainAppend(DnsRedirects(plan, plan.egresses), hub);
  }

  lemma ServiceParses(plan: FirewallPlan, admitted: seq<Addr>)
    ensures ChainParses(ServiceRules(plan, admitted))
  {
    PlainParse(ServiceRules(plan, admitted));
  }

  lemma {:induction false} GroupStaysParse(groups: seq<EgressGroup>)
    ensures ChainParses(GroupStayRules(groups))
  {
    if groups != [] { GroupStaysParse(groups[..|groups| - 1]); }
  }

  lemma OutputParses(plan: FirewallPlan)
    ensures ChainParses(OutputMarkRules(plan)) && ChainParses(OutputRules(plan))
  {
    hide ChainParses, GroupStayRules, NetworkStayRules, DestinationMarkRules;
    MarkRulesParse(plan);
    GroupStaysParse(plan.egresses);
    var v6, guard := [Rule([Ipv6], [Drop])], [Rule([Match.Marked], [Return])];
    PlainParse(v6);
    PlainParse(guard);
    PlainParse([]);
    ChainAppend(v6 + GroupStayRules(plan.egresses), NetworkStayRules(plan.internals));
    ChainAppend(v6, GroupStayRules(plan.egresses));
    ChainAppend(guard, DestinationMarkRules(plan.internals));
  }

  // ---- the table ----

  lemma ServedResolversKnown(state: DesiredState, uplink: string, upstreams: set<string>, c: Compiled)
    requires Compiles(state, uplink, upstreams, c)
    ensures ResolversKnown(c.plan, c.plan.egresses)
  {
    hide Compiles, ServedBy, Answers;
    forall i | 0 <= i < |c.plan.egresses| && ServedBy(c.plan, c.plan.egresses[i]).Some?
      ensures ServedBy(c.plan, c.plan.egresses[i]).value.resolver.Some?
    {
      GroupIsServed(state, uplink, upstreams, c, i);
    }
  }

  lemma TargetsResolve(state: DesiredState, uplink: string, upstreams: set<string>, c: Compiled)
    requires Compiles(state, uplink, upstreams, c)
    ensures (forall k :: 0 <= k < |c.plan.acls| ==> c.plan.acls[k].target.Some?) <==>
            (forall i :: 0 <= i < |state.acls| ==> state.acls[i].target in DeviceIds(state.devices))
  {
    hide Compiles, ValidRevision, PortACLs, AddressBook, DnsDestinationsOf, AddressesParse, DeviceIds;
    PlanFields(state, uplink, upstreams, c);
    CompilesIsValid(state, uplink, upstreams, c);
    var book := AddressBook(state.devices);
    forall i | 0 <= i < |state.acls| ensures PortACL(state.acls[i], book).target.Some? <==>
      state.acls[i].target in DeviceIds(state.devices) {
      ResolvesIff(state, state.acls[i].target, 0);
    }
    forall k | 0 <= k < |c.plan.acls| ensures exists i ::
      0 <= i < |state.acls| && PortACL(state.acls[i], book) == c.plan.acls[k] {
      PortACLMembers(state.acls, book, c.plan.acls[k]);
    }
    forall i | 0 <= i < |state.acls| ensures exists k ::
      0 <= k < |c.plan.acls| && c.plan.acls[k] == PortACL(state.acls[i], book) {
      PortACLMembers(state.acls, book, PortACL(state.acls[i], book));
    }
  }

  /** The table of a compiled revision loads just when every client ACL's target is still a device. */
  lemma LoadsIff(state: DesiredState, uplink: string, upstreams: set<string>, c: Compiled, r: Ruleset)
    requires Compiles(state, uplink, upstreams, c) && RoutesParse(state) && Renders(c.plan, r)
    ensures Loads(r) <==> forall i :: 0 <= i < |state.acls| ==> state.acls[i].target in DeviceIds(state.devices)
  {
    hide Compiles, ListsAdmitted, SetsOf, PreroutingRules, ForwardRules, InputRules, OutputMarkRules, OutputRules,
         PreroutingNatRules, ChainParses, SetParses, RoutesParse, PortACLs, AddressBook, DnsDestinationsOf,
         AddressesParse, DeviceIds, ResolversKnown;
    var admitted :| ListsAdmitted(admitted, c.plan.egresses) && RendersWith(c.plan, admitted, r);
    PlanFields(state, uplink, upstreams, c);
    ServedResolversKnown(state, uplink, upstreams, c);
    AllSetsParse(state, uplink, upstreams, c, admitted);
    PreroutingParses(c.plan);
    ForwardParses(c.plan);
    InputParses(c.plan, admitted);
    OutputParses(c.plan);
    TargetsResolve(state, uplink, upstreams, c);
  }

  lemma {:induction false} RoutesIn(tunnels: seq<Tunnel>, t: Tunnel)
    requires AllParse(AllRoutes(tunnels)) && t in tunnels
    ensures AllParse(t.routes)
  {
    var front, last := tunnels[..|tunnels| - 1], tunnels[|tunnels| - 1];
    assert tunnels == front + [last];
    assert AllRoutes(tunnels) == AllRoutes(front) + last.routes;
    if t == last {
      forall i | 0 <= i < |t.routes| ensures t.routes[i].Some? {
        assert AllRoutes(tunnels)[|AllRoutes(front)| + i] == t.routes[i];
      }
    } else {
      forall i | 0 <= i < |AllRoutes(front)| ensures AllRoutes(front)[i].Some? {
        assert AllRoutes(tunnels)[i] == AllRoutes(front)[i];
      }
      RoutesIn(front, t);
    }
  }

  lemma CompiledRoutesParse(cfg: Config, revoked: set<string>)
    requires Valid(cfg)
    ensures RoutesParse(Afterwards(cfg, revoked))
  {
    hide ValidHub, ValidDevices, ValidChoice, ValidACLs, Sort, AllRoutes;
    forall t | t in Afterwards(cfg, revoked).tunnels ensures AllParse(t.routes) {
      EnabledMembers(Sort(TunnelLe, cfg.tunnels), t);
      SameElements(cfg.tunnels, Sort(TunnelLe, cfg.tunnels));
      RoutesIn(cfg.tunnels, t);
    }
  }

  /** A revocation that leaves a client ACL pointing at a revoked device keeps the pruned revision
  from loading at all; any other revocation loads. */
  lemma RevokedRevisionLoadsIff(cfg: Config, revoked: set<string>, uplink: string, upstreams: set<string>, d: Compiled,
      s: Ruleset)
    requires Valid(cfg) && CompiledOf(Afterwards(cfg, revoked), uplink, upstreams) == Ok(d) && Renders(d.plan, s)
    ensures Loads(s) <==> forall rule :: rule in cfg.acls ==> rule.target !in revoked
  {
    hide Valid, CompiledOf, Renders, Loads, ValidRevision, ACLsResolve, Afterwards, Before, RoutesParse, DeviceIds;
    BothAreValid(cfg, revoked);
    CompiledRoutesParse(cfg, revoked);
    LoadsIff(Afterwards(cfg, revoked), uplink, upstreams, d, s);
    TargetsLeft(cfg, revoked);
  }

  /** The ACLs' targets are all devices of the pruned revision just when none of them was revoked. */
  lemma TargetsLeft(cfg: Config, revoked: set<string>)
    requires Valid(cfg)
    ensures (forall i :: 0 <= i < |Afterwards(cfg, revoked).acls| ==>
               Afterwards(cfg, revoked).acls[i].target in DeviceIds(Afterwards(cfg, revoked).devices)) <==>
            (forall rule :: rule in cfg.acls ==> rule.target !in revoked)
  {
    hide Valid, ValidRevision, ACLsResolve, Afterwards, Before, DeviceIds;
    BothAreValid(cfg, revoked);
    forall rule | rule in cfg.acls ensures rule.target in DeviceIds(Afterwards(cfg, revoked).devices) <==>
      rule.target !in revoked {
      ACLsOf(cfg, revoked, rule);
      IdsLeft(cfg, revoked, rule.target);
      ValidTarget(cfg, rule);
    }
    forall rule ensures rule in Afterwards(cfg, revoked).acls <==> rule in cfg.acls { ACLsOf(cfg, revoked, rule); }
  }

  lemma ValidTarget(cfg: Config, rule: ClientACL)
    requires Valid(cfg) && rule in cfg.acls
    ensures rule.target in DeviceIds(cfg.devices)
  {
    hide ValidHub, ValidDevices, ValidChoice, ValidTunnels, RoutesApart, DeviceIds;
    var i :| 0 <= i < |cfg.acls| && cfg.acls[i] == rule;
    assert ValidACL(cfg.acls[i], DeviceIds(cfg.devices));
  }
}
