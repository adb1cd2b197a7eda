/** A client's packet end to end: marked, translated, routed by its mark, and filtered.

With every policy table in place the packet leaves by the tunnel that owns its destination or that
its sender chose.  With any of them missing the lookup falls through to main, and the forward
chain turns the packet away. */
module Steering {
  import opened Netip
  import opened Ordering
  import opened Domain
  import opened Links
  import opened FirewallPlanner
  import opened Validation
  import opened Revision
  import opened EgressPlanner
  import opened Compiler
  import opened Nftables
  import opened Renderer
  import opened PlanFacts
  import opened PolicySets
  import opened KillSwitch
  import opened PolicyRouting

  /** The routing state, and the addresses the host itself answers for. */
  datatype Host = Host(rules: set<RoutingRule>, tables: map<nat, string>, local: set<Addr>)

  datatype Outcome = Leaves(iface: string) | Delivered(address: Addr, port: Port) | Refused

  /** Policy routing: the table a mark names, or main when there is no route in it. */
  ghost function Routed(h: Host, mark: Mark, main: string): string {
    if table :| RoutingRule(mark, table) in h.rules && table in h.tables then h.tables[table] else main
  }

  /** The main table, for destinations other than the tunnel links. */
  function MainRoute(plan: FirewallPlan, a: Addr): string {
    if plan.clientCidr.Some? && Contains(plan.clientCidr.value, a) then plan.ingress else plan.uplink
  }

  function After(rules: seq<Rule>, t: Tables, p: Packet): Packet { Walk(rules, t, p).packet }

  /** The hooks in the order the kernel runs them. */
  ghost function Path(plan: FirewallPlan, r: Ruleset, t: Tables, h: Host, p: Packet): Outcome {
    var q := After(r.preroutingNat, t, After(r.prerouting, t, p));
    if q.daddr in h.local then
      (if Filter(r.input, Dropped, t, q) == Accepted then Delivered(q.daddr, q.dport) else Refused)
    else
      var out := q.(oif := Routed(h, q.mark, MainRoute(plan, q.daddr)));
      if Filter(r.forward, Dropped, t, out) == Accepted then Leaves(out.oif) else Refused
  }

  // ------------------------------------------------------------------
  // What should become of a packet
  // ------------------------------------------------------------------

  ghost predicate Owns(s: Tunnel, t: Tables, a: Addr) { Reaches(s, a) || Learned(t, s.id, a) }

  /** The first private network, in layout order, that owns an address. */
  ghost function Owner(networks: seq<Tunnel>, t: Tables, a: Addr): Option<Tunnel> {
    if networks == [] then None
    else if Owns(networks[0], t, a) then Some(networks[0])
    else Owner(networks[1..], t, a)
  }

  /** The tunnel's mark is steered into it. */
  ghost predicate Live(h: Host, specs: seq<EgressSpec>, id: string) {
    exists k :: 0 <= k < |specs| && specs[k].tunnelId == id && Steers(h.rules, h.tables, specs[k])
  }

  function ByUplink(d: Device, uplink: string): Outcome { if d.egress == DIRECT then Leaves(uplink) else Refused }

  ghost function Fate(state: DesiredState, uplink: string, specs: seq<EgressSpec>, h: Host, t: Tables, d: Device,
      p: Packet): Outcome {
    var owner := Owner(PrivateOrder(state.tunnels), t, p.daddr);
    if owner.Some? then
      if !Live(h, specs, owner.value.id) then ByUplink(d, uplink)
      else if Permits(state.devices, owner.value, p.saddr) then Leaves(EgressInterface(owner.value.id))
      else Refused
    else if d.egress != DIRECT && Live(h, specs, d.egress) then Leaves(EgressInterface(d.egress))
    else ByUplink(d, uplink)
  }

  /** Each tunnel's table leads into that tunnel or is not there to be found. */
  ghost predicate Sound(h: Host, specs: seq<EgressSpec>) {
    && Coherent(h.rules)
    && forall k :: 0 <= k < |specs| ==>
         Steers(h.rules, h.tables, specs[k]) || RuleOf(specs[k]) !in h.rules || specs[k].routeTable !in h.tables
  }

  predicate AsksDns(p: Packet) { p.dport == 53 && (p.protocol == Udp || p.protocol == Tcp) }

  /** A new packet from this device to somewhere that is not the hub and not another client. */
  ghost predicate Forwarded(state: DesiredState, h: Host, d: Device, p: Packet) {
    && d in state.devices && HasAddress(d, p.saddr)
    && p.iif == INGRESS && !p.established && !DnsOverTls(p) && !AsksDns(p)
    && p.daddr !in h.local && !Contains(LINK_BASE, p.daddr)
    && state.hub.clientCidr.Some? && !Contains(state.hub.clientCidr.value, p.daddr)
  }

  // ------------------------------------------------------------------
  // Marks
  // ------------------------------------------------------------------

  ghost function FirstHolding(networks: seq<InternalNetwork>, t: Tables, a: Addr): Option<nat> {
    if networks == [] then None
    else if InSet(t, InternalSet(networks[0].tunnelId), a) then Some(0)
    else
      var rest := FirstHolding(networks[1..], t, a);
      if rest.Some? then Some(rest.value + 1) else None
  }

  lemma {:induction false} FirstHoldingIndex(networks: seq<InternalNetwork>, t: Tables, a: Addr)
    ensures FirstHolding(networks, t, a).Some? ==> FirstHolding(networks, t, a).value < |networks|
  {
    if networks != [] { FirstHoldingIndex(networks[1..], t, a); }
  }

  function Marked(p: Packet, mark: Mark): Packet { p.(mark := mark, ctMark := mark) }

  lemma NetworkMarkApplies(n: InternalNetwork, t: Tables, p: Packet)
    ensures Applies(NetworkMarkRule(n), t, p) <==> InSet(t, InternalSet(n.tunnelId), p.daddr)
    ensures Act(NetworkMarkRule(n).actions, p) == Stopped(None, Marked(p, n.mark))
  {
    hide InSet;
    var rule := NetworkMarkRule(n);
    assert Matches(rule.matches[0], t, p) <==> InSet(t, InternalSet(n.tunnelId), p.daddr);
    assert rule.actions[1..] == [SaveMark, Return] && [SaveMark, Return][1..] == [Return];
    assert Act([SaveMark, Return], p.(mark := n.mark)) == Act([Return], Marked(p, n.mark));
  }

  lemma {:induction false} NetworkMarks(networks: seq<InternalNetwork>, t: Tables, p: Packet)
    ensures FirstHolding(networks, t, p.daddr).None? ==> Walk(NetworkMarkRules(networks), t, p) == Going(p)
    ensures FirstHolding(networks, t, p.daddr).Some? ==>
      && FirstHolding(networks, t, p.daddr).value < |networks|
      && Walk(NetworkMarkRules(networks), t, p)
           == Stopped(None, Marked(p, networks[FirstHolding(networks, t, p.daddr).value].mark))
  {
    hide Applies, InSet, NetworkMarkRule, Act, Marked;
    if networks != [] {
      NetworkMarkApplies(networks[0], t, p);
      NetworkMarks(networks[1..], t, p);
      FirstHoldingIndex(networks[1..], t, p.daddr);
      assert NetworkMarkRules(networks)[1..] == NetworkMarkRules(networks[1..]);
      assert NetworkMarkRules(networks)[0] == NetworkMarkRule(networks[0]);
    }
  }

  lemma GroupMarkApplies(g: EgressGroup, t: Tables, p: Packet)
    ensures Applies(GroupMarkRule(g), t, p) <==> InSet(t, ClientSet(g.id), p.saddr)
    ensures Act(GroupMarkRule(g).actions, p) == Going(p.(mark := g.mark))
  {
    hide InSet;
    assert Matches(GroupMarkRule(g).matches[0], t, p) <==> InSet(t, ClientSet(g.id), p.saddr);
    assert GroupMarkRule(g).actions[1..] == [];
  }

  ghost predicate Member(groups: seq<EgressGroup>, t: Tables, a: Addr) {
    exists i :: 0 <= i < |groups| && InSet(t, ClientSet(groups[i].id), a)
  }

  ghost predicate MarksAgree(groups: seq<EgressGroup>, t: Tables, a: Addr, mark: Mark) {
    forall i :: 0 <= i < |groups| ==> InSet(t, ClientSet(groups[i].id), a) ==> groups[i].mark == mark
  }

  lemma {:induction false} GroupMarks(groups: seq<EgressGroup>, t: Tables, p: Packet, mark: Mark)
    requires MarksAgree(groups, t, p.saddr, mark)
    ensures Walk(GroupMarkRules(groups), t, p) == Going(if Member(groups, t, p.saddr) then p.(mark := mark) else p)
  {
    hide Applies, InSet, GroupMarkRule, Act;
    if groups != [] {
      GroupMarkApplies(groups[0], t, p);
      assert GroupMarkRules(groups)[1..] == GroupMarkRules(groups[1..]);
      assert GroupMarkRules(groups)[0] == GroupMarkRule(groups[0]);
      assert forall i :: 0 <= i < |groups[1..]| ==> groups[1..][i] == groups[i + 1];
      assert Member(groups, t, p.saddr) <==>
        InSet(t, ClientSet(groups[0].id), p.saddr) || Member(groups[1..], t, p.saddr);
      if InSet(t, ClientSet(groups[0].id), p.saddr) {
        GroupMarks(groups[1..], t, p.(mark := mark), mark);
      } else {
        GroupMarks(groups[1..], t, p, mark);
      }
    }
  }

  const SAVE_MARK := Rule([], [SaveMark])

  lemma SaveMarkWalk(t: Tables, p: Packet)
    ensures Walk([SAVE_MARK], t, p) == Going(p.(ctMark := p.mark))
  {
    WalkOne(SAVE_MARK, t, p);
    assert SAVE_MARK.actions[1..] == [];
  }

  /** What the mangle chain does to a client's packet. */
  lemma PreroutingWalk(plan: FirewallPlan, t: Tables, p: Packet, mark: Mark)
    requires p.iif == plan.ingress
    requires plan.clientCidr.Some? && !Contains(plan.clientCidr.value, p.daddr)
    requires MarksAgree(plan.egresses, t, p.saddr, mark) && Member(plan.egresses, t, p.saddr)
    ensures FirstHolding(plan.internals, t, p.daddr).None? ==> After(PreroutingRules(plan), t, p) == Marked(p, mark)
    ensures FirstHolding(plan.internals, t, p.daddr).Some? ==>
      && FirstHolding(plan.internals, t, p.daddr).value < |plan.internals|
      && After(PreroutingRules(plan), t, p)
           == Marked(p, plan.internals[FirstHolding(plan.internals, t, p.daddr).value].mark)
  {
    hide Walk, NetworkMarkRules, GroupMarkRules, FirstHolding, Member, MarksAgree;
    var foreign, stay := Rule([IifIsNot(plan.ingress)], [Accept]),
      Rule([Destination(Block(plan.clientCidr))], [Return]);
    var n, g := NetworkMarkRules(plan.internals), GroupMarkRules(plan.egresses);
    WalkAppend([foreign] + n + [stay] + g, [SAVE_MARK], t, p);
    WalkAppend([foreign] + n + [stay], g, t, p);
    WalkAppend([foreign] + n, [stay], t, p);
    WalkAppend([foreign], n, t, p);
    WalkOne(foreign, t, p);
    assert foreign.matches[0] == IifIsNot(plan.ingress) && stay.matches[0] == Destination(Block(plan.clientCidr));
    NetworkMarks(plan.internals, t, p);
    WalkOne(stay, t, p);
    GroupMarks(plan.egresses, t, p, mark);
    SaveMarkWalk(t, p.(mark := mark));
  }

  // ---- the layout's marks ----

  /** The mark of an egress: a fixed one for direct, otherwise by layout position. */
  ghost predicate EgressMark(state: DesiredState, egress: string, mark: Mark) {
    if egress == DIRECT then mark == DIRECT_MARK
    else exists k ::
      0 <= k < |EgressOrder(state.tunnels)| && EgressOrder(state.tunnels)[k] == egress && mark == U32(FIRST_MARK + k)
  }

  lemma GroupMarkIs(state: DesiredState, uplink: string, i: nat)
    requires ValidRevision(state) && AddressesParse(state.devices) && i < |EgressGroups(state, uplink)|
    ensures EgressMark(state, EgressGroups(state, uplink)[i].id, EgressGroups(state, uplink)[i].mark)
  {
    hide ValidRevision, EgressGroups, DirectGroups, EgressOrder, AddressesParse, AddressesOf, Permitted, Proxied,
         EgressTunnelIds, EgressInterface, U32;
    GroupsShape(state, uplink);
    var direct := |DirectGroups(state, uplink)|;
    if i < direct {
      DirectGroupAt(state, uplink, i);
    } else {
      TunnelGroupAt(state, uplink, i - direct);
      EgressesAreTunnels(state);
    }
  }

  lemma EgressMarkUnique(state: DesiredState, egress: string, a: Mark, b: Mark)
    requires EgressMark(state, egress, a) && EgressMark(state, egress, b)
    ensures a == b
  {
    if egress != DIRECT {
      var j :| 0 <= j < |EgressOrder(state.tunnels)| && EgressOrder(state.tunnels)[j] == egress
        && a == U32(FIRST_MARK + j);
      var k :| 0 <= k < |EgressOrder(state.tunnels)| && EgressOrder(state.tunnels)[k] == egress
        && b == U32(FIRST_MARK + k);
      assert j == k;
    }
  }

  /** The device's own group is the only one that holds its address. */
  lemma DeviceGroup(state: DesiredState, uplink: string, upstreams: set<string>, c: Compiled, r: Ruleset, t: Tables,
      d: Device, a: Addr)
    returns (mark: Mark)
    requires Compiles(state, uplink, upstreams, c) && Installed(c.plan, r, t)
    requires d in state.devices && HasAddress(d, a)
    ensures EgressMark(state, d.egress, mark)
    ensures MarksAgree(c.plan.egresses, t, a, mark) && Member(c.plan.egresses, t, a)
  {
    hide Compiles, Installed, InSet, EgressGroups, InternalNetworks, HasLayout, EndpointClients, Endpoints,
         AddressesParse, EgressMark, ValidRevision;
    CompiledCarries(state, uplink, upstreams, c);
    RevisionDevices(state);
    var i := DeviceHasGroup(state, uplink, d);
    var groups := c.plan.egresses;
    mark := groups[i].mark;
    GroupMarkIs(state, uplink, i);
    ClientSetMeans(state, uplink, upstreams, c, r, t, d.egress, a);
    forall j | 0 <= j < |groups| && InSet(t, ClientSet(groups[j].id), a) ensures groups[j].mark == mark {
      ClientSetMeans(state, uplink, upstreams, c, r, t, groups[j].id, a);
      var e :| e in state.devices && e.egress == groups[j].id && HasAddress(e, a);
      assert e == d;
      GroupMarkIs(state, uplink, j);
      EgressMarkUnique(state, d.egress, groups[j].mark, mark);
    }
  }

  /** The first set that holds a destination is that of the network owning it. */
  lemma {:induction false} OwnerAt(state: DesiredState, uplink: string, upstreams: set<string>, c: Compiled, r: Ruleset,
      t: Tables, a: Addr, from: nat)
    requires Compiles(state, uplink, upstreams, c) && Installed(c.plan, r, t)
    requires |c.plan.internals| == |PrivateOrder(state.tunnels)| && from <= |c.plan.internals|
    ensures var first, owner := FirstHolding(c.plan.internals[from..], t, a),
      Owner(PrivateOrder(state.tunnels)[from..], t, a);
      && (first.Some? <==> owner.Some?)
      && (first.Some? ==>
           from + first.value < |c.plan.internals|
           && owner.value == PrivateOrder(state.tunnels)[from + first.value])
    decreases |c.plan.internals| - from
  {
    hide Compiles, Installed, InSet, PrivateOrder, Reaches, Learned, EgressGroups, InternalNetworks, HasLayout,
         EndpointClients, Endpoints, AddressesParse, ValidRevision, ClientsFit, NetworkRoutes, EgressOrder;
    if from < |c.plan.internals| {
      CompiledCarries(state, uplink, upstreams, c);
      NetworkAt(state, from);
      InternalSetMeans(state, uplink, upstreams, c, r, t, PrivateOrder(state.tunnels)[from], a);
      OwnerAt(state, uplink, upstreams, c, r, t, a, from + 1);
      assert c.plan.internals[from..][1..] == c.plan.internals[from + 1..];
      assert PrivateOrder(state.tunnels)[from..][1..] == PrivateOrder(state.tunnels)[from + 1..];
    }
  }

  // ------------------------------------------------------------------
  // Routes
  // ------------------------------------------------------------------

  lemma SpecsAreApart(state: DesiredState, uplink: string, upstreams: set<string>, c: Compiled)
    requires Compiles(state, uplink, upstreams, c)
    ensures SpecsApart(c.specs)
  {
    hide Compiles, TunnelOrder, ById, EgressGroups, InternalNetworks, HasLayout, EndpointClients, Endpoints,
         ValidRevision, AddressesParse;
    CompiledCarries(state, uplink, upstreams, c);
    forall k | 0 <= k < |c.specs| ensures c.specs[k].mark == FIRST_MARK + k
      && c.specs[k].routeTable == ROUTE_TABLE_BASE + k {
      LayoutAt(state.tunnels, c.specs, k);
    }
  }

  lemma RoutedBySpec(h: Host, specs: seq<EgressSpec>, k: nat, main: string)
    requires Sound(h, specs) && SpecsApart(specs) && k < |specs|
    ensures Routed(h, specs[k].mark, main) == if Steers(h.rules, h.tables, specs[k]) then specs[k].hostVeth else main
  {
    assert Coherent({RuleOf(specs[k])});
    assert RuleOf(specs[k]) in {RuleOf(specs[k])};
    if table :| RoutingRule(specs[k].mark, table) in h.rules && table in h.tables {
      assert table == specs[k].routeTable;
    }
  }

  lemma RoutedDirect(h: Host, main: string)
    requires Coherent(h.rules)
    ensures Routed(h, DIRECT_MARK, main) == main
  {
  }

  lemma LiveAt(state: DesiredState, uplink: string, upstreams: set<string>, c: Compiled, h: Host, k: nat)
    requires Compiles(state, uplink, upstreams, c) && k < |c.specs|
    ensures Live(h, c.specs, c.specs[k].tunnelId) <==> Steers(h.rules, h.tables, c.specs[k])
  {
    hide Compiles, Steers, EgressGroups, InternalNetworks, HasLayout, EndpointClients, Endpoints, ValidRevision,
         AddressesParse, ValidRevisionTunnel;
    CompiledCarries(state, uplink, upstreams, c);
    ValidTunnelsAreDistinct(state);
    forall j | 0 <= j < |c.specs| && c.specs[j].tunnelId == c.specs[k].tunnelId ensures j == k {
      if j != k { LayoutIsInjective(state.tunnels, c.specs, j, k); }
    }
  }

  /** A tunnel's mark leads into the tunnel when its table is there, and to main otherwise. */
  lemma RoutedTo(state: DesiredState, uplink: string, upstreams: set<string>, c: Compiled, h: Host, k: nat,
      main: string)
    requires Compiles(state, uplink, upstreams, c) && Sound(h, c.specs) && k < |TunnelOrder(state.tunnels)|
    ensures Routed(h, U32(FIRST_MARK + k), main) ==
      if Live(h, c.specs, TunnelOrder(state.tunnels)[k]) then EgressInterface(TunnelOrder(state.tunnels)[k]) else main
  {
    hide Compiles, Steers, EgressGroups, InternalNetworks, HasLayout, EndpointClients, Endpoints, ValidRevision,
         AddressesParse, TunnelOrder, Sound, SpecsApart, Routed, Live, EgressInterface;
    CompiledCarries(state, uplink, upstreams, c);
    EndpointCount(state, uplink, upstreams, c);
    LayoutAt(state.tunnels, c.specs, k);
    SpecsAreApart(state, uplink, upstreams, c);
    RoutedBySpec(h, c.specs, k, main);
    LiveAt(state, uplink, upstreams, c, h, k);
  }

  lemma OrderParts(tunnels: seq<Tunnel>, k: nat)
    ensures k < |EgressOrder(tunnels)| ==>
      k < |TunnelOrder(tunnels)| && TunnelOrder(tunnels)[k] == EgressOrder(tunnels)[k]
    ensures k < |PrivateOrder(tunnels)| ==>
      |EgressOrder(tunnels)| + k < |TunnelOrder(tunnels)|
        && TunnelOrder(tunnels)[|EgressOrder(tunnels)| + k] == PrivateOrder(tunnels)[k].id
  {
    hide EgressOrder, PrivateOrder;
  }

  // ------------------------------------------------------------------
  // The theorem
  // ------------------------------------------------------------------

  lemma RedirectsPass(plan: FirewallPlan, ref: SetRef, resolver: Option<Addr>, t: Tables, p: Packet)
    requires !AsksDns(p)
    ensures Walk(RedirectRules(plan, ref, resolver), t, p) == Going(p)
  {
    var rules := RedirectRules(plan, ref, resolver);
    assert rules == [rules[0]] + [rules[1]];
    WalkAppend([rules[0]], [rules[1]], t, p);
    WalkOne(rules[0], t, p);
    WalkOne(rules[1], t, p);
    assert rules[0].matches[2] == DestPort(Udp, 53) && rules[1].matches[2] == DestPort(Tcp, 53);
  }

  lemma {:induction false} DnsRedirectsPass(plan: FirewallPlan, groups: seq<EgressGroup>, t: Tables, p: Packet)
    requires !AsksDns(p)
    ensures Walk(DnsRedirects(plan, groups), t, p) == Going(p)
  {
    hide RedirectRules, AsksDns, ServedBy;
    if groups != [] {
      var last := groups[|groups| - 1];
      var served := ServedBy(plan, last);
      DnsRedirectsPass(plan, groups[..|groups| - 1], t, p);
      var rest := if served.None? then [] else RedirectRules(plan, DnsClientSet(last.id), served.value.resolver);
      WalkAppend(DnsRedirects(plan, groups[..|groups| - 1]), rest, t, p);
      if served.Some? { RedirectsPass(plan, DnsClientSet(last.id), served.value.resolver, t, p); }
    }
  }

  lemma NatPasses(plan: FirewallPlan, admitted: seq<Addr>, t: Tables, p: Packet)
    requires p.iif == plan.ingress && plan.ingress != plan.uplink && !AsksDns(p)
    ensures After(PreroutingNatRules(plan, admitted), t, p) == p
  {
    hide DnsRedirects, RedirectRules, AsksDns;
    var hub := if admitted != [] && plan.dnsAddress.Some?
      then RedirectRules(plan, AdmittedSet, plan.dnsAddress) else [];
    var quic := if plan.altUdp443
      then [Rule([IifIs(plan.uplink), DestPort(Udp, REALITY_PORT)], [Dnat(None, plan.listenPort)])] else [];
    WalkAppend(DnsRedirects(plan, plan.egresses) + hub, quic, t, p);
    WalkAppend(DnsRedirects(plan, plan.egresses), hub, t, p);
    DnsRedirectsPass(plan, plan.egresses, t, p);
    if hub != [] { RedirectsPass(plan, AdmittedSet, plan.dnsAddress, t, p); }
    if plan.altUdp443 {
      WalkOne(quic[0], t, p);
      assert quic[0].matches[0] == IifIs(plan.uplink);
    }
  }

  /** A packet that went out on its network's link is accepted just when the network allows it. */
  lemma IntoNetwork(state: DesiredState, uplink: string, upstreams: set<string>, c: Compiled, r: Ruleset, t: Tables,
      s: Tunnel, p: Packet)
    requires Compiles(state, uplink, upstreams, c) && Installed(c.plan, r, t) && UplinkApart(uplink)
    requires s in state.tunnels && s.role == PrivateNetworkRole && Owns(s, t, p.daddr)
    requires p.iif == INGRESS && p.oif == EgressInterface(s.id) && !p.established && !DnsOverTls(p)
    ensures Filter(r.forward, Dropped, t, p) == Accepted <==> Permits(state.devices, s, p.saddr)
  {
    hide Installed, CompiledOf, Filter, EgressInterface, Permits, Reaches, Learned, ByEgress, ToNetwork, ToProxy,
         ValidRevision, AddressesParse, ValidRevisionTunnel;
    InterfacesApart(s.id);
    LeavingIsPolicy(state, uplink, upstreams, c, r, t, p);
    ValidTunnelsAreDistinct(state);
    NotAnEgress(state, uplink, s, p);
    OnlyItself(state, s, t, p);
  }

  lemma NotAnEgress(state: DesiredState, uplink: string, s: Tunnel, p: Packet)
    requires ValidRevision(state) && UplinkApart(uplink) && s in state.tunnels && s.role == PrivateNetworkRole
    requires p.oif == EgressInterface(s.id)
    ensures !ByEgress(state, uplink, p)
  {
    ValidTunnelsAreDistinct(state);
    UplinkIsNoTunnel(uplink, s.id);
    if ByEgress(state, uplink, p) {
      var d :| d in state.devices && HasAddress(d, p.saddr) && p.oif == EgressDevice(d.egress, uplink);
      InterfaceInjective(d.egress, s.id);
      var j :| 0 <= j < |state.devices| && state.devices[j] == d;
      assert ValidChoice(state.devices[j], state.tunnels) && d.egress == s.id;
      assert ValidRevisionTunnel(s);
      var e :| e in state.tunnels && MayUse(d, e);
      SameTunnel(state.tunnels, e, s);
    }
  }

  lemma OnlyItself(state: DesiredState, s: Tunnel, t: Tables, p: Packet)
    requires DistinctTunnelIds(state.tunnels) && s in state.tunnels && s.role == PrivateNetworkRole
      && Owns(s, t, p.daddr)
    requires p.oif == EgressInterface(s.id)
    ensures ToNetwork(state, t, p) <==> Permits(state.devices, s, p.saddr)
    ensures ToProxy(state, p) ==> Permits(state.devices, s, p.saddr)
  {
    hide Permits, Reaches, Learned, TunnelOrder, EgressInterface, DistinctTunnelIds;
    forall q | q in state.tunnels && EgressInterface(q.id) == p.oif ensures q == s {
      InterfaceInjective(q.id, s.id);
      SameTunnel(state.tunnels, q, s);
    }
  }

  lemma ByOwnEgress(state: DesiredState, uplink: string, upstreams: set<string>, c: Compiled, r: Ruleset, t: Tables,
      d: Device, p: Packet)
    requires Compiles(state, uplink, upstreams, c) && Installed(c.plan, r, t)
    requires d in state.devices && HasAddress(d, p.saddr) && d.egress != DIRECT
    requires p.iif == INGRESS && p.oif == EgressInterface(d.egress) && !p.established && !DnsOverTls(p)
    ensures Filter(r.forward, Dropped, t, p) == Accepted
  {
    hide Compiles, Installed, Filter, EgressInterface, ToNetwork, ToProxy;
    InterfacesApart(d.egress);
    LeavingIsPolicy(state, uplink, upstreams, c, r, t, p);
    assert ByEgress(state, uplink, p);
  }

  lemma ToUplink(state: DesiredState, uplink: string, upstreams: set<string>, c: Compiled, r: Ruleset, t: Tables,
      d: Device, p: Packet)
    requires Compiles(state, uplink, upstreams, c) && Installed(c.plan, r, t) && UplinkApart(uplink)
    requires d in state.devices && HasAddress(d, p.saddr)
    requires p.iif == INGRESS && p.oif == uplink && !p.established && !DnsOverTls(p)
    ensures Filter(r.forward, Dropped, t, p) == Accepted <==> d.egress == DIRECT
  {
    hide Installed, Filter, CompiledOf, ValidRevision, AddressesParse, UplinkApart;
    OnlyDirectLeavesByUplink(state, uplink, upstreams, c, r, t, p);
    RevisionDevices(state);
  }

  lemma RenderedChains(plan: FirewallPlan, r: Ruleset, t: Tables) returns (admitted: seq<Addr>)
    requires Installed(plan, r, t)
    ensures r.prerouting == PreroutingRules(plan) && r.preroutingNat == PreroutingNatRules(plan, admitted)
  {
    hide SetsOf, ListsAdmitted, PreroutingRules, ForwardRules, InputRules, OutputMarkRules, OutputRules,
         PreroutingNatRules;
    admitted := InstalledSets(plan, r, t);
  }

  /** Past marking and translation, all that is left is routing and the forward chain. */
  lemma PathIsForwarded(plan: FirewallPlan, r: Ruleset, t: Tables, h: Host, p: Packet, marked: Packet)
    requires Installed(plan, r, t) && plan.ingress != plan.uplink
    requires marked == After(PreroutingRules(plan), t, p)
    requires marked.iif == plan.ingress && !AsksDns(marked) && marked.daddr !in h.local
    ensures var out := marked.(oif := Routed(h, marked.mark, MainRoute(plan, marked.daddr)));
      Path(plan, r, t, h, p) == if Filter(r.forward, Dropped, t, out) == Accepted then Leaves(out.oif) else Refused
  {
    hide Installed, PreroutingRules, PreroutingNatRules, AsksDns, Filter, Routed, After, MainRoute;
    var admitted := RenderedChains(plan, r, t);
    NatPasses(plan, admitted, t, marked);
  }

  /** What is left of a packet's path once its mark is known. */
  ghost function Sent(plan: FirewallPlan, r: Ruleset, t: Tables, p: Packet, mark: Mark, oif: string): Outcome {
    var out := Marked(p, mark).(oif := oif);
    if Filter(r.forward, Dropped, t, out) == Accepted then Leaves(oif) else Refused
  }

  lemma MarkedPath(state: DesiredState, uplink: string, upstreams: set<string>, c: Compiled, r: Ruleset, t: Tables,
      h: Host, d: Device, p: Packet)
    returns (mark: Mark)
    requires Compiles(state, uplink, upstreams, c) && Installed(c.plan, r, t) && UplinkApart(uplink)
      && Forwarded(state, h, d, p)
    ensures Path(c.plan, r, t, h, p) == Sent(c.plan, r, t, p, mark, Routed(h, mark, uplink))
    ensures var owner := Owner(PrivateOrder(state.tunnels), t, p.daddr);
      && (owner.None? ==> EgressMark(state, d.egress, mark))
      && (owner.Some? ==> exists k ::
           && 0 <= k < |PrivateOrder(state.tunnels)| && PrivateOrder(state.tunnels)[k] == owner.value
           && mark == U32(FIRST_MARK + |EgressOrder(state.tunnels)| + k))
  {
    hide Compiles, Installed, EgressMark, MarksAgree, Member, PreroutingRules, After, Filter, Routed, Path,
         PrivateOrder, EgressOrder, FirstHolding, Owner, EgressGroups, InternalNetworks, HasLayout, EndpointClients,
         Endpoints, DnsDestinationsOf, PortACLs, AddressBook, ValidRevision, AddressesParse, NetworkFits, UplinkApart,
         U32, HasAddress;
    CompiledCarries(state, uplink, upstreams, c);
    PlanFields(state, uplink, upstreams, c);
    UplinkIsNotIngress(uplink);
    mark := DeviceGroup(state, uplink, upstreams, c, r, t, d, p.saddr);
    PreroutingWalk(c.plan, t, p, mark);
    NetworkCount(state);
    OwnerAt(state, uplink, upstreams, c, r, t, p.daddr, 0);
    assert c.plan.internals[0..] == c.plan.internals && PrivateOrder(state.tunnels)[0..] == PrivateOrder(state.tunnels);
    var first := FirstHolding(c.plan.internals, t, p.daddr);
    if first.Some? {
      NetworkAt(state, first.value);
      mark := c.plan.internals[first.value].mark;
    }
    PathIsForwarded(c.plan, r, t, h, p, Marked(p, mark));
  }

  /** Steering, end to end: with each tunnel's policy table either in place or missing, a client's
  packet meets exactly the fate its destination, its sender's permissions and its sender's egress
  give it.  A device bound to a tunnel is never sent by the uplink. */
  lemma SteeringIsExact(state: DesiredState, uplink: string, upstreams: set<string>, c: Compiled, r: Ruleset, t: Tables,
      h: Host, d: Device, p: Packet)
    requires Compiles(state, uplink, upstreams, c) && Installed(c.plan, r, t) && UplinkApart(uplink)
    requires Sound(h, c.specs) && Forwarded(state, h, d, p)
    ensures Path(c.plan, r, t, h, p) == Fate(state, uplink, c.specs, h, t, d, p)
    ensures d.egress != DIRECT ==> Path(c.plan, r, t, h, p) != Leaves(uplink)
  {
    hide Compiles, Installed, Filter, Routed, Path, PrivateOrder, EgressOrder, TunnelOrder, Owner, Owns, Live, Sound,
         Permits, EgressInterface, UplinkApart, HasAddress, U32, DnsOverTls, AsksDns, Contains;
    var mark := MarkedPath(state, uplink, upstreams, c, r, t, h, d, p);
    var owner := Owner(PrivateOrder(state.tunnels), t, p.daddr);
    var oif := Routed(h, mark, uplink);
    var out := Marked(p, mark).(oif := oif);
    forall id ensures uplink != EgressInterface(id) { UplinkIsNoTunnel(uplink, id); }
    if owner.Some? {
      var k :| && 0 <= k < |PrivateOrder(state.tunnels)| && PrivateOrder(state.tunnels)[k] == owner.value
               && mark == U32(FIRST_MARK + |EgressOrder(state.tunnels)| + k);
      OrderParts(state.tunnels, k);
      RoutedTo(state, uplink, upstreams, c, h, |EgressOrder(state.tunnels)| + k, uplink);
      if Live(h, c.specs, owner.value.id) {
        OwnerOwns(state, uplink, upstreams, c, t, p.daddr, k);
        DnsOverTlsKept(p, out);
        IntoNetwork(state, uplink, upstreams, c, r, t, owner.value, out);
        return;
      }
    } else if d.egress != DIRECT {
      var k :| 0 <= k < |EgressOrder(state.tunnels)| && EgressOrder(state.tunnels)[k] == d.egress
        && mark == U32(FIRST_MARK + k);
      OrderParts(state.tunnels, k);
      RoutedTo(state, uplink, upstreams, c, h, k, uplink);
      if Live(h, c.specs, d.egress) {
        DnsOverTlsKept(p, out);
        ByOwnEgress(state, uplink, upstreams, c, r, t, d, out);
        return;
      }
    } else {
      SoundIsCoherent(h, c.specs);
      RoutedDirect(h, uplink);
    }
    DnsOverTlsKept(p, out);
    ToUplink(state, uplink, upstreams, c, r, t, d, out);
  }

  lemma SoundIsCoherent(h: Host, specs: seq<EgressSpec>)
    requires Sound(h, specs)
    ensures Coherent(h.rules)
  {
  }

  lemma DnsOverTlsKept(p: Packet, q: Packet)
    requires q.protocol == p.protocol && q.dport == p.dport
    ensures DnsOverTls(p) <==> DnsOverTls(q)
  {
  }

  lemma {:induction false} OwnerIn(networks: seq<Tunnel>, t: Tables, a: Addr)
    ensures Owner(networks, t, a).Some? ==>
      Owner(networks, t, a).value in networks && Owns(Owner(networks, t, a).value, t, a)
  {
    hide Owns;
    if networks != [] { OwnerIn(networks[1..], t, a); }
  }

  lemma OwnerOwns(state: DesiredState, uplink: string, upstreams: set<string>, c: Compiled, t: Tables, a: Addr, k: nat)
    requires Compiles(state, uplink, upstreams, c) && k < |PrivateOrder(state.tunnels)|
    requires Owner(PrivateOrder(state.tunnels), t, a) == Some(PrivateOrder(state.tunnels)[k])
    ensures var s := PrivateOrder(state.tunnels)[k]; s in state.tunnels && s.role == PrivateNetworkRole && Owns(s, t, a)
  {
    hide CompiledOf, ValidRevision, PrivateOrder, Owns;
    PrivateMember(state, k);
    OwnerIn(PrivateOrder(state.tunnels), t, a);
  }
}
