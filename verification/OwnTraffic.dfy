/** How the hub's own packets are marked, against how its clients' are.

A client's packet takes the first private network that holds its destination, because its rule
returns; the hub's own takes the last, because the next rule may mark it again. */
module OwnTraffic {
  import opened Netip
  import opened Domain
  import opened Nftables
  import opened Renderer
  import opened FirewallPlanner
  import opened Validation
  import opened Revision
  import opened EgressPlanner
  import opened Compiler
  import opened PlanFacts
  import opened PolicySets
  import opened Steering

  /** The last network whose set holds an address. */
  ghost function LastHolding(networks: seq<InternalNetwork>, t: Tables, a: Addr): (r: Option<nat>)
    ensures r.Some? ==> r.value < |networks| && InSet(t, InternalSet(networks[r.value].tunnelId), a)
    ensures forall i :: (if r.Some? then r.value else -1) < i < |networks| ==>
      !InSet(t, InternalSet(networks[i].tunnelId), a)
  {
    if networks == [] then None
    else
      var n := |networks| - 1;
      if InSet(t, InternalSet(networks[n].tunnelId), a) then Some(n) else LastHolding(networks[..n], t, a)
  }

  lemma DestinationMarkApplies(n: InternalNetwork, t: Tables, p: Packet)
    ensures Walk([DestinationMarkRule(n)], t, p)
      == Going(if InSet(t, InternalSet(n.tunnelId), p.daddr) then p.(mark := n.mark) else p)
  {
    hide InSet;
    var rule := DestinationMarkRule(n);
    WalkOne(rule, t, p);
    assert Matches(rule.matches[0], t, p) <==> InSet(t, InternalSet(n.tunnelId), p.daddr);
    assert rule.actions[1..] == [];
  }

  lemma {:induction false} DestinationMarks(networks: seq<InternalNetwork>, t: Tables, p: Packet)
    ensures var last := LastHolding(networks, t, p.daddr);
      Walk(DestinationMarkRules(networks), t, p)
        == Going(if last.Some? then p.(mark := networks[last.value].mark) else p)
  {
    hide InSet, DestinationMarkRule;
    if networks != [] {
      var n := |networks| - 1;
      DestinationMarks(networks[..n], t, p);
      assert DestinationMarkRules(networks) == DestinationMarkRules(networks[..n]) + [DestinationMarkRule(networks[n])];
      WalkAppend(DestinationMarkRules(networks[..n]), [DestinationMarkRule(networks[n])], t, p);
      DestinationMarkApplies(networks[n], t, Walk(DestinationMarkRules(networks[..n]), t, p).packet);
    }
  }

  /** A packet of the hub's own that has not chosen its way out is marked for the last private
  network holding its destination, and left unmarked when there is none. */
  lemma OwnTrafficIsMarked(plan: FirewallPlan, t: Tables, p: Packet)
    requires p.mark == 0
    ensures var last := LastHolding(plan.internals, t, p.daddr);
      After(OutputMarkRules(plan), t, p) == if last.Some? then p.(mark := plan.internals[last.value].mark) else p
  {
    hide InSet, DestinationMarkRules;
    var guard := Rule([Match.Marked], [Return]);
    if plan.internals != [] {
      WalkAppend([guard], DestinationMarkRules(plan.internals), t, p);
      WalkOne(guard, t, p);
      assert guard.matches[0] == Match.Marked;
      DestinationMarks(plan.internals, t, p);
    }
  }

  lemma {:induction false} FirstIsFirst(networks: seq<InternalNetwork>, t: Tables, a: Addr)
    ensures var first := FirstHolding(networks, t, a);
      && (first.Some? ==> first.value < |networks| && InSet(t, InternalSet(networks[first.value].tunnelId), a))
      && forall i :: 0 <= i < |networks| && (first.Some? ==> i < first.value) ==>
           !InSet(t, InternalSet(networks[i].tunnelId), a)
  {
    hide InSet;
    if networks != [] { FirstIsFirst(networks[1..], t, a); }
  }

  /** The hub's own traffic and a client's agree on the network of a destination just when no two
  networks' sets hold it. */
  lemma OneOwnerIffAgreed(plan: FirewallPlan, t: Tables, a: Addr)
    ensures FirstHolding(plan.internals, t, a) == LastHolding(plan.internals, t, a) <==>
      forall i, j :: 0 <= i < j < |plan.internals| ==>
        !(InSet(t, InternalSet(plan.internals[i].tunnelId), a) && InSet(t, InternalSet(plan.internals[j].tunnelId), a))
  {
    hide InSet, LastHolding, FirstHolding;
    FirstIsFirst(plan.internals, t, a);
    var first, last := FirstHolding(plan.internals, t, a), LastHolding(plan.internals, t, a);
    if first != last {
      assert first.Some? && last.Some? && first.value < last.value;
    }
  }

  /** The network declares the address, by a route or as a resolver, or its resolver has learned it. */
  ghost predicate Claims(t: Tables, s: Tunnel, a: Addr) { Reaches(s, a) || Learned(t, s.id, a) }

  /** Said of the revision: they agree just when no two private networks claim the address. */
  lemma OneOwnerIffUnshared(state: DesiredState, uplink: string, upstreams: set<string>, c: Compiled, r: Ruleset,
      t: Tables, a: Addr)
    requires Compiles(state, uplink, upstreams, c) && Installed(c.plan, r, t)
    ensures FirstHolding(c.plan.internals, t, a) == LastHolding(c.plan.internals, t, a) <==>
      forall m, n :: m in PrivateOrder(state.tunnels) && n in PrivateOrder(state.tunnels) && m != n ==>
        !(Claims(t, m, a) && Claims(t, n, a))
  {
    hide Compiles, Installed, EgressGroups, InternalNetworks, HasLayout, EndpointClients, Endpoints, ValidRevision,
         AddressesParse, PrivateOrder, EgressOrder, ClientsFit, NetworkRoutes, InSet, FirstHolding, LastHolding,
         Reaches, Learned;
    CompiledCarries(state, uplink, upstreams, c);
    ValidTunnelsAreDistinct(state);
    PrivateOrderMembers(state.tunnels);
    NetworkCount(state);
    var order := PrivateOrder(state.tunnels);
    forall i | 0 <= i < |order|
      ensures InSet(t, InternalSet(c.plan.internals[i].tunnelId), a) <==> Claims(t, order[i], a)
    {
      NetworkAt(state, i);
      InternalSetMeans(state, uplink, upstreams, c, r, t, order[i], a);
    }
    OneOwnerIffAgreed(c.plan, t, a);
    ApartInOrder(t, order, a);
  }

  lemma ApartInOrder(t: Tables, order: seq<Tunnel>, a: Addr)
    requires DistinctTunnelIds(order)
    ensures (forall i, j :: 0 <= i < j < |order| ==> !(Claims(t, order[i], a) && Claims(t, order[j], a))) <==>
      forall m, n :: m in order && n in order && m != n ==> !(Claims(t, m, a) && Claims(t, n, a))
  {
    hide Claims;
    if m, n :| m in order && n in order && m != n && Claims(t, m, a) && Claims(t, n, a) {
      var i, j :| 0 <= i < |order| && 0 <= j < |order| && order[i] == m && order[j] == n;
      assert i < j || j < i;
    }
    if i, j :| 0 <= i < j < |order| && Claims(t, order[i], a) && Claims(t, order[j], a) {
      assert order[i].id != order[j].id;
    }
  }

  /** A resolver two networks both name is such an address, with nothing learned. */
  lemma SharedResolver(state: DesiredState, uplink: string, upstreams: set<string>, c: Compiled, r: Ruleset, t: Tables,
      a: Addr, m: Tunnel, n: Tunnel)
    requires Compiles(state, uplink, upstreams, c) && Installed(c.plan, r, t)
    requires m in PrivateOrder(state.tunnels) && n in PrivateOrder(state.tunnels) && m != n
    requires Some(a) in m.dnsServers && Some(a) in n.dnsServers
    ensures FirstHolding(c.plan.internals, t, a) != LastHolding(c.plan.internals, t, a)
  {
    hide Compiles, Installed, PrivateOrder, FirstHolding, LastHolding;
    OneOwnerIffUnshared(state, uplink, upstreams, c, r, t, a);
    assert Claims(t, m, a) && Claims(t, n, a);
  }
}
