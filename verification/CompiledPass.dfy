/** What a compiled revision gives the transition: the mapping it records is the one the devices are
answered by, and the resolvers it waits for are the ones the plan needs. */
module CompiledPass {
  import opened Netip
  import opened Ordering
  import opened Domain
  import opened Links
  import opened FirewallPlanner
  import opened Validation
  import opened Revision
  import opened EgressPlanner
  import opened DnsPlanner
  import opened Compiler
  import opened Renderer
  import opened PlanFacts
  import opened PolicySets
  import opened KillSwitch
  import Steering
  import opened DnsAgreement
  import opened DnsRecord
  import opened DnsTransition
  import opened ResolverTexts

  lemma GroupResolver(state: DesiredState, uplink: string, upstreams: set<string>, c: Compiled, i: nat)
    requires Compiles(state, uplink, upstreams, c) && i < |c.plan.egresses| && c.plan.egresses[i].addresses != []
    ensures ResolverFor(c.plan, c.plan.egresses[i]).Some?
    ensures Answers(state, c.plan.egresses[i].id, ResolverFor(c.plan, c.plan.egresses[i]).value)
  {
    hide Compiles, Answers, DestinationFor;
    GroupIsServed(state, uplink, upstreams, c, i);
  }

  /** Who is mapped, and to which group's resolver. */
  lemma MappedBy(state: DesiredState, uplink: string, upstreams: set<string>, c: Compiled, client: Addr)
    returns (i: nat)
    requires Compiles(state, uplink, upstreams, c) && client in MappingOf(c.plan)
    ensures i < |c.plan.egresses| && Chose(state.devices, c.plan.egresses[i].id, client)
    ensures MappingOf(c.plan)[client].Some? && Answers(state, c.plan.egresses[i].id, MappingOf(c.plan)[client].value)
  {
    hide Compiles, EgressGroups, InternalNetworks, HasLayout, EndpointClients, Endpoints, ValidRevision, AddressesParse,
         Answers, ResolverFor, ClientsFit, Chose, EgressDevice, MappingFrom;
    CompiledCarries(state, uplink, upstreams, c);
    MappingFromIs(c.plan, c.plan.egresses, client);
    i :| 0 <= i < |c.plan.egresses| && client in c.plan.egresses[i].addresses
         && MappingFrom(c.plan, c.plan.egresses)[client] == ResolverFor(c.plan, c.plan.egresses[i]);
    GroupsFit(state, uplink, i);
    GroupResolver(state, uplink, upstreams, c, i);
  }

  lemma DeviceIsMapped(state: DesiredState, uplink: string, upstreams: set<string>, c: Compiled, d: Device,
      client: Addr)
    requires Compiles(state, uplink, upstreams, c) && d in state.devices && HasAddress(d, client)
    ensures client in MappingOf(c.plan)
  {
    hide Compiles, EgressGroups, InternalNetworks, HasLayout, EndpointClients, Endpoints, ValidRevision, AddressesParse,
         ClientsFit, HasAddress, EgressDevice, MappingFrom;
    CompiledCarries(state, uplink, upstreams, c);
    MappingFromIs(c.plan, c.plan.egresses, client);
    var i := DeviceHasGroup(state, uplink, d);
    GroupsFit(state, uplink, i);
    assert Chose(state.devices, c.plan.egresses[i].id, client);
  }

  /** The recorded mapping sends each device to the address that answers its egress. */
  lemma MappingAgrees(state: DesiredState, uplink: string, upstreams: set<string>, c: Compiled, d: Device, client: Addr,
      a: Addr)
    requires Compiles(state, uplink, upstreams, c) && d in state.devices && HasAddress(d, client)
      && Answers(state, d.egress, a)
    ensures client in MappingOf(c.plan) && MappingOf(c.plan)[client] == Some(a)
  {
    hide CompiledOf, MappingOf, ValidRevision, Answers, HasAddress;
    DeviceIsMapped(state, uplink, upstreams, c, d, client);
    var i := MappedBy(state, uplink, upstreams, c, client);
    SameAddressSameDevice(state, d, c.plan.egresses[i].id, client);
    AnswersUnique(state, d.egress, a, MappingOf(c.plan)[client].value);
  }

  lemma {:induction false} PrivateResolversAre(networks: seq<InternalNetwork>, specs: seq<EgressSpec>)
    requires forall n :: n in networks ==> SpecOf(specs, n.tunnelId).Some?
    ensures (set r | r in PrivateResolvers(networks, specs) :: PrivateUnit(r.tunnelId)) == PrivateUnits(networks)
  {
    hide SpecOf;
    if networks != [] {
      var front, last := networks[..|networks| - 1], networks[|networks| - 1];
      assert networks == front + [last];
      PrivateResolversAre(front, specs);
      var one := if last.zones == [] || SpecOf(specs, last.tunnelId).None? then []
                 else [DnsPrivateResolver(last.tunnelId, SpecOf(specs, last.tunnelId).value.namespace,
                                          SpecOf(specs, last.tunnelId).value.peerAddress, last.resolvers)];
      assert PrivateResolvers(networks, specs) == PrivateResolvers(front, specs) + one;
      assert PrivateUnits(networks) == PrivateUnits(front)
        + (if last.zones == [] then {} else {PrivateUnit(last.tunnelId)});
    }
  }

  lemma {:induction false} SpecFound(specs: seq<EgressSpec>, k: nat)
    requires k < |specs|
    ensures SpecOf(specs, specs[k].tunnelId).Some?
  {
    if specs[0].tunnelId != specs[k].tunnelId {
      assert specs[1..][k - 1] == specs[k];
      SpecFound(specs[1..], k - 1);
    }
  }

  lemma NetworkHasSpec(state: DesiredState, uplink: string, upstreams: set<string>, c: Compiled, n: InternalNetwork)
    requires Compiles(state, uplink, upstreams, c) && n in c.plan.internals
    ensures SpecOf(c.specs, n.tunnelId).Some?
  {
    hide Compiles, EgressGroups, InternalNetworks, HasLayout, EndpointClients, Endpoints, ValidRevision, AddressesParse,
         TunnelOrder, PrivateOrder, EgressOrder, ClientsFit, NetworkRoutes, SpecOf;
    CompiledCarries(state, uplink, upstreams, c);
    NetworkCount(state);
    EndpointCount(state, uplink, upstreams, c);
    var i :| 0 <= i < |c.plan.internals| && c.plan.internals[i] == n;
    NetworkAt(state, i);
    Steering.OrderParts(state.tunnels, i);
    var k := |EgressOrder(state.tunnels)| + i;
    LayoutAt(state.tunnels, c.specs, k);
    SpecFound(c.specs, k);
  }

  lemma PrivatePart(state: DesiredState, uplink: string, upstreams: set<string>, c: Compiled)
    requires Compiles(state, uplink, upstreams, c)
    ensures c.dns.privateResolvers == Sort(PrivateResolverLe, PrivateResolvers(c.plan.internals, c.specs))
  {
    hide EgressGroups, InternalNetworks, DnsDestinationsOf, PortACLs, SpecsOf, Endpoints, NetworkClients, GroupClients,
         ById, PlanOf, PlacementsOf, ValidRevision, AddressesParse, GroupsHaveSpecs, EgressResolvers, AllZoneRoutes,
         PrivateResolvers;
  }

  function EgressUnits(resolvers: seq<DnsEgressResolver>): set<Unit> {
    (set r | r in resolvers && r.namespace.Some? :: PublicUnit(r.egressId))
      + (set r | r in resolvers :: ClientUnit(r.egressId))
  }

  lemma EgressUnitsAdd(resolvers: seq<DnsEgressResolver>, r: DnsEgressResolver)
    ensures EgressUnits(resolvers + [r]) ==
      EgressUnits(resolvers)
        + (if r.namespace.Some? then {ClientUnit(r.egressId), PublicUnit(r.egressId)} else {ClientUnit(r.egressId)})
  {
  }

  lemma ClientUnitsAdd(groups: seq<EgressGroup>, g: EgressGroup)
    ensures ClientUnits(groups + [g]) == ClientUnits(groups) +
      (if g.addresses == [] then {} else if g.id == DIRECT then {ClientUnit(g.id)}
        else {ClientUnit(g.id), PublicUnit(g.id)})
  {
  }

  lemma {:induction false} EgressUnitsAre(groups: seq<EgressGroup>, specs: seq<EgressSpec>, dns: Addr)
    requires GroupsHaveSpecs(groups, specs, dns)
    ensures EgressUnits(EgressResolvers(groups, specs, dns)) == ClientUnits(groups)
  {
    hide SpecOf, Sort, EgressUnits, ClientUnits;
    if groups == [] {
      NoUnits();
    } else {
      var front, last := groups[..|groups| - 1], groups[|groups| - 1];
      assert groups == front + [last];
      assert GroupsHaveSpecs(front, specs, dns) by { assert forall i :: 0 <= i < |front| ==> front[i] == groups[i]; }
      EgressUnitsAre(front, specs, dns);
      ClientUnitsAdd(front, last);
      if last.addresses == [] {
        assert EgressResolvers(groups, specs, dns) == EgressResolvers(front, specs, dns) + [];
        assert EgressResolvers(front, specs, dns) + [] == EgressResolvers(front, specs, dns);
      } else {
        EgressUnitsAdd(EgressResolvers(front, specs, dns), EgressResolverFor(last, specs, dns).value);
      }
    }
  }

  lemma NoUnits()
    ensures EgressUnits([]) == {} && ClientUnits([]) == {}
  {
  }

  /** The resolvers the DNS plan names are those the firewall plan's clients and zones need. */
  lemma UnitsAgree(state: DesiredState, uplink: string, upstreams: set<string>, c: Compiled)
    requires Compiles(state, uplink, upstreams, c)
    ensures UnitsOf(c.dns) == UnitsFor(c.plan)
  {
    hide Compiles, PrivateResolvers, EgressResolvers, GroupsHaveSpecs, PrivateUnits, ClientUnits, SpecOf, Sort;
    PrivatePart(state, uplink, upstreams, c);
    DnsPlanParts(state, uplink, upstreams, c);
    forall n | n in c.plan.internals ensures SpecOf(c.specs, n.tunnelId).Some? {
      NetworkHasSpec(state, uplink, upstreams, c, n);
    }
    PrivateResolversAre(c.plan.internals, c.specs);
    EgressUnitsAre(c.plan.egresses, c.specs, state.hub.dnsAddress.value);
    SameElements(PrivateResolvers(c.plan.internals, c.specs), c.dns.privateResolvers);
    SameElements(EgressResolvers(c.plan.egresses, c.specs, state.hub.dnsAddress.value), c.dns.egressResolvers);
  }

  lemma ClientsLieWithin(state: DesiredState, a: Addr)
    requires ValidRevision(state) && exists d :: d in state.devices && HasAddress(d, a)
    ensures state.hub.clientCidr.Some? && Contains(state.hub.clientCidr.value, a)
  {
    var d :| d in state.devices && HasAddress(d, a);
    var i :| 0 <= i < |state.devices| && state.devices[i] == d;
    assert ValidDevice(state.hub, state.devices[i]);
  }

  /** Every compiled revision makes a pass the transition's theorems apply to, with the DNS plan that
  goes with its firewall plan. */
  lemma CompiledPassIsProper(state: DesiredState, uplink: string, upstreams: set<string>, c: Compiled)
    requires Compiles(state, uplink, upstreams, c)
    ensures Proper(Pass(c.plan, c.dns)) && DnsFor(c.plan) == c.dns
  {
    hide Compiles, MappingOf, UnitsOf, UnitsFor, ValidRevision, Answers, AddressesParse, PortACLs, AddressBook,
         DnsDestinationsOf, HasAddress, Contains, OneText, DnsFor;
    PlanFields(state, uplink, upstreams, c);
    CompilesIsValid(state, uplink, upstreams, c);
    CompiledHasOneText(state, uplink, upstreams, c);
    DnsForIs(state, uplink, upstreams, c);
    UnitsAgree(state, uplink, upstreams, c);
    forall a | a in MappingOf(c.plan) ensures MappingOf(c.plan)[a].Some? && Contains(state.hub.clientCidr.value, a) {
      var i := MappedBy(state, uplink, upstreams, c, a);
      ClientsLieWithin(state, a);
    }
  }
}
