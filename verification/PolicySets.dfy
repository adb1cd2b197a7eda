/** The sets of the installed table, said of the revision it was compiled from. */
module PolicySets {
  import opened Netip
  import opened Ordering
  import opened Domain
  import opened Links
  import opened FirewallPlanner
  import opened Validation
  import opened Revision
  import opened EgressPlanner
  import opened DnsPlanner
  import opened Compiler
  import opened Nftables
  import opened Renderer
  import opened PlanFacts
  import opened SetFacts

  /** A valid revision, and what it compiles to on this host. */
  ghost predicate Compiles(state: DesiredState, uplink: string, upstreams: set<string>, c: Compiled) {
    ValidRevision(state) && CompiledOf(state, uplink, upstreams) == Ok(c)
  }

  /** The table holds the rendered sets; the resolver may have added to the private networks'. */
  ghost predicate Installed(plan: FirewallPlan, r: Ruleset, t: Tables) {
    Renders(plan, r) && t.sets == r.sets
  }

  lemma InstalledSets(plan: FirewallPlan, r: Ruleset, t: Tables) returns (admitted: seq<Addr>)
    requires Installed(plan, r, t)
    ensures ListsAdmitted(admitted, plan.egresses) && RendersWith(plan, admitted, r) && t.sets == SetsOf(plan, admitted)
  {
    admitted :| ListsAdmitted(admitted, plan.egresses) && RendersWith(plan, admitted, r);
  }

  lemma CompiledCarries(state: DesiredState, uplink: string, upstreams: set<string>, c: Compiled)
    requires Compiles(state, uplink, upstreams, c)
    ensures ValidRevision(state) && AddressesParse(state.devices)
    ensures c.plan.egresses == EgressGroups(state, uplink) && c.plan.internals == InternalNetworks(state)
    ensures HasLayout(state.tunnels, c.specs)
    ensures c.plan.socks == Endpoints(c.specs, EndpointClients(c.plan))
  {
    hide ValidRevision, HasLayout, CompiledOf, PlanOf, EgressGroups, InternalNetworks, EndpointClients, PlacementsOf,
         SpecsOf, AddressesParse, Endpoints;
    CompiledParts(state, uplink, upstreams, c);
    LayoutDependsOnTunnels(state, uplink, upstreams);
  }

  // ---- a device's egress ----

  lemma GroupsHold(state: DesiredState, uplink: string, id: string, a: Addr)
    requires ValidRevision(state) && AddressesParse(state.devices)
    ensures GroupHas(EgressGroups(state, uplink), id, a) <==> Chose(state.devices, id, a)
  {
    hide ValidRevision, EgressGroups, AddressesParse;
    var groups := EgressGroups(state, uplink);
    if GroupHas(groups, id, a) {
      var i :| 0 <= i < |groups| && groups[i].id == id && a in groups[i].addresses;
      GroupsFit(state, uplink, i);
    }
    if Chose(state.devices, id, a) {
      var d :| d in state.devices && d.egress == id && HasAddress(d, a);
      var i := DeviceHasGroup(state, uplink, d);
      GroupsFit(state, uplink, i);
    }
  }

  lemma ClientSetMeans(state: DesiredState, uplink: string, upstreams: set<string>, c: Compiled, r: Ruleset, t: Tables,
      id: string, a: Addr)
    requires Compiles(state, uplink, upstreams, c) && Installed(c.plan, r, t)
    ensures InSet(t, ClientSet(id), a) <==> Chose(state.devices, id, a)
  {
    hide Compiles, Installed, GroupHas, Chose, SetsOf, EgressGroups, InternalNetworks, ListsAdmitted, RendersWith,
         HasLayout, Declared, EndpointClients, Endpoints;
    CompiledCarries(state, uplink, upstreams, c);
    var admitted := InstalledSets(c.plan, r, t);
    InClientSet(c.plan, admitted, id, a);
    GroupsHold(state, uplink, id, a);
  }

  // ---- a tunnel's permitted devices ----

  lemma FitsAgree(state: DesiredState, s: Tunnel, t: Tunnel, clients: seq<Addr>)
    requires DistinctTunnelIds(state.tunnels) && s in state.tunnels && t in state.tunnels && s.id == t.id
    requires ClientsFit(state, s, clients)
    ensures ClientsFit(state, t, clients)
  {
    SameTunnel(state.tunnels, s, t);
  }

  lemma GroupClientsFit(state: DesiredState, uplink: string, t: Tunnel, i: nat)
    requires ValidRevision(state) && AddressesParse(state.devices) && t in state.tunnels
    requires i < |EgressGroups(state, uplink)| && EgressGroups(state, uplink)[i].id == t.id
    ensures ClientsFit(state, t, EgressGroups(state, uplink)[i].clients)
  {
    hide ValidRevision, EgressGroups, ClientsFit, AddressesParse;
    var g := EgressGroups(state, uplink)[i];
    GroupsFit(state, uplink, i);
    ValidTunnelsAreDistinct(state);
    assert ValidRevisionTunnel(t);
    var s :| s in state.tunnels && s.role == EgressRole && s.id == g.id && ClientsFit(state, s, g.clients);
    FitsAgree(state, s, t, g.clients);
  }

  lemma NetworkClientsFit(state: DesiredState, t: Tunnel, i: nat)
    requires ValidRevision(state) && AddressesParse(state.devices) && t in state.tunnels
    requires i < |InternalNetworks(state)| && InternalNetworks(state)[i].tunnelId == t.id
    ensures ClientsFit(state, t, InternalNetworks(state)[i].clients)
  {
    hide ValidRevision, InternalNetworks, PrivateOrder, EgressOrder, ClientsFit, AddressesParse;
    NetworkCount(state);
    NetworkAt(state, i);
    ValidTunnelsAreDistinct(state);
    FitsAgree(state, PrivateOrder(state.tunnels)[i], t, InternalNetworks(state)[i].clients);
  }

  lemma NetworkCount(state: DesiredState)
    requires ValidRevision(state) && AddressesParse(state.devices)
    ensures |InternalNetworks(state)| == |PrivateOrder(state.tunnels)|
  {
    hide ValidRevision, PrivateOrder, EgressOrder, AddressesParse, InternalNetworks;
    NetworksShape(state);
  }

  lemma {:induction false} GroupClientsFrom(groups: seq<EgressGroup>, id: string)
    ensures id in GroupClients(groups) <==> exists i :: 0 <= i < |groups| && groups[i].id == id
    ensures id in GroupClients(groups) ==> exists i ::
      0 <= i < |groups| && groups[i].id == id && GroupClients(groups)[id] == groups[i].clients
  {
    if groups != [] {
      var front, n := groups[..|groups| - 1], |groups| - 1;
      GroupClientsFrom(front, id);
      if id in GroupClients(front) {
        var i :| 0 <= i < |front| && front[i].id == id && GroupClients(front)[id] == front[i].clients;
        assert groups[i] == front[i];
      }
      if i :| 0 <= i < |groups| && groups[i].id == id && i < n {
        assert front[i].id == id;
      }
      assert groups[n].id == id ==> GroupClients(groups)[id] == groups[n].clients;
    }
  }

  lemma {:induction false} NetworkClientsFrom(networks: seq<InternalNetwork>, before: map<string, seq<Addr>>,
      id: string)
    ensures id in NetworkClients(networks, before) <==>
      id in before || exists i :: 0 <= i < |networks| && networks[i].tunnelId == id
    ensures id in NetworkClients(networks, before) ==>
      || (id in before && NetworkClients(networks, before)[id] == before[id])
      || exists i :: 0 <= i < |networks| && networks[i].tunnelId == id
           && NetworkClients(networks, before)[id] == networks[i].clients
  {
    if networks != [] {
      var front, n := networks[..|networks| - 1], |networks| - 1;
      NetworkClientsFrom(front, before, id);
      assert forall i :: 0 <= i < |front| ==> networks[i] == front[i];
      if i :| 0 <= i < |networks| && networks[i].tunnelId == id && i < n {
        assert front[i].tunnelId == id;
      }
      if i :| 0 <= i < |front| && front[i].tunnelId == id {
        assert networks[i].tunnelId == id;
      }
      assert networks[n].tunnelId == id ==> NetworkClients(networks, before)[id] == networks[n].clients;
    }
  }

  /** The tunnel is placed in the plan, as an egress group or as a private network. */
  lemma TunnelIsPlaced(state: DesiredState, uplink: string, t: Tunnel)
    requires ValidRevision(state) && AddressesParse(state.devices) && t in state.tunnels
    ensures || (exists i :: 0 <= i < |EgressGroups(state, uplink)| && EgressGroups(state, uplink)[i].id == t.id)
            || (exists i :: 0 <= i < |InternalNetworks(state)| && InternalNetworks(state)[i].tunnelId == t.id)
  {
    hide ValidRevision, EgressGroups, InternalNetworks, AddressesParse, PrivateOrder, EgressOrder;
    ValidTunnelsAreDistinct(state);
    assert ValidRevisionTunnel(t);
    if t.role == EgressRole {
      var i, k := TunnelGroupIndex(state, uplink, t);
      assert EgressGroups(state, uplink)[i].id == t.id;
    } else {
      var i := PrivateTunnelIndex(state, t);
      NetworkAt(state, i);
      assert InternalNetworks(state)[i].tunnelId == t.id;
    }
  }

  lemma EndpointClientsFit(state: DesiredState, uplink: string, t: Tunnel, groups: seq<EgressGroup>,
      networks: seq<InternalNetwork>)
    requires ValidRevision(state) && AddressesParse(state.devices) && t in state.tunnels
    requires groups == EgressGroups(state, uplink) && networks == InternalNetworks(state)
    ensures ClientsFit(state, t, Lookup(NetworkClients(networks, GroupClients(groups)), t.id))
  {
    hide ValidRevision, EgressGroups, InternalNetworks, AddressesParse, ClientsFit;
    TunnelIsPlaced(state, uplink, t);
    GroupClientsFrom(groups, t.id);
    NetworkClientsFrom(networks, GroupClients(groups), t.id);
    var clients := NetworkClients(networks, GroupClients(groups))[t.id];
    if i :| 0 <= i < |networks| && networks[i].tunnelId == t.id && clients == networks[i].clients {
      NetworkClientsFit(state, t, i);
    } else {
      var i :| 0 <= i < |groups| && groups[i].id == t.id && GroupClients(groups)[t.id] == groups[i].clients;
      GroupClientsFit(state, uplink, t, i);
    }
  }

  lemma {:induction false} EndpointsPointwise(specs: seq<EgressSpec>, permitted: map<string, seq<Addr>>)
    requires forall k :: 0 <= k < |specs| ==> specs[k].socksPort != 0
    ensures |Endpoints(specs, permitted)| == |specs|
    ensures forall k :: 0 <= k < |specs| ==> Endpoints(specs, permitted)[k] == EndpointFor(specs[k], permitted)
  {
    if specs != [] {
      EndpointsPointwise(specs[..|specs| - 1], permitted);
    }
  }

  lemma LayoutAt(tunnels: seq<Tunnel>, specs: seq<EgressSpec>, k: nat)
    requires HasLayout(tunnels, specs) && k < |specs|
    ensures |specs| == |TunnelOrder(tunnels)| && TunnelOrder(tunnels)[k] in ById(tunnels)
    ensures specs[k].tunnelId == TunnelOrder(tunnels)[k]
      && specs[k].hostVeth == EgressInterface(TunnelOrder(tunnels)[k])
    ensures specs[k].socksPort == SOCKS_PORT_BASE + k && specs[k].mark == DIRECT_MARK + 1 + k
    ensures specs[k].routeTable == ROUTE_TABLE_BASE + k
    ensures k < LINK_LIMIT && specs[k].hostAddress == LINK_BASE.addr + 4 * k + 1
    ensures specs[k].peerAddress == LINK_BASE.addr + 4 * k + 2
  {
    hide TunnelOrder, ById, EgressInterface, NamespaceOf;
  }

  lemma EndpointAt(state: DesiredState, uplink: string, upstreams: set<string>, c: Compiled, k: nat)
    requires Compiles(state, uplink, upstreams, c) && k < |c.specs|
    ensures |c.plan.socks| == |c.specs| == |TunnelOrder(state.tunnels)|
    ensures c.plan.socks[k].tunnelId == TunnelOrder(state.tunnels)[k]
    ensures c.plan.socks[k].iface == EgressInterface(TunnelOrder(state.tunnels)[k])
    ensures c.plan.socks[k].port == SOCKS_PORT_BASE + k
    ensures c.plan.socks[k].clients
      == Lookup(NetworkClients(c.plan.internals, GroupClients(c.plan.egresses)), c.plan.socks[k].tunnelId)
  {
    hide Compiles, TunnelOrder, ById, EgressGroups, InternalNetworks, EgressInterface, NetworkClients, GroupClients,
         HasLayout;
    CompiledCarries(state, uplink, upstreams, c);
    forall j | 0 <= j < |c.specs| ensures c.specs[j].socksPort != 0 { LayoutAt(state.tunnels, c.specs, j); }
    EndpointsPointwise(c.specs, EndpointClients(c.plan));
    LayoutAt(state.tunnels, c.specs, k);
  }

  ghost function PermittedSet(state: DesiredState, t: Tunnel): iset<Addr> {
    iset a: Addr | Permits(state.devices, t, a)
  }

  lemma EntryFits(state: DesiredState, uplink: string, upstreams: set<string>, c: Compiled, t: Tunnel, i: nat)
    requires Compiles(state, uplink, upstreams, c) && t in state.tunnels
    requires i < |AllowedRoles(c.plan)| && AllowedRoles(c.plan)[i].id == t.id
    ensures ClientsFit(state, t, AllowedRoles(c.plan)[i].clients)
  {
    hide Compiles, EgressGroups, InternalNetworks, ClientsFit, HasLayout, Endpoints, EndpointClients, NetworkClients,
         GroupClients, TunnelOrder, ValidRevision, AddressesParse;
    CompiledCarries(state, uplink, upstreams, c);
    var e, n := |c.plan.egresses|, |c.plan.internals|;
    if i < e {
      GroupClientsFit(state, uplink, t, i);
    } else if i < e + n {
      NetworkClientsFit(state, t, i - e);
    } else {
      EndpointCount(state, uplink, upstreams, c);
      EndpointAt(state, uplink, upstreams, c, i - e - n);
      EndpointClientsFit(state, uplink, t, c.plan.egresses, c.plan.internals);
    }
  }

  lemma EndpointCount(state: DesiredState, uplink: string, upstreams: set<string>, c: Compiled)
    requires Compiles(state, uplink, upstreams, c)
    ensures |c.plan.socks| == |c.specs| == |TunnelOrder(state.tunnels)|
  {
    hide Compiles, TunnelOrder, ById, EgressGroups, InternalNetworks, HasLayout;
    CompiledCarries(state, uplink, upstreams, c);
    forall j | 0 <= j < |c.specs| ensures c.specs[j].socksPort != 0 { LayoutAt(state.tunnels, c.specs, j); }
    EndpointsPointwise(c.specs, EndpointClients(c.plan));
    LayoutLength(state.tunnels, c.specs);
  }

  lemma LayoutLength(tunnels: seq<Tunnel>, specs: seq<EgressSpec>)
    requires HasLayout(tunnels, specs)
    ensures |specs| == |TunnelOrder(tunnels)|
  {
  }

  lemma TunnelHasEntry(state: DesiredState, uplink: string, upstreams: set<string>, c: Compiled, t: Tunnel)
    requires Compiles(state, uplink, upstreams, c) && t in state.tunnels
    ensures t.id in EntryIds(AllowedRoles(c.plan)) && !Skipped(t.id)
  {
    hide Compiles, EgressGroups, InternalNetworks, HasLayout, Endpoints, EndpointClients, ValidRevision, AddressesParse;
    CompiledCarries(state, uplink, upstreams, c);
    TunnelIsPlaced(state, uplink, t);
    ValidTunnelsAreDistinct(state);
    assert ValidRevisionTunnel(t);
    var roles := AllowedRoles(c.plan);
    if i :| 0 <= i < |c.plan.egresses| && c.plan.egresses[i].id == t.id {
      assert roles[i].id == t.id;
    } else {
      var i :| 0 <= i < |c.plan.internals| && c.plan.internals[i].tunnelId == t.id;
      assert roles[|c.plan.egresses| + i].id == t.id;
    }
  }

  lemma AllowedSetMeans(state: DesiredState, uplink: string, upstreams: set<string>, c: Compiled, r: Ruleset,
      tables: Tables, t: Tunnel, a: Addr)
    requires Compiles(state, uplink, upstreams, c) && Installed(c.plan, r, tables) && t in state.tunnels
    ensures InSet(tables, AllowedSet(t.id), a) <==> Permits(state.devices, t, a)
  {
    hide Compiles, Installed, SetsOf, ListsAdmitted, RendersWith, Declared, FirstEntries, AllowedRoles, EntryIds,
         Permits;
    var admitted := InstalledSets(c.plan, r, tables);
    InAllowedSet(c.plan, admitted, t.id, a);
    TunnelHasEntry(state, uplink, upstreams, c, t);
    var roles := AllowedRoles(c.plan);
    forall i | 0 <= i < |roles| && roles[i].id == t.id
      ensures forall b :: b in roles[i].clients <==> b in PermittedSet(state, t)
    {
      EntryFits(state, uplink, upstreams, c, t, i);
    }
    FirstEntryHas(roles, t.id, PermittedSet(state, t), a);
  }

  // ---- a private network's destinations ----

  ghost predicate Learned(t: Tables, id: string, a: Addr) { id in t.learned && a in t.learned[id] }

  lemma InternalSetMeans(state: DesiredState, uplink: string, upstreams: set<string>, c: Compiled, r: Ruleset,
      tables: Tables, t: Tunnel, a: Addr)
    requires Compiles(state, uplink, upstreams, c) && Installed(c.plan, r, tables)
    requires t in state.tunnels && t.role == PrivateNetworkRole
    ensures InSet(tables, InternalSet(t.id), a) <==> Reaches(t, a) || Learned(tables, t.id, a)
  {
    hide Compiles, Installed, SetsOf, ListsAdmitted, RendersWith, Declared, NetworkHas, EgressGroups, InternalNetworks,
         HasLayout, Endpoints, EndpointClients, Reaches;
    CompiledCarries(state, uplink, upstreams, c);
    var admitted := InstalledSets(c.plan, r, tables);
    InInternalSet(c.plan, admitted, t.id, a);
    NetworksHold(state, t, a);
  }

  lemma NetworksHold(state: DesiredState, t: Tunnel, a: Addr)
    requires ValidRevision(state) && AddressesParse(state.devices) && t in state.tunnels && t.role == PrivateNetworkRole
    ensures NetworkHas(InternalNetworks(state), t.id, a) <==> Reaches(t, a)
  {
    hide ValidRevision, InternalNetworks, PrivateOrder, AddressesParse, Reaches, NetworkRoutes, ClientsFit, Covered,
         EgressOrder;
    NetworkRoutesCover(t, a);
    NetworkCount(state);
    ValidTunnelsAreDistinct(state);
    var j := PrivateTunnelIndex(state, t);
    NetworkAt(state, j);
    forall i | 0 <= i < |InternalNetworks(state)| && InternalNetworks(state)[i].tunnelId == t.id
      ensures InternalNetworks(state)[i].routes == NetworkRoutes(t)
    {
      NetworkAt(state, i);
      SameTunnel(state.tunnels, PrivateOrder(state.tunnels)[i], t);
    }
  }
}
