/** What the lists of a plan mean, said of the devices and tunnels they were built from. */
module PlanFacts {
  import opened Netip
  import opened Ordering
  import opened Domain
  import opened Links
  import opened FirewallPlanner
  import opened Validation
  import opened Revision
  import opened EgressPlanner
  import opened Compiler

  predicate HasAddress(d: Device, a: Addr) { d.address.Some? && d.address.value.addr == a }

  /** The address is that of a device whose chosen egress this is. */
  ghost predicate Chose(devices: seq<Device>, egress: string, a: Addr) {
    exists d :: d in devices && d.egress == egress && HasAddress(d, a)
  }

  /** The address is that of a device the tunnel allows. */
  ghost predicate Permits(devices: seq<Device>, t: Tunnel, a: Addr) {
    exists d :: d in devices && Allows(t, d) && HasAddress(d, a)
  }

  /** The interface a chosen egress leaves by. */
  function EgressDevice(egress: string, uplink: string): string {
    if egress == DIRECT then uplink else EgressInterface(egress)
  }

  // ---- device lists ----

  lemma {:induction false} AddressesOfMembers(devices: seq<Device>, egress: string, a: Addr)
    requires AddressesParse(devices)
    ensures a in AddressesOf(devices, egress) <==> Chose(devices, egress, a)
  {
    if devices != [] {
      var front, last := devices[..|devices| - 1], devices[|devices| - 1];
      AddressesOfMembers(front, egress, a);
      assert devices == front + [last];
      if Chose(devices, egress, a) {
        var d :| d in devices && d.egress == egress && HasAddress(d, a);
        assert d in front || d == last;
      }
    }
  }

  lemma FrontDistinct(devices: seq<Device>)
    requires DistinctDevices(devices) && devices != []
    ensures DistinctDevices(devices[..|devices| - 1])
    ensures forall d :: d in devices[..|devices| - 1] ==> d.id != devices[|devices| - 1].id
    ensures devices == devices[..|devices| - 1] + [devices[|devices| - 1]]
  {
    var front := devices[..|devices| - 1];
    forall d | d in front ensures d.id != devices[|devices| - 1].id {
      var k :| 0 <= k < |front| && front[k] == d;
      assert !SameIdentity(devices[k], devices[|devices| - 1]);
    }
  }

  lemma {:induction false} BookHas(devices: seq<Device>, d: Device)
    requires AddressesParse(devices) && DistinctDevices(devices) && d in devices
    ensures d.id in AddressBook(devices) && AddressBook(devices)[d.id] == d.address.value.addr
  {
    FrontDistinct(devices);
    if d != devices[|devices| - 1] {
      BookHas(devices[..|devices| - 1], d);
    }
  }

  lemma {:induction false} BookIs(devices: seq<Device>, id: string)
    requires AddressesParse(devices) && id in AddressBook(devices)
    ensures exists d :: d in devices && d.id == id && HasAddress(d, AddressBook(devices)[id])
  {
    var front, last := devices[..|devices| - 1], devices[|devices| - 1];
    if id == last.id {
      assert last in devices && HasAddress(last, AddressBook(devices)[id]);
    } else {
      BookIs(front, id);
      var d :| d in front && d.id == id && HasAddress(d, AddressBook(front)[id]);
      assert d in devices && HasAddress(d, AddressBook(devices)[id]);
    }
  }

  lemma {:induction false} AllowedAddressesMembers(book: map<string, Addr>, ids: seq<string>, a: Addr)
    ensures a in AllowedAddresses(book, ids) <==> exists id :: id in ids && id in book && book[id] == a
  {
    if ids != [] {
      AllowedAddressesMembers(book, ids[..|ids| - 1], a);
      assert ids == ids[..|ids| - 1] + [ids[|ids| - 1]];
    }
  }

  lemma ListedMembers(devices: seq<Device>, ids: seq<string>, a: Addr)
    requires AddressesParse(devices) && DistinctDevices(devices)
    ensures a in AllowedAddresses(AddressBook(devices), ids) <==>
      exists d :: d in devices && d.id in ids && HasAddress(d, a)
  {
    var book := AddressBook(devices);
    AllowedAddressesMembers(book, ids, a);
    if id :| id in ids && id in book && book[id] == a {
      BookIs(devices, id);
    }
    if d :| d in devices && d.id in ids && HasAddress(d, a) {
      BookHas(devices, d);
    }
  }

  lemma AllAddressesMembers(devices: seq<Device>, a: Addr)
    requires AddressesParse(devices)
    ensures a in AllAddresses(devices) <==> exists d :: d in devices && HasAddress(d, a)
  {
    if a in AllAddresses(devices) {
      var i :| 0 <= i < |devices| && AllAddresses(devices)[i] == a;
      assert HasAddress(devices[i], a);
    }
    if d :| d in devices && HasAddress(d, a) {
      var i :| 0 <= i < |devices| && devices[i] == d;
      assert AllAddresses(devices)[i] == a;
    }
  }

  /** A tunnel's permitted list holds exactly the addresses of the devices it allows. */
  lemma PermittedByMembers(devices: seq<Device>, t: Tunnel, a: Addr)
    requires AddressesParse(devices) && DistinctDevices(devices)
    ensures a in PermittedBy(devices, t) <==> Permits(devices, t, a)
  {
    hide AllAddresses, AllowedAddresses, AddressBook;
    if t.allowedDevices == [] {
      SameElements(AllAddresses(devices), PermittedBy(devices, t));
      AllAddressesMembers(devices, a);
    } else {
      SameElements(AllowedAddresses(AddressBook(devices), t.allowedDevices), PermittedBy(devices, t));
      ListedMembers(devices, t.allowedDevices, a);
    }
  }

  // ---- per-tunnel lookups ----

  lemma {:induction false} PermittedHas(devices: seq<Device>, tunnels: seq<Tunnel>, t: Tunnel)
    requires AddressesParse(devices) && DistinctTunnelIds(tunnels) && t in tunnels
    ensures Lookup(Permitted(devices, tunnels), t.id) == PermittedBy(devices, t)
  {
    TunnelIdsPrefix(tunnels);
    if t != tunnels[|tunnels| - 1] {
      PermittedHas(devices, tunnels[..|tunnels| - 1], t);
    }
  }

  lemma {:induction false} ProxiedNames(tunnels: seq<Tunnel>, id: string)
    requires Flag(Proxied(tunnels), id)
    ensures exists t :: t in tunnels && t.id == id
  {
    var front, last := tunnels[..|tunnels| - 1], tunnels[|tunnels| - 1];
    if id != last.id {
      ProxiedNames(front, id);
    } else {
      assert last in tunnels;
    }
  }

  lemma SameTunnel(tunnels: seq<Tunnel>, s: Tunnel, t: Tunnel)
    requires DistinctTunnelIds(tunnels) && s in tunnels && t in tunnels && s.id == t.id
    ensures s == t
  {
    var i :| 0 <= i < |tunnels| && tunnels[i] == s;
    var j :| 0 <= j < |tunnels| && tunnels[j] == t;
    assert i == j;
  }

  lemma ValidTunnelsAreDistinct(state: DesiredState)
    requires ValidRevision(state)
    ensures AddressesParse(state.devices) && DistinctDevices(state.devices) && DistinctTunnelIds(state.tunnels)
    ensures forall t :: t in state.tunnels ==> ValidRevisionTunnel(t)
  {
    RevisionDevices(state);
    forall t | t in state.tunnels ensures ValidRevisionTunnel(t) {
      var i :| 0 <= i < |state.tunnels| && state.tunnels[i] == t;
    }
  }

  // ---- egress groups ----

  /** A group as the rest of the plan may rely on it. */
  ghost predicate GroupFits(state: DesiredState, uplink: string, g: EgressGroup) {
    && g.iface == EgressDevice(g.id, uplink)
    && (forall a :: a in g.addresses <==> Chose(state.devices, g.id, a))
    && (g.id == DIRECT ==> !g.proxied && g.mark == DIRECT_MARK)
    && (g.id != DIRECT ==> exists t ::
         t in state.tunnels && t.role == EgressRole && t.id == g.id && ClientsFit(state, t, g.clients))
  }

  ghost predicate ClientsFit(state: DesiredState, t: Tunnel, clients: seq<Addr>) {
    forall a :: a in clients <==> Permits(state.devices, t, a)
  }

  lemma SortedAddresses(state: DesiredState, egress: string)
    requires AddressesParse(state.devices)
    ensures forall a :: a in Sort(AddrLe, AddressesOf(state.devices, egress)) <==> Chose(state.devices, egress, a)
  {
    SameElements(AddressesOf(state.devices, egress), Sort(AddrLe, AddressesOf(state.devices, egress)));
    forall a ensures a in AddressesOf(state.devices, egress) <==> Chose(state.devices, egress, a) {
      AddressesOfMembers(state.devices, egress, a);
    }
  }

  lemma PermittedFits(state: DesiredState, t: Tunnel)
    requires ValidRevision(state) && AddressesParse(state.devices) && t in state.tunnels
    ensures ClientsFit(state, t, Lookup(Permitted(state.devices, state.tunnels), t.id))
  {
    ValidTunnelsAreDistinct(state);
    PermittedHas(state.devices, state.tunnels, t);
    forall a ensures a in PermittedBy(state.devices, t) <==> Permits(state.devices, t, a) {
      PermittedByMembers(state.devices, t, a);
    }
  }

  lemma TunnelGroupFits(state: DesiredState, uplink: string, id: string, index: nat)
    requires ValidRevision(state) && AddressesParse(state.devices) && id in EgressTunnelIds(state.tunnels)
    ensures GroupFits(state, uplink, TunnelGroup(state, id, index))
  {
    var t :| t in state.tunnels && t.role == EgressRole && t.id == id;
    ValidTunnelsAreDistinct(state);
    assert ValidRevisionTunnel(t);
    hide ValidRevision, Permitted, Proxied, AddressesOf, Chose, ClientsFit;
    SortedAddresses(state, id);
    PermittedFits(state, t);
  }

  lemma DirectGroupFits(state: DesiredState, uplink: string)
    requires AddressesParse(state.devices)
    ensures GroupFits(state, uplink, DirectGroup(state, uplink))
  {
    hide AddressesOf, Chose;
    SortedAddresses(state, DIRECT);
  }

  lemma GroupsShape(state: DesiredState, uplink: string)
    requires ValidRevision(state) && AddressesParse(state.devices)
    ensures EgressGroups(state, uplink) == DirectGroups(state, uplink) + TunnelGroups(state, EgressOrder(state.tunnels))
  {
    hide DirectGroups, TunnelGroups, ValidRevision, EgressTunnelIds, TunnelEgresses, AddressesParse;
    EgressesAreTunnels(state);
  }

  /** Where each group of the plan comes from: the direct one, when it has clients, then the
  tunnels in layout order. */
  lemma DirectGroupAt(state: DesiredState, uplink: string, i: nat)
    requires ValidRevision(state) && AddressesParse(state.devices) && i < |DirectGroups(state, uplink)|
    ensures i < |EgressGroups(state, uplink)| && EgressGroups(state, uplink)[i] == DirectGroup(state, uplink)
  {
    hide DirectGroup, TunnelGroups, ValidRevision, AddressesOf, AddressesParse;
  }

  lemma TunnelGroupAt(state: DesiredState, uplink: string, k: nat)
    requires ValidRevision(state) && AddressesParse(state.devices) && k < |EgressOrder(state.tunnels)|
    ensures EgressOrder(state.tunnels)[k] in EgressTunnelIds(state.tunnels)
    ensures |EgressGroups(state, uplink)| == |DirectGroups(state, uplink)| + |EgressOrder(state.tunnels)|
    ensures EgressGroups(state, uplink)[|DirectGroups(state, uplink)| + k]
      == TunnelGroup(state, EgressOrder(state.tunnels)[k], k)
  {
    hide TunnelGroup, ValidRevision, EgressGroups, DirectGroups, AddressesParse, AddressesOf, TunnelEgresses;
    GroupsShape(state, uplink);
    assert EgressOrder(state.tunnels)[k] in EgressOrder(state.tunnels);
  }

  lemma GroupsFit(state: DesiredState, uplink: string, i: nat)
    requires ValidRevision(state) && AddressesParse(state.devices) && i < |EgressGroups(state, uplink)|
    ensures GroupFits(state, uplink, EgressGroups(state, uplink)[i])
  {
    hide DirectGroup, TunnelGroup, ValidRevision, EgressGroups, DirectGroups, EgressOrder, EgressTunnelIds, GroupFits,
         AddressesParse;
    GroupsShape(state, uplink);
    var direct := |DirectGroups(state, uplink)|;
    if i < direct {
      DirectGroupAt(state, uplink, i);
      DirectGroupFits(state, uplink);
    } else {
      TunnelGroupAt(state, uplink, i - direct);
      TunnelGroupFits(state, uplink, EgressOrder(state.tunnels)[i - direct], i - direct);
    }
  }

  /** Every egress tunnel has its group, at its place in the layout. */
  lemma TunnelGroupIndex(state: DesiredState, uplink: string, t: Tunnel) returns (i: nat, k: nat)
    requires ValidRevision(state) && AddressesParse(state.devices)
    requires t in state.tunnels && t.role == EgressRole
    ensures i < |EgressGroups(state, uplink)| && k < |EgressOrder(state.tunnels)|
    ensures EgressGroups(state, uplink)[i] == TunnelGroup(state, t.id, k) && EgressOrder(state.tunnels)[k] == t.id
  {
    hide TunnelGroup, ValidRevision, EgressGroups, DirectGroups, AddressesParse, TunnelEgresses, AddressesOf;
    GroupsShape(state, uplink);
    assert t.id in EgressTunnelIds(state.tunnels);
    assert t.id in EgressOrder(state.tunnels);
    k :| 0 <= k < |EgressOrder(state.tunnels)| && EgressOrder(state.tunnels)[k] == t.id;
    i := |DirectGroups(state, uplink)| + k;
  }

  /** Every device's chosen egress has a group. */
  lemma DeviceHasGroup(state: DesiredState, uplink: string, d: Device) returns (i: nat)
    requires ValidRevision(state) && AddressesParse(state.devices) && d in state.devices
    ensures i < |EgressGroups(state, uplink)| && EgressGroups(state, uplink)[i].id == d.egress
  {
    if d.egress == DIRECT {
      AddressesOfMembers(state.devices, DIRECT, d.address.value.addr);
      assert HasAddress(d, d.address.value.addr);
      assert DirectGroups(state, uplink) == [DirectGroup(state, uplink)];
      i := 0;
    } else {
      var j :| 0 <= j < |state.devices| && state.devices[j] == d;
      assert ValidChoice(state.devices[j], state.tunnels);
      var t :| t in state.tunnels && MayUse(d, t);
      var k: nat;
      i, k := TunnelGroupIndex(state, uplink, t);
    }
  }

  // ---- private networks ----

  /** The destinations a private network declares: its routes, and its resolvers. */
  ghost predicate Reaches(t: Tunnel, a: Addr) {
    Covered(t.routes, a) || Some(a) in t.dnsServers
  }

  lemma {:induction false} UncoveredCover(addresses: seq<Option<Addr>>, routes: seq<Option<Cidr>>, a: Addr)
    ensures Covered(UncoveredResolvers(addresses, routes), a) <==> Some(a) in addresses && !Covered(routes, a)
  {
    if addresses == [] {
    } else {
      var front, last := addresses[..|addresses| - 1], addresses[|addresses| - 1];
      UncoveredCover(front, routes, a);
      assert addresses == front + [last];
      var one := if last.Some? && !Covered(routes, last.value) then [Some(Host(last.value))] else [];
      CoveredAppend(UncoveredResolvers(front, routes), one, a);
      if last.Some? { CoveredByHost(last.value, a); }
    }
  }

  lemma CoveredByHost(b: Addr, a: Addr)
    ensures Covered([Some(Host(b))], a) <==> a == b
  {
    HostContains(b, a);
    var one: seq<Option<Cidr>> := [Some(Host(b))];
    if a == b { assert one[0].Some? && Contains(one[0].value, a); }
  }

  lemma CoveredAppend(r: seq<Option<Cidr>>, s: seq<Option<Cidr>>, a: Addr)
    ensures Covered(r + s, a) <==> Covered(r, a) || Covered(s, a)
  {
    if Covered(r, a) {
      var i :| 0 <= i < |r| && r[i].Some? && Contains(r[i].value, a);
      assert (r + s)[i] == r[i];
    }
    if Covered(s, a) {
      var i :| 0 <= i < |s| && s[i].Some? && Contains(s[i].value, a);
      assert (r + s)[|r| + i] == s[i];
    }
  }

  lemma CoveredByMembers(r: seq<Option<Cidr>>, s: seq<Option<Cidr>>, a: Addr)
    requires multiset(r) == multiset(s)
    ensures Covered(r, a) ==> Covered(s, a)
  {
    if Covered(r, a) {
      var i :| 0 <= i < |r| && r[i].Some? && Contains(r[i].value, a);
      assert r[i] in multiset(s);
      assert r[i] in s;
      var j :| 0 <= j < |s| && s[j] == r[i];
    }
  }

  lemma NetworkRoutesCover(t: Tunnel, a: Addr)
    ensures Covered(NetworkRoutes(t), a) <==> Reaches(t, a)
  {
    hide Covered, UncoveredResolvers;
    var routes := t.routes + UncoveredResolvers(t.dnsServers, t.routes);
    assert NetworkRoutes(t) == Sort<Option<Cidr>>(RouteLe, routes);
    CoveredByMembers(routes, NetworkRoutes(t), a);
    CoveredByMembers(NetworkRoutes(t), routes, a);
    CoveredAppend(t.routes, UncoveredResolvers(t.dnsServers, t.routes), a);
    UncoveredCover(t.dnsServers, t.routes, a);
  }

  ghost predicate NetworkFits(state: DesiredState, n: InternalNetwork, t: Tunnel) {
    && t in state.tunnels && t.role == PrivateNetworkRole
    && n.tunnelId == t.id && n.iface == EgressInterface(t.id) && n.routes == NetworkRoutes(t)
    && ClientsFit(state, t, n.clients)
  }

  lemma NetworksShape(state: DesiredState)
    requires ValidRevision(state) && AddressesParse(state.devices)
    ensures InternalNetworks(state) == Networks(
      PrivateOrder(state.tunnels), DIRECT_MARK + 1 + |EgressOrder(state.tunnels)|,
      Permitted(state.devices, state.tunnels), Proxied(state.tunnels))
  {
    hide Networks, ValidRevision, EgressTunnelIds, TunnelEgresses, AddressesParse, Permitted, Proxied, PrivateTunnels;
    EgressesAreTunnels(state);
  }

  lemma NetworkOfFits(state: DesiredState, t: Tunnel, mark: Mark)
    requires ValidRevision(state) && AddressesParse(state.devices)
    requires t in state.tunnels && t.role == PrivateNetworkRole
    ensures NetworkFits(state, NetworkOf(t, mark, Permitted(state.devices, state.tunnels), Proxied(state.tunnels)), t)
  {
    hide ValidRevision, Permitted, Proxied, ClientsFit, NetworkRoutes, NetworkZones, AddressesParse;
    PermittedFits(state, t);
  }

  lemma PrivateMember(state: DesiredState, i: nat)
    requires ValidRevision(state) && i < |PrivateOrder(state.tunnels)|
    ensures PrivateOrder(state.tunnels)[i] in state.tunnels && PrivateOrder(state.tunnels)[i].role == PrivateNetworkRole
  {
    hide PrivateOrder, ValidRevision;
    ValidTunnelsAreDistinct(state);
    PrivateOrderMembers(state.tunnels);
    assert PrivateOrder(state.tunnels)[i] in PrivateOrder(state.tunnels);
  }

  /** The networks of the plan are the private tunnels in layout order. */
  lemma NetworkAt(state: DesiredState, i: nat)
    requires ValidRevision(state) && AddressesParse(state.devices) && i < |PrivateOrder(state.tunnels)|
    ensures |InternalNetworks(state)| == |PrivateOrder(state.tunnels)|
    ensures NetworkFits(state, InternalNetworks(state)[i], PrivateOrder(state.tunnels)[i])
    ensures InternalNetworks(state)[i].mark == U32(DIRECT_MARK + 1 + |EgressOrder(state.tunnels)| + i)
  {
    hide ValidRevision, NetworkFits, Permitted, Proxied, PrivateOrder, InternalNetworks, EgressOrder, AddressesParse,
         U32, NetworkRoutes, NetworkZones, Flag, EgressInterface;
    NetworksShape(state);
    PrivateMember(state, i);
    NetworkOfFits(state, PrivateOrder(state.tunnels)[i], U32(DIRECT_MARK + 1 + |EgressOrder(state.tunnels)| + i));
  }

  lemma PrivateTunnelIndex(state: DesiredState, t: Tunnel) returns (i: nat)
    requires ValidRevision(state) && AddressesParse(state.devices)
    requires t in state.tunnels && t.role == PrivateNetworkRole
    ensures i < |PrivateOrder(state.tunnels)| && PrivateOrder(state.tunnels)[i] == t
  {
    ValidTunnelsAreDistinct(state);
    PrivateOrderMembers(state.tunnels);
    i :| 0 <= i < |PrivateOrder(state.tunnels)| && PrivateOrder(state.tunnels)[i] == t;
  }

  // ---- client ACLs ----

  lemma PortACLMembers(rules: seq<ClientACL>, book: map<string, Addr>, x: ClientPortACL)
    ensures x in PortACLs(rules, book) <==> exists i :: 0 <= i < |rules| && PortACL(rules[i], book) == x
  {
    var mapped := seq(|rules|, i requires 0 <= i < |rules| => PortACL(rules[i], book));
    SameElements(mapped, PortACLs(rules, book));
    if x in mapped {
      var i :| 0 <= i < |mapped| && mapped[i] == x;
    }
    if i :| 0 <= i < |rules| && PortACL(rules[i], book) == x {
      assert mapped[i] == x;
    }
  }
}
