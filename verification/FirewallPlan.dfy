/** Derives the packet-filter policy from a desired state. */
module FirewallPlanner {
  import opened Netip
  import opened Ordering
  import opened Domain
  import opened Links

  /** The main-namespace end of the veth pair towards a tunnel. */
  function EgressInterface(tunnelId: string): string { "vh-" + tunnelId }

  function ListenPort(hub: Hub): Result<Port> {
    if hub.endpointPort.None? || hub.endpointPort.value == 0 then Err(InvalidEndpointPort)
    else Ok(hub.endpointPort.value)
  }

  /** ASCII lower case, then dots and spaces trimmed from both ends. */
  function NormalizeZone(zone: string): string { TrimLeft(TrimRight(Lower(zone))) }

  function Lower(s: string): string {
    seq(|s|, i requires 0 <= i < |s| => if 'A' <= s[i] <= 'Z' then (s[i] as int + 32) as char else s[i])
  }

  function TrimLeft(s: string): string {
    if s != "" && (s[0] == '.' || s[0] == ' ') then TrimLeft(s[1..]) else s
  }

  function TrimRight(s: string): string {
    if s != "" && (s[|s| - 1] == '.' || s[|s| - 1] == ' ') then TrimRight(s[..|s| - 1]) else s
  }

  // ------------------------------------------------------------------
  // What the plan is, stated over the revision
  // ------------------------------------------------------------------

  ghost predicate AddressesParse(devices: seq<Device>) {
    forall d :: d in devices ==> d.address.Some?
  }

  /** The addresses of the devices that chose this egress, in device order. */
  ghost function AddressesOf(devices: seq<Device>, egress: string): seq<Addr>
    requires AddressesParse(devices)
  {
    if devices == [] then []
    else
      var last := devices[|devices| - 1];
      AddressesOf(devices[..|devices| - 1], egress) + (if last.egress == egress then [last.address.value.addr] else [])
  }

  ghost function Grouped(devices: seq<Device>): map<string, seq<Addr>>
    requires AddressesParse(devices)
  {
    map egress | egress in Egresses(devices) :: AddressesOf(devices, egress)
  }

  ghost function Egresses(devices: seq<Device>): set<string> {
    set d | d in devices :: d.egress
  }

  /** Which address a device id stands for. */
  ghost function AddressBook(devices: seq<Device>): map<string, Addr>
    requires AddressesParse(devices)
  {
    if devices == [] then map[]
    else
      var last := devices[|devices| - 1];
      AddressBook(devices[..|devices| - 1])[last.id := last.address.value.addr]
  }

  ghost function AllAddresses(devices: seq<Device>): seq<Addr>
    requires AddressesParse(devices)
  {
    seq(|devices|, i requires 0 <= i < |devices| => devices[i].address.value.addr)
  }

  ghost function AllowedAddresses(book: map<string, Addr>, ids: seq<string>): seq<Addr> {
    if ids == [] then []
    else
      var last := ids[|ids| - 1];
      AllowedAddresses(book, ids[..|ids| - 1]) + (if last in book then [book[last]] else [])
  }

  /** The client addresses allowed to use one tunnel: every device when its list is empty,
  otherwise the listed devices this revision still has. */
  ghost function PermittedBy(devices: seq<Device>, tunnel: Tunnel): seq<Addr>
    requires AddressesParse(devices)
  {
    if tunnel.allowedDevices == [] then Sort(AddrLe, AllAddresses(devices))
    else Sort(AddrLe, AllowedAddresses(AddressBook(devices), tunnel.allowedDevices))
  }

  ghost function Permitted(devices: seq<Device>, tunnels: seq<Tunnel>): map<string, seq<Addr>>
    requires AddressesParse(devices)
  {
    if tunnels == [] then map[]
    else
      var last := tunnels[|tunnels| - 1];
      Permitted(devices, tunnels[..|tunnels| - 1])[last.id := PermittedBy(devices, last)]
  }

  function RunsInNamespace(tunnel: Tunnel): bool { tunnel.kind == Xray || tunnel.kind == OpenVPN }

  ghost function Proxied(tunnels: seq<Tunnel>): map<string, bool> {
    if tunnels == [] then map[]
    else
      var last := tunnels[|tunnels| - 1];
      Proxied(tunnels[..|tunnels| - 1])[last.id := RunsInNamespace(last)]
  }

  function Lookup<T>(m: map<string, seq<T>>, key: string): seq<T> {
    if key in m then m[key] else []
  }

  function Flag(m: map<string, bool>, key: string): bool { key in m && m[key] }

  /** Every egress tunnel of the revision, and whatever else a device named. */
  ghost function TunnelEgresses(state: DesiredState): set<string> {
    (Egresses(state.devices) - {DIRECT}) + EgressTunnelIds(state.tunnels)
  }

  ghost function EgressTunnelIds(tunnels: seq<Tunnel>): set<string> {
    set t | t in tunnels && t.role == EgressRole :: t.id
  }

  ghost function DirectGroup(state: DesiredState, uplink: string): EgressGroup
    requires AddressesParse(state.devices)
  {
    EgressGroup(DIRECT, false, DIRECT_MARK, uplink, Sort(AddrLe, AddressesOf(state.devices, DIRECT)), [])
  }

  ghost function TunnelGroup(state: DesiredState, id: string, index: nat): EgressGroup
    requires AddressesParse(state.devices)
  {
    EgressGroup(
      id, Flag(Proxied(state.tunnels), id), U32(DIRECT_MARK + 1 + index), EgressInterface(id),
      Sort(AddrLe, AddressesOf(state.devices, id)),
      Lookup(Permitted(state.devices, state.tunnels), id))
  }

  ghost function TunnelGroups(state: DesiredState, ids: seq<string>): seq<EgressGroup>
    requires AddressesParse(state.devices)
  {
    seq(|ids|, i requires 0 <= i < |ids| => TunnelGroup(state, ids[i], i))
  }

  ghost function DirectGroups(state: DesiredState, uplink: string): seq<EgressGroup>
    requires AddressesParse(state.devices)
  {
    if AddressesOf(state.devices, DIRECT) == [] then [] else [DirectGroup(state, uplink)]
  }

  ghost function EgressGroups(state: DesiredState, uplink: string): seq<EgressGroup>
    requires AddressesParse(state.devices)
  {
    DirectGroups(state, uplink) + TunnelGroups(state, SortedNames(TunnelEgresses(state)))
  }

  predicate TunnelLe(a: Tunnel, b: Tunnel) { LexLe(a.id, b.id) }

  function PrivateTunnels(tunnels: seq<Tunnel>): seq<Tunnel> {
    if tunnels == [] then []
    else
      var last := tunnels[|tunnels| - 1];
      PrivateTunnels(tunnels[..|tunnels| - 1]) + (if last.role == PrivateNetworkRole then [last] else [])
  }

  predicate Covered(routes: seq<Option<Cidr>>, a: Addr) {
    exists i :: 0 <= i < |routes| && routes[i].Some? && Contains(routes[i].value, a)
  }

  /** Host routes for the resolvers no declared subnet contains. */
  function UncoveredResolvers(addresses: seq<Option<Addr>>, routes: seq<Option<Cidr>>): seq<Option<Cidr>> {
    if addresses == [] then []
    else
      var last := addresses[|addresses| - 1];
      UncoveredResolvers(addresses[..|addresses| - 1], routes) +
      (if last.Some? && !Covered(routes, last.value) then [Some(Host(last.value))] else [])
  }

  function NetworkRoutes(tunnel: Tunnel): seq<Option<Cidr>> {
    Sort<Option<Cidr>>(RouteLe, tunnel.routes + UncoveredResolvers(tunnel.dnsServers, tunnel.routes))
  }

  function NetworkZones(tunnel: Tunnel): seq<string> {
    Sort(LexLe, seq(|tunnel.dnsZones|, i requires 0 <= i < |tunnel.dnsZones| => NormalizeZone(tunnel.dnsZones[i])))
  }

  function NetworkOf(tunnel: Tunnel, mark: Mark, permitted: map<string, seq<Addr>>,
      proxied: map<string, bool>): InternalNetwork {
    InternalNetwork(
      tunnel.id, mark, Flag(proxied, tunnel.id), EgressInterface(tunnel.id),
      NetworkRoutes(tunnel), NetworkZones(tunnel), tunnel.dnsServers, Lookup(permitted, tunnel.id))
  }

  function Networks(private_: seq<Tunnel>, firstMark: int, permitted: map<string, seq<Addr>>,
      proxied: map<string, bool>): seq<InternalNetwork> {
    seq(|private_|, i requires 0 <= i < |private_| => NetworkOf(private_[i], U32(firstMark + i), permitted, proxied))
  }

  ghost function InternalNetworks(state: DesiredState): seq<InternalNetwork>
    requires AddressesParse(state.devices)
  {
    Networks(Sort(TunnelLe, PrivateTunnels(state.tunnels)), DIRECT_MARK + 1 + |SortedNames(TunnelEgresses(state))|,
             Permitted(state.devices, state.tunnels), Proxied(state.tunnels))
  }

  /** How many of these groups are tunnels: the position the next tunnel's link takes. */
  function TunnelCount(groups: seq<EgressGroup>): nat {
    if groups == [] then 0
    else TunnelCount(groups[..|groups| - 1]) + (if groups[|groups| - 1].id != DIRECT then 1 else 0)
  }

  /** The resolver that answers one group's clients. */
  ghost function ResolverOf(groups: seq<EgressGroup>, k: nat, direct: Option<Addr>): Option<Addr>
    requires k < |groups|
  {
    if groups[k].id == DIRECT then direct
    else
      var link := LinkOf(LINK_BASE, TunnelCount(groups[..k]));
      if link.Ok? then Some(link.value.host) else None
  }

  datatype DnsEntry = DnsEntry(id: string, destination: DnsDestination)

  predicate DnsEntryLe(a: DnsEntry, b: DnsEntry) { LexLe(a.id, b.id) }

  ghost function DnsEntries(groups: seq<EgressGroup>, direct: Option<Addr>): seq<DnsEntry> {
    if groups == [] then []
    else
      var k := |groups| - 1;
      DnsEntries(groups[..k], direct) +
      (if groups[k].addresses == [] then []
       else [DnsEntry(groups[k].id, DnsDestination(Sort(AddrLe, groups[k].addresses), ResolverOf(groups, k, direct)))])
  }

  function Destinations(entries: seq<DnsEntry>): seq<DnsDestination> {
    seq(|entries|, i requires 0 <= i < |entries| => entries[i].destination)
  }

  ghost function DnsDestinationsOf(groups: seq<EgressGroup>, direct: Option<Addr>): seq<DnsDestination> {
    Destinations(Sort(DnsEntryLe, DnsEntries(groups, direct)))
  }

  function Resolve(book: map<string, Addr>, id: string): Option<Addr> {
    if id in book then Some(book[id]) else None
  }

  function PortACL(rule: ClientACL, book: map<string, Addr>): ClientPortACL {
    ClientPortACL(
      if rule.source == ANY then None else Resolve(book, rule.source),
      Resolve(book, rule.target), rule.protocol, rule.port)
  }

  function OptionRank(a: Option<Addr>): int { if a.None? then -1 else a.value }

  function ProtocolRank(p: Protocol): int {
    match p case Icmp => 0 case OtherProtocol => 1 case Tcp => 2 case Udp => 3
  }

  predicate PortACLLe(a: ClientPortACL, b: ClientPortACL) {
    if a.source != b.source then OptionRank(a.source) < OptionRank(b.source)
    else if a.target != b.target then OptionRank(a.target) < OptionRank(b.target)
    else if a.protocol != b.protocol then ProtocolRank(a.protocol) < ProtocolRank(b.protocol)
    else a.port <= b.port
  }

  function PortACLs(rules: seq<ClientACL>, book: map<string, Addr>): seq<ClientPortACL> {
    Sort(PortACLLe, seq(|rules|, i requires 0 <= i < |rules| => PortACL(rules[i], book)))
  }

  /** The plan of a revision, or the first thing that keeps it from having one. */
  ghost function PlanOf(state: DesiredState, uplink: string): Result<FirewallPlan> {
    if uplink == "" then Err(UplinkRequired)
    else if ListenPort(state.hub).Err? then Err(InvalidEndpointPort)
    else if !AddressesParse(state.devices) then Err(InvalidDeviceAddress)
    else if TunnelCount(EgressGroups(state, uplink)) > LINK_LIMIT then Err(OutOfLinkAddresses)
    else
      var groups := EgressGroups(state, uplink);
      Ok(FirewallPlan(
        INGRESS, uplink, ListenPort(state.hub).value, MANAGEMENT_PORT,
        state.hub.clientCidr, state.hub.dnsAddress,
        DnsDestinationsOf(groups, state.hub.dnsAddress),
        InternalNetworks(state),
        [],
        state.hub.udp443,
        if state.hub.realityEnabled then REALITY_PORT else 0,
        PortACLs(state.acls, AddressBook(state.devices)),
        groups))
  }

  // ------------------------------------------------------------------
  // How it is computed
  // ------------------------------------------------------------------

  lemma TakeNext<T>(s: seq<T>, i: nat)
    requires i < |s|
    ensures s[..i + 1] == s[..i] + [s[i]]
    ensures s[..i + 1][..|s[..i + 1]| - 1] == s[..i]
    ensures s[..i + 1][|s[..i + 1]| - 1] == s[i]
  {
  }

  lemma AddressesGrow(devices: seq<Device>, i: nat, egress: string)
    requires i < |devices| && AddressesParse(devices[..i + 1])
    ensures AddressesParse(devices[..i]) && devices[i].address.Some?
    ensures AddressesOf(devices[..i + 1], egress) ==
      AddressesOf(devices[..i], egress) + (if devices[i].egress == egress then [devices[i].address.value.addr] else [])
  {
    TakeNext(devices, i);
    assert devices[i] in devices[..i + 1];
    forall d | d in devices[..i] ensures d.address.Some? { assert d in devices[..i + 1]; }
  }

  lemma GroupedGrows(devices: seq<Device>, i: nat)
    requires i < |devices| && AddressesParse(devices[..i + 1])
    ensures AddressesParse(devices[..i]) && devices[i].address.Some?
    ensures var d := devices[i];
      Grouped(devices[..i + 1]) ==
      Grouped(devices[..i])[d.egress := Lookup(Grouped(devices[..i]), d.egress) + [d.address.value.addr]]
  {
    var d := devices[i];
    AddressesGrow(devices, i, d.egress);
    NoneChose(devices[..i], d.egress);
    EgressesGrow(devices, i);
    var after := Grouped(devices[..i + 1]);
    var expected := Grouped(devices[..i])[d.egress := Lookup(Grouped(devices[..i]), d.egress) + [d.address.value.addr]];
    forall e | e in after ensures after[e] == expected[e] {
      AddressesGrow(devices, i, e);
    }
  }

  lemma EgressesGrow(devices: seq<Device>, i: nat)
    requires i < |devices|
    ensures Egresses(devices[..i + 1]) == Egresses(devices[..i]) + {devices[i].egress}
  {
    assert devices[..i + 1] == devices[..i] + [devices[i]];
  }

  lemma {:induction false} NoneChose(devices: seq<Device>, egress: string)
    requires AddressesParse(devices)
    ensures egress !in Egresses(devices) <==> AddressesOf(devices, egress) == []
  {
    if devices != [] {
      var front := devices[..|devices| - 1];
      NoneChose(front, egress);
      assert devices == front + [devices[|devices| - 1]];
      assert Egresses(devices) == Egresses(front) + {devices[|devices| - 1].egress};
    }
  }

  method PermittedClients(state: DesiredState) returns (r: Result<map<string, seq<Addr>>>)
    ensures r == if AddressesParse(state.devices) then Ok(Permitted(state.devices, state.tunnels))
      else Err(InvalidDeviceAddress)
  {
    var book: map<string, Addr> := map[];
    var all: seq<Addr> := [];
    for i := 0 to |state.devices|
      invariant AddressesParse(state.devices[..i])
      invariant book == AddressBook(state.devices[..i])
      invariant all == AllAddresses(state.devices[..i])
    {
      var device := state.devices[i];
      TakeNext(state.devices, i);
      if device.address.None? {
        assert device in state.devices;
        return Err(InvalidDeviceAddress);
      }
      book := book[device.id := device.address.value.addr];
      all := all + [device.address.value.addr];
      assert state.devices[..i + 1] == state.devices[..i] + [device];
    }
    assert state.devices[..|state.devices|] == state.devices;
    all := Sort(AddrLe, all);

    var permitted: map<string, seq<Addr>> := map[];
    for i := 0 to |state.tunnels|
      invariant permitted == Permitted(state.devices, state.tunnels[..i])
    {
      var tunnel := state.tunnels[i];
      TakeNext(state.tunnels, i);
      if tunnel.allowedDevices == [] {
        permitted := permitted[tunnel.id := all];
      } else {
        var allowed: seq<Addr> := [];
        for j := 0 to |tunnel.allowedDevices|
          invariant allowed == AllowedAddresses(book, tunnel.allowedDevices[..j])
        {
          TakeNext(tunnel.allowedDevices, j);
          var id := tunnel.allowedDevices[j];
          if id in book {
            allowed := allowed + [book[id]];
          }
        }
        assert tunnel.allowedDevices[..|tunnel.allowedDevices|] == tunnel.allowedDevices;
        permitted := permitted[tunnel.id := Sort(AddrLe, allowed)];
      }
    }
    assert state.tunnels[..|state.tunnels|] == state.tunnels;
    return Ok(permitted);
  }

  /** Collects the tunnel egresses in whatever order the map yields them, then sorts. */
  method TunnelEgressIds(grouped: map<string, seq<Addr>>, tunnels: seq<Tunnel>) returns (ids: seq<string>)
    ensures ids == SortedNames((grouped.Keys - {DIRECT}) + EgressTunnelIds(tunnels))
  {
    var listed: seq<string> := [];
    var seen: set<string> := {};
    var left := grouped.Keys;
    while left != {}
      invariant left <= grouped.Keys
      invariant seen == (grouped.Keys - left) - {DIRECT}
      invariant Distinct(listed) && forall x :: x in listed <==> x in seen
    {
      var egress :| egress in left;
      left := left - {egress};
      if egress != DIRECT {
        listed := listed + [egress];
        seen := seen + {egress};
      }
    }
    for i := 0 to |tunnels|
      invariant seen == (grouped.Keys - {DIRECT}) + EgressTunnelIds(tunnels[..i])
      invariant Distinct(listed) && forall x :: x in listed <==> x in seen
    {
      var tunnel := tunnels[i];
      TakeNext(tunnels, i);
      assert EgressTunnelIds(tunnels[..i + 1]) ==
             EgressTunnelIds(tunnels[..i]) + (if tunnel.role == EgressRole then {tunnel.id} else {});
      if tunnel.role == EgressRole && tunnel.id !in seen {
        listed := listed + [tunnel.id];
        seen := seen + {tunnel.id};
      }
    }
    assert tunnels[..|tunnels|] == tunnels;
    ListingSorts(listed, seen);
    ids := Sort(LexLe, listed);
  }

  method PrivateNetworkTunnels(tunnels: seq<Tunnel>) returns (result: seq<Tunnel>)
    ensures result == Sort(TunnelLe, PrivateTunnels(tunnels))
  {
    result := [];
    for i := 0 to |tunnels|
      invariant result == PrivateTunnels(tunnels[..i])
    {
      TakeNext(tunnels, i);
      if tunnels[i].role == PrivateNetworkRole {
        result := result + [tunnels[i]];
      }
    }
    assert tunnels[..|tunnels|] == tunnels;
    result := Sort(TunnelLe, result);
  }

  method InternalNetworksFor(tunnels: seq<Tunnel>, firstMark: int, permitted: map<string, seq<Addr>>,
      proxied: map<string, bool>)
    returns (networks: seq<InternalNetwork>)
    ensures networks == Networks(Sort(TunnelLe, PrivateTunnels(tunnels)), firstMark, permitted, proxied)
  {
    var private_ := PrivateNetworkTunnels(tunnels);
    networks := NumberNetworks(private_, firstMark, permitted, proxied);
  }

  lemma NetworksGrow(private_: seq<Tunnel>, i: nat, firstMark: int, permitted: map<string, seq<Addr>>,
      proxied: map<string, bool>)
    requires i < |private_|
    ensures Networks(private_[..i + 1], firstMark, permitted, proxied) ==
      Networks(private_[..i], firstMark, permitted, proxied)
        + [NetworkOf(private_[i], U32(firstMark + i), permitted, proxied)]
  {
  }

  method NumberNetworks(private_: seq<Tunnel>, firstMark: int, permitted: map<string, seq<Addr>>,
      proxied: map<string, bool>)
    returns (networks: seq<InternalNetwork>)
    ensures networks == Networks(private_, firstMark, permitted, proxied)
  {
    networks := [];
    for index := 0 to |private_|
      invariant networks == Networks(private_[..index], firstMark, permitted, proxied)
    {
      var network := InternalNetworkFor(private_[index], U32(firstMark + index), permitted, proxied);
      NetworksGrow(private_, index, firstMark, permitted, proxied);
      networks := networks + [network];
    }
    assert private_[..|private_|] == private_;
  }

  method InternalNetworkFor(tunnel: Tunnel, mark: Mark, permitted: map<string, seq<Addr>>, proxied: map<string, bool>)
    returns (network: InternalNetwork)
    ensures network == NetworkOf(tunnel, mark, permitted, proxied)
  {
    var uncovered := UncoveredResolverRoutes(tunnel.dnsServers, tunnel.routes);
    var zones: seq<string> := [];
    for z := 0 to |tunnel.dnsZones|
      invariant |zones| == z
      invariant forall k :: 0 <= k < z ==> zones[k] == NormalizeZone(tunnel.dnsZones[k])
    {
      zones := zones + [NormalizeZone(tunnel.dnsZones[z])];
    }
    assert zones == seq(|tunnel.dnsZones|, i requires 0 <= i < |tunnel.dnsZones| => NormalizeZone(tunnel.dnsZones[i]));
    network := InternalNetwork(
      tunnel.id, mark, Flag(proxied, tunnel.id), EgressInterface(tunnel.id),
      Sort<Option<Cidr>>(RouteLe, tunnel.routes + uncovered), Sort(LexLe, zones), tunnel.dnsServers,
        Lookup(permitted, tunnel.id));
  }

  method CoveredByRoute(routes: seq<Option<Cidr>>, a: Addr) returns (covered: bool)
    ensures covered <==> Covered(routes, a)
  {
    covered := false;
    for j := 0 to |routes|
      invariant !covered && forall k :: 0 <= k < j ==> !(routes[k].Some? && Contains(routes[k].value, a))
    {
      if routes[j].Some? && Contains(routes[j].value, a) {
        return true;
      }
    }
  }

  method UncoveredResolverRoutes(addresses: seq<Option<Addr>>, routes: seq<Option<Cidr>>)
    returns (result: seq<Option<Cidr>>)
    ensures result == UncoveredResolvers(addresses, routes)
  {
    result := [];
    for i := 0 to |addresses|
      invariant result == UncoveredResolvers(addresses[..i], routes)
    {
      TakeNext(addresses, i);
      if addresses[i].None? { continue; }
      var covered := CoveredByRoute(routes, addresses[i].value);
      if !covered {
        result := result + [Some(Host(addresses[i].value))];
      }
    }
    assert addresses[..|addresses|] == addresses;
  }

  lemma TunnelCountGrows(groups: seq<EgressGroup>, i: nat)
    requires i < |groups|
    ensures TunnelCount(groups[..i + 1]) == TunnelCount(groups[..i]) + (if groups[i].id != DIRECT then 1 else 0)
  {
    TakeNext(groups, i);
  }

  lemma {:induction false} TunnelCountMonotonic(groups: seq<EgressGroup>, i: nat, j: nat)
    requires i <= j <= |groups|
    ensures TunnelCount(groups[..i]) <= TunnelCount(groups[..j])
  {
    if i < j {
      TunnelCountGrows(groups, j - 1);
      TunnelCountMonotonic(groups, i, j - 1);
    }
  }

  lemma DnsEntriesGrow(groups: seq<EgressGroup>, i: nat, direct: Option<Addr>)
    requires i < |groups|
    ensures DnsEntries(groups[..i + 1], direct) == DnsEntries(groups[..i], direct) +
      (if groups[i].addresses == [] then []
       else [DnsEntry(groups[i].id, DnsDestination(Sort(AddrLe, groups[i].addresses), ResolverOf(groups, i, direct)))])
  {
    TakeNext(groups, i);
    assert groups[..i + 1][..i] == groups[..i];
  }

  method DnsDestinations(groups: seq<EgressGroup>, direct: Option<Addr>) returns (r: Result<seq<DnsDestination>>)
    ensures r == if TunnelCount(groups) > LINK_LIMIT then Err(OutOfLinkAddresses)
      else Ok(DnsDestinationsOf(groups, direct))
  {
    var entries: seq<DnsEntry> := [];
    var tunnelIndex := 0;
    for i := 0 to |groups|
      invariant tunnelIndex == TunnelCount(groups[..i]) <= LINK_LIMIT
      invariant entries == DnsEntries(groups[..i], direct)
    {
      var group := groups[i];
      TunnelCountGrows(groups, i);
      DnsEntriesGrow(groups, i, direct);
      var resolver := direct;
      if group.id != DIRECT {
        var link := LinkAddresses(LINK_BASE, tunnelIndex);
        LinkExists(tunnelIndex);
        if link.Err? {
          TunnelCountMonotonic(groups, i + 1, |groups|);
          assert groups[..|groups|] == groups;
          return Err(OutOfLinkAddresses);
        }
        resolver := Some(link.value.host);
        tunnelIndex := tunnelIndex + 1;
      }
      if group.addresses == [] { continue; }
      entries := entries + [DnsEntry(group.id, DnsDestination(Sort(AddrLe, group.addresses), resolver))];
    }
    assert groups[..|groups|] == groups;
    var result := SortedDestinations(entries);
    return Ok(result);
  }

  method SortedDestinations(entries: seq<DnsEntry>) returns (result: seq<DnsDestination>)
    ensures result == Destinations(Sort(DnsEntryLe, entries))
  {
    var sorted := Sort(DnsEntryLe, entries);
    result := [];
    for i := 0 to |sorted|
      invariant |result| == i
      invariant forall k :: 0 <= k < i ==> result[k] == sorted[k].destination
    {
      result := result + [sorted[i].destination];
    }
  }

  method ClientPortACLs(rules: seq<ClientACL>, book: map<string, Addr>) returns (result: seq<ClientPortACL>)
    ensures result == PortACLs(rules, book)
  {
    result := [];
    for i := 0 to |rules|
      invariant |result| == i
      invariant forall k :: 0 <= k < i ==> result[k] == PortACL(rules[k], book)
    {
      var rule := rules[i];
      var acl := ClientPortACL(None, Resolve(book, rule.target), rule.protocol, rule.port);
      if rule.source != ANY {
        acl := acl.(source := Resolve(book, rule.source));
      }
      result := result + [acl];
    }
    assert result == seq(|rules|, i requires 0 <= i < |rules| => PortACL(rules[i], book));
    result := Sort(PortACLLe, result);
  }

  method ProxiedTunnels(tunnels: seq<Tunnel>) returns (proxied: map<string, bool>)
    ensures proxied == Proxied(tunnels)
  {
    proxied := map[];
    for i := 0 to |tunnels|
      invariant proxied == Proxied(tunnels[..i])
    {
      TakeNext(tunnels, i);
      proxied := proxied[tunnels[i].id := RunsInNamespace(tunnels[i])];
    }
    assert tunnels[..|tunnels|] == tunnels;
  }

  lemma {:induction false} NoDirectCount(groups: seq<EgressGroup>)
    requires forall g :: g in groups ==> g.id != DIRECT
    ensures TunnelCount(groups) == |groups|
  {
    if groups != [] {
      NoDirectCount(groups[..|groups| - 1]);
    }
  }

  lemma {:induction false} TunnelCountAppends(a: seq<EgressGroup>, b: seq<EgressGroup>)
    ensures TunnelCount(a + b) == TunnelCount(a) + TunnelCount(b)
  {
    if b == [] {
      assert a + b == a;
    } else {
      assert (a + b)[..|a + b| - 1] == a + b[..|b| - 1];
      TunnelCountAppends(a, b[..|b| - 1]);
    }
  }

  lemma NamesCardinality(names: set<string>)
    ensures |SortedNames(names)| == |names|
  {
    DistinctLength(SortedNames(names), names);
  }

  lemma {:induction false} DistinctLength(listed: seq<string>, names: set<string>)
    requires Distinct(listed) && forall x :: x in listed <==> x in names
    ensures |listed| == |names|
  {
    if listed == [] {
      assert forall x :: x in names ==> x in listed;
      assert names == {};
    } else {
      var rest := listed[1..];
      forall i, j | 0 <= i < j < |rest| ensures rest[i] != rest[j] { assert listed[i + 1] != listed[j + 1]; }
      forall x ensures x in rest <==> x in names - {listed[0]} {
        if x in rest { var k :| 0 <= k < |rest| && rest[k] == x; assert listed[k + 1]
          == x; assert listed[0] != listed[k + 1]; }
        if x in names - {listed[0]} { assert x in listed; }
      }
      DistinctLength(rest, names - {listed[0]});
    }
  }

  lemma TunnelGroupsNotDirect(state: DesiredState, ids: seq<string>)
    requires AddressesParse(state.devices) && DIRECT !in ids
    ensures |TunnelGroups(state, ids)| == |ids| && forall g :: g in TunnelGroups(state, ids) ==> g.id != DIRECT
  {
    hide Permitted, Proxied, AddressesOf, AddressesParse, Sort;
    var tunnels := TunnelGroups(state, ids);
    forall g | g in tunnels ensures g.id != DIRECT {
      var i :| 0 <= i < |tunnels| && tunnels[i] == g;
      assert ids[i] in ids;
    }
  }

  lemma DirectCountsForNothing(state: DesiredState, uplink: string)
    requires AddressesParse(state.devices)
    ensures TunnelCount(DirectGroups(state, uplink)) == 0
  {
    hide Permitted, AddressesOf, AddressesParse, Sort;
  }

  /** The links run out exactly when there are more tunnels than links. */
  lemma GroupCount(state: DesiredState, uplink: string)
    requires AddressesParse(state.devices)
    requires DIRECT !in EgressTunnelIds(state.tunnels)
    ensures TunnelCount(EgressGroups(state, uplink)) == |TunnelEgresses(state)|
  {
    hide TunnelGroups, DirectGroups;
    var ids := SortedNames(TunnelEgresses(state));
    NamesCardinality(TunnelEgresses(state));
    var tunnels := TunnelGroups(state, ids);
    TunnelGroupsNotDirect(state, ids);
    DirectCountsForNothing(state, uplink);
    NoDirectCount(tunnels);
    TunnelCountAppends(DirectGroups(state, uplink), tunnels);
  }

  lemma DevicesGrow(devices: seq<Device>, i: nat)
    requires i < |devices| && AddressesParse(devices[..i])
    ensures AddressesParse(devices[..i + 1]) <==> devices[i].address.Some?
    ensures AddressesParse(devices) ==> devices[i].address.Some?
    ensures devices[i].address.Some? ==>
      AddressBook(devices[..i + 1]) == AddressBook(devices[..i])[devices[i].id := devices[i].address.value.addr]
  {
    TakeNext(devices, i);
    assert devices[i] in devices[..i + 1] && devices[i] in devices;
  }

  method GroupDevices(devices: seq<Device>) returns (r: Result<(map<string, seq<Addr>>, map<string, Addr>)>)
    ensures r == if AddressesParse(devices) then Ok((Grouped(devices), AddressBook(devices)))
      else Err(InvalidDeviceAddress)
  {
    var grouped: map<string, seq<Addr>> := map[];
    var book: map<string, Addr> := map[];
    for i := 0 to |devices|
      invariant AddressesParse(devices[..i])
      invariant grouped == Grouped(devices[..i]) && book == AddressBook(devices[..i])
    {
      var device := devices[i];
      DevicesGrow(devices, i);
      if device.address.None? {
        return Err(InvalidDeviceAddress);
      }
      GroupedGrows(devices, i);
      book := book[device.id := device.address.value.addr];
      grouped := grouped[device.egress := Lookup(grouped, device.egress) + [device.address.value.addr]];
    }
    assert devices[..|devices|] == devices;
    return Ok((grouped, book));
  }

  method DirectGroupFor(state: DesiredState, uplink: string, grouped: map<string, seq<Addr>>)
    returns (groups: seq<EgressGroup>)
    requires AddressesParse(state.devices) && grouped == Grouped(state.devices)
    ensures groups == DirectGroups(state, uplink)
  {
    groups := [];
    NoneChose(state.devices, DIRECT);
    if Lookup(grouped, DIRECT) != [] {
      groups := [EgressGroup(DIRECT, false, DIRECT_MARK, uplink, Sort(AddrLe, grouped[DIRECT]), [])];
    }
  }

  method TunnelGroupFor(state: DesiredState, egress: string, index: nat, grouped: map<string, seq<Addr>>,
      permitted: map<string, seq<Addr>>, proxied: map<string, bool>)
    returns (group: EgressGroup)
    requires AddressesParse(state.devices) && grouped == Grouped(state.devices)
    requires permitted == Permitted(state.devices, state.tunnels) && proxied == Proxied(state.tunnels)
    ensures group == TunnelGroup(state, egress, index)
  {
    NoneChose(state.devices, egress);
    group := EgressGroup(
      egress, Flag(proxied, egress), U32(DIRECT_MARK + 1 + index), EgressInterface(egress),
      Sort(AddrLe, Lookup(grouped, egress)), Lookup(permitted, egress));
  }

  lemma TunnelGroupsGrow(state: DesiredState, ids: seq<string>, i: nat)
    requires i < |ids| && AddressesParse(state.devices)
    ensures TunnelGroups(state, ids[..i + 1]) == TunnelGroups(state, ids[..i]) + [TunnelGroup(state, ids[i], i)]
  {
  }

  method GroupsFor(state: DesiredState, uplink: string, ids: seq<string>, grouped: map<string, seq<Addr>>,
      permitted: map<string, seq<Addr>>, proxied: map<string, bool>)
    returns (groups: seq<EgressGroup>)
    requires AddressesParse(state.devices) && grouped == Grouped(state.devices)
    requires permitted == Permitted(state.devices, state.tunnels) && proxied == Proxied(state.tunnels)
    ensures groups == DirectGroups(state, uplink) + TunnelGroups(state, ids)
  {
    groups := DirectGroupFor(state, uplink, grouped);
    ghost var direct := groups;
    for index := 0 to |ids|
      invariant groups == direct + TunnelGroups(state, ids[..index])
    {
      var group := TunnelGroupFor(state, ids[index], index, grouped, permitted, proxied);
      TunnelGroupsGrow(state, ids, index);
      groups := groups + [group];
    }
    assert ids[..|ids|] == ids;
  }

  method BuildFirewallPlan(state: DesiredState, uplink: string) returns (r: Result<FirewallPlan>)
    ensures r == PlanOf(state, uplink)
  {
    if uplink == "" {
      return Err(UplinkRequired);
    }
    var listenPort :- ListenPort(state.hub);
    var devices :- GroupDevices(state.devices);
    var (grouped, book) := devices;
    var clients := PermittedClients(state);
    if clients.Err? {
      return Err(InvalidDeviceAddress);
    }
    var permitted := clients.value;
    var proxied := ProxiedTunnels(state.tunnels);
    var acls := ClientPortACLs(state.acls, book);
    var ids := TunnelEgressIds(grouped, state.tunnels);
    assert grouped.Keys == Egresses(state.devices);
    var groups := GroupsFor(state, uplink, ids, grouped, permitted, proxied);
    var internals := InternalNetworksFor(state.tunnels, DIRECT_MARK + 1 + |ids|, permitted, proxied);
    var destinations :- DnsDestinations(groups, state.hub.dnsAddress);
    return Ok(FirewallPlan(
      INGRESS, uplink, listenPort, MANAGEMENT_PORT, state.hub.clientCidr, state.hub.dnsAddress,
      destinations, internals, [], state.hub.udp443,
      if state.hub.realityEnabled then REALITY_PORT else 0, acls, groups));
  }
}
