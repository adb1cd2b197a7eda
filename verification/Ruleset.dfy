/** Renders a firewall plan as the table's sets and chains, in the order the file lists them. */
module Renderer {
  import opened Netip
  import opened Ordering
  import opened Domain
  import opened FirewallPlanner
  import opened Nftables

  // ------------------------------------------------------------------
  // The rules of each chain
  // ------------------------------------------------------------------

  function Hosts(addresses: seq<Addr>): seq<Option<Cidr>> {
    seq(|addresses|, i requires 0 <= i < |addresses| => Some(Host(addresses[i])))
  }

  function HostText(a: Option<Addr>): Option<Cidr> { if a.Some? then Some(Host(a.value)) else None }

  /** The destination whose client list is this group's, by comparing the two lists. */
  function DestinationFor(group: EgressGroup, destinations: seq<DnsDestination>): Option<DnsDestination> {
    if destinations == [] then None
    else if destinations[0].clients == group.addresses then Some(destinations[0])
    else DestinationFor(group, destinations[1..])
  }

  method DnsDestinationFor(group: EgressGroup, destinations: seq<DnsDestination>) returns (r: Option<DnsDestination>)
    ensures r == DestinationFor(group, destinations)
  {
    for i := 0 to |destinations|
      invariant DestinationFor(group, destinations) == DestinationFor(group, destinations[i..])
    {
      assert destinations[i..][1..] == destinations[i + 1..];
      if |destinations[i].clients| != |group.addresses| { continue; }
      var matched := true;
      for k := 0 to |group.addresses|
        invariant matched && group.addresses[..k] == destinations[i].clients[..k]
      {
        if group.addresses[k] != destinations[i].clients[k] {
          matched := false;
          break;
        }
      }
      assert matched <==> destinations[i].clients == group.addresses by {
        assert group.addresses[..|group.addresses|] == group.addresses;
        assert destinations[i].clients[..|group.addresses|] == destinations[i].clients;
      }
      if matched {
        return Some(destinations[i]);
      }
    }
    return None;
  }

  /** A group's DNS destination when it has one with clients: the others get no DNS rules. */
  ghost function ServedBy(plan: FirewallPlan, group: EgressGroup): Option<DnsDestination> {
    var destination := DestinationFor(group, plan.dnsDestinations);
    if destination.Some? && destination.value.clients != [] then destination else None
  }

  ghost function AddressesIn(groups: seq<EgressGroup>): set<Addr> {
    set i, k | 0 <= i < |groups| && 0 <= k < |groups[i].addresses| :: groups[i].addresses[k]
  }

  /** Every client of some group, once, in order. */
  ghost predicate ListsAdmitted(clients: seq<Addr>, groups: seq<EgressGroup>) {
    && SortedBy(AddrLe, clients) && Distinct(clients)
    && forall a :: a in clients <==> a in AddressesIn(groups)
  }

  lemma AdmittedUnique(a: seq<Addr>, b: seq<Addr>, groups: seq<EgressGroup>)
    requires ListsAdmitted(a, groups) && ListsAdmitted(b, groups)
    ensures a == b
  {
    DistinctSameElements(a, b);
    SortedUnique(AddrLe, a, b);
  }

  method AdmittedDnsClients(plan: FirewallPlan) returns (clients: seq<Addr>)
    ensures ListsAdmitted(clients, plan.egresses)
  {
    var groups := plan.egresses;
    var seen: set<Addr> := {};
    var listed: seq<Addr> := [];
    for i := 0 to |groups|
      invariant Distinct(listed) && forall a :: a in listed <==> a in seen
      invariant seen == AddressesIn(groups[..i])
    {
      ghost var before := seen;
      for k := 0 to |groups[i].addresses|
        invariant Distinct(listed) && forall a :: a in listed <==> a in seen
        invariant seen == before + set m | 0 <= m < k :: groups[i].addresses[m]
      {
        var address := groups[i].addresses[k];
        if address !in seen {
          seen := seen + {address};
          listed := listed + [address];
        }
      }
      AddressesGrowBy(groups, i);
    }
    assert groups[..|groups|] == groups;
    SortSorted(AddrLe, listed);
    DistinctPermutation(listed, Sort(AddrLe, listed));
    SameElements(listed, Sort(AddrLe, listed));
    return Sort(AddrLe, listed);
  }

  lemma AddressesGrowBy(groups: seq<EgressGroup>, i: nat)
    requires i < |groups|
    ensures AddressesIn(groups[..i + 1]) ==
      AddressesIn(groups[..i]) + set m | 0 <= m < |groups[i].addresses| :: groups[i].addresses[m]
  {
    var after, before := groups[..i + 1], groups[..i];
    forall a | a in AddressesIn(before) ensures a in AddressesIn(after) {
      var j, k :| 0 <= j < |before| && 0 <= k < |before[j].addresses| && before[j].addresses[k] == a;
      assert after[j].addresses[k] == a;
    }
    forall m | 0 <= m < |groups[i].addresses| ensures groups[i].addresses[m] in AddressesIn(after) {
      assert after[i].addresses[m] == groups[i].addresses[m];
    }
    forall a | a in AddressesIn(after)
      ensures a in AddressesIn(before) + set m | 0 <= m < |groups[i].addresses| :: groups[i].addresses[m]
    {
      var j, k :| 0 <= j < |after| && 0 <= k < |after[j].addresses| && after[j].addresses[k] == a;
      if j < i { assert before[j].addresses[k] == a; }
    }
  }

  // ---- sets ----

  function ClientSetDecl(group: EgressGroup): SetDecl { SetDecl(ClientSet(group.id), Hosts(group.addresses)) }

  function InternalSetDecl(network: InternalNetwork): SetDecl { SetDecl(InternalSet(network.tunnelId), network.routes) }

  ghost function DnsClientSets(plan: FirewallPlan, groups: seq<EgressGroup>): seq<SetDecl> {
    if groups == [] then []
    else
      var last := groups[|groups| - 1];
      var served := ServedBy(plan, last);
      DnsClientSets(plan, groups[..|groups| - 1]) +
      (if served.None? then [] else [SetDecl(DnsClientSet(last.id), Hosts(served.value.clients))])
  }

  datatype AllowedEntry = AllowedEntry(id: string, clients: seq<Addr>)

  function EgressRoles(groups: seq<EgressGroup>): seq<AllowedEntry> {
    seq(|groups|, i requires 0 <= i < |groups| => AllowedEntry(groups[i].id, groups[i].clients))
  }

  function NetworkRoles(networks: seq<InternalNetwork>): seq<AllowedEntry> {
    seq(|networks|, i requires 0 <= i < |networks| => AllowedEntry(networks[i].tunnelId, networks[i].clients))
  }

  function EndpointRoles(endpoints: seq<SocksEndpoint>): seq<AllowedEntry> {
    seq(|endpoints|, i requires 0 <= i < |endpoints| => AllowedEntry(endpoints[i].tunnelId, endpoints[i].clients))
  }

  /** The tunnels with a permitted list, in the order of the roles that mention them. */
  function AllowedRoles(plan: FirewallPlan): seq<AllowedEntry> {
    EgressRoles(plan.egresses) + NetworkRoles(plan.internals) + EndpointRoles(plan.socks)
  }

  predicate Skipped(id: string) { id == "" || id == DIRECT }

  function EntryIds(entries: seq<AllowedEntry>): set<string> { set e | e in entries :: e.id }

  /** One set per tunnel: the first role that names it decides, the rest repeat it. */
  function FirstEntries(entries: seq<AllowedEntry>): seq<AllowedEntry> {
    if entries == [] then [] else AddedTo(FirstEntries(entries[..|entries| - 1]), entries[|entries| - 1])
  }

  function AddedTo(result: seq<AllowedEntry>, entry: AllowedEntry): seq<AllowedEntry> {
    if Skipped(entry.id) || entry.id in EntryIds(result) then result else result + [entry]
  }

  function AllowedSetDecl(entry: AllowedEntry): SetDecl { SetDecl(AllowedSet(entry.id), Hosts(entry.clients)) }

  lemma FirstEntriesGrow(entries: seq<AllowedEntry>, entry: AllowedEntry)
    ensures FirstEntries(entries + [entry]) == AddedTo(FirstEntries(entries), entry)
  {
    assert (entries + [entry])[..|entries|] == entries;
  }

  method AddEntry(result: seq<AllowedEntry>, seen: set<string>, entry: AllowedEntry)
    returns (result': seq<AllowedEntry>, seen': set<string>)
    requires seen == EntryIds(result)
    ensures result' == AddedTo(result, entry) && seen' == EntryIds(result')
  {
    if Skipped(entry.id) || entry.id in seen {
      return result, seen;
    }
    return result + [entry], seen + {entry.id};
  }

  method AddEgresses(groups: seq<EgressGroup>) returns (result: seq<AllowedEntry>, seen: set<string>)
    ensures result == FirstEntries(EgressRoles(groups)) && seen == EntryIds(result)
  {
    result, seen := [], {};
    for i := 0 to |groups|
      invariant result == FirstEntries(EgressRoles(groups[..i])) && seen == EntryIds(result)
    {
      var entry := AllowedEntry(groups[i].id, groups[i].clients);
      assert EgressRoles(groups[..i + 1]) == EgressRoles(groups[..i]) + [entry];
      FirstEntriesGrow(EgressRoles(groups[..i]), entry);
      result, seen := AddEntry(result, seen, entry);
    }
    assert groups[..|groups|] == groups;
  }

  method AddNetworks(ghost before: seq<AllowedEntry>, soFar: seq<AllowedEntry>, ids: set<string>,
      networks: seq<InternalNetwork>)
    returns (result: seq<AllowedEntry>, seen: set<string>)
    requires soFar == FirstEntries(before) && ids == EntryIds(soFar)
    ensures result == FirstEntries(before + NetworkRoles(networks)) && seen == EntryIds(result)
  {
    result, seen := soFar, ids;
    assert before + NetworkRoles(networks[..0]) == before;
    for i := 0 to |networks|
      invariant result == FirstEntries(before + NetworkRoles(networks[..i])) && seen == EntryIds(result)
    {
      var entry := AllowedEntry(networks[i].tunnelId, networks[i].clients);
      assert before + NetworkRoles(networks[..i + 1]) == before + NetworkRoles(networks[..i]) + [entry];
      FirstEntriesGrow(before + NetworkRoles(networks[..i]), entry);
      result, seen := AddEntry(result, seen, entry);
    }
    assert networks[..|networks|] == networks;
  }

  method AddEndpoints(ghost before: seq<AllowedEntry>, soFar: seq<AllowedEntry>, ids: set<string>,
      endpoints: seq<SocksEndpoint>)
    returns (result: seq<AllowedEntry>)
    requires soFar == FirstEntries(before) && ids == EntryIds(soFar)
    ensures result == FirstEntries(before + EndpointRoles(endpoints))
  {
    result := soFar;
    var seen := ids;
    assert before + EndpointRoles(endpoints[..0]) == before;
    for i := 0 to |endpoints|
      invariant result == FirstEntries(before + EndpointRoles(endpoints[..i])) && seen == EntryIds(result)
    {
      var entry := AllowedEntry(endpoints[i].tunnelId, endpoints[i].clients);
      assert before + EndpointRoles(endpoints[..i + 1]) == before + EndpointRoles(endpoints[..i]) + [entry];
      FirstEntriesGrow(before + EndpointRoles(endpoints[..i]), entry);
      result, seen := AddEntry(result, seen, entry);
    }
    assert endpoints[..|endpoints|] == endpoints;
  }

  method AllowedSets(plan: FirewallPlan) returns (result: seq<AllowedEntry>)
    ensures result == FirstEntries(AllowedRoles(plan))
  {
    ghost var egresses := EgressRoles(plan.egresses);
    var seen: set<string>;
    result, seen := AddEgresses(plan.egresses);
    result, seen := AddNetworks(egresses, result, seen, plan.internals);
    result := AddEndpoints(egresses + NetworkRoles(plan.internals), result, seen, plan.socks);
  }

  function ClientSets(groups: seq<EgressGroup>): seq<SetDecl> {
    seq(|groups|, i requires 0 <= i < |groups| => ClientSetDecl(groups[i]))
  }

  function AllowedSetDecls(entries: seq<AllowedEntry>): seq<SetDecl> {
    seq(|entries|, i requires 0 <= i < |entries| => AllowedSetDecl(entries[i]))
  }

  function InternalSets(networks: seq<InternalNetwork>): seq<SetDecl> {
    seq(|networks|, i requires 0 <= i < |networks| => InternalSetDecl(networks[i]))
  }

  function AdmissionSets(admitted: seq<Addr>): seq<SetDecl> {
    if admitted == [] then [] else [SetDecl(AdmittedSet, Hosts(admitted))]
  }

  ghost function SetsOf(plan: FirewallPlan, admitted: seq<Addr>): seq<SetDecl> {
    ClientSets(plan.egresses) + AdmissionSets(admitted) + DnsClientSets(plan, plan.egresses)
    + AllowedSetDecls(FirstEntries(AllowedRoles(plan))) + InternalSets(plan.internals)
  }

  method RenderSets(plan: FirewallPlan, admitted: seq<Addr>) returns (sets: seq<SetDecl>)
    ensures sets == SetsOf(plan, admitted)
  {
    var clients := RenderClientSets(plan.egresses);
    var resolving := RenderDnsClientSets(plan);
    var tunnels := AllowedSets(plan);
    var allowed := RenderAllowedSets(tunnels);
    var internals := RenderInternalSets(plan.internals);
    sets := clients + AdmissionSets(admitted) + resolving + allowed + internals;
  }

  method RenderClientSets(groups: seq<EgressGroup>) returns (sets: seq<SetDecl>)
    ensures sets == ClientSets(groups)
  {
    sets := [];
    for i := 0 to |groups|
      invariant |sets| == i && forall k :: 0 <= k < i ==> sets[k] == ClientSetDecl(groups[k])
    {
      sets := sets + [ClientSetDecl(groups[i])];
    }
  }

  method RenderAllowedSets(entries: seq<AllowedEntry>) returns (sets: seq<SetDecl>)
    ensures sets == AllowedSetDecls(entries)
  {
    sets := [];
    for i := 0 to |entries|
      invariant |sets| == i && forall k :: 0 <= k < i ==> sets[k] == AllowedSetDecl(entries[k])
    {
      sets := sets + [AllowedSetDecl(entries[i])];
    }
  }

  method RenderInternalSets(networks: seq<InternalNetwork>) returns (sets: seq<SetDecl>)
    ensures sets == InternalSets(networks)
  {
    sets := [];
    for i := 0 to |networks|
      invariant |sets| == i && forall k :: 0 <= k < i ==> sets[k] == InternalSetDecl(networks[k])
    {
      sets := sets + [InternalSetDecl(networks[i])];
    }
  }

  method RenderDnsClientSets(plan: FirewallPlan) returns (sets: seq<SetDecl>)
    ensures sets == DnsClientSets(plan, plan.egresses)
  {
    sets := [];
    for i := 0 to |plan.egresses|
      invariant sets == DnsClientSets(plan, plan.egresses[..i])
    {
      TakeNext(plan.egresses, i);
      var destination := DnsDestinationFor(plan.egresses[i], plan.dnsDestinations);
      if destination.None? || destination.value.clients == [] { continue; }
      sets := sets + [SetDecl(DnsClientSet(plan.egresses[i].id), Hosts(destination.value.clients))];
    }
    assert plan.egresses[..|plan.egresses|] == plan.egresses;
  }

  // ---- prerouting: marks ----

  function NetworkMarkRule(network: InternalNetwork): Rule {
    Rule([Destination(In(InternalSet(network.tunnelId)))], [SetMark(network.mark), SaveMark, Return])
  }

  function GroupMarkRule(group: EgressGroup): Rule {
    Rule([Source(In(ClientSet(group.id)))], [SetMark(group.mark)])
  }

  function NetworkMarkRules(networks: seq<InternalNetwork>): seq<Rule> {
    seq(|networks|, i requires 0 <= i < |networks| => NetworkMarkRule(networks[i]))
  }

  function GroupMarkRules(groups: seq<EgressGroup>): seq<Rule> {
    seq(|groups|, i requires 0 <= i < |groups| => GroupMarkRule(groups[i]))
  }

  function PreroutingRules(plan: FirewallPlan): seq<Rule> {
    [Rule([IifIsNot(plan.ingress)], [Accept])]
    + NetworkMarkRules(plan.internals)
    + [Rule([Destination(Block(plan.clientCidr))], [Return])]
    + GroupMarkRules(plan.egresses)
    + [Rule([], [SaveMark])]
  }

  method RenderPrerouting(plan: FirewallPlan) returns (rules: seq<Rule>)
    ensures rules == PreroutingRules(plan)
  {
    rules := [Rule([IifIsNot(plan.ingress)], [Accept])];
    for i := 0 to |plan.internals|
      invariant rules == [Rule([IifIsNot(plan.ingress)], [Accept])] + NetworkMarkRules(plan.internals)[..i]
    {
      rules := rules + [NetworkMarkRule(plan.internals[i])];
    }
    rules := rules + [Rule([Destination(Block(plan.clientCidr))], [Return])];
    ghost var before := rules;
    for i := 0 to |plan.egresses|
      invariant rules == before + GroupMarkRules(plan.egresses)[..i]
    {
      rules := rules + [GroupMarkRule(plan.egresses[i])];
    }
    rules := rules + [Rule([], [SaveMark])];
  }

  // ---- forward: the kill switch ----

  function ACLRule(plan: FirewallPlan, acl: ClientPortACL): Rule {
    Rule([IifIs(plan.ingress), OifIs(plan.ingress),
          Source(Block(if acl.source.None? then plan.clientCidr else HostText(acl.source))),
          Destination(Block(HostText(acl.target))),
          DestPort(acl.protocol, acl.port)], [Accept])
  }

  function NetworkRule(plan: FirewallPlan, network: InternalNetwork): Rule {
    Rule([IifIs(plan.ingress), Source(In(AllowedSet(network.tunnelId))),
          Destination(In(InternalSet(network.tunnelId))), OifIs(network.iface)], [Accept])
  }

  function GroupRule(plan: FirewallPlan, group: EgressGroup): Rule {
    Rule([IifIs(plan.ingress), Source(In(ClientSet(group.id))), OifIs(group.iface)], [Accept])
  }

  function ProxyRule(plan: FirewallPlan, iface: string): Rule {
    Rule([IifIs(iface), OifIs(plan.uplink)], [Accept])
  }

  function EndpointRule(plan: FirewallPlan, endpoint: SocksEndpoint): Rule {
    Rule([IifIs(plan.ingress), Source(In(AllowedSet(endpoint.tunnelId))), OifIs(endpoint.iface),
          DestPort(Tcp, endpoint.port)], [Accept])
  }

  function ACLRules(plan: FirewallPlan): seq<Rule> {
    seq(|plan.acls|, i requires 0 <= i < |plan.acls| => ACLRule(plan, plan.acls[i]))
  }

  function NetworkRules(plan: FirewallPlan): seq<Rule> {
    seq(|plan.internals|, i requires 0 <= i < |plan.internals| => NetworkRule(plan, plan.internals[i]))
  }

  function GroupRules(plan: FirewallPlan): seq<Rule> {
    seq(|plan.egresses|, i requires 0 <= i < |plan.egresses| => GroupRule(plan, plan.egresses[i]))
  }

  function ProxiedGroupRules(plan: FirewallPlan, groups: seq<EgressGroup>): seq<Rule> {
    if groups == [] then []
    else
      var last := groups[|groups| - 1];
      ProxiedGroupRules(plan, groups[..|groups| - 1]) + (if last.proxied then [ProxyRule(plan, last.iface)] else [])
  }

  function ProxiedNetworkRules(plan: FirewallPlan, networks: seq<InternalNetwork>): seq<Rule> {
    if networks == [] then []
    else
      var last := networks[|networks| - 1];
      ProxiedNetworkRules(plan, networks[..|networks| - 1])
        + (if last.proxied then [ProxyRule(plan, last.iface)] else [])
  }

  function EndpointRules(plan: FirewallPlan): seq<Rule> {
    seq(|plan.socks|, i requires 0 <= i < |plan.socks| => EndpointRule(plan, plan.socks[i]))
  }

  const FORWARD_HEAD := [Rule([OpensTcp], [ClampMss]), Rule([Established], [Accept])]

  function IngressRules(plan: FirewallPlan): seq<Rule> {
    [Rule([IifIs(plan.ingress), OifIs(plan.ingress)], [Drop]),
      Rule([IifIs(plan.ingress), DestPort(Tcp, 853)], [Reject])]
  }

  /** Everything after the refusals: the ways a packet may leave. */
  function LeaveRules(plan: FirewallPlan): seq<Rule> {
    NetworkRules(plan) + GroupRules(plan)
    + ProxiedGroupRules(plan, plan.egresses) + ProxiedNetworkRules(plan, plan.internals)
    + EndpointRules(plan)
  }

  function ForwardRules(plan: FirewallPlan): seq<Rule> {
    FORWARD_HEAD + ACLRules(plan) + IngressRules(plan) + LeaveRules(plan)
  }

  method RenderForward(plan: FirewallPlan) returns (rules: seq<Rule>)
    ensures rules == ForwardRules(plan)
  {
    rules := FORWARD_HEAD;
    for i := 0 to |plan.acls|
      invariant rules == FORWARD_HEAD + ACLRules(plan)[..i]
    {
      var acl := plan.acls[i];
      if acl.source.None? {
        rules := rules + [Rule([IifIs(plan.ingress), OifIs(plan.ingress), Source(Block(plan.clientCidr)),
          Destination(Block(HostText(acl.target))), DestPort(acl.protocol, acl.port)], [Accept])];
        continue;
      }
      rules := rules + [Rule([IifIs(plan.ingress), OifIs(plan.ingress), Source(Block(HostText(acl.source))),
        Destination(Block(HostText(acl.target))), DestPort(acl.protocol, acl.port)], [Accept])];
    }
    rules := rules + [Rule([IifIs(plan.ingress), OifIs(plan.ingress)], [Drop])];
    rules := rules + [Rule([IifIs(plan.ingress), DestPort(Tcp, 853)], [Reject])];
    assert rules == FORWARD_HEAD + ACLRules(plan) + IngressRules(plan);
    var leaving := RenderLeaving(plan);
    rules := rules + leaving;
  }

  method RenderLeaving(plan: FirewallPlan) returns (rules: seq<Rule>)
    ensures rules == LeaveRules(plan)
  {
    rules := [];
    for i := 0 to |plan.internals|
      invariant rules == NetworkRules(plan)[..i]
    {
      rules := rules + [NetworkRule(plan, plan.internals[i])];
    }
    for i := 0 to |plan.egresses|
      invariant rules == NetworkRules(plan) + GroupRules(plan)[..i]
    {
      rules := rules + [GroupRule(plan, plan.egresses[i])];
    }
    var proxies := RenderProxies(plan);
    rules := rules + proxies;
    ghost var before := rules;
    for i := 0 to |plan.socks|
      invariant rules == before + EndpointRules(plan)[..i]
    {
      rules := rules + [EndpointRule(plan, plan.socks[i])];
    }
  }

  method RenderProxies(plan: FirewallPlan) returns (rules: seq<Rule>)
    ensures rules == ProxiedGroupRules(plan, plan.egresses) + ProxiedNetworkRules(plan, plan.internals)
  {
    rules := [];
    for i := 0 to |plan.egresses|
      invariant rules == ProxiedGroupRules(plan, plan.egresses[..i])
    {
      TakeNext(plan.egresses, i);
      if plan.egresses[i].proxied {
        rules := rules + [ProxyRule(plan, plan.egresses[i].iface)];
      }
    }
    assert plan.egresses[..|plan.egresses|] == plan.egresses;
    ghost var before := rules;
    for i := 0 to |plan.internals|
      invariant rules == before + ProxiedNetworkRules(plan, plan.internals[..i])
    {
      TakeNext(plan.internals, i);
      if plan.internals[i].proxied {
        rules := rules + [ProxyRule(plan, plan.internals[i].iface)];
      }
    }
    assert plan.internals[..|plan.internals|] == plan.internals;
  }

  // ---- input: the hub's own services ----

  function ResolveRules(plan: FirewallPlan, ref: SetRef, resolver: Option<Addr>): seq<Rule> {
    [Rule([IifIs(plan.ingress), Source(In(ref)), Destination(Block(HostText(resolver))), DestPort(Udp, 53)], [Accept]),
     Rule([IifIs(plan.ingress), Source(In(ref)), Destination(Block(HostText(resolver))), DestPort(Tcp, 53)], [Accept])]
  }

  function RefuseRules(plan: FirewallPlan, ref: SetRef): seq<Rule> {
    [Rule([IifIs(plan.ingress), Source(In(ref)), DestPort(Udp, 53)], [Drop]),
     Rule([IifIs(plan.ingress), Source(In(ref)), DestPort(Tcp, 53)], [Drop])]
  }

  ghost function DnsInputRules(plan: FirewallPlan, groups: seq<EgressGroup>): seq<Rule> {
    if groups == [] then []
    else
      var last := groups[|groups| - 1];
      var served := ServedBy(plan, last);
      DnsInputRules(plan, groups[..|groups| - 1]) +
      (if served.None? then []
       else ResolveRules(plan, DnsClientSet(last.id), served.value.resolver) + RefuseRules(plan, DnsClientSet(last.id)))
  }

  function HubDnsRules(plan: FirewallPlan, admitted: seq<Addr>): seq<Rule> {
    if admitted != [] && plan.dnsAddress.Some? then ResolveRules(plan, AdmittedSet, plan.dnsAddress) else []
  }

  const LOOPBACK := "lo"

  function ServiceRules(plan: FirewallPlan, admitted: seq<Addr>): seq<Rule> {
    [Rule([IifIs(plan.ingress), DestPort(Udp, 53)], [Drop]),
     Rule([IifIs(plan.ingress), DestPort(Tcp, 53)], [Drop]),
     Rule([Established], [Accept])]
    + (if admitted != [] && plan.dnsAddress.Some? then
         [Rule([IifIs(LOOPBACK), Marked, Destination(Block(HostText(plan.dnsAddress))), DestPort(Udp, 53)], [Accept]),
          Rule([IifIs(LOOPBACK), Marked, Destination(Block(HostText(plan.dnsAddress))), DestPort(Tcp, 53)], [Accept])]
       else [])
    + [Rule([IifIs(LOOPBACK), Marked], [Drop]),
       Rule([IifIs(LOOPBACK)], [Accept]),
       Rule([ProtocolIs(Icmp)], [Accept]),
       Rule([DestPort(Tcp, plan.managementPort)], [Accept]),
       Rule([DestPort(Udp, plan.listenPort)], [Accept])]
    + (if plan.realityPort != 0 then [Rule([DestPort(Tcp, plan.realityPort)], [Accept])] else [])
  }

  ghost function InputRules(plan: FirewallPlan, admitted: seq<Addr>): seq<Rule> {
    DnsInputRules(plan, plan.egresses) + HubDnsRules(plan, admitted) + ServiceRules(plan, admitted)
  }

  method RenderInput(plan: FirewallPlan, admitted: seq<Addr>) returns (rules: seq<Rule>)
    ensures rules == InputRules(plan, admitted)
  {
    rules := [];
    for i := 0 to |plan.egresses|
      invariant rules == DnsInputRules(plan, plan.egresses[..i])
    {
      TakeNext(plan.egresses, i);
      var destination := DnsDestinationFor(plan.egresses[i], plan.dnsDestinations);
      if destination.None? || destination.value.clients == [] { continue; }
      var ref := DnsClientSet(plan.egresses[i].id);
      rules := rules + (ResolveRules(plan, ref, destination.value.resolver) + RefuseRules(plan, ref));
    }
    assert plan.egresses[..|plan.egresses|] == plan.egresses;
    if admitted != [] && plan.dnsAddress.Some? {
      rules := rules + ResolveRules(plan, AdmittedSet, plan.dnsAddress);
    }
    rules := rules + ServiceRules(plan, admitted);
  }

  // ---- output: traffic the hub originates ----

  function DestinationMarkRule(network: InternalNetwork): Rule {
    Rule([Destination(In(InternalSet(network.tunnelId)))], [SetMark(network.mark)])
  }

  function DestinationMarkRules(networks: seq<InternalNetwork>): seq<Rule> {
    seq(|networks|, i requires 0 <= i < |networks| => DestinationMarkRule(networks[i]))
  }

  function OutputMarkRules(plan: FirewallPlan): seq<Rule> {
    if plan.internals == [] then []
    else [Rule([Marked], [Return])] + DestinationMarkRules(plan.internals)
  }

  function StayRule(mark: Mark, iface: string): Rule { Rule([MarkIs(mark), OifIsNot(iface)], [Drop]) }

  function GroupStayRules(groups: seq<EgressGroup>): seq<Rule> {
    if groups == [] then []
    else
      var last := groups[|groups| - 1];
      GroupStayRules(groups[..|groups| - 1]) + (if last.id == DIRECT then [] else [StayRule(last.mark, last.iface)])
  }

  function NetworkStayRules(networks: seq<InternalNetwork>): seq<Rule> {
    seq(|networks|, i requires 0 <= i < |networks| => StayRule(networks[i].mark, networks[i].iface))
  }

  function OutputRules(plan: FirewallPlan): seq<Rule> {
    [Rule([Ipv6], [Drop])] + GroupStayRules(plan.egresses) + NetworkStayRules(plan.internals)
  }

  method RenderOutputMark(plan: FirewallPlan) returns (rules: seq<Rule>)
    ensures rules == OutputMarkRules(plan)
  {
    rules := [];
    if |plan.internals| > 0 {
      rules := [Rule([Marked], [Return])];
      for i := 0 to |plan.internals|
        invariant rules == [Rule([Marked], [Return])] + DestinationMarkRules(plan.internals)[..i]
      {
        rules := rules + [DestinationMarkRule(plan.internals[i])];
      }
    }
  }

  method RenderOutput(plan: FirewallPlan) returns (rules: seq<Rule>)
    ensures rules == OutputRules(plan)
  {
    rules := [Rule([Ipv6], [Drop])];
    for i := 0 to |plan.egresses|
      invariant rules == [Rule([Ipv6], [Drop])] + GroupStayRules(plan.egresses[..i])
    {
      TakeNext(plan.egresses, i);
      if plan.egresses[i].id == DIRECT { continue; }
      rules := rules + [StayRule(plan.egresses[i].mark, plan.egresses[i].iface)];
    }
    assert plan.egresses[..|plan.egresses|] == plan.egresses;
    ghost var before := rules;
    for i := 0 to |plan.internals|
      invariant rules == before + NetworkStayRules(plan.internals)[..i]
    {
      rules := rules + [StayRule(plan.internals[i].mark, plan.internals[i].iface)];
    }
  }

  // ---- prerouting_nat: DNS is brought to the hub's resolvers ----

  function RedirectRules(plan: FirewallPlan, ref: SetRef, resolver: Option<Addr>): seq<Rule> {
    [Rule([IifIs(plan.ingress), Source(In(ref)), DestPort(Udp, 53)], [Dnat(resolver, 53)]),
     Rule([IifIs(plan.ingress), Source(In(ref)), DestPort(Tcp, 53)], [Dnat(resolver, 53)])]
  }

  ghost function DnsRedirects(plan: FirewallPlan, groups: seq<EgressGroup>): seq<Rule> {
    if groups == [] then []
    else
      var last := groups[|groups| - 1];
      var served := ServedBy(plan, last);
      DnsRedirects(plan, groups[..|groups| - 1]) +
      (if served.None? then [] else RedirectRules(plan, DnsClientSet(last.id), served.value.resolver))
  }

  ghost function PreroutingNatRules(plan: FirewallPlan, admitted: seq<Addr>): seq<Rule> {
    DnsRedirects(plan, plan.egresses)
    + (if admitted != [] && plan.dnsAddress.Some? then RedirectRules(plan, AdmittedSet, plan.dnsAddress) else [])
    + (if plan.altUdp443
      then [Rule([IifIs(plan.uplink), DestPort(Udp, REALITY_PORT)], [Dnat(None, plan.listenPort)])] else [])
  }

  method RenderPreroutingNat(plan: FirewallPlan, admitted: seq<Addr>) returns (rules: seq<Rule>)
    ensures rules == PreroutingNatRules(plan, admitted)
  {
    rules := [];
    for i := 0 to |plan.egresses|
      invariant rules == DnsRedirects(plan, plan.egresses[..i])
    {
      TakeNext(plan.egresses, i);
      var destination := DnsDestinationFor(plan.egresses[i], plan.dnsDestinations);
      if destination.None? || destination.value.clients == [] { continue; }
      rules := rules + RedirectRules(plan, DnsClientSet(plan.egresses[i].id), destination.value.resolver);
    }
    assert plan.egresses[..|plan.egresses|] == plan.egresses;
    if admitted != [] && plan.dnsAddress.Some? {
      rules := rules + RedirectRules(plan, AdmittedSet, plan.dnsAddress);
    }
    if plan.altUdp443 {
      rules := rules + [Rule([IifIs(plan.uplink), DestPort(Udp, REALITY_PORT)], [Dnat(None, plan.listenPort)])];
    }
  }

  // ------------------------------------------------------------------
  // The table
  // ------------------------------------------------------------------

  ghost predicate Renders(plan: FirewallPlan, r: Ruleset) {
    exists admitted :: ListsAdmitted(admitted, plan.egresses) && RendersWith(plan, admitted, r)
  }

  ghost predicate RendersWith(plan: FirewallPlan, admitted: seq<Addr>, r: Ruleset) {
    r == Ruleset(SetsOf(plan, admitted), PreroutingRules(plan), ForwardRules(plan), InputRules(plan, admitted),
                 OutputMarkRules(plan), OutputRules(plan), PreroutingNatRules(plan, admitted))
  }

  method RenderRuleset(plan: FirewallPlan) returns (r: Ruleset)
    ensures Renders(plan, r)
  {
    var admitted := AdmittedDnsClients(plan);
    var sets := RenderSets(plan, admitted);
    var prerouting := RenderPrerouting(plan);
    var forward := RenderForward(plan);
    var input := RenderInput(plan, admitted);
    var outputMark := RenderOutputMark(plan);
    var output := RenderOutput(plan);
    var preroutingNat := RenderPreroutingNat(plan, admitted);
    r := Ruleset(sets, prerouting, forward, input, outputMark, output, preroutingNat);
    assert RendersWith(plan, admitted, r);
  }

  /** A plan renders to one table: rendering again yields the same one. */
  lemma RenderingIsDetermined(plan: FirewallPlan, r: Ruleset, s: Ruleset)
    requires Renders(plan, r) && Renders(plan, s)
    ensures r == s
  {
    var a :| ListsAdmitted(a, plan.egresses) && RendersWith(plan, a, r);
    var b :| ListsAdmitted(b, plan.egresses) && RendersWith(plan, b, s);
    AdmittedUnique(a, b, plan.egresses);
  }
}
