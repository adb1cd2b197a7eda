/** The persisted record of a DNS transition: which resolver each client's queries are sent to, and
which clients' tracked connections still have to be cleared.

A plan's fingerprint is taken to be injective, so the record holds the plan itself. */
module DnsRecord {
  import opened Netip
  import opened Domain
  import opened FirewallPlanner
  import opened Nftables
  import opened Renderer

  datatype Record = Record(
    clientCidr: Option<Cidr>, ingress: string, mappings: map<Addr, Option<Addr>>,
    plan: Option<FirewallPlan>, scopes: set<Cidr>, pending: bool)

  /** The file: absent, unreadable as a record, or holding one. */
  datatype Disk = Missing | Garbage | Stored(record: Record)

  // ---- what a plan maps each client to ----

  function ResolverFor(plan: FirewallPlan, group: EgressGroup): Option<Addr> {
    var destination := DestinationFor(group, plan.dnsDestinations);
    if destination.Some? then destination.value.resolver else plan.dnsAddress
  }

  function Assign(m: map<Addr, Option<Addr>>, clients: seq<Addr>, resolver: Option<Addr>): map<Addr, Option<Addr>> {
    if clients == [] then m
    else Assign(m, clients[..|clients| - 1], resolver)[clients[|clients| - 1] := resolver]
  }

  function MappingFrom(plan: FirewallPlan, groups: seq<EgressGroup>): map<Addr, Option<Addr>> {
    if groups == [] then map[]
    else
      var last := groups[|groups| - 1];
      Assign(MappingFrom(plan, groups[..|groups| - 1]), last.addresses, ResolverFor(plan, last))
  }

  function MappingOf(plan: FirewallPlan): map<Addr, Option<Addr>> { MappingFrom(plan, plan.egresses) }

  function RecordFor(plan: FirewallPlan): Record {
    Record(plan.clientCidr, plan.ingress, MappingOf(plan), Some(plan), {}, false)
  }

  method DnsConntrackStateFor(plan: FirewallPlan) returns (record: Record)
    ensures record == RecordFor(plan)
  {
    var resolvers: map<Addr, Option<Addr>> := map[];
    for i := 0 to |plan.egresses|
      invariant resolvers == MappingFrom(plan, plan.egresses[..i])
    {
      var group := plan.egresses[i];
      TakeNext(plan.egresses, i);
      var resolver := plan.dnsAddress;
      var destination := DnsDestinationFor(group, plan.dnsDestinations);
      if destination.Some? { resolver := destination.value.resolver; }
      ghost var before := resolvers;
      for k := 0 to |group.addresses|
        invariant resolvers == Assign(before, group.addresses[..k], resolver)
      {
        TakeNext(group.addresses, k);
        resolvers := resolvers[group.addresses[k] := resolver];
      }
      assert group.addresses[..|group.addresses|] == group.addresses;
    }
    assert plan.egresses[..|plan.egresses|] == plan.egresses;
    return Record(plan.clientCidr, plan.ingress, resolvers, Some(plan), {}, false);
  }

  // ---- what a new plan leaves to be cleared ----

  predicate InScope(scopes: set<Cidr>, a: Addr) {
    exists s :: s in scopes && Contains(s, a)
  }

  /** The client is sent elsewhere by the new record than by the old. */
  predicate Moved(previous: Record, current: Record, a: Addr) {
    && a in previous.mappings
    && (previous.ingress != current.ingress || a !in current.mappings || current.mappings[a] != previous.mappings[a])
  }

  function ScopesFor(previous: Option<Record>, current: Record): set<Cidr> {
    if previous.None? then (if current.clientCidr.None? then {} else {current.clientCidr.value})
    else previous.value.scopes + set a | a in previous.value.mappings && Moved(previous.value, current, a) :: Host(a)
  }

  method DnsConntrackCleanupScopes(previous: Option<Record>, current: Record) returns (scopes: set<Cidr>)
    ensures scopes == ScopesFor(previous, current)
  {
    if previous.None? {
      return if current.clientCidr.None? then {} else {current.clientCidr.value};
    }
    var old_ := previous.value;
    scopes := old_.scopes;
    var left := old_.mappings.Keys;
    while left != {}
      invariant left <= old_.mappings.Keys
      invariant scopes == old_.scopes + set a | a in old_.mappings && a !in left && Moved(old_, current, a) :: Host(a)
    {
      var client :| client in left;
      left := left - {client};
      if Moved(old_, current, client) {
        scopes := scopes + {Host(client)};
      }
    }
  }

  // ---- flows ----

  /** A tracked port-53 connection from a client to the resolver it was sent to. */
  datatype Flow = Flow(client: Addr, resolver: Addr, overTcp: bool)

  predicate Agrees(mappings: map<Addr, Option<Addr>>, f: Flow) {
    f.client in mappings && mappings[f.client] == Some(f.resolver)
  }

  predicate Accounted(record: Record, f: Flow) {
    Agrees(record.mappings, f) || InScope(record.scopes, f.client)
  }

  lemma InScopeGrows(s: set<Cidr>, t: set<Cidr>, a: Addr)
    requires s <= t && InScope(s, a)
    ensures InScope(t, a)
  {
  }

  /** Whatever the old record accounted for, the new one does: it agrees, or it is to be cleared. */
  lemma ScopesAccount(previous: Record, current: Record, f: Flow)
    requires Accounted(previous, f)
    ensures Agrees(current.mappings, f) || InScope(ScopesFor(Some(previous), current), f.client)
  {
    var scopes := ScopesFor(Some(previous), current);
    if InScope(previous.scopes, f.client) {
      InScopeGrows(previous.scopes, scopes, f.client);
    } else if !Agrees(current.mappings, f) {
      assert Moved(previous, current, f.client);
      assert Host(f.client) in scopes;
      HostContains(f.client, f.client);
    }
  }

  /** The old table made this connection, and the new one would not. */
  predicate SentElsewhere(previous: Record, current: Record, f: Flow) {
    Agrees(previous.mappings, f) && (previous.ingress != current.ingress || !Agrees(current.mappings, f))
  }

  /** And nothing more is cleared than has to be: besides what was still to be cleared, a client just when
  it was sent somewhere by the old table that it would not be sent by the new, or came in elsewhere. */
  lemma OnlyMovedAreCleared(previous: Record, current: Record, a: Addr)
    requires forall x :: x in previous.mappings ==> previous.mappings[x].Some?
    ensures InScope(ScopesFor(Some(previous), current), a) <==>
      || InScope(previous.scopes, a)
      || exists f: Flow :: f.client == a && SentElsewhere(previous, current, f)
  {
    var scopes := ScopesFor(Some(previous), current);
    if InScope(scopes, a) && !InScope(previous.scopes, a) {
      var s :| s in scopes && Contains(s, a);
      var b :| b in previous.mappings && Moved(previous, current, b) && s == Host(b);
      HostContains(b, a);
      var f := Flow(a, previous.mappings[a].value, false);
      assert SentElsewhere(previous, current, f);
    }
    if InScope(previous.scopes, a) { InScopeGrows(previous.scopes, scopes, a); }
    if f: Flow :| f.client == a && SentElsewhere(previous, current, f) {
      assert Moved(previous, current, a);
      assert Host(a) in scopes;
      HostContains(a, a);
    }
  }

  /** Without a record the one thing to go by is the plan's client subnet: a flow is cleared just
  when its client lies there. */
  lemma FirstScopeCovers(current: Record, f: Flow)
    ensures InScope(ScopesFor(None, current), f.client) <==>
      current.clientCidr.Some? && Contains(current.clientCidr.value, f.client)
  {
    if current.clientCidr.Some? && Contains(current.clientCidr.value, f.client) {
      assert current.clientCidr.value in ScopesFor(None, current);
    }
  }

  /** Nothing is left to clear when the plan did not change. */
  lemma SamePlanNoScopes(plan: FirewallPlan)
    ensures ScopesFor(Some(RecordFor(plan)), RecordFor(plan)) == {}
  {
  }

  // ---- when a stored record can be read back ----

  predicate Readable(disk: Disk) {
    && disk.Stored?
    && disk.record.clientCidr.Some? && disk.record.ingress != ""
    && (disk.record.pending ==> disk.record.plan.Some?)
    && forall a :: a in disk.record.mappings ==> disk.record.mappings[a].Some?
  }

  // ---- reading a mapping ----

  lemma {:induction false} AssignIs(m: map<Addr, Option<Addr>>, clients: seq<Addr>, resolver: Option<Addr>, a: Addr)
    ensures a in Assign(m, clients, resolver) <==> a in m || a in clients
    ensures a in clients ==> Assign(m, clients, resolver)[a] == resolver
    ensures a in m && a !in clients ==> Assign(m, clients, resolver)[a] == m[a]
  {
    if clients != [] {
      AssignIs(m, clients[..|clients| - 1], resolver, a);
      assert clients == clients[..|clients| - 1] + [clients[|clients| - 1]];
    }
  }

  /** A client is mapped when some group lists it, to the resolver of such a group. */
  lemma {:induction false} MappingFromIs(plan: FirewallPlan, groups: seq<EgressGroup>, a: Addr)
    ensures a in MappingFrom(plan, groups) <==> exists i :: 0 <= i < |groups| && a in groups[i].addresses
    ensures a in MappingFrom(plan, groups) ==>
      exists i :: 0 <= i < |groups| && a in groups[i].addresses
        && MappingFrom(plan, groups)[a] == ResolverFor(plan, groups[i])
  {
    hide ResolverFor;
    if groups != [] {
      var front, n := groups[..|groups| - 1], |groups| - 1;
      MappingFromIs(plan, front, a);
      AssignIs(MappingFrom(plan, front), groups[n].addresses, ResolverFor(plan, groups[n]), a);
      assert forall i :: 0 <= i < n ==> front[i] == groups[i];
    }
  }
}
