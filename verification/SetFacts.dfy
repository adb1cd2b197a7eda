/** Membership of the rendered sets, read back from the plan they were rendered from. */
module SetFacts {
  import opened Netip
  import opened Ordering
  import opened Domain
  import opened FirewallPlanner
  import opened Validation
  import opened Revision
  import opened DnsPlanner
  import opened Nftables
  import opened Renderer

  lemma HostsDeclare(ref: SetRef, addresses: seq<Addr>, a: Addr)
    ensures Declares(SetDecl(ref, Hosts(addresses)), a) <==> a in addresses
  {
    var decl := SetDecl(ref, Hosts(addresses));
    forall k | 0 <= k < |addresses| ensures Contains(decl.elements[k].value, a) <==> addresses[k] == a {
      HostContains(addresses[k], a);
    }
    if a in addresses {
      var k :| 0 <= k < |addresses| && addresses[k] == a;
      assert Contains(decl.elements[k].value, a);
    }
  }

  lemma DeclaredAppend(s: seq<SetDecl>, t: seq<SetDecl>, ref: SetRef, a: Addr)
    ensures Declared(s + t, ref, a) <==> Declared(s, ref, a) || Declared(t, ref, a)
  {
    if Declared(s, ref, a) {
      var i :| 0 <= i < |s| && s[i].ref == ref && Declares(s[i], a);
      assert (s + t)[i] == s[i];
    }
    if Declared(t, ref, a) {
      var i :| 0 <= i < |t| && t[i].ref == ref && Declares(t[i], a);
      assert (s + t)[|s| + i] == t[i];
    }
  }

  lemma {:induction false} DnsClientSetsKind(plan: FirewallPlan, groups: seq<EgressGroup>)
    ensures forall i :: 0 <= i < |DnsClientSets(plan, groups)| ==> DnsClientSets(plan, groups)[i].ref.DnsClientSet?
  {
    if groups != [] {
      DnsClientSetsKind(plan, groups[..|groups| - 1]);
    }
  }

  /** The part of the table that declares sets of one kind. */
  ghost function Part(plan: FirewallPlan, admitted: seq<Addr>, ref: SetRef): seq<SetDecl> {
    match ref
    case ClientSet(_) => ClientSets(plan.egresses)
    case AdmittedSet => AdmissionSets(admitted)
    case DnsClientSet(_) => DnsClientSets(plan, plan.egresses)
    case AllowedSet(_) => AllowedSetDecls(FirstEntries(AllowedRoles(plan)))
    case InternalSet(_) => InternalSets(plan.internals)
  }

  lemma DeclaredInPart(plan: FirewallPlan, admitted: seq<Addr>, ref: SetRef, a: Addr)
    ensures Declared(SetsOf(plan, admitted), ref, a) <==> Declared(Part(plan, admitted, ref), ref, a)
  {
    hide DnsClientSets, FirstEntries, AllowedRoles, Declares, Hosts;
    var clients, admission := ClientSets(plan.egresses), AdmissionSets(admitted);
    var resolving, allowed := DnsClientSets(plan, plan.egresses), AllowedSetDecls(FirstEntries(AllowedRoles(plan)));
    var internals := InternalSets(plan.internals);
    DnsClientSetsKind(plan, plan.egresses);
    DeclaredAppend(clients, admission, ref, a);
    DeclaredAppend(clients + admission, resolving, ref, a);
    DeclaredAppend(clients + admission + resolving, allowed, ref, a);
    DeclaredAppend(clients + admission + resolving + allowed, internals, ref, a);
  }

  ghost predicate GroupHas(groups: seq<EgressGroup>, id: string, a: Addr) {
    exists i :: 0 <= i < |groups| && groups[i].id == id && a in groups[i].addresses
  }

  lemma InClientSet(plan: FirewallPlan, admitted: seq<Addr>, id: string, a: Addr)
    ensures Declared(SetsOf(plan, admitted), ClientSet(id), a) <==> GroupHas(plan.egresses, id, a)
  {
    hide SetsOf, Declares, Hosts;
    DeclaredInPart(plan, admitted, ClientSet(id), a);
    var sets := ClientSets(plan.egresses);
    forall i | 0 <= i < |sets| ensures Declares(sets[i], a) <==> a in plan.egresses[i].addresses {
      HostsDeclare(sets[i].ref, plan.egresses[i].addresses, a);
    }
    if GroupHas(plan.egresses, id, a) {
      var i :| 0 <= i < |plan.egresses| && plan.egresses[i].id == id && a in plan.egresses[i].addresses;
      assert sets[i].ref == ClientSet(id) && Declares(sets[i], a);
    }
  }

  ghost predicate EntryHas(entries: seq<AllowedEntry>, id: string, a: Addr) {
    exists i :: 0 <= i < |entries| && entries[i].id == id && a in entries[i].clients
  }

  lemma InAllowedSet(plan: FirewallPlan, admitted: seq<Addr>, id: string, a: Addr)
    ensures Declared(SetsOf(plan, admitted), AllowedSet(id), a) <==> EntryHas(FirstEntries(AllowedRoles(plan)), id, a)
  {
    hide SetsOf, Declares, Hosts, FirstEntries, AllowedRoles;
    DeclaredInPart(plan, admitted, AllowedSet(id), a);
    var entries := FirstEntries(AllowedRoles(plan));
    var sets := AllowedSetDecls(entries);
    forall i | 0 <= i < |sets| ensures Declares(sets[i], a) <==> a in entries[i].clients {
      HostsDeclare(sets[i].ref, entries[i].clients, a);
    }
    if EntryHas(entries, id, a) {
      var i :| 0 <= i < |entries| && entries[i].id == id && a in entries[i].clients;
      assert sets[i].ref == AllowedSet(id) && Declares(sets[i], a);
    }
  }

  /** Wherever a tunnel is mentioned its list is the same, so the first mention speaks for all. */
  ghost predicate ListsAgree(entries: seq<AllowedEntry>, id: string, clients: iset<Addr>) {
    forall i :: 0 <= i < |entries| && entries[i].id == id ==> forall a :: a in entries[i].clients <==> a in clients
  }

  lemma {:induction false} FirstEntryIds(entries: seq<AllowedEntry>, id: string)
    ensures id in EntryIds(FirstEntries(entries)) <==> id in EntryIds(entries) && !Skipped(id)
    ensures forall e :: e in FirstEntries(entries) ==> e in entries
  {
    if entries != [] {
      FirstEntryIds(entries[..|entries| - 1], id);
      assert entries == entries[..|entries| - 1] + [entries[|entries| - 1]];
    }
  }

  lemma FirstEntryHas(entries: seq<AllowedEntry>, id: string, clients: iset<Addr>, a: Addr)
    requires ListsAgree(entries, id, clients) && !Skipped(id) && id in EntryIds(entries)
    ensures EntryHas(FirstEntries(entries), id, a) <==> a in clients
  {
    var first := FirstEntries(entries);
    FirstEntryIds(entries, id);
    var e :| e in first && e.id == id;
    forall f | f in first && f.id == id ensures a in f.clients <==> a in clients {
      var i :| 0 <= i < |entries| && entries[i] == f;
    }
    var k :| 0 <= k < |first| && first[k] == e;
  }

  ghost predicate NetworkHas(networks: seq<InternalNetwork>, id: string, a: Addr) {
    exists i :: 0 <= i < |networks| && networks[i].tunnelId == id && Covered(networks[i].routes, a)
  }

  lemma InInternalSet(plan: FirewallPlan, admitted: seq<Addr>, id: string, a: Addr)
    ensures Declared(SetsOf(plan, admitted), InternalSet(id), a) <==> NetworkHas(plan.internals, id, a)
  {
    hide SetsOf;
    DeclaredInPart(plan, admitted, InternalSet(id), a);
    var sets := InternalSets(plan.internals);
    forall i | 0 <= i < |sets| ensures Declares(sets[i], a) <==> Covered(plan.internals[i].routes, a) {
    }
    hide Declares, Covered;
    if NetworkHas(plan.internals, id, a) {
      var i :| 0 <= i < |plan.internals| && plan.internals[i].tunnelId == id && Covered(plan.internals[i].routes, a);
      assert sets[i].ref == InternalSet(id) && Declares(sets[i], a);
    }
  }

  ghost predicate ServedHas(plan: FirewallPlan, groups: seq<EgressGroup>, id: string, a: Addr) {
    exists i :: 0 <= i < |groups| && groups[i].id == id && ServedBy(plan, groups[i]).Some?
      && a in ServedBy(plan, groups[i]).value.clients
  }

  lemma {:induction false} DnsClientSetsDeclare(plan: FirewallPlan, groups: seq<EgressGroup>, id: string, a: Addr)
    ensures Declared(DnsClientSets(plan, groups), DnsClientSet(id), a) <==> ServedHas(plan, groups, id, a)
  {
    hide ServedBy, Hosts, Declares;
    if groups != [] {
      var front, last := groups[..|groups| - 1], groups[|groups| - 1];
      DnsClientSetsDeclare(plan, front, id, a);
      var served := ServedBy(plan, last);
      var one := if served.None? then [] else [SetDecl(DnsClientSet(last.id), Hosts(served.value.clients))];
      DeclaredAppend(DnsClientSets(plan, front), one, DnsClientSet(id), a);
      if served.Some? {
        HostsDeclare(DnsClientSet(last.id), served.value.clients, a);
        assert one[0] == SetDecl(DnsClientSet(last.id), Hosts(served.value.clients));
      }
      if ServedHas(plan, front, id, a) {
        var i :| 0 <= i < |front| && front[i].id == id && ServedBy(plan, front[i]).Some?
          && a in ServedBy(plan, front[i]).value.clients;
        assert groups[i] == front[i];
      }
    }
  }

  lemma InDnsClientSet(plan: FirewallPlan, admitted: seq<Addr>, id: string, a: Addr)
    ensures Declared(SetsOf(plan, admitted), DnsClientSet(id), a) <==> ServedHas(plan, plan.egresses, id, a)
  {
    hide SetsOf, Declared, DnsClientSets, ServedHas;
    DeclaredInPart(plan, admitted, DnsClientSet(id), a);
    DnsClientSetsDeclare(plan, plan.egresses, id, a);
  }

  lemma InAdmittedSet(plan: FirewallPlan, admitted: seq<Addr>, a: Addr)
    ensures Declared(SetsOf(plan, admitted), AdmittedSet, a) <==> a in admitted
  {
    hide SetsOf, Declares, Hosts;
    DeclaredInPart(plan, admitted, AdmittedSet, a);
    var sets := AdmissionSets(admitted);
    if admitted != [] {
      HostsDeclare(AdmittedSet, admitted, a);
      assert sets[0] == SetDecl(AdmittedSet, Hosts(admitted));
    }
  }

  // ---- set names ----

  /** The name a set is rendered under: a stem for its kind, then what it belongs to. */
  function SetName(ref: SetRef): string { Stem(ref) + Tail(ref) }

  function Stem(ref: SetRef): string {
    match ref
    case ClientSet(_) => "client_"
    case AllowedSet(_) => "allowed_"
    case InternalSet(_) => "internal_"
    case DnsClientSet(_) => "dns_clients_"
    case AdmittedSet => "dns_clients_"
  }

  function Tail(ref: SetRef): string { if ref.AdmittedSet? then "admitted" else SafeIdentifier(ref.id) }

  predicate NamesTunnel(ref: SetRef) { ref.AdmittedSet? || Identifier(ref.id) }

  lemma SafeIdentifierInjective(a: string, b: string)
    requires Identifier(a) && Identifier(b) && SafeIdentifier(a) == SafeIdentifier(b)
    ensures a == b
  {
    assert |a| == |SafeIdentifier(a)| == |b|;
    forall i | 0 <= i < |a| ensures a[i] == b[i] {
      assert SafeIdentifier(a)[i] == SafeIdentifier(b)[i];
    }
  }

  lemma StemAndTail(x: SetRef, y: SetRef)
    requires SetName(x) == SetName(y)
    ensures Stem(x) == Stem(y) && Tail(x) == Tail(y)
  {
    hide Tail;
    assert SetName(x)[0] == Stem(x)[0] && SetName(y)[0] == Stem(y)[0];
    assert SetName(x)[|Stem(x)|..] == Tail(x) && SetName(y)[|Stem(y)|..] == Tail(y);
  }

  const INTERFACE_NAME_LIMIT := 15 // of the kernel

  /** Every tunnel of a valid revision has an interface name the kernel takes, of its own. */
  lemma InterfaceNamesFit(state: DesiredState, s: Tunnel, t: Tunnel)
    requires ValidRevision(state) && s in state.tunnels && t in state.tunnels
    ensures |EgressInterface(s.id)| <= INTERFACE_NAME_LIMIT
    ensures EgressInterface(s.id) == EgressInterface(t.id) <==> s == t
  {
    assert EgressInterface(s.id)[3..] == s.id && EgressInterface(t.id)[3..] == t.id;
    var i :| 0 <= i < |state.tunnels| && state.tunnels[i] == s;
    var j :| 0 <= j < |state.tunnels| && state.tunnels[j] == t;
    assert ValidRevisionTunnel(state.tunnels[i]);
  }

  /** Rendered names tell the sets apart, except that the DNS clients of a tunnel called
  `admitted` share the name of the set of all clients. */
  lemma NamesCollideOnlyAtAdmitted(x: SetRef, y: SetRef)
    requires NamesTunnel(x) && NamesTunnel(y)
    ensures SetName(x) == SetName(y) <==> x == y || {x, y} == {AdmittedSet, DnsClientSet("admitted")}
  {
    hide SetName, Identifier, SafeIdentifier;
    AdmittedIsSafe();
    if SetName(x) == SetName(y) {
      StemAndTail(x, y);
      StemTellsKind(x, y);
      if !x.AdmittedSet? && !y.AdmittedSet? { SafeIdentifierInjective(x.id, y.id); }
      if x.AdmittedSet? && !y.AdmittedSet? { SafeIdentifierInjective("admitted", y.id); }
      if y.AdmittedSet? && !x.AdmittedSet? { SafeIdentifierInjective("admitted", x.id); }
    } else {
      SameNames();
    }
  }

  lemma AdmittedIsSafe()
    ensures Identifier("admitted") && SafeIdentifier("admitted") == "admitted"
  {
  }

  lemma SameNames()
    ensures SetName(AdmittedSet) == SetName(DnsClientSet("admitted"))
  {
    AdmittedIsSafe();
  }

  lemma StemTellsKind(x: SetRef, y: SetRef)
    requires Stem(x) == Stem(y)
    ensures (x.ClientSet? <==> y.ClientSet?) && (x.AllowedSet? <==> y.AllowedSet?)
      && (x.InternalSet? <==> y.InternalSet?)
  {
    assert Stem(x)[0] == Stem(y)[0];
  }
}
