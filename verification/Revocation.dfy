/** What revoking devices does to what is installed.

Towards every interface but the clients' own it narrows, exactly.  Between clients it does not
always: an ACL that names a revoked device is kept, and the compiler reads a missing source as "any"
and leaves a missing target as text no rule can carry. */
module Revocation {
  import opened Netip
  import opened Ordering
  import opened Domain
  import opened Links
  import opened FirewallPlanner
  import opened Validation
  import opened Revision
  import opened EgressPlanner
  import opened DnsPlanner
  import opened Compiler
  import opened Nftables
  import opened Renderer
  import opened PlanFacts
  import opened PolicySets
  import opened KillSwitch
  import opened DnsAgreement
  import opened Keys
  import opened IngressPlanner

  /** The address of a device that was revoked. */
  ghost predicate Gone(cfg: Config, revoked: set<string>, a: Addr) {
    exists d :: d in cfg.devices && d.id in revoked && HasAddress(d, a)
  }

  ghost function Before(cfg: Config): DesiredState { RevisionOf(cfg) }

  ghost function Afterwards(cfg: Config, revoked: set<string>): DesiredState { RevisionOf(Pruned(cfg, revoked)) }

  lemma BothAreValid(cfg: Config, revoked: set<string>)
    requires Valid(cfg)
    ensures ValidRevision(Before(cfg)) && ValidRevision(Afterwards(cfg, revoked))
    ensures ACLsResolve(Before(cfg))
    ensures Before(cfg).tunnels == Afterwards(cfg, revoked).tunnels && Before(cfg).hub == Afterwards(cfg, revoked).hub
    ensures Before(cfg).acls == Afterwards(cfg, revoked).acls
  {
    hide ValidRevision, Valid, ACLsResolve, Sort, Enabled;
    CompiledIsValid(cfg, revoked);
    CompiledIsValid(cfg, {});
    KeptAll(cfg.devices);
    assert Pruned(cfg, {}) == cfg;
  }

  lemma DevicesLeft(cfg: Config, revoked: set<string>, d: Device)
    ensures d in Before(cfg).devices <==> d in cfg.devices
    ensures d in Afterwards(cfg, revoked).devices <==> d in cfg.devices && d.id !in revoked
  {
    hide Sort, Kept, Enabled;
    SameElements(cfg.devices, Sort(DeviceLe, cfg.devices));
    SameElements(Kept(cfg.devices, revoked), Sort(DeviceLe, Kept(cfg.devices, revoked)));
    KeptMembers(cfg.devices, revoked, d);
  }

  /** One address, one device: a revoked address is nobody else's. */
  lemma GoneIsUnique(cfg: Config, revoked: set<string>, d: Device, a: Addr)
    requires Valid(cfg) && d in cfg.devices && HasAddress(d, a)
    ensures Gone(cfg, revoked, a) <==> d.id in revoked
  {
    hide Valid, ValidRevision, Sort;
    BothAreValid(cfg, revoked);
    RevisionDevices(Before(cfg));
    DevicesLeft(cfg, revoked, d);
    if e :| e in cfg.devices && e.id in revoked && HasAddress(e, a) {
      DevicesLeft(cfg, revoked, e);
    }
  }

  lemma PermitsNarrow(cfg: Config, revoked: set<string>, t: Tunnel, a: Addr)
    requires Valid(cfg)
    ensures Permits(Afterwards(cfg, revoked).devices, t, a) <==>
      Permits(Before(cfg).devices, t, a) && !Gone(cfg, revoked, a)
  {
    hide Valid, Gone, Before, Afterwards, Allows, HasAddress;
    forall d ensures d in Before(cfg).devices <==> d in cfg.devices { DevicesLeft(cfg, revoked, d); }
    forall d ensures d in Afterwards(cfg, revoked).devices <==> d in cfg.devices && d.id !in revoked {
      DevicesLeft(cfg, revoked, d);
    }
    forall d | d in cfg.devices && HasAddress(d, a) ensures Gone(cfg, revoked, a) <==> d.id in revoked {
      GoneIsUnique(cfg, revoked, d, a);
    }
  }

  lemma EgressNarrows(cfg: Config, revoked: set<string>, uplink: string, p: Packet)
    requires Valid(cfg)
    ensures ByEgress(Afterwards(cfg, revoked), uplink, p) <==>
      ByEgress(Before(cfg), uplink, p) && !Gone(cfg, revoked, p.saddr)
  {
    hide Valid, Gone, Before, Afterwards, HasAddress, EgressDevice;
    forall d ensures d in Before(cfg).devices <==> d in cfg.devices { DevicesLeft(cfg, revoked, d); }
    forall d ensures d in Afterwards(cfg, revoked).devices <==> d in cfg.devices && d.id !in revoked {
      DevicesLeft(cfg, revoked, d);
    }
    forall d | d in cfg.devices && HasAddress(d, p.saddr) ensures Gone(cfg, revoked, p.saddr) <==> d.id in revoked {
      GoneIsUnique(cfg, revoked, d, p.saddr);
    }
  }

  lemma LeavingNarrows(cfg: Config, revoked: set<string>, uplink: string, t: Tables, u: Tables, p: Packet)
    requires Valid(cfg) && t.learned == u.learned
    ensures MayLeave(Afterwards(cfg, revoked), uplink, u, p) <==>
      MayLeave(Before(cfg), uplink, t, p) && !Gone(cfg, revoked, p.saddr)
  {
    hide Valid, Gone, Before, Afterwards, Permits, Reaches, ByEgress, EgressInterface, TunnelOrder, ValidRevision,
         ACLsResolve;
    BothAreValid(cfg, revoked);
    EgressNarrows(cfg, revoked, uplink, p);
    forall s ensures Permits(Afterwards(cfg, revoked).devices, s, p.saddr) <==>
      Permits(Before(cfg).devices, s, p.saddr) && !Gone(cfg, revoked, p.saddr) {
      PermitsNarrow(cfg, revoked, s, p.saddr);
    }
    ProxyNarrows(Before(cfg), Afterwards(cfg, revoked), p, Gone(cfg, revoked, p.saddr));
  }

  lemma ProxyNarrows(before: DesiredState, after: DesiredState, p: Packet, gone: bool)
    requires before.tunnels == after.tunnels
    requires forall s :: Permits(after.devices, s, p.saddr) <==> Permits(before.devices, s, p.saddr) && !gone
    ensures ToProxy(after, p) <==> ToProxy(before, p) && !gone
  {
    hide Permits, TunnelOrder;
    forall k: nat ensures AtProxy(after, k, p) <==> AtProxy(before, k, p) {}
  }

  /** Towards any interface but the clients' own, revoking devices takes away exactly their own
  packets: the pruned chain accepts what the unpruned one did, except from a revoked address. */
  lemma RevocationNarrows(cfg: Config, revoked: set<string>, uplink: string, upstreams: set<string>, c: Compiled,
      r: Ruleset, t: Tables, d: Compiled, s: Ruleset, u: Tables, p: Packet)
    requires Valid(cfg)
    requires CompiledOf(Before(cfg), uplink, upstreams) == Ok(c) && Installed(c.plan, r, t)
    requires CompiledOf(Afterwards(cfg, revoked), uplink, upstreams) == Ok(d) && Installed(d.plan, s, u)
    requires t.learned == u.learned
    requires p.iif == INGRESS && p.oif != INGRESS && !p.established
    ensures Filter(s.forward, Dropped, u, p) == Accepted <==>
      Filter(r.forward, Dropped, t, p) == Accepted && !Gone(cfg, revoked, p.saddr)
  {
    hide Valid, Gone, Before, Afterwards, CompiledOf, Installed, Filter, MayLeave, ValidRevision, ACLsResolve;
    BothAreValid(cfg, revoked);
    LeavingIsPolicy(Before(cfg), uplink, upstreams, c, r, t, p);
    LeavingIsPolicy(Afterwards(cfg, revoked), uplink, upstreams, d, s, u, p);
    LeavingNarrows(cfg, revoked, uplink, t, u, p);
  }

  /** The layout does not move when devices go. */
  lemma LayoutSurvives(cfg: Config, revoked: set<string>, uplink: string, upstreams: set<string>, c: Compiled,
      d: Compiled)
    requires Valid(cfg)
    requires CompiledOf(Before(cfg), uplink, upstreams) == Ok(c)
      && CompiledOf(Afterwards(cfg, revoked), uplink, upstreams) == Ok(d)
    ensures c.specs == d.specs
  {
    hide Valid, Before, Afterwards, CompiledOf, ValidRevision, ACLsResolve, TunnelOrder, ById, SpecAt;
    BothAreValid(cfg, revoked);
    LayoutDependsOnTunnels(Before(cfg), uplink, upstreams);
    LayoutDependsOnTunnels(Afterwards(cfg, revoked), uplink, upstreams);
    assert forall k :: 0 <= k < |c.specs| ==> c.specs[k] == SpecAt(Before(cfg).tunnels, k) == d.specs[k];
  }

  // ------------------------------------------------------------------
  // Permitted lists
  // ------------------------------------------------------------------

  ghost function Without(s: seq<Addr>, gone: iset<Addr>): seq<Addr> {
    if s == [] then []
    else Without(s[..|s| - 1], gone) + (if s[|s| - 1] in gone then [] else [s[|s| - 1]])
  }

  lemma {:induction false} WithoutMembers(s: seq<Addr>, gone: iset<Addr>)
    ensures forall a :: multiset(Without(s, gone))[a] == if a in gone then 0 else multiset(s)[a]
  {
    if s != [] {
      WithoutMembers(s[..|s| - 1], gone);
      assert s == s[..|s| - 1] + [s[|s| - 1]];
    }
  }

  lemma {:induction false} WithoutSorted(s: seq<Addr>, gone: iset<Addr>)
    requires SortedBy(AddrLe, s)
    ensures SortedBy(AddrLe, Without(s, gone))
  {
    if s != [] {
      var front, last := s[..|s| - 1], s[|s| - 1];
      WithoutSorted(front, gone);
      forall a | a in Without(front, gone) ensures AddrLe(a, last) {
        WithoutMembers(front, gone);
        assert a in multiset(Without(front, gone));
        assert a in multiset(front);
        var k :| 0 <= k < |front| && front[k] == a;
        assert AddrLe(s[k], s[|s| - 1]);
      }
    }
  }

  /** Dropping elements commutes with sorting. */
  lemma SortWithout(s: seq<Addr>, gone: iset<Addr>)
    ensures Sort(AddrLe, Without(s, gone)) == Without(Sort(AddrLe, s), gone)
  {
    hide Without;
    var a, b := Sort(AddrLe, Without(s, gone)), Without(Sort(AddrLe, s), gone);
    AddrOrder(a);
    SortSorted(AddrLe, s);
    SortSorted(AddrLe, Without(s, gone));
    WithoutSorted(Sort(AddrLe, s), gone);
    WithoutMembers(s, gone);
    WithoutMembers(Sort(AddrLe, s), gone);
    assert multiset(a) == multiset(b);
    SortedUnique(AddrLe, a, b);
  }

  ghost function GoneSet(cfg: Config, revoked: set<string>): iset<Addr> { iset a: Addr | Gone(cfg, revoked, a) }

  lemma {:induction false} ListedWithout(before: map<string, Addr>, after: map<string, Addr>, ids: seq<string>,
      gone: iset<Addr>)
    requires forall id :: id in after <==> id in before && before[id] !in gone
    requires forall id :: id in after ==> after[id] == before[id]
    ensures AllowedAddresses(after, ids) == Without(AllowedAddresses(before, ids), gone)
  {
    if ids != [] {
      var front, last := AllowedAddresses(before, ids[..|ids| - 1]), ids[|ids| - 1];
      ListedWithout(before, after, ids[..|ids| - 1], gone);
      if last in before {
        assert (front + [before[last]])[..|front|] == front;
      } else {
        assert AllowedAddresses(before, ids) == front;
      }
      assert AllowedAddresses(after, ids[..|ids| - 1]) + [] == AllowedAddresses(after, ids[..|ids| - 1]);
    }
  }

  lemma BooksNarrow(cfg: Config, revoked: set<string>, id: string)
    requires Valid(cfg) && AddressesParse(Before(cfg).devices) && AddressesParse(Afterwards(cfg, revoked).devices)
    ensures var before, after := AddressBook(Before(cfg).devices), AddressBook(Afterwards(cfg, revoked).devices);
      && (id in after <==> id in before && before[id] !in GoneSet(cfg, revoked))
      && (id in after ==> after[id] == before[id])
  {
    hide Valid, Gone, Before, Afterwards, AddressBook, ValidRevision, ACLsResolve;
    BothAreValid(cfg, revoked);
    ValidTunnelsAreDistinct(Before(cfg));
    ValidTunnelsAreDistinct(Afterwards(cfg, revoked));
    RevisionDevices(Before(cfg));
    if id in AddressBook(Before(cfg).devices) {
      BookIs(Before(cfg).devices, id);
      var d :| d in Before(cfg).devices && d.id == id && HasAddress(d, AddressBook(Before(cfg).devices)[id]);
      DevicesLeft(cfg, revoked, d);
      GoneIsUnique(cfg, revoked, d, AddressBook(Before(cfg).devices)[id]);
      if id !in revoked { BookHas(Afterwards(cfg, revoked).devices, d); }
    }
    if id in AddressBook(Afterwards(cfg, revoked).devices) {
      BookIs(Afterwards(cfg, revoked).devices, id);
      var e :| e in Afterwards(cfg, revoked).devices && e.id == id
        && HasAddress(e, AddressBook(Afterwards(cfg, revoked).devices)[id]);
      DevicesLeft(cfg, revoked, e);
      BookHas(Before(cfg).devices, e);
    }
  }

  lemma {:induction false} AddressesDistinct(devices: seq<Device>)
    requires AddressesParse(devices) && DistinctDevices(devices)
    requires forall d :: d in devices ==> d.address.value.bits == 32
    ensures Distinct(AllAddresses(devices))
  {
    forall i, j | 0 <= i < j < |devices| ensures devices[i].address.value.addr != devices[j].address.value.addr {
      assert !SameIdentity(devices[i], devices[j]);
      assert devices[i] in devices && devices[j] in devices;
    }
  }

  lemma HostRoutes(state: DesiredState)
    requires ValidRevision(state) && AddressesParse(state.devices)
    ensures Distinct(AllAddresses(state.devices))
  {
    hide AllAddresses;
    forall d | d in state.devices ensures d.address.value.bits == 32 {
      var k :| 0 <= k < |state.devices| && state.devices[k] == d;
      assert ValidDevice(state.hub, state.devices[k]);
    }
    ValidTunnelsAreDistinct(state);
    AddressesDistinct(state.devices);
  }

  lemma EveryoneWithout(cfg: Config, revoked: set<string>)
    requires Valid(cfg) && AddressesParse(Before(cfg).devices) && AddressesParse(Afterwards(cfg, revoked).devices)
    ensures multiset(AllAddresses(Afterwards(cfg, revoked).devices))
      == multiset(Without(AllAddresses(Before(cfg).devices), GoneSet(cfg, revoked)))
  {
    hide Valid, Gone, Before, Afterwards, ValidRevision, ACLsResolve, AllAddresses, Without, Distinct;
    BothAreValid(cfg, revoked);
    HostRoutes(Before(cfg));
    HostRoutes(Afterwards(cfg, revoked));
    var all, left := AllAddresses(Before(cfg).devices), AllAddresses(Afterwards(cfg, revoked).devices);
    DistinctMultiset(all);
    DistinctMultiset(left);
    WithoutMembers(all, GoneSet(cfg, revoked));
    forall a ensures multiset(left)[a] == multiset(Without(all, GoneSet(cfg, revoked)))[a] {
      AllAddressesMembers(Before(cfg).devices, a);
      AllAddressesMembers(Afterwards(cfg, revoked).devices, a);
      assert a in multiset(left) <==> a in left;
      assert a in multiset(all) <==> a in all;
      LeftIffStays(cfg, revoked, a);
    }
  }

  lemma LeftIffStays(cfg: Config, revoked: set<string>, a: Addr)
    requires Valid(cfg)
    ensures (exists d :: d in Afterwards(cfg, revoked).devices && HasAddress(d, a)) <==>
            (exists d :: d in Before(cfg).devices && HasAddress(d, a)) && !Gone(cfg, revoked, a)
  {
    hide Valid, Gone, Before, Afterwards, HasAddress;
    forall d ensures d in Before(cfg).devices <==> d in cfg.devices { DevicesLeft(cfg, revoked, d); }
    forall d ensures d in Afterwards(cfg, revoked).devices <==> d in cfg.devices && d.id !in revoked {
      DevicesLeft(cfg, revoked, d);
    }
    forall d | d in cfg.devices && HasAddress(d, a) ensures Gone(cfg, revoked, a) <==> d.id in revoked {
      GoneIsUnique(cfg, revoked, d, a);
    }
  }

  lemma SameMultisetSameSort(a: seq<Addr>, b: seq<Addr>)
    requires multiset(a) == multiset(b)
    ensures Sort(AddrLe, a) == Sort(AddrLe, b)
  {
    AddrOrder(a);
    SortForgetsOrder(AddrLe, a, b);
  }

  /** A tunnel's permitted list loses exactly the revoked addresses.  An allow list whose every
  device is revoked becomes empty: it is not mistaken for the list that allows everyone. */
  lemma PermittedListNarrows(cfg: Config, revoked: set<string>, t: Tunnel)
    requires Valid(cfg) && AddressesParse(Before(cfg).devices) && AddressesParse(Afterwards(cfg, revoked).devices)
    ensures PermittedBy(Afterwards(cfg, revoked).devices, t)
      == Without(PermittedBy(Before(cfg).devices, t), GoneSet(cfg, revoked))
  {
    hide Valid, Gone, Before, Afterwards, AllAddresses, AllowedAddresses, AddressBook, Without, Sort;
    var gone := GoneSet(cfg, revoked);
    if t.allowedDevices == [] {
      EveryoneWithout(cfg, revoked);
      SameMultisetSameSort(AllAddresses(Afterwards(cfg, revoked).devices),
        Without(AllAddresses(Before(cfg).devices), gone));
      SortWithout(AllAddresses(Before(cfg).devices), gone);
    } else {
      forall id ensures var before, after := AddressBook(Before(cfg).devices),
        AddressBook(Afterwards(cfg, revoked).devices);
        && (id in after <==> id in before && before[id] !in gone) && (id in after ==> after[id] == before[id])
      {
        BooksNarrow(cfg, revoked, id);
      }
      ListedWithout(AddressBook(Before(cfg).devices), AddressBook(Afterwards(cfg, revoked).devices),
        t.allowedDevices, gone);
      SortWithout(AllowedAddresses(AddressBook(Before(cfg).devices), t.allowedDevices), gone);
    }
  }

  // ------------------------------------------------------------------
  // Between clients
  // ------------------------------------------------------------------

  /** A client ACL as compiled: a source the revision does not have reads as any client. */
  ghost predicate Opens(state: DesiredState, rule: ClientACL, p: Packet) {
    && (if rule.source == ANY || rule.source !in DeviceIds(state.devices)
        then state.hub.clientCidr.Some? && Contains(state.hub.clientCidr.value, p.saddr)
        else IsDevice(state.devices, rule.source, p.saddr))
    && IsDevice(state.devices, rule.target, p.daddr)
    && p.protocol == rule.protocol && p.dport == rule.port
  }

  ghost predicate Opened(state: DesiredState, p: Packet) {
    exists i :: 0 <= i < |state.acls| && Opens(state, state.acls[i], p)
  }

  lemma ResolvesIff(state: DesiredState, id: string, a: Addr)
    requires ValidRevision(state) && AddressesParse(state.devices)
    ensures id in AddressBook(state.devices) <==> id in DeviceIds(state.devices)
    ensures Resolve(AddressBook(state.devices), id) == Some(a) <==> IsDevice(state.devices, id, a)
  {
    hide AddressBook, ValidRevision;
    if id in DeviceIds(state.devices) {
      ResolvesTo(state, id, a);
    } else if id in AddressBook(state.devices) {
      BookIs(state.devices, id);
    }
  }

  lemma CompiledACLSays(state: DesiredState, plan: FirewallPlan, rule: ClientACL, t: Tables, p: Packet)
    requires ValidRevision(state) && AddressesParse(state.devices)
    requires plan.ingress == INGRESS && plan.clientCidr == state.hub.clientCidr && p.iif == INGRESS
    ensures Applies(ACLRule(plan, PortACL(rule, AddressBook(state.devices))), t, p) <==>
      p.oif == INGRESS && Opens(state, rule, p)
  {
    hide ValidRevision, AddressBook, Applies, DeviceIds, IsDevice;
    var acl := PortACL(rule, AddressBook(state.devices));
    ACLRuleApplies(plan, acl, t, p);
    ResolvesIff(state, rule.target, p.daddr);
    HostHolds(acl.target, t, p.daddr);
    ResolvesIff(state, rule.source, p.saddr);
    HostHolds(acl.source, t, p.saddr);
  }

  lemma CompiledACLsSay(state: DesiredState, uplink: string, upstreams: set<string>, c: Compiled, t: Tables, p: Packet)
    requires Compiles(state, uplink, upstreams, c) && p.iif == INGRESS
    ensures SomeApplies(ACLRules(c.plan), t, p) <==> p.oif == INGRESS && Opened(state, p)
  {
    hide CompiledOf, ValidRevision, Applies, AddressBook, Opens, PortACLs, ACLRule, PortACL, DnsDestinationsOf,
         AddressesParse;
    PlanFields(state, uplink, upstreams, c);
    var book := AddressBook(state.devices);
    var rules := ACLRules(c.plan);
    if SomeApplies(rules, t, p) {
      var k :| 0 <= k < |rules| && Applies(rules[k], t, p);
      PortACLMembers(state.acls, book, c.plan.acls[k]);
      var i :| 0 <= i < |state.acls| && PortACL(state.acls[i], book) == c.plan.acls[k];
      CompiledACLSays(state, c.plan, state.acls[i], t, p);
    }
    if p.oif == INGRESS && Opened(state, p) {
      var i :| 0 <= i < |state.acls| && Opens(state, state.acls[i], p);
      PortACLMembers(state.acls, book, PortACL(state.acls[i], book));
      var k :| 0 <= k < |c.plan.acls| && c.plan.acls[k] == PortACL(state.acls[i], book);
      CompiledACLSays(state, c.plan, state.acls[i], t, p);
      assert Applies(rules[k], t, p);
    }
  }

  /** Between clients, whatever the ACLs name. */
  lemma CrossingIs(state: DesiredState, uplink: string, upstreams: set<string>, c: Compiled, r: Ruleset, t: Tables,
      p: Packet)
    requires Compiles(state, uplink, upstreams, c) && Installed(c.plan, r, t)
    requires p.iif == INGRESS && p.oif == INGRESS && !p.established
    ensures Filter(r.forward, Dropped, t, p) == Accepted <==> Opened(state, p)
  {
    hide Compiles, Installed, SomeApplies, ACLRules, LeaveRules, ForwardRules, Opened, PortACLs, AddressBook, Filter,
         DnsDestinationsOf, AddressesParse;
    PlanFields(state, uplink, upstreams, c);
    InstalledForward(c.plan, r, t);
    ForwardWalk(c.plan, t, p);
    CompiledACLsSay(state, uplink, upstreams, c, t, p);
  }

  /** An ACL some revoked device was the source of, whose target stays. */
  ghost predicate Orphaned(cfg: Config, revoked: set<string>, rule: ClientACL) {
    && rule in cfg.acls && rule.source != ANY && rule.source in revoked && rule.target !in revoked
  }

  /** A device already reached the same place by an ACL of its own or one for everybody. */
  ghost predicate AlreadyReaches(cfg: Config, e: Device, rule: ClientACL) {
    rule.(source := ANY) in cfg.acls || rule.(source := e.id) in cfg.acls
  }

  /** Every other device that is kept already reached what the ACL leads to. */
  ghost predicate OthersAlready(cfg: Config, revoked: set<string>, rule: ClientACL) {
    forall e :: e in cfg.devices && e.id !in revoked && e.id != rule.target ==> AlreadyReaches(cfg, e, rule)
  }

  /** A new packet between clients that can arrive once the devices are revoked: its source is one some
  peer may use, and another's than its destination. */
  ghost predicate Crossing(after: DesiredState, p: Packet) {
    p.iif == INGRESS && p.oif == INGRESS && !p.established && MaySend(PeersOf(after.devices), p.saddr)
      && p.saddr != p.daddr
  }

  /** Between clients, the second table accepts no new packet the first did not. */
  ghost predicate Narrows(after: DesiredState, r: Ruleset, t: Tables, s: Ruleset, u: Tables) {
    forall p: Packet :: Crossing(after, p) ==>
      Filter(s.forward, Dropped, u, p) == Accepted ==> Filter(r.forward, Dropped, t, p) == Accepted
  }

  lemma IdsLeft(cfg: Config, revoked: set<string>, id: string)
    ensures id in DeviceIds(Before(cfg).devices) <==> id in DeviceIds(cfg.devices)
    ensures id in DeviceIds(Afterwards(cfg, revoked).devices) <==> id in DeviceIds(cfg.devices) && id !in revoked
  {
    hide Before, Afterwards;
    forall d ensures d in Before(cfg).devices <==> d in cfg.devices { DevicesLeft(cfg, revoked, d); }
    forall d ensures d in Afterwards(cfg, revoked).devices <==> d in cfg.devices && d.id !in revoked {
      DevicesLeft(cfg, revoked, d);
    }
  }

  lemma IsDeviceLeft(cfg: Config, revoked: set<string>, id: string, a: Addr)
    ensures IsDevice(Before(cfg).devices, id, a) <==> IsDevice(cfg.devices, id, a)
    ensures IsDevice(Afterwards(cfg, revoked).devices, id, a) <==> IsDevice(cfg.devices, id, a) && id !in revoked
  {
    hide Before, Afterwards, HasAddress;
    forall d ensures d in Before(cfg).devices <==> d in cfg.devices { DevicesLeft(cfg, revoked, d); }
    forall d ensures d in Afterwards(cfg, revoked).devices <==> d in cfg.devices && d.id !in revoked {
      DevicesLeft(cfg, revoked, d);
    }
  }

  lemma ACLsOf(cfg: Config, revoked: set<string>, rule: ClientACL)
    requires Valid(cfg)
    ensures rule in Before(cfg).acls <==> rule in cfg.acls
    ensures Before(cfg).acls == Afterwards(cfg, revoked).acls
    ensures rule in cfg.acls ==> ValidACL(rule, DeviceIds(cfg.devices))
  {
    hide Sort;
    SameElements(cfg.acls, Sort(ACLLe, cfg.acls));
    if rule in cfg.acls { var i :| 0 <= i < |cfg.acls| && cfg.acls[i] == rule; }
  }

  lemma OpenedBy(cfg: Config, revoked: set<string>, p: Packet)
    requires Valid(cfg)
    ensures Opened(Before(cfg), p) <==> exists rule :: rule in cfg.acls && Opens(Before(cfg), rule, p)
    ensures Opened(Afterwards(cfg, revoked), p) <==>
      exists rule :: rule in cfg.acls && Opens(Afterwards(cfg, revoked), rule, p)
  {
    hide Valid, Before, Afterwards, Opens;
    forall rule ensures rule in Before(cfg).acls <==> rule in cfg.acls { ACLsOf(cfg, revoked, rule); }
    ACLsOf(cfg, revoked, ClientACL("", "", Tcp, 0));
    if rule :| rule in cfg.acls && Opens(Before(cfg), rule, p) {
      assert rule in Before(cfg).acls;
      var i :| 0 <= i < |Before(cfg).acls| && Before(cfg).acls[i] == rule;
    }
    if rule :| rule in cfg.acls && Opens(Afterwards(cfg, revoked), rule, p) {
      assert rule in Before(cfg).acls;
      var i :| 0 <= i < |Afterwards(cfg, revoked).acls| && Afterwards(cfg, revoked).acls[i] == rule;
    }
  }

  /** One ACL that is not orphaned, before and after. */
  lemma OpensAfter(cfg: Config, revoked: set<string>, rule: ClientACL, p: Packet)
    requires Valid(cfg) && rule in cfg.acls && Opens(Afterwards(cfg, revoked), rule, p)
    ensures rule.target !in revoked && IsDevice(cfg.devices, rule.target, p.daddr)
    ensures p.protocol == rule.protocol && p.dport == rule.port
    ensures !Orphaned(cfg, revoked, rule) ==> Opens(Before(cfg), rule, p)
  {
    hide Valid, Before, Afterwards, IsDevice, DeviceIds;
    ACLsOf(cfg, revoked, rule);
    IdsLeft(cfg, revoked, rule.source);
    IsDeviceLeft(cfg, revoked, rule.source, p.saddr);
    IsDeviceLeft(cfg, revoked, rule.target, p.daddr);
    SameHub(cfg, revoked);
  }

  lemma SameHub(cfg: Config, revoked: set<string>)
    ensures Before(cfg).hub == Afterwards(cfg, revoked).hub == cfg.hub
  {
  }

  /** A kept device's address is its own, and inside the client subnet. */
  lemma DeviceAddress(cfg: Config, e: Device, f: Device, a: Addr)
    requires Valid(cfg) && e in cfg.devices && f in cfg.devices && HasAddress(e, a) && HasAddress(f, a)
    ensures e == f && cfg.hub.clientCidr.Some? && Contains(cfg.hub.clientCidr.value, a)
  {
    hide ValidRevision, Sort, ValidTunnels, ValidChoice, ValidHub, RoutesApart, IsKey;
    BothAreValid(cfg, {});
    RevisionDevices(Before(cfg));
    DevicesLeft(cfg, {}, e);
    DevicesLeft(cfg, {}, f);
    var i :| 0 <= i < |cfg.devices| && cfg.devices[i] == e;
    assert ValidDevice(cfg.hub, cfg.devices[i]);
  }

  lemma SameDevice(cfg: Config, e: Device, f: Device)
    requires Valid(cfg) && e in cfg.devices && f in cfg.devices && e.id == f.id
    ensures e == f
  {
    hide ValidRevision, Sort, ValidTunnels, ValidChoice, ValidHub, RoutesApart, IsKey, ValidDevice;
    BothAreValid(cfg, {});
    RevisionDevices(Before(cfg));
    DevicesLeft(cfg, {}, e);
    DevicesLeft(cfg, {}, f);
  }

  /** From one device to another, an ACL opens the way just when it is for the one or for everybody. */
  lemma OpensBetween(cfg: Config, e: Device, d: Device, rule: ClientACL, p: Packet)
    requires Valid(cfg) && rule in cfg.acls
    requires e in cfg.devices && HasAddress(e, p.saddr) && d in cfg.devices && HasAddress(d, p.daddr)
    ensures Opens(Before(cfg), rule, p) <==>
      (rule.source == ANY || rule.source == e.id) && rule.target == d.id && p.protocol == rule.protocol
        && p.dport == rule.port
  {
    hide Valid, Before, Afterwards, HasAddress, DeviceIds;
    ACLsOf(cfg, {}, rule);
    SameHub(cfg, {});
    IdsLeft(cfg, {}, rule.source);
    IsDeviceLeft(cfg, {}, rule.source, p.saddr);
    IsDeviceLeft(cfg, {}, rule.target, p.daddr);
    DeviceAddress(cfg, e, e, p.saddr);
    SourceKnown(cfg, rule);
    forall f | f in cfg.devices && HasAddress(f, p.saddr) ensures f == e { DeviceAddress(cfg, e, f, p.saddr); }
    forall f | f in cfg.devices && HasAddress(f, p.daddr) ensures f == d { DeviceAddress(cfg, d, f, p.daddr); }
  }

  lemma SourceKnown(cfg: Config, rule: ClientACL)
    requires Valid(cfg) && rule in cfg.acls
    ensures rule.source == ANY || rule.source in DeviceIds(cfg.devices)
  {
    hide ValidDevices, ValidTunnels, ValidChoice, ValidHub, RoutesApart;
    ACLsOf(cfg, {}, rule);
  }

  /** A call from one client to another, as this ACL describes them. */
  function CallBy(rule: ClientACL, from: Addr, to: Addr): Packet {
    Packet(INGRESS, INGRESS, from, to, rule.protocol, rule.port, true, false, 0, 0)
  }

  /** The packet that shows it: from a kept device that did not reach the place before. */
  lemma OrphanWidens(cfg: Config, revoked: set<string>, rule: ClientACL, e: Device) returns (p: Packet)
    requires Valid(cfg) && Orphaned(cfg, revoked, rule)
    requires e in cfg.devices && e.id !in revoked && e.id != rule.target && !AlreadyReaches(cfg, e, rule)
    ensures Crossing(Afterwards(cfg, revoked), p) && p == CallBy(rule, p.saddr, p.daddr)
    ensures HasAddress(e, p.saddr) && IsDevice(cfg.devices, rule.target, p.daddr)
    ensures Opened(Afterwards(cfg, revoked), p) && !Opened(Before(cfg), p)
  {
    hide ValidRevision, ACLsResolve, Before, Afterwards, Sort, MaySend, PeersOf, IsKey, ValidHub, ValidTunnels,
         ValidChoice, RoutesApart, Contains;
    ACLsOf(cfg, revoked, rule);
    var i :| 0 <= i < |cfg.devices| && cfg.devices[i].id == rule.target;
    var d := cfg.devices[i];
    assert ValidDevice(cfg.hub, cfg.devices[i]);
    AddressKnown(cfg, e);
    p := CallBy(rule, e.address.value.addr, d.address.value.addr);
    assert HasAddress(d, p.daddr) && HasAddress(e, p.saddr) && d in cfg.devices;
    if p.saddr == p.daddr { DeviceAddress(cfg, e, d, p.saddr); }
    BothAreValid(cfg, revoked);
    SendersAreDevices(Afterwards(cfg, revoked), p.saddr);
    DevicesLeft(cfg, revoked, e);
    SameHub(cfg, revoked);
    DeviceAddress(cfg, e, e, p.saddr);
    IdsLeft(cfg, revoked, rule.source);
    IsDeviceLeft(cfg, revoked, rule.target, p.daddr);
    assert IsDevice(cfg.devices, rule.target, p.daddr);
    assert Opens(Afterwards(cfg, revoked), rule, p);
    OpenedBy(cfg, revoked, p);
    forall other | other in cfg.acls ensures !Opens(Before(cfg), other, p) {
      OpensBetween(cfg, e, d, other, p);
      SameButSource(other, rule);
    }
  }

  lemma SameButSource(a: ClientACL, b: ClientACL)
    ensures a.target == b.target && a.protocol == b.protocol && a.port == b.port ==> a == b.(source := a.source)
  {
  }

  lemma AddressKnown(cfg: Config, e: Device)
    requires Valid(cfg) && e in cfg.devices
    ensures e.address.Some?
  {
    hide ValidTunnels, ValidChoice, ValidHub, RoutesApart, IsKey;
    var i :| 0 <= i < |cfg.devices| && cfg.devices[i] == e;
    assert ValidDevice(cfg.hub, cfg.devices[i]);
  }

  lemma OpenedNarrows(cfg: Config, revoked: set<string>, p: Packet)
    requires Valid(cfg) && Crossing(Afterwards(cfg, revoked), p)
    requires forall rule :: Orphaned(cfg, revoked, rule) ==> OthersAlready(cfg, revoked, rule)
    ensures Opened(Afterwards(cfg, revoked), p) ==> Opened(Before(cfg), p)
  {
    hide Valid, Before, Afterwards, Opens, Opened, Orphaned, MaySend, PeersOf, ValidRevision, ACLsResolve, HasAddress;
    OpenedBy(cfg, revoked, p);
    if rule :| rule in cfg.acls && Opens(Afterwards(cfg, revoked), rule, p) {
      OpensAfter(cfg, revoked, rule, p);
      if Orphaned(cfg, revoked, rule) {
        BothAreValid(cfg, revoked);
        SendersAreDevices(Afterwards(cfg, revoked), p.saddr);
        var e :| e in Afterwards(cfg, revoked).devices && HasAddress(e, p.saddr);
        DevicesLeft(cfg, revoked, e);
        var d :| d in cfg.devices && d.id == rule.target && HasAddress(d, p.daddr);
        if e.id == rule.target { SameDevice(cfg, e, d); OneAddress(e, p.saddr, p.daddr); }
        assert AlreadyReaches(cfg, e, rule);
        var source := if rule.(source := ANY) in cfg.acls then ANY else e.id;
        OpensBetween(cfg, e, d, rule.(source := source), p);
      }
    }
  }

  lemma OneAddress(d: Device, a: Addr, b: Addr)
    requires HasAddress(d, a) && HasAddress(d, b)
    ensures a == b
  {
  }

  /** Between clients revocation narrows just when every kept device already reached whatever the ACLs
  it orphans lead to, but for the device they lead to. */
  lemma RevocationNarrowsBetweenClientsIff(cfg: Config, revoked: set<string>, uplink: string, upstreams: set<string>,
      c: Compiled, r: Ruleset, t: Tables, d: Compiled, s: Ruleset, u: Tables)
    requires Valid(cfg)
    requires CompiledOf(Before(cfg), uplink, upstreams) == Ok(c) && Installed(c.plan, r, t)
    requires CompiledOf(Afterwards(cfg, revoked), uplink, upstreams) == Ok(d) && Installed(d.plan, s, u)
    ensures Narrows(Afterwards(cfg, revoked), r, t, s, u) <==>
      forall rule :: Orphaned(cfg, revoked, rule) ==> OthersAlready(cfg, revoked, rule)
  {
    hide Valid, Before, Afterwards, Opens, Opened, Orphaned, AlreadyReaches, Filter, Installed, CompiledOf,
         ValidRevision, ACLsResolve, MaySend, PeersOf;
    BothAreValid(cfg, revoked);
    if rule :| Orphaned(cfg, revoked, rule) && !OthersAlready(cfg, revoked, rule) {
      var e :| e in cfg.devices && e.id !in revoked && e.id != rule.target && !AlreadyReaches(cfg, e, rule);
      var p := OrphanWidens(cfg, revoked, rule, e);
      CrossingIs(Before(cfg), uplink, upstreams, c, r, t, p);
      CrossingIs(Afterwards(cfg, revoked), uplink, upstreams, d, s, u, p);
    } else {
      forall p: Packet | Crossing(Afterwards(cfg, revoked), p)
        ensures Filter(s.forward, Dropped, u, p) == Accepted ==> Filter(r.forward, Dropped, t, p) == Accepted
      {
        CrossingIs(Before(cfg), uplink, upstreams, c, r, t, p);
        CrossingIs(Afterwards(cfg, revoked), uplink, upstreams, d, s, u, p);
        OpenedNarrows(cfg, revoked, p);
      }
    }
  }
}
