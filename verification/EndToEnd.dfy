/** From a configuration to the fate of one packet: validate, drop the revoked devices, compile,
render, load, and run the packet through the table.  No step is assumed to have gone well. */
module EndToEnd {
  import opened Netip
  import opened Ordering
  import opened Domain
  import opened FirewallPlanner
  import opened Validation
  import opened Revision
  import opened EgressPlanner
  import opened Compiler
  import opened Nftables
  import opened Renderer
  import opened PlanFacts
  import opened PolicySets
  import opened KillSwitch
  import opened PolicyRouting
  import opened Steering
  import opened DnsAgreement
  import opened Revocation
  import opened HubTraffic
  import opened Loading
  import opened Totality
  import opened Keys
  import opened IngressPlanner
  import opened HostCompiler
  import Escaping
  import opened Links

  datatype Deployed = Deployed(compiled: Compiled, ingress: IngressSpec, table: Ruleset)

  /** What is left of the configuration: without the revoked devices, and without a fallback that
  cannot run. */
  ghost function Revised(cfg: Config, revoked: seq<string>, keys: KeyStore): DesiredState {
    Runnable(Afterwards(cfg, (set id | id in revoked)), keys)
  }

  /** The configuration is valid, the host has the key it names and an uplink, every enabled tunnel
  has its upstream and a link, and no client ACL is left pointing at a revoked device. */
  ghost predicate Deployable(cfg: Config, revoked: seq<string>, uplink: string, upstreams: set<string>,
      keys: KeyStore) {
    && Valid(cfg) && HubKeyFits(cfg.hub, keys) && uplink != ""
    && AllHaveUpstreams(Revised(cfg, revoked, keys).tunnels, upstreams)
         && |Revised(cfg, revoked, keys).tunnels| <= LINK_LIMIT
    && forall rule :: rule in cfg.acls ==> rule.target !in revoked
  }

  /** The verdict a forwarded packet should meet. */
  ghost function Policy(state: DesiredState, uplink: string, t: Tables, p: Packet): Verdict {
    if p.established then Accepted
    else if p.iif != INGRESS then (if DialsOut(state, uplink, p) then Accepted else Dropped)
    else if p.oif == INGRESS then (if Opened(state, p) then Accepted else Dropped)
    else ForwardPolicy(state, uplink, t, p)
  }

  method Deploy(cfg: Config, revoked: seq<string>, uplink: string, upstreams: set<string>, keys: KeyStore)
    returns (deployed: Option<Deployed>)
    ensures deployed.Some? <==> Deployable(cfg, revoked, uplink, upstreams, keys)
    ensures deployed.Some? ==>
      && Compiles(Revised(cfg, revoked, keys), uplink, upstreams, deployed.value.compiled)
      && Renders(deployed.value.compiled.plan, deployed.value.table)
      && deployed.value.ingress.peers == PeersOf(Revised(cfg, revoked, keys).devices)
  {
    hide Valid, CompiledOf, ValidRevision, Renders, Loads, RevisionOf, Pruned, AllHaveUpstreams, HostCompiles, HubKey,
         FallbackKey, RoutesParse;
    var accepted := Validate(cfg);
    if !accepted { return None; }
    ghost var gone := set id | id in revoked;
    BothAreValid(cfg, gone);
    var pruned := RemoveRevoked(cfg, revoked);
    var state := BuildDesiredState(pruned);
    CompilesIff(state, uplink, upstreams, keys);
    SameHub(cfg, gone);
    var built := CompileHost(state, uplink, upstreams, keys);
    if built.Err? { return None; }
    var table := RenderRuleset(built.value.compiled.plan);
    StaysValid(state);
    CompiledRoutesParse(cfg, gone);
    TargetsLeft(cfg, gone);
    LoadsWhenRunnable(state, uplink, upstreams, keys, built.value.compiled, table);
    if !Loads(table) { return None; }
    PeersIn(state, keys, built.value.ingress);
    return Some(Deployed(built.value.compiled, built.value.ingress, table));
  }

  lemma LoadsWhenRunnable(state: DesiredState, uplink: string, upstreams: set<string>, keys: KeyStore, c: Compiled,
      table: Ruleset)
    requires ValidRevision(state) && CompiledOf(Runnable(state, keys), uplink, upstreams) == Ok(c)
    requires RoutesParse(state) && Renders(c.plan, table)
    ensures Compiles(Runnable(state, keys), uplink, upstreams, c)
    ensures Loads(table) <==> forall i :: 0 <= i < |state.acls| ==> state.acls[i].target in DeviceIds(state.devices)
  {
    hide ValidRevision, CompiledOf, Renders, Loads, FallbackKey;
    StaysValid(state);
    CompilesWhenValid(Runnable(state, keys), uplink, upstreams, c);
    LoadsIff(Runnable(state, keys), uplink, upstreams, c, table);
  }

  lemma PeersIn(state: DesiredState, keys: KeyStore, ingress: IngressSpec)
    requires HubKey(keys).Some? && IngressSpecOf(state, HubKey(keys).value, keys.crypto.publicKey) == Ok(ingress)
    ensures ingress.peers == PeersOf(Runnable(state, keys).devices)
  {
    hide PeersOf, IsKey, HubKey, FallbackKey;
  }

  /** The kill switch from the configuration on: what is deployed gives every packet the verdict the policy
  does, and nothing is deployed just when there is a fault to name. */
  method Judge(cfg: Config, revoked: seq<string>, uplink: string, upstreams: set<string>, keys: KeyStore,
      learned: map<string, set<Addr>>, p: Packet)
    returns (verdict: Option<Verdict>)
    ensures verdict.Some? <==> Deployable(cfg, revoked, uplink, upstreams, keys)
    ensures verdict.Some? ==> verdict.value == Policy(Revised(cfg, revoked, keys), uplink, Tables([], learned), p)
  {
    hide Deployable, Compiles, Renders, Installed, Filter, ForwardPolicy, Opened, Revised, Policy;
    var deployed := Deploy(cfg, revoked, uplink, upstreams, keys);
    if deployed.None? { return None; }
    var table := deployed.value.table;
    var t := Tables(table.sets, learned);
    TableIs(deployed.value, t);
    verdict := Some(Filter(table.forward, Dropped, t, p));
    PolicyIs(Revised(cfg, revoked, keys), uplink, upstreams, deployed.value.compiled, table, t, p);
    OnlyLearnedMatters(Revised(cfg, revoked, keys), uplink, t, Tables([], learned), p);
  }

  lemma TableIs(d: Deployed, t: Tables)
    requires Renders(d.compiled.plan, d.table) && t.sets == d.table.sets
    ensures Installed(d.compiled.plan, d.table, t)
  {
    hide Renders;
  }

  lemma PolicyIs(state: DesiredState, uplink: string, upstreams: set<string>, c: Compiled, r: Ruleset, t: Tables,
      p: Packet)
    requires Compiles(state, uplink, upstreams, c) && Installed(c.plan, r, t)
    ensures Filter(r.forward, Dropped, t, p) == Policy(state, uplink, t, p)
  {
    hide Compiles, Installed, ForwardPolicy, Opened, DialsOut, Filter, ForwardRules;
    if p.established {
      InstalledForward(c.plan, r, t);
      EstablishedPasses(c.plan, t, p);
    } else if p.iif != INGRESS {
      OnlyProxiesDialOut(state, uplink, upstreams, c, r, t, p);
    } else if p.oif == INGRESS {
      CrossingVerdict(state, uplink, upstreams, c, r, t, p);
    } else {
      LeavingIsPolicy(state, uplink, upstreams, c, r, t, p);
    }
  }

  /** Between clients a packet that no ACL opens is dropped, never refused aloud. */
  lemma CrossingVerdict(state: DesiredState, uplink: string, upstreams: set<string>, c: Compiled, r: Ruleset, t: Tables,
      p: Packet)
    requires Compiles(state, uplink, upstreams, c) && Installed(c.plan, r, t)
    requires p.iif == INGRESS && p.oif == INGRESS && !p.established
    ensures Filter(r.forward, Dropped, t, p) == if Opened(state, p) then Accepted else Dropped
  {
    hide Compiles, Installed, Filter, Opened, ForwardRules, ACLRules, LeaveRules;
    CrossingIs(state, uplink, upstreams, c, r, t, p);
    PlanFields(state, uplink, upstreams, c);
    InstalledForward(c.plan, r, t);
    ForwardWalk(c.plan, t, p);
  }

  lemma OnlyLearnedMatters(state: DesiredState, uplink: string, t: Tables, u: Tables, p: Packet)
    requires t.learned == u.learned
    ensures Policy(state, uplink, t, p) == Policy(state, uplink, u, p)
  {
    hide Opened, Crosses, ByEgress, ToProxy, Permits, Reaches, EgressInterface;
  }

  /** What is let into the hub, from the configuration on: a client's query to the resolver that answers its
  egress, and what the hub serves. */
  method Ask(cfg: Config, revoked: seq<string>, uplink: string, upstreams: set<string>, keys: KeyStore,
      learned: map<string, set<Addr>>, p: Packet)
    returns (accepted: Option<bool>)
    ensures accepted.Some? <==> Deployable(cfg, revoked, uplink, upstreams, keys)
    ensures accepted.Some? ==> (accepted.value <==> Welcome(Revised(cfg, revoked, keys), p))
  {
    hide Deployable, Compiles, Renders, Installed, Filter, Welcome, Revised;
    var deployed := Deploy(cfg, revoked, uplink, upstreams, keys);
    if deployed.None? { return None; }
    var t := Tables(deployed.value.table.sets, learned);
    TableIs(deployed.value, t);
    InputIsPolicy(Revised(cfg, revoked, keys), uplink, upstreams, deployed.value.compiled, deployed.value.table, t, p);
    return Some(Filter(deployed.value.table.input, Dropped, t, p) == Accepted);
  }

  method Lookup(h: Host, mark: Mark, main: string) returns (iface: string)
    requires Coherent(h.rules)
    ensures iface == Routed(h, mark, main)
  {
    var left := h.rules;
    while left != {}
      invariant left <= h.rules
      invariant forall r :: r in h.rules - left ==> r.mark != mark || r.table !in h.tables
    {
      var r :| r in left;
      if r.mark == mark && r.table in h.tables {
        assert RoutingRule(mark, r.table) in h.rules && r.table in h.tables;
        OneTable(h, mark, main, r.table);
        return h.tables[r.table];
      }
      left := left - {r};
    }
    assert forall table :: RoutingRule(mark, table) in h.rules ==> table !in h.tables;
    return main;
  }

  lemma OneTable(h: Host, mark: Mark, main: string, table: nat)
    requires Coherent(h.rules) && RoutingRule(mark, table) in h.rules && table in h.tables
    ensures Routed(h, mark, main) == h.tables[table]
  {
  }

  /** Steering from the configuration on, whatever policy tables are missing. */
  method Send(cfg: Config, revoked: seq<string>, uplink: string, upstreams: set<string>, keys: KeyStore,
      learned: map<string, set<Addr>>, h: Host, p: Packet)
    returns (outcome: Option<Outcome>, specs: seq<EgressSpec>)
    requires Coherent(h.rules)
    ensures outcome.Some? <==> Deployable(cfg, revoked, uplink, upstreams, keys)
    ensures outcome.Some? && UplinkApart(uplink) && Sound(h, specs) ==>
      forall d :: Forwarded(Revised(cfg, revoked, keys), h, d, p) ==>
        && outcome.value == Fate(Revised(cfg, revoked, keys), uplink, specs, h, Tables([], learned), d, p)
        && (d.egress != DIRECT ==> outcome.value != Leaves(uplink))
  {
    hide Deployable, Compiles, Renders, Installed, Filter, Revised, Fate, Forwarded, Sound, Routed, UplinkApart;
    var deployed := Deploy(cfg, revoked, uplink, upstreams, keys);
    if deployed.None? { return None, []; }
    specs := deployed.value.compiled.specs;
    var table := deployed.value.table;
    var t := Tables(table.sets, learned);
    TableIs(deployed.value, t);
    var o := Travel(deployed.value, t, h, p);
    if UplinkApart(uplink) && Sound(h, specs) {
      forall d | Forwarded(Revised(cfg, revoked, keys), h, d, p)
        ensures o == Fate(Revised(cfg, revoked, keys), uplink, specs, h, Tables([], learned), d, p)
        ensures d.egress != DIRECT ==> o != Leaves(uplink)
      {
        SteeringIsExact(Revised(cfg, revoked, keys), uplink, upstreams, deployed.value.compiled, table, t, h, d, p);
        FateIsLearned(Revised(cfg, revoked, keys), uplink, specs, h, t, Tables([], learned), d, p);
      }
    }
    return Some(o), specs;
  }

  /** The hooks, run. */
  method Travel(d: Deployed, t: Tables, h: Host, p: Packet) returns (o: Outcome)
    requires Coherent(h.rules)
    ensures o == Path(d.compiled.plan, d.table, t, h, p)
  {
    hide Walk, Filter, Routed;
    var q := After(d.table.preroutingNat, t, After(d.table.prerouting, t, p));
    if q.daddr in h.local {
      return if Filter(d.table.input, Dropped, t, q) == Accepted then Delivered(q.daddr, q.dport) else Refused;
    }
    var iface := Lookup(h, q.mark, MainRoute(d.compiled.plan, q.daddr));
    var out := q.(oif := iface);
    return if Filter(d.table.forward, Dropped, t, out) == Accepted then Leaves(out.oif) else Refused;
  }

  lemma FateIsLearned(state: DesiredState, uplink: string, specs: seq<EgressSpec>, h: Host, t: Tables, u: Tables,
      d: Device, p: Packet)
    requires t.learned == u.learned
    ensures Fate(state, uplink, specs, h, t, d, p) == Fate(state, uplink, specs, h, u, d, p)
  {
    hide Owns, Live, Permits, EgressInterface, PrivateOrder;
    OwnerIsLearned(PrivateOrder(state.tunnels), t, u, p.daddr);
  }

  lemma {:induction false} OwnerIsLearned(networks: seq<Tunnel>, t: Tables, u: Tables, a: Addr)
    requires t.learned == u.learned
    ensures Owner(networks, t, a) == Owner(networks, u, a)
  {
    hide Reaches;
    if networks != [] { OwnerIsLearned(networks[1..], t, u, a); }
  }

  // ---- a configuration it all applies to ----

  const CLIENTS: Cidr := Prefix(0x0A50_0000, 24)
  const SERVER_KEY := seq(43, i => 'A') + "="
  const DEVICE_KEY := seq(43, i => 'E') + "="
  const PHONE := Device("phone", Some(Prefix(0x0A50_0002, 32)), DEVICE_KEY, "de")
  const PROVIDER := Tunnel("de", WireGuard, EgressRole, true, [], [], [], [])
  const ONE_PHONE :=
    Config(Hub(Some(51820), SERVER_KEY, Some(CLIENTS), Some(0x0A50_0001), false, false, ""), [PHONE], [PROVIDER], [])

  lemma ClientBlock()
    ensures BlockSize(24) == 256 && BlockSize(16) == 0x1_0000
  {
    assert Pow2(8) == 256;
    Pow2Adds(8, 8);
  }

  lemma KeysAreKeys()
    ensures IsKey(SERVER_KEY) && IsKey(DEVICE_KEY)
  {
    PlainText(SERVER_KEY);
    PlainText(DEVICE_KEY);
  }

  lemma HubIsValid()
    ensures ValidHub(ONE_PHONE.hub)
  {
    hide IsKey;
    KeysAreKeys();
    ClientBlock();
    forall a: Addr ensures !(Contains(CLIENTS, a) && Contains(LINK_BASE, a)) {
      if Contains(CLIENTS, a) { assert a / 256 == 0x0A5000; assert a / 0x1_0000 == a / 256 / 256; }
    }
  }

  lemma PhoneIsValid()
    ensures ValidDevice(ONE_PHONE.hub, PHONE)
  {
    hide IsKey;
    KeysAreKeys();
    ClientBlock();
  }

  lemma ProviderIsValid()
    ensures ValidTunnels([PROVIDER], {"phone"}) && AllRoutes([PROVIDER]) == []
  {
    assert [PROVIDER][..0] == [];
    assert AllZones([PROVIDER]) == [];
  }

  lemma SortOne<T>(le: (T, T) -> bool, x: T)
    ensures Sort(le, [x]) == [x]
  {
    assert [x][1..] == [] && Sort(le, []) == [];
  }

  lemma EnabledOne()
    ensures Enabled([PROVIDER]) == [PROVIDER]
  {
    assert [PROVIDER][..0] == [] && Enabled([]) == [];
  }

  lemma TunnelsOfOne(gone: set<string>)
    ensures Afterwards(ONE_PHONE, gone).tunnels == [PROVIDER]
  {
    hide Sort, Kept, Enabled;
    SortOne(TunnelLe, PROVIDER);
    EnabledOne();
  }

  lemma OnePhoneIsValid()
    ensures Valid(ONE_PHONE)
  {
    hide ValidHub, ValidDevice, ValidTunnels, AllRoutes, Allows;
    HubIsValid();
    PhoneIsValid();
    ProviderIsValid();
    assert DeviceIds([PHONE]) == {"phone"};
    PhoneHasChoice();
  }

  const HOST_KEYS := KeyStore(Some(DEVICE_KEY + "\n"), None,
                              Crypto((private_: string) => SERVER_KEY, (key: string) =>
                                "", (key: string, id: string, publicKey: string) => ""))

  lemma HostKeyReads()
    ensures HubKey(HOST_KEYS) == Some(DEVICE_KEY)
  {
    hide IsKey;
    KeysAreKeys();
    var file := DEVICE_KEY + "\n";
    assert file[..43] == DEVICE_KEY[..43] && file[0] == 'E' && file[43] == '=' && file[44] == '\n';
    assert Escaping.TrimLeft(file) == file;
    assert file[..44] == DEVICE_KEY;
    assert Escaping.TrimRight(DEVICE_KEY) == DEVICE_KEY;
    assert Escaping.TrimRight(file) == Escaping.TrimRight(file[..44]);
  }

  lemma PhoneHasChoice()
    ensures ValidChoice(PHONE, [PROVIDER]) && SomeWayOut(ONE_PHONE)
  {
    assert PROVIDER in [PROVIDER] && MayUse(PHONE, PROVIDER);
  }

  /** The theorems are about something: a device bound to a tunnel, and nothing in its way. */
  lemma SomethingDeploys()
    ensures Deployable(ONE_PHONE, [], "eth0", {"de"}, HOST_KEYS)
  {
    hide Valid, Afterwards, IsKey, FallbackKey;
    OnePhoneIsValid();
    HostKeyReads();
    TunnelsOfOne((set id | id in []));
  }

  // ---- three phones, of which one may call another ----

  function Phone(id: string, n: int, letter: char): Device
    requires 1 < n < 100
  {
    Device(id, Some(Prefix(0x0A50_0000 + n, 32)), seq(43, i => letter) + "=", DIRECT)
  }

  const A_CALLS_B := ClientACL("a", "b", Tcp, 22)
  const PHONES: Config :=
    Config(ONE_PHONE.hub, [Phone("a", 2, 'A'), Phone("b", 3, 'B'), Phone("c", 4, 'C')], [], [A_CALLS_B])

  lemma PhoneIsDevice(id: string, n: int, letter: char)
    requires 1 < n < 100 && StandardChar(letter) && Identifier(id) && |id| <= MAX_DEVICE_ID
    ensures ValidDevice(PHONES.hub, Phone(id, n, letter))
  {
    PlainText(Phone(id, n, letter).publicKey);
    ClientBlock();
  }

  lemma PhonesDiffer(id: string, n: int, letter: char, other: string, m: int, another: char)
    requires 1 < n < 100 && 1 < m < 100 && id != other && n != m && letter != another
    ensures !SameIdentity(Phone(id, n, letter), Phone(other, m, another))
  {
    assert Phone(id, n, letter).publicKey[0] == letter && Phone(other, m, another).publicKey[0] == another;
  }

  lemma PhonesAreValid()
    ensures Valid(PHONES)
  {
    hide ValidHub, ValidDevice, SameIdentity, Phone;
    HubIsValid();
    PhoneIsDevice("a", 2, 'A');
    PhoneIsDevice("b", 3, 'B');
    PhoneIsDevice("c", 4, 'C');
    PhonesDiffer("a", 2, 'A', "b", 3, 'B');
    PhonesDiffer("a", 2, 'A', "c", 4, 'C');
    PhonesDiffer("b", 3, 'B', "c", 4, 'C');
    PhonesAre();
    assert ValidTunnels([], DeviceIds(PHONES.devices)) && AllRoutes([]) == [];
    assert PHONES.devices[0].id == "a" && PHONES.devices[1].id == "b";
    assert {"a", "b"} <= DeviceIds(PHONES.devices);
  }

  lemma PhonesAre()
    ensures PHONES.devices == [Phone("a", 2, 'A'), Phone("b", 3, 'B'), Phone("c", 4, 'C')]
    ensures forall i :: 0 <= i < 3 ==> PHONES.devices[i].egress == DIRECT
    ensures PHONES.devices[0].id == "a" && PHONES.devices[1].id == "b" && PHONES.devices[2].id == "c"
  {
  }

  lemma PhonesDeploy(revoked: seq<string>, gone: set<string>)
    requires "b" !in revoked && gone == set id | id in revoked
    ensures Deployable(PHONES, revoked, "eth0", {}, HOST_KEYS)
    ensures Revised(PHONES, revoked, HOST_KEYS) == Afterwards(PHONES, gone)
  {
    hide Valid, IsKey, FallbackKey, Sort, Kept;
    PhonesAreValid();
    HostKeyReads();
    NoTunnels();
    assert forall rule :: rule in PHONES.acls ==> rule == A_CALLS_B;
  }

  lemma NoTunnels()
    ensures Enabled(Sort(TunnelLe, [])) == []
  {
  }

  const C_CALLS_B := CallBy(A_CALLS_B, 0x0A50_0004, 0x0A50_0003)

  lemma OnlyWithoutTheCaller()
    ensures Crossing(Afterwards(PHONES, {"a"}), C_CALLS_B)
    ensures Opened(Afterwards(PHONES, {"a"}), C_CALLS_B) && !Opened(Afterwards(PHONES, {}), C_CALLS_B)
  {
    hide Valid, Crossing, Opened, Afterwards, HasAddress, IsDevice, Orphaned, AlreadyReaches;
    PhonesAreValid();
    NothingRevoked();
    PhonesAre();
    TheThird();
    var p := OrphanWidens(PHONES, {"a"}, A_CALLS_B, PHONES.devices[2]);
  }

  lemma TheThird()
    ensures Orphaned(PHONES, {"a"}, A_CALLS_B) && !AlreadyReaches(PHONES, PHONES.devices[2], A_CALLS_B)
    ensures forall a :: HasAddress(PHONES.devices[2], a) ==> a == 0x0A50_0004
    ensures forall a :: IsDevice(PHONES.devices, A_CALLS_B.target, a) ==> a == 0x0A50_0003
  {
    PhonesAre();
    assert A_CALLS_B.(source := ANY) != A_CALLS_B && A_CALLS_B.(source := "c") != A_CALLS_B;
  }

  lemma NothingRevoked()
    ensures Before(PHONES) == Afterwards(PHONES, {})
  {
    hide Sort, Kept;
    KeptAll(PHONES.devices);
    assert Pruned(PHONES, {}) == PHONES;
  }

  /** Revoking a opens b to c: both configurations deploy, c's call to b is one c can make, and it is
  dropped with a there and accepted without, whatever the resolvers have learned. */
  method RevokingACallerOpensTheCalled(learned: map<string, set<Addr>>)
    returns (before: Option<Verdict>, after: Option<Verdict>)
    ensures Crossing(Afterwards(PHONES, {"a"}), C_CALLS_B)
    ensures before == Some(Dropped) && after == Some(Accepted)
  {
    hide Deployable, Crossing, Opened, Afterwards, Revised, ForwardPolicy;
    PhonesDeploy([], {});
    PhonesDeploy(["a"], {"a"});
    OnlyWithoutTheCaller();
    before := Judge(PHONES, [], "eth0", {}, HOST_KEYS, learned, C_CALLS_B);
    after := Judge(PHONES, ["a"], "eth0", {}, HOST_KEYS, learned, C_CALLS_B);
  }
}
