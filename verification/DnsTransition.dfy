/** The firewall and DNS transition: one persisted record carries it across failed loads, failed
deletions, crashes between any two steps, and the loss of the record itself.

Every step of the agent consults a script, which says what happened around it (client traffic,
expiring connections, a flushed table, a lost record, resolvers restarted by the supervisor) and
how it ended: it worked, it failed with or without effect, or the agent died in it. */
module DnsTransition {
  import opened Netip
  import opened Domain
  import opened Links
  import opened FirewallPlanner
  import opened Nftables
  import opened Renderer
  import opened DnsRecord

  datatype Unit = PrivateUnit(id: string) | PublicUnit(id: string) | ClientUnit(id: string)

  /** The configuration text a resolver is started from, as far as it varies. */
  datatype Text =
    | PrivateText(listen: Addr, resolvers: seq<Option<Addr>>)
    | PublicText(address: Option<Addr>)
    | ClientText(zones: seq<DnsZoneRoute>, hub: Option<Addr>, upstream: Option<Addr>)
    | TornText

  /** Flows are those made under a loaded table; strays those made while there was none, when neither
  translation nor filtering stood in their way.  `gap` says whether the table has ever been missing. */
  datatype World = World(
    disk: Disk, table: Option<FirewallPlan>, flows: set<Flow>, strays: set<Flow>, gap: bool, loads: nat,
      started: map<Unit, nat>)

  /** What the supervisor has: the resolvers that are up, their configuration files, and the text each
  was last started from. */
  datatype Resolvers = Resolvers(active: set<Unit>, configs: map<Unit, Text>, running: map<Unit, Text>)

  datatype Outcome = Works | Fails(effect: bool) | Dies(effect: bool)

  datatype Event = Event(lost: Option<Disk>, flushed: bool, asked: set<Flow>, expired: set<Flow>, bounced: set<Unit>,
      outcome: Outcome)

  datatype Status = Fine | Error | Crashed

  // ------------------------------------------------------------------
  // What must hold of the world
  // ------------------------------------------------------------------

  /** The loaded table sends this client's queries to this resolver. */
  predicate Issues(table: Option<FirewallPlan>, f: Flow) {
    table.Some? && Agrees(MappingOf(table.value), f)
  }

  /** Every live flow, and every flow the loaded table can still create, matches the record or is
  covered by a scope it has yet to clear. */
  ghost predicate Accounts(w: World, record: Record) {
    && (forall f :: f in w.flows ==> Accounted(record, f))
    && (forall f :: Issues(w.table, f) ==> Accounted(record, f))
  }

  /** Every connection being tracked. */
  function Live(w: World): set<Flow> { w.flows + w.strays }

  /** No flow made under a table points at a resolver other than its client's. */
  ghost predicate NoStale(w: World, plan: FirewallPlan) { Accounts(w, RecordFor(plan)) }

  /** Every connection being tracked goes to its client's resolver, or was made while there was no table. */
  ghost predicate OnlyStrays(w: World, plan: FirewallPlan) {
    forall f :: f in Live(w) ==> Agrees(MappingOf(plan), f) || f in w.strays
  }

  lemma StaleIsStray(w: World, plan: FirewallPlan)
    requires NoStale(w, plan)
    ensures OnlyStrays(w, plan)
  {
    hide Agrees, MappingOf;
    assert RecordFor(plan).scopes == {} && RecordFor(plan).mappings == MappingOf(plan);
  }

  function PrivateUnits(networks: seq<InternalNetwork>): set<Unit> {
    set n | n in networks && n.zones != [] :: PrivateUnit(n.tunnelId)
  }

  function ClientUnits(groups: seq<EgressGroup>): set<Unit> {
    (set g | g in groups && g.addresses != [] :: ClientUnit(g.id))
    + (set g | g in groups && g.addresses != [] && g.id != DIRECT :: PublicUnit(g.id))
  }

  /** The resolvers a plan needs. */
  function UnitsFor(plan: FirewallPlan): set<Unit> { PrivateUnits(plan.internals) + ClientUnits(plan.egresses) }

  ghost predicate Fresh(w: World, u: Unit) { u in w.started && w.started[u] == w.loads }

  /** Every resolver of the plan was started after the agent last loaded a table. */
  ghost predicate Repopulated(w: World, plan: Option<FirewallPlan>) {
    plan.Some? && forall u :: u in UnitsFor(plan.value) ==> Fresh(w, u)
  }

  /** A record that says the transition is over. */
  ghost predicate Clean(disk: Disk) { Readable(disk) && !disk.record.pending }

  /** The table is that of a record which says the transition is over, unless something flushed it. */
  ghost predicate Tallies(w: World) {
    Clean(w.disk) ==> w.disk.record.plan.Some? && OnlyTable(w.table, w.disk.record.plan.value)
  }

  /** The resolver runs from this text, and would be started from it again. */
  ghost predicate Runs(r: Resolvers, u: Unit, text: Option<Text>) {
    u in r.configs && u in r.running && text == Some(r.configs[u]) && text == Some(r.running[u])
  }

  ghost predicate Serves(r: Resolvers, dns: DnsPlan) { forall u :: u in UnitsOf(dns) ==> Runs(r, u, TextOf(dns, u)) }

  /** What runs this plan's texts still does. */
  ghost predicate KeepsServing(before: Resolvers, after: Resolvers, dns: DnsPlan) {
    forall u :: u in UnitsOf(dns) && Runs(before, u, TextOf(dns, u)) ==> Runs(after, u, TextOf(dns, u))
  }

  /** Once a record says the transition to a plan is over, that plan's resolvers run from its texts. */
  ghost predicate Faithful(w: World, r: Resolvers, dnsFor: FirewallPlan -> DnsPlan) {
    Tallies(w) && (Clean(w.disk) ==> Serves(r, dnsFor(w.disk.record.plan.value)))
  }

  lemma DriftTallies(w: World, v: World)
    requires Drifts(w, v)
    ensures Tallies(w) ==> Tallies(v)
    ensures Clean(v.disk) ==> v.disk == w.disk
  {
    hide Readable, Agrees, MappingOf;
    if Clean(v.disk) { ReadableIsStored(v.disk); }
  }

  /** A transition's record is not clean. */
  lemma TransitionTallies(w: World, plan: FirewallPlan, scopes: set<Cidr>)
    requires w.disk.Stored? ==> w.disk == Stored(Transition(plan, scopes, true))
    ensures !Clean(w.disk) && Tallies(w)
  {
    hide Readable, RecordFor;
    if Readable(w.disk) { ReadableIsStored(w.disk); }
  }

  ghost predicate Safe(w: World) {
    Readable(w.disk) ==> Accounts(w, w.disk.record) && (!w.disk.record.pending ==> Repopulated(w, w.disk.record.plan))
  }

  /** Every client with a flow, or that the table can give one, lies in the subnet. */
  ghost predicate Within(w: World, plan: FirewallPlan) {
    && plan.clientCidr.Some?
    && (forall f :: f in w.flows ==> Contains(plan.clientCidr.value, f.client))
    && (forall f :: Issues(w.table, f) ==> Contains(plan.clientCidr.value, f.client))
  }

  /** A plan whose record can be read back. */
  ghost predicate Usable(plan: FirewallPlan) {
    && plan.clientCidr.Some? && plan.ingress != ""
    && forall a :: a in MappingOf(plan) ==> MappingOf(plan)[a].Some?
  }

  // ---- what the world does between steps ----

  ghost predicate Drifts(w: World, v: World) {
    && (v.disk == w.disk || !v.disk.Stored?)
    && (v.table == w.table || v.table == None)
    && (forall f :: f in v.flows ==> f in w.flows || Issues(w.table, f))
    && v.loads == w.loads
    && (!v.gap ==> !w.gap && v.strays <= w.strays && (w.table.Some? ==> v.table.Some?))
    && (forall u :: Fresh(w, u) ==> Fresh(v, u))
  }

  /** What was there still is. */
  ghost predicate Stays(w: World, v: World) { w.flows <= v.flows && w.strays <= v.strays }

  /** So are the record and the table, and with a table in place nothing strays. */
  ghost predicate Remains(w: World, v: World) {
    v.disk == w.disk && v.table == w.table && Stays(w, v) && (w.table.Some? ==> v.strays == w.strays)
  }

  /** What was there still is, but for the clients of these scopes. */
  ghost predicate StaysOutside(scopes: set<Cidr>, w: World, v: World) {
    && (forall f :: f in w.flows && !InScope(scopes, f.client) ==> f in v.flows)
    && (forall f :: f in w.strays && !InScope(scopes, f.client) ==> f in v.strays)
  }

  /** Of the clients of these scopes, only connections to their own resolvers are left. */
  ghost predicate Swept(w: World, plan: FirewallPlan, scopes: set<Cidr>) {
    forall f :: f in Live(w) && InScope(scopes, f.client) ==> Agrees(MappingOf(plan), f)
  }

  lemma ObservedRemains(u: World, v: World, w: World)
    ensures Remains(u, v) ==> Remains(u, v.(disk := u.disk)) && v.disk == u.disk && v.table == u.table
    ensures Remains(u, v) && Remains(v, w) ==>
      Remains(u, w) && Remains(u, w.(disk := u.disk)) && w.disk == u.disk && w.table == u.table
  {
  }

  lemma WrittenRemains(u: World, v: World, w: World)
    ensures Remains(u, v) && Remains(v, w.(disk := v.disk)) ==> Remains(u, w.(disk := u.disk)) && w.table == u.table
  {
  }

  lemma DeletingDrifts(u: World, v: World, w: World, scope: Cidr)
    requires Drifts(u, v)
    requires w == v.(flows := w.flows, strays := w.strays) && w.flows <= v.flows && w.strays <= v.strays
    requires forall f :: f in v.flows && !Contains(scope, f.client) ==> f in w.flows
    requires forall f :: f in v.strays && !Contains(scope, f.client) ==> f in w.strays
    ensures Drifts(u, w)
    ensures Remains(u, v) ==>
      w.disk == u.disk && w.table == u.table && StaysOutside({scope}, u, w)
      && (u.table.Some? ==> w.strays <= u.strays)
  {
    hide Contains, Issues;
    ScopesSplit({}, scope, {scope});
  }

  /** The phases of a pass, put together: what is kept through each of them is kept by the whole. */
  lemma Phases(w0: World, w1: World, w2: World, w3: World, w4: World, plan: FirewallPlan, scopes: set<Cidr>)
    requires Remains(w0, w1.(disk := w0.disk)) && Stays(w1, w2)
    requires w2.table == Some(plan) && w3.table == Some(plan) && StaysOutside(scopes, w2, w3)
    requires Cleared(w3, plan, scopes) && (forall f :: f in w3.strays ==> !InScope(scopes, f.client))
    requires Remains(w3, w4.(disk := w3.disk)) && Drifts(w3, w4.(disk := w3.disk))
    ensures w4.table == Some(plan) && StaysOutside(scopes, w0, w4) && Swept(w4, plan, scopes)
  {
    hide InScope, MappingOf, Agrees;
    DriftCleared(w3, w4.(disk := w3.disk), plan, scopes);
  }

  lemma StaysReflexive(w: World)
    ensures Stays(w, w) && Remains(w, w)
  {
  }

  lemma DriftsCompose(u: World, v: World, w: World)
    requires Drifts(u, v) && Drifts(v, w)
    ensures Drifts(u, w)
  {
    hide Agrees, MappingOf;
  }

  lemma DriftAccounts(w: World, v: World, record: Record)
    requires Drifts(w, v) && Accounts(w, record)
    ensures Accounts(v, record)
  {
    hide Agrees, MappingOf, Accounted;
  }

  lemma DriftWithin(w: World, v: World, plan: FirewallPlan)
    requires Drifts(w, v) && Within(w, plan)
    ensures Within(v, plan)
  {
    hide Agrees, MappingOf, Contains;
  }

  lemma DriftRepopulated(w: World, v: World, plan: Option<FirewallPlan>)
    requires Drifts(w, v) && Repopulated(w, plan)
    ensures Repopulated(v, plan)
  {
    hide UnitsFor;
  }

  lemma DriftSafe(w: World, v: World)
    requires Drifts(w, v) && Safe(w)
    ensures Safe(v)
  {
    hide Accounts, Repopulated, Readable;
    if Readable(v.disk) {
      ReadableIsStored(v.disk);
      assert v.disk == w.disk;
      DriftAccounts(w, v, w.disk.record);
      if !w.disk.record.pending { DriftRepopulated(w, v, w.disk.record.plan); }
    }
  }

  lemma ReadableIsStored(disk: Disk)
    requires Readable(disk)
    ensures disk.Stored?
  {
  }

  // ---- what the transition's own steps do ----

  /** The record of a transition to a plan. */
  function Transition(plan: FirewallPlan, scopes: set<Cidr>, pending: bool): Record {
    RecordFor(plan).(scopes := scopes, pending := pending)
  }

  lemma TransitionReadable(plan: FirewallPlan, scopes: set<Cidr>, pending: bool)
    requires Usable(plan)
    ensures Readable(Stored(Transition(plan, scopes, pending)))
  {
  }

  function Previous(disk: Disk): Option<Record> { if Readable(disk) then Some(disk.record) else None }

  /** What the agent read lets it account for everything under the new plan. */
  lemma TransitionAccounts(w: World, plan: FirewallPlan, previous: Option<Record>, pending: bool)
    requires previous.Some? ==> Accounts(w, previous.value)
    requires previous.None? ==> Within(w, plan)
    ensures Accounts(w, Transition(plan, ScopesFor(previous, RecordFor(plan)), pending))
  {
    hide ScopesFor, RecordFor, Issues, Contains, InScope, Agrees;
    var current, scopes := RecordFor(plan), ScopesFor(previous, RecordFor(plan));
    CurrentCidr(plan);
    forall f | f in w.flows || Issues(w.table, f) ensures Accounted(Transition(plan, scopes, pending), f) {
      if previous.Some? {
        assert Accounted(previous.value, f);
        ScopesAccount(previous.value, current, f);
      } else {
        FirstScopeCovers(current, f);
      }
    }
  }

  lemma CurrentCidr(plan: FirewallPlan)
    ensures RecordFor(plan).clientCidr == plan.clientCidr && RecordFor(plan).mappings == MappingOf(plan)
  {
  }

  ghost predicate Loaded(w: World, v: World, plan: FirewallPlan) {
    v.table == Some(plan) && v.loads == w.loads + 1
      && Drifts(w, v.(table := w.table, loads := w.loads, started := w.started))
  }

  lemma LoadedAccounts(w: World, v: World, plan: FirewallPlan, scopes: set<Cidr>, pending: bool)
    requires Loaded(w, v, plan) && Accounts(w, Transition(plan, scopes, pending))
    ensures Accounts(v, Transition(plan, scopes, pending))
  {
    hide MappingOf, Fresh, InScope;
  }

  /** The flows of these scopes have been cleared, and what came since agrees with the plan. */
  ghost predicate Cleared(w: World, plan: FirewallPlan, scopes: set<Cidr>) {
    forall f :: f in w.flows && InScope(scopes, f.client) ==> Agrees(MappingOf(plan), f)
  }

  /** The table is this plan's, unless something flushed it. */
  predicate OnlyTable(table: Option<FirewallPlan>, plan: FirewallPlan) { table == None || table == Some(plan) }

  lemma DriftCleared(w: World, v: World, plan: FirewallPlan, scopes: set<Cidr>)
    requires Drifts(w, v) && OnlyTable(w.table, plan) && Cleared(w, plan, scopes)
    ensures Cleared(v, plan, scopes)
  {
    hide Agrees, MappingOf, InScope;
  }

  lemma ClearedAccounts(w: World, plan: FirewallPlan, scopes: set<Cidr>, pending: bool, after: bool)
    requires Accounts(w, Transition(plan, scopes, pending)) && OnlyTable(w.table, plan) && Cleared(w, plan, scopes)
    ensures Accounts(w, Transition(plan, {}, after)) && NoStale(w, plan)
  {
    hide InScope, MappingOf;
  }

  lemma AccountsIgnoresDisk(w: World, disk: Disk, record: Record)
    ensures Accounts(w, record) <==> Accounts(w.(disk := disk), record)
    ensures Accounts(w, record) <==> Accounts(w, record.(pending := !record.pending))
  {
    hide InScope, Agrees, Issues;
    assert forall f :: Accounted(record, f) <==> Accounted(record.(pending := !record.pending), f);
  }

  // ------------------------------------------------------------------
  // The agent on its host
  // ------------------------------------------------------------------

  /** Nothing around the step but client traffic, and the step works. */
  predicate Calm(e: Event) { e.lost.None? && !e.flushed && e.expired == {} && e.outcome == Works }

  lemma CalmLater(script: nat -> Event, at: nat, later: nat)
    requires at <= later
    ensures CalmFrom(script, at) ==> CalmFrom(script, later)
  {
  }

  /** The agent comes through the step, with nothing lost or flushed around it; it may fail. */
  predicate Survived(e: Event) { e.lost.None? && !e.flushed && !e.outcome.Dies? }

  /** The peers and the tunnels are applied, which may fail, and everything after that works. */
  ghost predicate GoesOn(script: nat -> Event, at: nat, repopulate: bool) {
    && Survived(script(at)) && (script(at).outcome == Works || repopulate)
    && Survived(script(at + 1)) && CalmFrom(script, at + 2)
  }

  /** From this step on. */
  ghost predicate CalmFrom(script: nat -> Event, at: nat) { forall n: nat :: n >= at ==> Calm(script(n)) }

  ghost predicate AllCalm(script: nat -> Event) { CalmFrom(script, 0) }

  ghost predicate NothingLost(script: nat -> Event) { forall n: nat :: script(n).lost.None? }

  /** Whatever fails, nothing goes away by itself: neither the record, nor the table, nor a connection. */
  ghost predicate NothingVanishes(script: nat -> Event) {
    forall n: nat :: script(n).lost.None? && !script(n).flushed && script(n).expired == {}
  }

  /** The first read of a pass tells where flows may point: it finds a record, or the plan's subnet
  holds every client. */
  ghost predicate Known(w: World, plan: FirewallPlan, script: nat -> Event) {
    Within(w, plan) || (Readable(w.disk) && NothingLost(script))
  }

  /** As long as the record is not lost, one that could be read stays so. */
  ghost predicate StaysReadable(script: nat -> Event, before: Disk, after: Disk) {
    NothingLost(script) && Readable(before) ==> Readable(after)
  }

  /** A transition's record is on disk, unless it has been lost since. */
  predicate Guarded(disk: Disk, plan: FirewallPlan) {
    disk.Stored? ==> disk.record.pending && disk.record.plan == Some(plan)
  }

  function Without(flows: set<Flow>, scope: Cidr, overTcp: bool): (left: set<Flow>)
    ensures forall f :: f in left <==> f in flows && !(Contains(scope, f.client) && f.overTcp == overTcp)
  {
    set f | f in flows && !(Contains(scope, f.client) && f.overTcp == overTcp)
  }

  lemma NeededWhen(w: World, plan: FirewallPlan, scopes: set<Cidr>)
    requires scopes == ScopesFor(Previous(w.disk), RecordFor(plan))
    ensures Needed(w, plan) <==>
      w.table != Some(plan) || Previous(w.disk).None? || Previous(w.disk).value.pending || scopes != {}
  {
  }

  class Hub {
    const script: nat -> Event
    var clock: nat
    var disk: Disk
    var table: Option<FirewallPlan>
    var flows: set<Flow>
    var strays: set<Flow>
    var gap: bool
    var loads: nat
    var started: map<Unit, nat>
    var active: set<Unit>
    var configs: map<Unit, Text>
    var running: map<Unit, Text>    // the configuration each resolver was last started from

    ghost function Now(): World reads this { World(disk, table, flows, strays, gap, loads, started) }

    ghost function Held(): Resolvers reads this { Resolvers(active, configs, running) }

    constructor (script: nat -> Event, world: World, resolvers: Resolvers)
      ensures this.script == script && Now() == world && Held() == resolvers
    {
      this.script := script;
      clock := 0;
      disk, table, flows, strays, gap := world.disk, world.table, world.flows, world.strays, world.gap;
      loads, started := world.loads, world.started;
      active, configs, running := resolvers.active, resolvers.configs, resolvers.running;
    }

    method Shot(pass: Pass, status: Status) returns (shot: Snapshot)
      ensures shot == Snapshot(pass.plan, pass.dns, status, Now(), Held())
    {
      shot := Snapshot(pass.plan, pass.dns, status, World(disk, table, flows, strays, gap, loads, started),
        Resolvers(active, configs, running));
    }

    /** One step passes: whatever happens around it happens, and it ends as the script says. */
    method Step() returns (outcome: Outcome)
      modifies `clock, `disk, `table, `flows, `strays, `gap, `started
      ensures clock == old(clock) + 1 && outcome == script(old(clock)).outcome
      ensures Survived(script(old(clock))) ==> disk == old(disk) && table == old(table)
      ensures Drifts(old(Now()), Now())
      ensures NothingLost(script) ==> disk == old(disk)
      ensures NothingVanishes(script) ==> Remains(old(Now()), Now())
      ensures CalmFrom(script, old(clock)) ==> outcome == Works && disk == old(disk) && table == old(table)
    {
      var e := script(clock);
      clock := clock + 1;
      outcome := e.outcome;
      var issued := set f | f in e.asked && Issues(table, f);
      var unfiltered := if table.None? then e.asked else {};
      flows, strays := (flows - e.expired) + issued, (strays - e.expired) + unfiltered;
      if table.None? || e.flushed { gap := true; }
      started := map u | u in started.Keys + e.bounced :: if u in e.bounced then loads else started[u];
      if e.flushed { table := None; }
      if e.lost.Some? { disk := if e.lost.value.Stored? then Missing else e.lost.value; }
    }

    method Observe() returns (s: Status, loaded: Option<FirewallPlan>)
      modifies `clock, `disk, `table, `flows, `strays, `gap, `started
      ensures clock >= old(clock)
      ensures Drifts(old(Now()), Now()) && (NothingLost(script) ==> disk == old(disk))
      ensures s == Fine ==> loaded == table
      ensures NothingVanishes(script) ==> Remains(old(Now()), Now())
      ensures CalmFrom(script, old(clock)) ==> s == Fine && disk == old(disk) && table == old(table)
    {
      var outcome := Step();
      loaded := table;
      s := match outcome case Works => Fine case Fails(_) => Error case Dies(_) => Crashed;
    }

    method ReadRecord() returns (s: Status, previous: Option<Record>)
      modifies `clock, `disk, `table, `flows, `strays, `gap, `started
      ensures clock >= old(clock)
      ensures Drifts(old(Now()), Now()) && (NothingLost(script) ==> disk == old(disk))
      ensures previous == Previous(disk)
      ensures NothingVanishes(script) ==> Remains(old(Now()), Now())
      ensures CalmFrom(script, old(clock)) ==> s == Fine && disk == old(disk) && table == old(table)
    {
      var outcome := Step();
      previous := Previous(disk);
      s := match outcome case Works => Fine case Fails(_) => Error case Dies(_) => Crashed;
    }

    /** Atomic: a failed write leaves what was there. */
    method WriteRecord(record: Record) returns (s: Status)
      modifies `clock, `disk, `table, `flows, `strays, `gap, `started
      ensures clock >= old(clock)
      ensures Drifts(old(Now()), Now().(disk := old(disk)))
      ensures disk == Stored(record) || disk == old(disk) || !disk.Stored?
      ensures s == Fine ==> disk == Stored(record)
      ensures NothingLost(script) ==> disk == Stored(record) || disk == old(disk)
      ensures NothingVanishes(script) ==> Remains(old(Now()), Now().(disk := old(disk)))
      ensures CalmFrom(script, old(clock)) ==> s == Fine && table == old(table)
    {
      var outcome := Step();
      match outcome {
        case Works => disk := Stored(record); s := Fine;
        case Fails(_) => s := Error;
        case Dies(effect) =>
          if effect { disk := Stored(record); }
          s := Crashed;
      }
    }

    /** Loads a table.  The record that says so has to be on disk first. */
    method LoadRuleset(plan: FirewallPlan) returns (s: Status)
      requires Guarded(disk, plan)
      modifies `clock, `disk, `table, `flows, `strays, `gap, `started, `loads
      ensures clock >= old(clock)
      ensures Drifts(old(Now()), Now()) || Loaded(old(Now()), Now(), plan)
      ensures disk == old(disk) || !disk.Stored?
      ensures NothingLost(script) ==> disk == old(disk)
      ensures s == Fine ==> Loaded(old(Now()), Now(), plan)
      ensures NothingVanishes(script) ==> disk == old(disk) && Stays(old(Now()), Now())
      ensures CalmFrom(script, old(clock)) ==> s == Fine && disk == old(disk)
    {
      ghost var before := Now();
      var outcome := Step();
      ghost var middle := Now();
      if outcome == Works || outcome == Fails(true) || outcome == Dies(true) {
        table := Some(plan);
        loads := loads + 1;
        FreshIgnoresTable(before, middle, Now());
      }
      s := match outcome case Works => Fine case Fails(_) => Error case Dies(_) => Crashed;
    }

    method DeleteFlows(scope: Cidr, overTcp: bool) returns (s: Status)
      modifies `clock, `disk, `table, `flows, `strays, `gap, `started
      ensures clock >= old(clock)
      ensures Drifts(old(Now()), Now()) && (NothingLost(script) ==> disk == old(disk))
      ensures s == Fine ==> forall f :: f in flows && Contains(scope, f.client) ==> f.overTcp != overTcp
      ensures CalmFrom(script, old(clock)) ==> s == Fine && disk == old(disk) && table == old(table)
      ensures NothingVanishes(script) ==>
        disk == old(disk) && table == old(table) && StaysOutside({scope}, old(Now()), Now())
      ensures s == Fine && NothingVanishes(script) && table.Some? ==>
        strays <= old(strays) && forall f :: f in strays && Contains(scope, f.client) ==> f.overTcp != overTcp
    {
      hide Remains, NothingVanishes, Drifts, Contains, StaysOutside, Without;
      ghost var before := Now();
      var outcome := Step();
      ghost var middle := Now();
      if outcome == Works || outcome == Fails(true) || outcome == Dies(true) {
        flows, strays := Without(flows, scope, overTcp), Without(strays, scope, overTcp);
      }
      DeletingDrifts(before, middle, Now(), scope);
      s := match outcome case Works => Fine case Fails(_) => Error case Dies(_) => Crashed;
    }

    method ClearScope(scope: Cidr, plan: FirewallPlan) returns (s: Status)
      requires OnlyTable(table, plan)
      modifies `clock, `disk, `table, `flows, `strays, `gap, `started
      ensures clock >= old(clock)
      ensures Drifts(old(Now()), Now()) && (NothingLost(script) ==> disk == old(disk))
      ensures s == Fine ==> forall f :: f in flows && Contains(scope, f.client) ==> Agrees(MappingOf(plan), f)
      ensures CalmFrom(script, old(clock)) ==> s == Fine && disk == old(disk) && table == old(table)
      ensures NothingVanishes(script) ==>
        disk == old(disk) && table == old(table) && StaysOutside({scope}, old(Now()), Now())
      ensures s == Fine && NothingVanishes(script) && table.Some? ==>
        strays <= old(strays) && forall f :: f in strays ==> !Contains(scope, f.client)
    {
      hide Agrees, MappingOf, Contains;
      ghost var before := Now();
      s := DeleteFlows(scope, false);
      if s != Fine { return; }
      ghost var middle := Now();
      s := DeleteFlows(scope, true);
      DriftsCompose(before, middle, Now());
    }

    method ClearDnsConntrack(scopes: set<Cidr>, plan: FirewallPlan) returns (s: Status)
      requires OnlyTable(table, plan)
      modifies `clock, `disk, `table, `flows, `strays, `gap, `started
      ensures clock >= old(clock)
      ensures Drifts(old(Now()), Now()) && (NothingLost(script) ==> disk == old(disk))
      ensures s == Fine ==> Cleared(Now(), plan, scopes)
      ensures CalmFrom(script, old(clock)) ==> s == Fine && disk == old(disk) && table == old(table)
      ensures NothingVanishes(script) ==>
        disk == old(disk) && table == old(table) && StaysOutside(scopes, old(Now()), Now())
      ensures s == Fine && NothingVanishes(script) && table.Some? ==> forall f :: f in strays ==>
        !InScope(scopes, f.client)
    {
      hide Agrees, MappingOf, Contains;
      ghost var before := Now();
      var left := scopes;
      s := Fine;
      while left != {}
        invariant left <= scopes && s == Fine
        invariant Drifts(before, Now()) && OnlyTable(table, plan)
        invariant Cleared(Now(), plan, scopes - left)
        invariant NothingLost(script) ==> disk == before.disk
        invariant clock >= old(clock)
        invariant CalmFrom(script, old(clock)) ==> disk == before.disk && table == before.table
        invariant NothingVanishes(script) ==>
          disk == before.disk && table == before.table && StaysOutside(scopes, before, Now())
        invariant NothingVanishes(script) && table.Some? ==> forall f :: f in strays ==>
          !InScope(scopes - left, f.client)
      {
        var scope :| scope in left;
        left := left - {scope};
        ghost var w := Now();
        s := ClearScope(scope, plan);
        DriftsCompose(before, w, Now());
        if s != Fine { return; }
        ScopesSplit(scopes - left - {scope}, scope, scopes - left);
        DriftCleared(w, Now(), plan, scopes - left - {scope});
        assert scopes - (left + {scope}) == scopes - left - {scope};
      }
      assert scopes - left == scopes;
    }

    // ---- NFTables.Apply ----

    /** Compares what is loaded and recorded with the plan, and records the transition first. */
    method Prepare(plan: FirewallPlan) returns (s: Status, rebuilt: bool, repopulate: bool, scopes: set<Cidr>)
      requires Usable(plan) && Safe(Now())
      modifies `clock, `disk, `table, `flows, `strays, `gap, `started
      ensures clock >= old(clock)
      ensures Drifts(old(Now()), Now().(disk := old(disk)))
      ensures StaysReadable(script, old(disk), disk)
      ensures Known(old(Now()), plan, script) ==> Safe(Now())
      ensures s == Fine && Known(old(Now()), plan, script) ==> Accounts(Now(), Transition(plan, scopes, repopulate))
      ensures s == Fine && repopulate ==> disk == Stored(Transition(plan, scopes, true))
      ensures s == Fine && !rebuilt ==> OnlyTable(table, plan)
      ensures rebuilt || scopes != {} ==> repopulate
      ensures Clean(disk) ==> disk == old(disk)
      ensures Tallies(old(Now())) ==> Tallies(Now()) && (s == Fine && !repopulate ==> Settled(old(disk), plan))
      ensures NothingVanishes(script) ==> Remains(old(Now()), Now().(disk := old(disk)))
      ensures s == Fine && NothingVanishes(script) ==>
        scopes == ScopesFor(Previous(old(disk)), RecordFor(plan)) && (table.None? ==> rebuilt)
      ensures CalmFrom(script, old(clock)) ==>
        && s == Fine && table == old(table)
        && rebuilt == (old(table) != Some(plan)) && scopes == ScopesFor(Previous(old(disk)), RecordFor(plan))
        && repopulate == Needed(old(Now()), plan) && (!repopulate ==> disk == old(disk))
    {
      hide Remains, NothingVanishes, NothingLost, Safe, Accounts, Within, Drifts, Usable, Readable, MappingOf,
           ScopesFor, InScope, Needed, Previous, RecordFor, Transition, Known, Tallies, Clean, Settled;
      ghost var w0 := Now();
      ghost var known := Known(w0, plan, script);
      rebuilt, repopulate, scopes := true, true, {};
      var previous: Option<Record>;
      s, rebuilt, previous := ReadBoth(plan);
      ghost var w1 := Now();
      DriftTallies(w0, w1);
      DriftKeepsDisk(w0, w1);
      ObservedRemains(w0, w1, w1);
      if s != Fine { return; }
      var current := DnsConntrackStateFor(plan);
      scopes := DnsConntrackCleanupScopes(previous, current);
      repopulate := rebuilt || previous.None? || previous.value.pending || scopes != {};
      NeededWhen(w1, plan, scopes);
      NeedIgnoresFlows(w0, w1, plan);
      if known { ReadAccounts(w1, plan, script, repopulate); }
      SettledWhen(w0.disk, w1.disk, plan);
      if repopulate {
        s := WriteRecord(Transition(plan, scopes, true));
        TransitionReadable(plan, scopes, true);
        WrittenRemains(w0, w1, Now());
        DriftsReflexive(w0);
        AfterWrite(w0, w1, Now(), plan, scopes, known, s == Fine);
        WriteTallies(w1, Now(), plan, scopes);
      }
    }

    /** Asks what is loaded, then what is recorded. */
    method ReadBoth(plan: FirewallPlan) returns (s: Status, rebuilt: bool, previous: Option<Record>)
      requires Safe(Now())
      modifies `clock, `disk, `table, `flows, `strays, `gap, `started
      ensures clock >= old(clock)
      ensures Drifts(old(Now()), Now()) && (NothingLost(script) ==> disk == old(disk)) && Safe(Now())
      ensures Known(old(Now()), plan, script) ==> Known(Now(), plan, script)
      ensures s == Fine ==> previous == Previous(disk) && (!rebuilt ==> OnlyTable(table, plan))
      ensures s == Fine && !rebuilt && Tallies(old(Now())) && Clean(disk) ==> disk.record.plan == Some(plan)
      ensures NothingVanishes(script) ==> Remains(old(Now()), Now()) && (s == Fine && table.None? ==> rebuilt)
      ensures CalmFrom(script, old(clock)) ==>
        s == Fine && disk == old(disk) && table == old(table) && rebuilt == (old(table) != Some(plan))
    {
      hide Remains, NothingVanishes, NothingLost, Safe, Accounts, Within, Drifts, Readable, Known, Previous;
      ghost var w0 := Now();
      rebuilt, previous := true, None;
      var loaded: Option<FirewallPlan>;
      s, loaded := Observe();
      ghost var w1 := Now();
      PassDrift(w0, w1, plan, script);
      if s == Crashed { return; }
      rebuilt := s == Error || loaded != Some(plan);
      s, previous := ReadRecord();
      ghost var w2 := Now();
      PassDrift(w1, w2, plan, script);
      DriftsCompose(w0, w1, w2);
      ObservedRemains(w0, w1, w2);
      KeepsTable(w1, w2, plan);
      DriftTallies(w0, w1);
      DriftTallies(w1, w2);
    }

    /** Loads the plan if need be, clears what the old one left, and says whether the resolvers have
    to refill the sets. */
    method Apply(plan: FirewallPlan) returns (s: Status, repopulate: bool)
      requires Usable(plan) && Safe(Now())
      modifies `clock, `disk, `table, `flows, `strays, `gap, `started, `loads
      ensures clock >= old(clock)
      ensures StaysReadable(script, old(disk), disk)
      ensures Known(old(Now()), plan, script) ==> Safe(Now())
      ensures Known(old(Now()), plan, script) && s == Fine ==> NoStale(Now(), plan)
      ensures Grows(old(Now()), Now(), plan)
      ensures s == Fine ==> OnlyTable(table, plan)
      ensures Clean(disk) ==> disk == old(disk)
      ensures repopulate ==> !Clean(disk)
      ensures Tallies(old(Now())) ==> Tallies(Now()) && (s == Fine && !repopulate ==> Settled(old(disk), plan))
      ensures CalmFrom(script, old(clock)) ==>
        && s == Fine && repopulate == Needed(old(Now()), plan) && table == Some(plan)
        && disk == (if repopulate then Stored(Transition(plan, {}, true)) else old(disk))
        && (!repopulate ==> loads == old(loads))
      ensures s == Fine && NothingVanishes(script) ==>
        && table == Some(plan)
        && StaysOutside(ScopesFor(Previous(old(disk)), RecordFor(plan)), old(Now()), Now())
        && Swept(Now(), plan, ScopesFor(Previous(old(disk)), RecordFor(plan)))
    {
      hide Remains, NothingVanishes, Stays, StaysOutside, Swept, Safe, Accounts, Within, Drifts, Usable, Readable,
           MappingOf, ScopesFor, InScope, Cleared, Loaded, NoStale, Known, Grows, Tallies, Clean, Settled;
      ghost var w0 := Now();
      ghost var known := Known(w0, plan, script);
      var rebuilt: bool, scopes: set<Cidr>;
      s, rebuilt, repopulate, scopes := Prepare(plan);
      DriftGrows(w0, Now(), plan);
      if s != Fine { return s, false; }
      ghost var u := Now();
      StaysReflexive(u);
      if repopulate { TransitionTallies(u, plan, scopes); }
      if rebuilt {
        s := Rebuild(plan, scopes, known);
        GrowsCompose(w0, u, Now(), plan);
        if s != Fine { return s, false; }
      }
      ghost var w := Now();
      s := ClearDnsConntrack(scopes, plan);
      AfterClear(w, Now(), plan, scopes, repopulate, known, s == Fine);
      DriftTallies(w, Now());
      GrowsCompose(w0, w, Now(), plan);
      if s != Fine { return; }
      ghost var x := Now();
      StaysReflexive(x);
      DriftsReflexive(x);
      if repopulate && scopes != {} {
        ghost var v := Now();
        s := WriteRecord(Transition(plan, {}, true));
        TransitionReadable(plan, {}, true);
        AfterFinalWrite(v, Now(), plan, scopes, known);
        WriteTallies(v, Now(), plan, {});
        GrowsCompose(w0, v, Now(), plan);
      }
      if s == Fine && NothingVanishes(script) {
        ObservedRemains(w0, u.(disk := w0.disk), u.(disk := w0.disk));
        Phases(w0, u, w, x, Now(), plan, scopes);
      }
    }

    method Rebuild(plan: FirewallPlan, scopes: set<Cidr>, ghost known: bool) returns (s: Status)
      requires disk == Stored(Transition(plan, scopes, true)) && Usable(plan)
      requires known ==> Accounts(Now(), Transition(plan, scopes, true)) && Safe(Now())
      modifies `clock, `disk, `table, `flows, `strays, `gap, `started, `loads
      ensures clock >= old(clock)
      ensures known ==> Safe(Now())
      ensures Grows(old(Now()), Now(), plan)
      ensures disk == old(disk) || !disk.Stored?
      ensures NothingLost(script) ==> disk == old(disk)
      ensures s == Fine ==> table == Some(plan)
      ensures !Clean(disk) && Tallies(Now())
      ensures s == Fine && known ==> Accounts(Now(), Transition(plan, scopes, true))
      ensures NothingVanishes(script) ==> disk == old(disk) && Stays(old(Now()), Now())
      ensures CalmFrom(script, old(clock)) ==> s == Fine && disk == old(disk)
    {
      hide Safe, Accounts, Drifts, Usable, Readable, MappingOf, InScope, RecordFor, Grows, Tallies, Clean;
      ghost var w0 := Now();
      var written := Step();
      DriftKeepsDisk(w0, Now());
      DriftGrows(w0, Now(), plan);
      if known { DriftSafe(w0, Now()); DriftAccounts(w0, Now(), Transition(plan, scopes, true)); }
      TransitionTallies(Now(), plan, scopes);
      if written != Works { return if written.Dies? then Crashed else Error; }
      TransitionGuards(plan, scopes);
      ghost var w1 := Now();
      s := LoadRuleset(plan);
      if Loaded(w1, Now(), plan) { LoadGrows(w1, Now(), plan); }
        else { DriftKeepsDisk(w1, Now()); DriftGrows(w1, Now(), plan); }
      GrowsCompose(w0, w1, Now(), plan);
      TransitionTallies(Now(), plan, scopes);
      if known {
        if Loaded(w1, Now(), plan) {
          LoadedAccounts(w1, Now(), plan, scopes, true);
          TransitionSafe(Now(), plan, scopes);
        } else {
          DriftSafe(w1, Now());
        }
      }
    }

    /** Records that the resolvers have refilled what the transition emptied. */
    method CommitDnsRepopulation(plan: FirewallPlan) returns (s: Status)
      requires Repopulated(Now(), Some(plan)) && OnlyTable(table, plan)
      modifies `clock, `disk, `table, `flows, `strays, `gap, `started
      ensures clock >= old(clock)
      ensures Clean(disk) ==> disk.record.plan == Some(plan) || disk == old(disk)
      ensures Tallies(old(Now())) ==> Tallies(Now())
      ensures StaysReadable(script, old(disk), disk)
      ensures Safe(old(Now())) ==> Safe(Now())
      ensures Drifts(old(Now()), Now().(disk := old(disk)))
      ensures CalmFrom(script, old(clock)) && old(disk) == Stored(Transition(plan, {}, true)) && Usable(plan) ==>
        s == Fine && disk == Stored(RecordFor(plan)) && table == old(table)
    {
      hide Remains, NothingVanishes, Safe, Accounts, Drifts, Usable, Readable, MappingOf, InScope, Repopulated, Tallies,
           Clean;
      ghost var w0 := Now();
      var state: Option<Record>;
      s, state := ReadRecord();
      ghost var w1 := Now();
      DriftTallies(w0, w1);
      if Safe(w0) { DriftSafe(w0, w1); }
      DriftRepopulated(w0, w1, Some(plan));
      DriftKeepsDisk(w0, w1);
      TransitionReads(plan);
      if s != Fine { return; }
      if state.None? || state.value.plan != Some(plan) { return Error; }
      if !state.value.pending { return Fine; }
      if state.value.scopes != {} { return Error; }
      s := WriteRecord(state.value.(pending := false));
      CommittedReadable(w1.disk, state.value);
      AfterCommit(w0, w1, Now(), plan, state.value);
      CommitTallies(w0, w1, Now(), plan, state.value);
    }

    // ---- Dnsmasq.Apply ----

    /** Replaces a resolver: stops it, whatever that says, and starts it again. */
    method Restart(u: Unit) returns (s: Status)
      requires u in configs
      modifies `clock, `disk, `table, `flows, `strays, `gap, `started, `active, `running
      ensures clock >= old(clock)
      ensures Drifts(old(Now()), Now()) && (NothingLost(script) ==> disk == old(disk))
      ensures s == Fine ==> Fresh(Now(), u) && active == old(active) + {u} && u in running && running[u] == configs[u]
      ensures running == old(running) || running == old(running)[u := configs[u]]
      ensures CalmFrom(script, old(clock)) ==> s == Fine && disk == old(disk) && table == old(table)
    {
      hide Remains, NothingVanishes, Drifts, Fresh;
      ghost var w0 := Now();
      var stopped := Step();
      if stopped == Works || stopped == Fails(true) || stopped == Dies(true) { active := active - {u}; }
      if stopped.Dies? { return Crashed; }
      ghost var w1 := Now();
      s := Launch(u);
      DriftsCompose(w0, w1, Now());
    }

    method Launch(u: Unit) returns (s: Status)
      requires u in configs
      modifies `clock, `disk, `table, `flows, `strays, `gap, `started, `active, `running
      ensures clock >= old(clock)
      ensures Drifts(old(Now()), Now()) && (NothingLost(script) ==> disk == old(disk))
      ensures s == Fine ==> Fresh(Now(), u) && active == old(active) + {u} && u in running && running[u] == configs[u]
      ensures running == old(running) || running == old(running)[u := configs[u]]
      ensures CalmFrom(script, old(clock)) ==> s == Fine && disk == old(disk) && table == old(table)
    {
      hide Remains, NothingVanishes, Drifts, Fresh;
      ghost var w0 := Now();
      var ran := Step();
      ghost var w1 := Now();
      if ran == Works || ran == Fails(true) || ran == Dies(true) {
        active := active + {u};
        started := started[u := loads];
        running := running[u := configs[u]];
        StartIsDrift(w1, u);
        DriftsCompose(w0, w1, Now());
      }
      s := match ran case Works => Fine case Fails(_) => Error case Dies(_) => Crashed;
    }

    /** The file of a resolver; a write that does not work may tear it.  The supervisor may have restarted
    the resolver from the old one, which makes a difference only now. */
    method WriteConfig(u: Unit, text: Text) returns (s: Status, changed: bool)
      modifies `clock, `disk, `table, `flows, `strays, `gap, `started, `configs, `running
      ensures clock == old(clock) + 1 && (script(old(clock)).outcome == Works ==> s == Fine)
      ensures Drifts(old(Now()), Now()) && (NothingLost(script) ==> disk == old(disk))
      ensures s == Fine ==>
        configs == old(configs)[u := text] && (changed <==> u !in old(configs) || old(configs)[u] != text)
      ensures configs == old(configs) || changed
      ensures forall v :: v in old(configs) && v != u ==> v in configs && configs[v] == old(configs)[v]
      ensures forall v :: v in old(running) && v != u ==> v in running && running[v] == old(running)[v]
      ensures Runs(old(Held()), u, Some(text)) ==> Runs(Held(), u, Some(text)) && !changed
      ensures CalmFrom(script, old(clock)) ==> s == Fine && disk == old(disk) && table == old(table)
    {
      hide Remains, NothingVanishes, Drifts;
      if u in script(clock).bounced && u in configs { running := running[u := configs[u]]; }
      changed := u !in configs || configs[u] != text;
      var written := Step();
      if written == Works {
        configs := configs[u := text];
      } else if changed && written.effect {
        configs := configs[u := TornText];
      }
      s := match written case Works => Fine case Fails(_) => Error case Dies(_) => Crashed;
    }

    /** Starts a resolver that is not up, or replaces one whose configuration changed.  One that is up with
    its text is left running: no command but the probe is issued. */
    method EnsureRunning(u: Unit, text: Text, repopulate: bool, ghost dns: DnsPlan) returns (s: Status)
      requires TextOf(dns, u) == Some(text)
      modifies `clock, `disk, `table, `flows, `strays, `gap, `started, `active, `configs, `running
      ensures clock >= old(clock)
      ensures Drifts(old(Now()), Now()) && (NothingLost(script) ==> disk == old(disk))
      ensures s == Fine && repopulate ==> Fresh(Now(), u)
      ensures s == Fine ==> active == old(active) + {u} && configs == old(configs)[u := text]
      ensures KeepsServing(old(Held()), Held(), dns)
      ensures s == Fine
              && (repopulate || u !in old(configs) || old(configs)[u] != text || Runs(old(Held()), u, Some(text))) ==>
        Runs(Held(), u, Some(text))
      ensures CalmFrom(script, old(clock)) ==> s == Fine && disk == old(disk) && table == old(table)
      ensures !repopulate && u in old(active) && u in old(configs) && old(configs)[u] == text
              && script(old(clock)).outcome == Works && script(old(clock) + 1).outcome == Works ==>
        s == Fine && clock == old(clock) + 2 && active == old(active)
    {
      hide Remains, NothingVanishes, Drifts, UnitsOf, TextOf, Fresh, CalmFrom;
      ghost var w0 := Now();
      var changed: bool;
      s, changed := WriteConfig(u, text);
      ghost var w1 := Now();
      CalmLater(script, old(clock), clock);
      if s != Fine { return; }
      if !(changed || repopulate) {
        var probed := Step();
        DriftsCompose(w0, w1, Now());
        if probed.Dies? { return Crashed; }
        if probed == Works && u in active { return Fine; }
      }
      ghost var w2 := Now();
      CalmLater(script, old(clock), clock);
      s := Restart(u);
      DriftsReflexive(w1);
      DriftsCompose(w1, w2, Now());
      DriftsCompose(w0, w1, Now());
    }

    /** One list of resolvers, in order. */
    method EnsureAll(units: seq<(Unit, Text)>, repopulate: bool, ghost dns: DnsPlan) returns (s: Status)
      requires Lists(units, dns)
      modifies `clock, `disk, `table, `flows, `strays, `gap, `started, `active, `configs, `running
      ensures clock >= old(clock)
      ensures Drifts(old(Now()), Now()) && (NothingLost(script) ==> disk == old(disk))
      ensures s == Fine ==> old(active) <= active && forall u :: Among(units, u) ==> u in active
      ensures s == Fine && repopulate ==> forall u :: Among(units, u) ==> Fresh(Now(), u)
      ensures KeepsServing(old(Held()), Held(), dns)
      ensures s == Fine && repopulate ==> forall u :: Among(units, u) && u in UnitsOf(dns) ==>
        Runs(Held(), u, TextOf(dns, u))
      ensures CalmFrom(script, old(clock)) ==> s == Fine && disk == old(disk) && table == old(table)
    {
      hide Remains, NothingVanishes, Issues, UnitsOf, TextOf, Runs;
      ghost var w0 := Now();
      s := Fine;
      for i := 0 to |units|
        invariant s == Fine && Drifts(w0, Now()) && (NothingLost(script) ==> disk == w0.disk)
        invariant KeepsServing(old(Held()), Held(), dns)
        invariant old(active) <= active && forall k :: 0 <= k < i ==> units[k].0 in active
        invariant repopulate ==> forall k :: 0 <= k < i ==> Fresh(Now(), units[k].0)
        invariant repopulate ==> forall k :: 0 <= k < i && units[k].0 in UnitsOf(dns) ==>
          Runs(Held(), units[k].0, TextOf(dns, units[k].0))
        invariant clock >= old(clock)
        invariant CalmFrom(script, old(clock)) ==> disk == w0.disk && table == w0.table
      {
        ghost var w := Now();
        s := EnsureRunning(units[i].0, units[i].1, repopulate, dns);
        DriftsCompose(w0, w, Now());
        if s != Fine { return; }
      }
    }

    /** The clients' resolvers, which forward to those in the namespaces and so come after them. */
    method EnsureClients(dns: DnsPlan, repopulate: bool) returns (s: Status)
      requires OneText(dns)
      requires forall u :: Among(PrivateTexts(dns.privateResolvers), u) ==> u in active
      requires forall u :: Among(PublicTexts(dns.egressResolvers), u) ==> u in active
      modifies `clock, `disk, `table, `flows, `strays, `gap, `started, `active, `configs, `running
      ensures clock >= old(clock)
      ensures Drifts(old(Now()), Now()) && (NothingLost(script) ==> disk == old(disk))
      ensures s == Fine && repopulate ==> forall u :: Among(ClientTexts(dns), u) ==> Fresh(Now(), u)
      ensures KeepsServing(old(Held()), Held(), dns)
      ensures s == Fine && repopulate ==>
        forall u :: Among(ClientTexts(dns), u) && u in UnitsOf(dns) ==> Runs(Held(), u, TextOf(dns, u))
      ensures CalmFrom(script, old(clock)) ==> s == Fine && disk == old(disk) && table == old(table)
    {
      s := EnsureAll(ClientTexts(dns), repopulate, dns);
    }

    /** Stops the resolvers the plan does not name; a failed listing is reported, not acted on, and
    whether a stop worked is not asked. */
    method ForgetStaleResolvers(wanted: set<Unit>) returns (s: Status)
      modifies `clock, `disk, `table, `flows, `strays, `gap, `started, `active, `configs
      ensures clock >= old(clock)
      ensures Drifts(old(Now()), Now()) && (NothingLost(script) ==> disk == old(disk))
      ensures old(active) * wanted <= active <= old(active) && Keeps(old(configs), configs, wanted)
      ensures CalmFrom(script, old(clock)) ==>
        && s == Fine && disk == old(disk) && table == old(table) && active <= wanted
        && forall u :: u in old(active) && u !in wanted ==> u !in configs
    {
      hide Remains, NothingVanishes, Drifts;
      ghost var w0 := Now();
      s := Fine;
      DriftsReflexive(w0);
      for space := 0 to 3
        invariant s != Crashed && Drifts(w0, Now()) && (NothingLost(script) ==> disk == w0.disk)
        invariant old(active) * wanted <= active <= old(active) && Keeps(old(configs), configs, wanted)
        invariant clock >= old(clock)
        invariant CalmFrom(script, old(clock)) ==> s == Fine && disk == w0.disk && table == w0.table
        invariant CalmFrom(script, old(clock)) ==> forall u :: u in active && SpaceOf(u) < space ==> u in wanted
        invariant CalmFrom(script, old(clock)) ==> forall u :: u in old(active) && u !in active ==> u !in configs
        invariant configs.Keys <= old(configs).Keys
      {
        ghost var w := Now();
        var listed := Step();
        DriftsCompose(w0, w, Now());
        if listed.Dies? { return Crashed; }
        if listed.Fails? {
          s := Error;
        } else {
          ghost var v := Now();
          var stopped := StopStale((set u | u in active && u !in wanted && SpaceOf(u) == space), wanted);
          DriftsCompose(w0, v, Now());
          if stopped == Crashed { return Crashed; }
        }
      }
    }

    method StopOne(u: Unit, ghost wanted: set<Unit>) returns (s: Status)
      requires u !in wanted
      modifies `clock, `disk, `table, `flows, `strays, `gap, `started, `active, `configs
      ensures clock >= old(clock)
      ensures s != Error && Drifts(old(Now()), Now()) && (NothingLost(script) ==> disk == old(disk))
      ensures old(active) - {u} <= active <= old(active) && Keeps(old(configs), configs, wanted)
      ensures CalmFrom(script, old(clock)) ==>
        s == Fine && disk == old(disk) && table == old(table) && active == old(active) - {u} && u !in configs
      ensures configs == old(configs) || configs == old(configs) - {u}
    {
      hide Remains, NothingVanishes, Drifts;
      ghost var w0 := Now();
      var stopped := Step();
      if stopped == Works || stopped == Fails(true) || stopped == Dies(true) { active := active - {u}; }
      if stopped.Dies? { return Crashed; }
      ghost var v := Now();
      var removed := Step();
      DriftsCompose(w0, v, Now());
      if removed == Works || removed == Fails(true) || removed == Dies(true) { configs := configs - {u}; }
      return if removed.Dies? then Crashed else Fine;
    }

    method StopStale(stale: set<Unit>, ghost wanted: set<Unit>) returns (s: Status)
      requires stale !! wanted
      modifies `clock, `disk, `table, `flows, `strays, `gap, `started, `active, `configs
      ensures clock >= old(clock)
      ensures s != Error && Drifts(old(Now()), Now()) && (NothingLost(script) ==> disk == old(disk))
      ensures old(active) - stale <= active <= old(active) && Keeps(old(configs), configs, wanted)
      ensures CalmFrom(script, old(clock)) ==>
        s == Fine && disk == old(disk) && table == old(table) && active == old(active) - stale && configs.Keys !! stale
      ensures configs.Keys <= old(configs).Keys
    {
      hide Remains, NothingVanishes, Drifts, Calm;
      ghost var w0 := Now();
      DriftsReflexive(w0);
      var left := stale;
      while left != {}
        invariant left <= stale && Drifts(w0, Now()) && (NothingLost(script) ==> disk == w0.disk)
        invariant old(active) - stale <= active <= old(active) && Keeps(old(configs), configs, wanted)
        invariant clock >= old(clock)
        invariant CalmFrom(script, old(clock)) ==>
          && disk == w0.disk && table == w0.table && active == old(active) - (stale - left)
          && configs.Keys !! (stale - left)
        invariant configs.Keys <= old(configs).Keys
      {
        ghost var w := Now();
        var u :| u in left;
        left := left - {u};
        s := StopOne(u, wanted);
        DriftsCompose(w0, w, Now());
        if s == Crashed { return; }
      }
      return Fine;
    }

    method ApplyDns(dns: DnsPlan, repopulate: bool) returns (s: Status)
      requires OneText(dns)
      modifies `clock, `disk, `table, `flows, `strays, `gap, `started, `active, `configs, `running
      ensures clock >= old(clock)
      ensures KeepsServing(old(Held()), Held(), dns)
      ensures s == Fine && repopulate ==> Serves(Held(), dns)
      ensures Drifts(old(Now()), Now()) && (NothingLost(script) ==> disk == old(disk))
      ensures s == Fine && repopulate ==> forall u :: u in UnitsOf(dns) ==> Fresh(Now(), u)
      ensures CalmFrom(script, old(clock)) ==> s == Fine && disk == old(disk) && table == old(table)
    {
      hide Remains, NothingVanishes, Drifts, Fresh, Among, UnitsOf, TextOf, Runs;
      ghost var w0 := Now();
      var stale := ForgetStaleResolvers(UnitsOf(dns));
      KeptServing(old(Held()), Held(), dns);
      if stale == Crashed { return Crashed; }
      ghost var w1 := Now();
      s := EnsureAll(PrivateTexts(dns.privateResolvers), repopulate, dns);
      ghost var w2 := Now();
      DriftsCompose(w0, w1, w2);
      if s != Fine { return; }
      s := EnsureAll(PublicTexts(dns.egressResolvers), repopulate, dns);
      ghost var w3 := Now();
      DriftsCompose(w0, w2, w3);
      DriftsFresh(w2, w3);
      if s != Fine { return; }
      s := EnsureClients(dns, repopulate);
      DriftsCompose(w0, w3, Now());
      DriftsFresh(w3, Now());
      if s != Fine { return; }
      UnitsListed(dns);
      return stale;
    }

    // ---- HostReconciler.Apply ----

    method AdapterStep() returns (s: Status)
      modifies `clock, `disk, `table, `flows, `strays, `gap, `started
      ensures clock == old(clock) + 1
      ensures Survived(script(old(clock))) ==>
        s == (if script(old(clock)).outcome == Works then Fine else Error) && disk == old(disk) && table == old(table)
      ensures Drifts(old(Now()), Now()) && (NothingLost(script) ==> disk == old(disk))
      ensures CalmFrom(script, old(clock)) ==> s == Fine && disk == old(disk) && table == old(table)
    {
      var outcome := Step();
      s := match outcome case Works => Fine case Fails(_) => Error case Dies(_) => Crashed;
    }

    /** The peers and the tunnels, under the plan's own table; a failure of the first stops a pass that has
    nothing to refill. */
    method ApplyAdapters(repopulate: bool, ghost plan: FirewallPlan, ghost firewallFailed: bool)
      returns (s: Status, stop: bool)
      requires firewallFailed || OnlyTable(table, plan)
      modifies `clock, `disk, `table, `flows, `strays, `gap, `started
      ensures clock >= old(clock)
      ensures var ingress, egress := script(old(clock)), script(old(clock) + 1);
        Survived(ingress) && Survived(egress) && (ingress.outcome == Works || repopulate) ==>
          && !stop && clock == old(clock) + 2 && disk == old(disk) && table == old(table)
          && s == if ingress.outcome == Works && egress.outcome == Works then Fine else Error
      ensures Drifts(old(Now()), Now()) && (NothingLost(script) ==> disk == old(disk))
      ensures CalmFrom(script, old(clock)) ==> s == Fine && !stop && disk == old(disk) && table == old(table)
      ensures (s == Crashed ==> stop) && (stop ==> s != Fine)
    {
      hide Drifts, NothingLost, AllCalm;
      ghost var w0 := Now();
      var ingress := AdapterStep();
      if ingress == Crashed || (ingress == Error && !repopulate) { return ingress, true; }
      ghost var w1 := Now();
      var egress := AdapterStep();
      DriftsCompose(w0, w1, Now());
      if egress == Crashed { return Crashed, true; }
      return if ingress == Fine then egress else Error, false;
    }

    /** The resolvers, and the commit once they have refilled the sets. */
    method Resolve(plan: FirewallPlan, dns: DnsPlan, repopulate: bool, firewallFailed: bool) returns (s: Status)
      requires UnitsOf(dns) == UnitsFor(plan) && OneText(dns) && (!firewallFailed ==> OnlyTable(table, plan))
      modifies `clock, `disk, `table, `flows, `strays, `gap, `started, `active, `configs, `running
      ensures clock >= old(clock)
      ensures KeepsServing(old(Held()), Held(), dns)
      ensures s == Fine && repopulate ==> Serves(Held(), dns)
      ensures Tallies(old(Now())) ==> Tallies(Now())
      ensures Clean(disk) ==> disk == old(disk) || (disk.record.plan == Some(plan) && Serves(Held(), dns))
      ensures StaysReadable(script, old(disk), disk)
      ensures Safe(old(Now())) ==> Safe(Now())
      ensures Drifts(old(Now()), Now().(disk := old(disk)))
      ensures CalmFrom(script, old(clock)) && !firewallFailed && Usable(plan)
              && (repopulate ==> old(disk) == Stored(Transition(plan, {}, true))) ==>
        s == Fine && table == old(table) && disk == if repopulate then Stored(RecordFor(plan)) else old(disk)
      ensures CalmFrom(script, old(clock)) && firewallFailed ==> s == Fine
    {
      hide Remains, NothingVanishes, Safe, Accounts, Drifts, Usable, Readable, MappingOf, InScope, UnitsFor, UnitsOf,
           Fresh, RecordFor, Tallies, Clean, Serves, KeepsServing;
      ghost var w0 := Now();
      s := ApplyDns(dns, repopulate);
      ghost var w1 := Now();
      DriftTallies(w0, w1);
      if OnlyTable(w0.table, plan) { KeepsOnlyTable(w0, w1, plan); }
      if Safe(w0) { DriftSafe(w0, w1); }
      DriftKeepsDisk(w0, w1);
      if s == Fine && repopulate && !firewallFailed {
        s := CommitDnsRepopulation(plan);
        DriftsPastDisk(w0, w1, Now());
      }
    }

    /** The same, and the fallback listener last. */
    method Serve(plan: FirewallPlan, dns: DnsPlan, repopulate: bool, firewallFailed: bool) returns (s: Status)
      requires UnitsOf(dns) == UnitsFor(plan) && OneText(dns) && (!firewallFailed ==> OnlyTable(table, plan))
      modifies `clock, `disk, `table, `flows, `strays, `gap, `started, `active, `configs, `running
      ensures clock >= old(clock)
      ensures KeepsServing(old(Held()), Held(), dns)
      ensures s == Fine && repopulate ==> Serves(Held(), dns)
      ensures Tallies(old(Now())) ==> Tallies(Now())
      ensures Clean(disk) ==> disk == old(disk) || (disk.record.plan == Some(plan) && Serves(Held(), dns))
      ensures StaysReadable(script, old(disk), disk)
      ensures Safe(old(Now())) ==> Safe(Now())
      ensures Drifts(old(Now()), Now().(disk := old(disk)))
      ensures CalmFrom(script, old(clock)) && !firewallFailed && Usable(plan)
              && (repopulate ==> old(disk) == Stored(Transition(plan, {}, true))) ==>
        s == Fine && table == old(table) && disk == if repopulate then Stored(RecordFor(plan)) else old(disk)
      ensures CalmFrom(script, old(clock)) && firewallFailed ==> s == Fine
    {
      hide Remains, NothingVanishes, Safe, Drifts, Usable, UnitsFor, UnitsOf, RecordFor, Tallies, Clean, Serves,
           KeepsServing, OneText;
      ghost var w0 := Now();
      s := Resolve(plan, dns, repopulate, firewallFailed);
      if s == Crashed { return; }
      ghost var w1 := Now();
      var listener := AdapterStep();
      DriftsAfterDisk(w0, w1, Now());
      DriftTallies(w1, Now());
      if Safe(w1) { DriftSafe(w1, Now()); }
      if listener != Fine { return listener; }
    }

    /** Everything that comes after the packet filter. */
    method ApplyRest(plan: FirewallPlan, dns: DnsPlan, repopulate: bool, firewallFailed: bool) returns (s: Status)
      requires UnitsOf(dns) == UnitsFor(plan) && OneText(dns) && (!firewallFailed ==> OnlyTable(table, plan))
      modifies `clock, `disk, `table, `flows, `strays, `gap, `started, `active, `configs, `running
      ensures clock >= old(clock)
      ensures KeepsServing(old(Held()), Held(), dns)
      ensures s == Fine && repopulate ==> Serves(Held(), dns)
      ensures Tallies(old(Now())) ==> Tallies(Now())
      ensures Clean(disk) ==> disk == old(disk) || (disk.record.plan == Some(plan) && Serves(Held(), dns))
      ensures StaysReadable(script, old(disk), disk)
      ensures Safe(old(Now())) ==> Safe(Now())
      ensures Drifts(old(Now()), Now().(disk := old(disk)))
      ensures CalmFrom(script, old(clock)) && !firewallFailed && Usable(plan)
              && (repopulate ==> old(disk) == Stored(Transition(plan, {}, true))) ==>
        s == Fine && table == old(table) && disk == if repopulate then Stored(RecordFor(plan)) else old(disk)
      ensures GoesOn(script, old(clock), repopulate)
              && (firewallFailed
                   || (Usable(plan) && (repopulate ==> old(disk) == Stored(Transition(plan, {}, true))))) ==>
        && (s == Fine <==> script(old(clock)).outcome == Works && script(old(clock) + 1).outcome == Works)
        && (repopulate ==> Serves(Held(), dns))
        && (repopulate && !firewallFailed ==> disk == Stored(RecordFor(plan)))
    {
      hide Remains, NothingVanishes, Safe, Drifts, Usable, UnitsFor, UnitsOf, RecordFor, Tallies, Clean, Serves,
           KeepsServing, OneText;
      ghost var w0 := Now();
      var adapters: Status, stop: bool;
      adapters, stop := ApplyAdapters(repopulate, plan, firewallFailed);
      ghost var w1 := Now();
      AfterAdapters(w0, w1, plan);
      KeptServing(Held(), Held(), dns);
      if stop { return adapters; }
      s := Serve(plan, dns, repopulate, firewallFailed);
      DriftsPastDisk(w0, w1, Now());
      if s == Fine { return adapters; }
    }

    /** One pass: the packet filter first, the resolvers last, the commit only after both. */
    method Reconcile(plan: FirewallPlan, dns: DnsPlan, ghost dnsFor: FirewallPlan -> DnsPlan) returns (s: Status)
      requires Usable(plan) && Safe(Now()) && UnitsOf(dns) == UnitsFor(plan) && OneText(dns)
      modifies `clock, `disk, `table, `flows, `strays, `gap, `started, `loads, `active, `configs, `running
      ensures clock >= old(clock)
      ensures StaysReadable(script, old(disk), disk)
      ensures Known(old(Now()), plan, script) ==> Safe(Now())
      ensures Known(old(Now()), plan, script) && s == Fine ==> NoStale(Now(), plan)
      ensures Grows(old(Now()), Now(), plan)
      ensures Faithful(old(Now()), old(Held()), dnsFor) && dnsFor(plan) == dns ==>
        Faithful(Now(), Held(), dnsFor) && (s == Fine ==> Serves(Held(), dns))
      ensures CalmFrom(script, old(clock)) ==> s == Fine && !Needed(Now(), plan)
      ensures CalmFrom(script, old(clock)) && !Needed(old(Now()), plan) ==> disk == old(disk) && loads == old(loads)
    {
      hide Remains, NothingVanishes, Safe, Accounts, Drifts, Usable, Readable, MappingOf, InScope, UnitsFor, UnitsOf,
           ScopesFor, Within, NoStale, Known, Needed, RecordFor, Grows, Faithful, Tallies, Clean, Settled, Serves,
           KeepsServing, OneText, CalmFrom, GoesOn, NothingLost;
      ghost var w0, before := Now(), Held();
      var observed := AdapterStep();
      AfterObserving(w0, Now(), plan, script, before, dnsFor);
      if observed != Fine { return observed; }
      ghost var w1 := Now();
      CalmLater(script, old(clock), clock);
      var firewall: Status, repopulate: bool;
      firewall, repopulate := Apply(plan);
      GrowsCompose(w0, w1, Now(), plan);
      if Faithful(w1, before, dnsFor) { FaithfulTallies(w1, before, dnsFor); StaysFaithful(w1, Now(), before, dnsFor); }
      if firewall == Crashed || (firewall == Error && !repopulate) { return firewall; }
      ghost var w2 := Now();
      CalmLater(script, old(clock), clock);
      var rest := ApplyRest(plan, dns, repopulate, firewall != Fine);
      AfterRest(w0, w2, Now(), plan);
      if Faithful(w0, before, dnsFor) && dnsFor(plan) == dns {
        FaithfulTallies(w2, before, dnsFor);
        ResolveFaithful(w1, w2, Now(), plan, dns, before, Held(), repopulate, rest == Fine, dnsFor);
      }
      if CalmFrom(script, old(clock)) { SettledAfter(w1, Now(), plan, repopulate); }
      if rest == Crashed { return Crashed; }
      return if firewall == Fine && rest == Fine then Fine else Error;
    }
  }

  function UnitsOf(dns: DnsPlan): set<Unit> {
    (set r | r in dns.privateResolvers :: PrivateUnit(r.tunnelId))
    + (set r | r in dns.egressResolvers && r.namespace.Some? :: PublicUnit(r.egressId))
    + (set r | r in dns.egressResolvers :: ClientUnit(r.egressId))
  }

  /** The configuration files of these units are as they were. */
  ghost predicate Keeps(before: map<Unit, Text>, after: map<Unit, Text>, units: set<Unit>) {
    forall u :: u in before && u in units ==> u in after && after[u] == before[u]
  }

  function SpaceOf(u: Unit): nat { match u case PrivateUnit(_) => 0 case PublicUnit(_) => 1 case ClientUnit(_) => 2 }

  function PrivateTexts(resolvers: seq<DnsPrivateResolver>): seq<(Unit, Text)> {
    seq(|resolvers|, i requires 0 <= i < |resolvers| =>
      (PrivateUnit(resolvers[i].tunnelId), PrivateText(resolvers[i].address, resolvers[i].resolvers)))
  }

  function PublicTexts(resolvers: seq<DnsEgressResolver>): seq<(Unit, Text)> {
    if resolvers == [] then []
    else
      var last := resolvers[|resolvers| - 1];
      PublicTexts(resolvers[..|resolvers| - 1]) +
      (if last.namespace.None? then [] else [(PublicUnit(last.egressId), PublicText(last.namespaceAddress))])
  }

  function ClientTexts(dns: DnsPlan): seq<(Unit, Text)> {
    seq(|dns.egressResolvers|, i requires 0 <= i < |dns.egressResolvers| =>
      (ClientUnit(dns.egressResolvers[i].egressId),
       ClientText(dns.zones, dns.egressResolvers[i].hubAddress, dns.egressResolvers[i].namespaceAddress)))
  }

  function TextsOf(dns: DnsPlan): seq<(Unit, Text)> {
    PrivateTexts(dns.privateResolvers) + PublicTexts(dns.egressResolvers) + ClientTexts(dns)
  }

  function Find(units: seq<(Unit, Text)>, u: Unit): Option<Text> {
    if units == [] then None else if units[0].0 == u then Some(units[0].1) else Find(units[1..], u)
  }

  /** The text the plan has for a resolver. */
  function TextOf(dns: DnsPlan, u: Unit): Option<Text> { Find(TextsOf(dns), u) }

  /** These are texts the plan has. */
  ghost predicate Lists(units: seq<(Unit, Text)>, dns: DnsPlan) {
    forall i :: 0 <= i < |units| ==> TextOf(dns, units[i].0) == Some(units[i].1)
  }

  /** The plan has one text for each resolver. */
  ghost predicate OneText(dns: DnsPlan) {
    Lists(PrivateTexts(dns.privateResolvers), dns) && Lists(PublicTexts(dns.egressResolvers), dns)
      && Lists(ClientTexts(dns), dns)
  }

  ghost predicate Among(units: seq<(Unit, Text)>, u: Unit) { exists i :: 0 <= i < |units| && units[i].0 == u }

  lemma {:induction false} PublicListed(resolvers: seq<DnsEgressResolver>, r: DnsEgressResolver)
    requires r in resolvers && r.namespace.Some?
    ensures Among(PublicTexts(resolvers), PublicUnit(r.egressId))
  {
    var front, last := resolvers[..|resolvers| - 1], resolvers[|resolvers| - 1];
    assert resolvers == front + [last];
    var all := PublicTexts(resolvers);
    if r == last {
      assert all[|all| - 1].0 == PublicUnit(r.egressId);
    } else {
      PublicListed(front, r);
      var i :| 0 <= i < |PublicTexts(front)| && PublicTexts(front)[i].0 == PublicUnit(r.egressId);
      assert all[i] == PublicTexts(front)[i];
    }
  }

  /** Every resolver of the plan is in one of the lists the pass goes through. */
  lemma UnitsListed(dns: DnsPlan)
    ensures forall u :: u in UnitsOf(dns) ==>
      Among(PrivateTexts(dns.privateResolvers), u) || Among(PublicTexts(dns.egressResolvers), u)
        || Among(ClientTexts(dns), u)
  {
    hide PublicTexts;
    forall u | u in UnitsOf(dns)
      ensures Among(PrivateTexts(dns.privateResolvers), u) || Among(PublicTexts(dns.egressResolvers), u)
        || Among(ClientTexts(dns), u)
    {
      match u {
        case PrivateUnit(id) =>
          var i :| 0 <= i < |dns.privateResolvers| && dns.privateResolvers[i].tunnelId == id;
          assert PrivateTexts(dns.privateResolvers)[i].0 == u;
        case PublicUnit(id) =>
          var r :| r in dns.egressResolvers && r.namespace.Some? && r.egressId == id;
          PublicListed(dns.egressResolvers, r);
        case ClientUnit(id) =>
          var i :| 0 <= i < |dns.egressResolvers| && dns.egressResolvers[i].egressId == id;
          assert ClientTexts(dns)[i].0 == u;
      }
    }
  }

  /** Over a pass, tables and flows come from nowhere but what was there and the plan. */
  ghost predicate Grows(w: World, v: World, plan: FirewallPlan) {
    && (v.table == w.table || OnlyTable(v.table, plan))
    && (forall f :: f in v.flows ==> f in w.flows || Issues(w.table, f) || Agrees(MappingOf(plan), f))
    && (!v.gap ==> !w.gap && v.strays <= w.strays)
  }

  lemma DriftGrows(w: World, v: World, plan: FirewallPlan)
    requires Drifts(w, v.(disk := w.disk))
    ensures Grows(w, v, plan)
  {
    hide Issues, Agrees, MappingOf;
  }

  lemma LoadGrows(w: World, v: World, plan: FirewallPlan)
    requires Loaded(w, v, plan)
    ensures Grows(w, v, plan)
  {
    hide Agrees, MappingOf;
  }

  lemma GrowsCompose(u: World, v: World, w: World, plan: FirewallPlan)
    requires Grows(u, v, plan) && Grows(v, w, plan)
    ensures Grows(u, w, plan)
  {
    hide Agrees, MappingOf;
  }

  lemma StepGrows(w0: World, w: World, v: World, plan: FirewallPlan)
    requires Grows(w0, w, plan) || w0 == w
    requires Drifts(w, v)
    ensures Grows(w0, v, plan)
  {
    hide Grows, Drifts;
    DriftKeepsDisk(w, v);
    DriftGrows(w, v, plan);
    if w0 != w { GrowsCompose(w0, w, v, plan); }
  }

  /** The plan's own clients lie in its subnet. */
  ghost predicate ClientsWithin(plan: FirewallPlan) {
    plan.clientCidr.Some? && forall a :: a in MappingOf(plan) ==> Contains(plan.clientCidr.value, a)
  }

  lemma GrowsGap(w: World, v: World, plan: FirewallPlan)
    requires Grows(w, v, plan)
    ensures !v.gap ==> !w.gap && v.strays <= w.strays
  {
  }

  lemma GrowsWithin(w: World, v: World, plan: FirewallPlan)
    requires Grows(w, v, plan) && Within(w, plan) && ClientsWithin(plan)
    ensures Within(v, plan)
  {
    hide Contains, MappingOf;
  }

  lemma SameSubnet(w: World, a: FirewallPlan, b: FirewallPlan)
    requires Within(w, a) && a.clientCidr == b.clientCidr
    ensures Within(w, b)
  {
    hide Contains, Issues;
  }

  lemma DriftsReflexive(w: World)
    ensures Drifts(w, w)
  {
  }

  lemma StartIsDrift(w: World, u: Unit)
    ensures Drifts(w, w.(started := w.started[u := w.loads])) && Fresh(w.(started := w.started[u := w.loads]), u)
  {
  }

  lemma DriftsFresh(w: World, v: World)
    requires Drifts(w, v)
    ensures forall u :: Fresh(w, u) ==> Fresh(v, u)
  {
  }

  lemma DriftsPastDisk(u: World, v: World, w: World)
    requires Drifts(u, v) && Drifts(v, w.(disk := v.disk))
    ensures Drifts(u, w.(disk := u.disk))
  {
    hide Issues;
    DriftsCompose(u, v, w.(disk := v.disk));
  }

  lemma DriftsAfterDisk(u: World, v: World, w: World)
    requires Drifts(u, v.(disk := u.disk)) && Drifts(v, w)
    ensures Drifts(u, w.(disk := u.disk))
  {
    hide Issues;
    assert forall x :: Fresh(v.(disk := u.disk), x) <==> Fresh(v, x);
    assert forall x :: Fresh(w.(disk := u.disk), x) <==> Fresh(w, x);
    DriftsCompose(u, v.(disk := u.disk), w.(disk := u.disk));
  }

  lemma TransitionReads(plan: FirewallPlan)
    ensures Usable(plan) ==> Previous(Stored(Transition(plan, {}, true))) == Some(Transition(plan, {}, true))
    ensures Transition(plan, {}, true).(pending := false) == RecordFor(plan)
    ensures Transition(plan, {}, true).plan == Some(plan) && Transition(plan, {}, true).pending
      && Transition(plan, {}, true).scopes == {}
  {
  }

  lemma CommittedReadable(disk: Disk, record: Record)
    requires Previous(disk) == Some(record)
    ensures Readable(Stored(record.(pending := false)))
  {
  }

  lemma AfterCommit(w0: World, w1: World, w2: World, plan: FirewallPlan, record: Record)
    requires Drifts(w0, w1) && Repopulated(w1, Some(plan))
    requires Previous(w1.disk) == Some(record) && record.plan == Some(plan)
    requires Drifts(w1, w2.(disk := w1.disk))
    requires w2.disk == Stored(record.(pending := false)) || w2.disk == w1.disk || !w2.disk.Stored?
    ensures Drifts(w0, w2.(disk := w0.disk))
    ensures Safe(w1) ==> Safe(w2)
  {
    hide Safe, Accounts, Drifts, Fresh, Readable, Repopulated;
    DriftsPastDisk(w0, w1, w2);
    if Safe(w1) {
      if w2.disk == Stored(record.(pending := false)) {
        CommittedSafe(w1, w2, plan, record);
      } else {
        DriftSafe(w1, w2.(disk := w1.disk));
        LostIsSafe(w2, w1.disk);
      }
    }
  }

  lemma CommittedSafe(w1: World, w2: World, plan: FirewallPlan, record: Record)
    requires Safe(w1) && Previous(w1.disk) == Some(record) && record.plan == Some(plan) && Repopulated(w1, Some(plan))
    requires Drifts(w1, w2.(disk := w1.disk)) && w2.disk == Stored(record.(pending := false))
    ensures Safe(w2)
  {
    hide Accounts, Drifts, Fresh, UnitsFor;
    DriftAccounts(w1, w2.(disk := w1.disk), record);
    DriftRepopulated(w1, w2.(disk := w1.disk), Some(plan));
    AccountsIgnoresDisk(w2, w1.disk, record);
    RepopulatedIgnoresDisk(w2, w1.disk, Some(plan));
    if record.pending {
      assert record.(pending := !record.pending) == record.(pending := false);
    } else {
      assert record.(pending := false) == record;
    }
  }

  lemma RepopulatedIgnoresDisk(w: World, disk: Disk, plan: Option<FirewallPlan>)
    ensures Repopulated(w, plan) <==> Repopulated(w.(disk := disk), plan)
  {
    hide UnitsFor;
    assert forall u :: Fresh(w, u) <==> Fresh(w.(disk := disk), u);
  }

  lemma StillNoStale(w: World, v: World, plan: FirewallPlan)
    requires Drifts(w, v.(disk := w.disk))
    ensures NoStale(w, plan) ==> NoStale(v, plan)
  {
    hide Accounts, Drifts, RecordFor;
    if NoStale(w, plan) {
      DriftAccounts(w, v.(disk := w.disk), RecordFor(plan));
      AccountsIgnoresDisk(v, w.disk, RecordFor(plan));
    }
  }

  lemma NeedIgnoresFlows(w: World, v: World, plan: FirewallPlan)
    ensures w.disk == v.disk && w.table == v.table ==> (Needed(w, plan) <==> Needed(v, plan))
  {
  }

  /** After a calm pass there is nothing left to do. */
  lemma SettledAfter(before: World, after: World, plan: FirewallPlan, repopulate: bool)
    requires Usable(plan) && after.table == Some(plan) && repopulate == Needed(before, plan)
    requires after.disk == if repopulate then Stored(RecordFor(plan)) else before.disk
    ensures !Needed(after, plan)
  {
    hide ScopesFor, MappingOf;
    SamePlanNoScopes(plan);
    TransitionReadable(plan, {}, false);
    assert Transition(plan, {}, false) == RecordFor(plan);
  }

  /** A pass has something to do: the table is not the plan's, or the record says so. */
  ghost predicate Needed(w: World, plan: FirewallPlan) {
    var previous := Previous(w.disk);
    w.table != Some(plan) || previous.None? || previous.value.pending || ScopesFor(previous, RecordFor(plan)) != {}
  }

  lemma DriftKeepsDisk(w: World, v: World)
    requires Drifts(w, v)
    ensures Drifts(w, v.(disk := w.disk)) && (v.disk == w.disk || !v.disk.Stored?)
  {
  }

  lemma KeepsTable(w: World, v: World, plan: FirewallPlan)
    requires Drifts(w, v)
    ensures w.table == Some(plan) ==> OnlyTable(v.table, plan)
  {
  }

  lemma PassDrift(w: World, v: World, plan: FirewallPlan, script: nat -> Event)
    requires Drifts(w, v) && Safe(w) && (NothingLost(script) ==> v.disk == w.disk)
    ensures Safe(v)
    ensures Known(w, plan, script) ==> Known(v, plan, script)
  {
    hide Safe, Within, Readable, Drifts;
    DriftSafe(w, v);
    if Within(w, plan) { DriftWithin(w, v, plan); }
  }

  lemma ReadAccounts(w: World, plan: FirewallPlan, script: nat -> Event, pending: bool)
    requires Safe(w) && Known(w, plan, script)
    ensures Accounts(w, Transition(plan, ScopesFor(Previous(w.disk), RecordFor(plan)), pending))
  {
    hide Accounts, Readable, ScopesFor, Within, RecordFor;
    TransitionAccounts(w, plan, Previous(w.disk), pending);
  }

  lemma TransitionSafe(w: World, plan: FirewallPlan, scopes: set<Cidr>)
    requires Accounts(w, Transition(plan, scopes, true))
    requires w.disk.Stored? ==> w.disk == Stored(Transition(plan, scopes, true))
    ensures Safe(w)
  {
    hide Accounts, RecordFor;
  }

  lemma TransitionGuards(plan: FirewallPlan, scopes: set<Cidr>)
    ensures Guarded(Stored(Transition(plan, scopes, true)), plan)
  {
  }

  lemma AfterWrite(w0: World, w: World, v: World, plan: FirewallPlan, scopes: set<Cidr>, known: bool, fine: bool)
    requires Drifts(w0, w) && Drifts(w, v.(disk := w.disk)) && Safe(w)
    requires v.disk == Stored(Transition(plan, scopes, true)) || v.disk == w.disk || !v.disk.Stored?
    requires fine ==> v.disk == Stored(Transition(plan, scopes, true))
    requires known ==> Accounts(w, Transition(plan, scopes, true))
    ensures Drifts(w0, v.(disk := w0.disk))
    ensures w.table == Some(plan) ==> OnlyTable(v.table, plan)
    ensures OnlyTable(w.table, plan) ==> OnlyTable(v.table, plan)
    ensures known ==> Safe(v) && Accounts(v, Transition(plan, scopes, true))
  {
    hide Safe, Accounts, Transition, Fresh;
    DriftsCompose(w0, w, v.(disk := w.disk));
    DriftKeepsDisk(w0, v.(disk := w.disk));
    assert v.(disk := w.disk).(disk := w0.disk) == v.(disk := w0.disk);
    if known {
      DriftAccounts(w, v.(disk := w.disk), Transition(plan, scopes, true));
      AccountsIgnoresDisk(v, w.disk, Transition(plan, scopes, true));
      if v.disk == Stored(Transition(plan, scopes, true)) {
        TransitionSafe(v, plan, scopes);
      } else {
        DriftSafe(w, v.(disk := w.disk));
        LostIsSafe(v, w.disk);
      }
    }
  }

  /** The transition to this plan is over, by the record. */
  ghost predicate Settled(disk: Disk, plan: FirewallPlan) { Clean(disk) && disk.record.plan == Some(plan) }

  lemma SettledWhen(before: Disk, disk: Disk, plan: FirewallPlan)
    ensures Previous(disk).Some? && !Previous(disk).value.pending ==> Clean(disk)
    ensures Clean(disk) && disk == before && disk.record.plan == Some(plan) ==> Settled(before, plan)
  {
    hide Readable;
  }

  lemma WriteTallies(w: World, v: World, plan: FirewallPlan, scopes: set<Cidr>)
    requires Drifts(w, v.(disk := w.disk))
    requires v.disk == Stored(Transition(plan, scopes, true)) || v.disk == w.disk || !v.disk.Stored?
    ensures Tallies(w) ==> Tallies(v)
    ensures Clean(v.disk) ==> v.disk == w.disk
  {
    hide Tallies, Clean, Drifts, Transition;
    DriftTallies(w, v.(disk := w.disk));
    if v.disk == w.disk {
      assert v.(disk := w.disk) == v;
    } else {
      TransitionTallies(v, plan, scopes);
    }
  }

  lemma CommitTallies(w0: World, w1: World, w2: World, plan: FirewallPlan, record: Record)
    requires Drifts(w0, w1) && OnlyTable(w0.table, plan) && record.plan == Some(plan)
    requires Drifts(w1, w2.(disk := w1.disk))
    requires w2.disk == Stored(record.(pending := false)) || w2.disk == w1.disk || !w2.disk.Stored?
    ensures Tallies(w0) ==> Tallies(w2)
    ensures Clean(w2.disk) ==> w2.disk.record.plan == Some(plan) || w2.disk == w0.disk
  {
    hide Readable, Drifts;
    DriftTallies(w0, w1);
    KeepsOnlyTable(w0, w1, plan);
    KeepsOnlyTable(w1, w2.(disk := w1.disk), plan);
    DriftTallies(w1, w2.(disk := w1.disk));
    if Clean(w2.disk) {
      ReadableIsStored(w2.disk);
      if w2.disk == w1.disk { assert w2.(disk := w1.disk) == w2; }
    }
  }

  lemma StaysFaithful(w: World, v: World, r: Resolvers, dnsFor: FirewallPlan -> DnsPlan)
    requires Tallies(w) ==> Tallies(v)
    requires Clean(v.disk) ==> v.disk == w.disk
    ensures Faithful(w, r, dnsFor) ==> Faithful(v, r, dnsFor)
  {
    hide Tallies, Clean, Serves;
  }

  /** One step of another adapter. */
  lemma StepFaithful(w: World, v: World, r: Resolvers, dnsFor: FirewallPlan -> DnsPlan)
    requires Drifts(w, v)
    ensures Faithful(w, r, dnsFor) ==> Faithful(v, r, dnsFor)
    ensures Clean(v.disk) ==> v.disk == w.disk
  {
    hide Tallies, Clean, Drifts, Faithful;
    DriftTallies(w, v);
    StaysFaithful(w, v, r, dnsFor);
  }

  lemma AfterObserving(w0: World, w: World, plan: FirewallPlan, script: nat -> Event, r: Resolvers,
      dnsFor: FirewallPlan -> DnsPlan)
    requires Drifts(w0, w) && Safe(w0) && (NothingLost(script) ==> w.disk == w0.disk)
    ensures Safe(w) && (Known(w0, plan, script) ==> Known(w, plan, script)) && Grows(w0, w, plan)
    ensures Faithful(w0, r, dnsFor) ==> Faithful(w, r, dnsFor)
    ensures Clean(w.disk) ==> w.disk == w0.disk
    ensures w0.disk == w.disk && w0.table == w.table ==> (Needed(w0, plan) <==> Needed(w, plan))
  {
    hide Safe, Known, Grows, Drifts, Faithful, Clean, Needed;
    PassDrift(w0, w, plan, script);
    StepGrows(w0, w0, w, plan);
    StepFaithful(w0, w, r, dnsFor);
    NeedIgnoresFlows(w0, w, plan);
  }

  lemma AfterRest(w0: World, w: World, v: World, plan: FirewallPlan)
    requires Grows(w0, w, plan) && Drifts(w, v.(disk := w.disk))
    ensures NoStale(w, plan) ==> NoStale(v, plan)
    ensures Grows(w0, v, plan)
  {
    hide NoStale, Grows, Drifts;
    StillNoStale(w, v, plan);
    DriftGrows(w, v, plan);
    GrowsCompose(w0, w, v, plan);
  }

  lemma AfterAdapters(w: World, v: World, plan: FirewallPlan)
    requires Drifts(w, v)
    ensures Safe(w) ==> Safe(v)
    ensures Tallies(w) ==> Tallies(v)
    ensures Clean(v.disk) ==> v.disk == w.disk
    ensures OnlyTable(w.table, plan) ==> OnlyTable(v.table, plan)
    ensures Drifts(w, v.(disk := w.disk))
  {
    hide Safe, Drifts, Tallies, Clean;
    if Safe(w) { DriftSafe(w, v); }
    DriftTallies(w, v);
    DriftKeepsDisk(w, v);
    if OnlyTable(w.table, plan) { KeepsOnlyTable(w, v, plan); }
  }

  lemma FaithfulTallies(w: World, r: Resolvers, dnsFor: FirewallPlan -> DnsPlan)
    requires Faithful(w, r, dnsFor)
    ensures Tallies(w)
  {
  }

  lemma KeptServing(before: Resolvers, after: Resolvers, dns: DnsPlan)
    requires Keeps(before.configs, after.configs, UnitsOf(dns)) && after.running == before.running
    ensures KeepsServing(before, after, dns)
  {
    hide UnitsOf, TextOf;
  }

  lemma StillServes(before: Resolvers, after: Resolvers, dns: DnsPlan)
    requires KeepsServing(before, after, dns) && Serves(before, dns)
    ensures Serves(after, dns)
  {
    hide UnitsOf, TextOf, Runs;
  }

  /** The resolvers' part of a pass, from w to v: what the record said before it was u. */
  lemma ResolveFaithful(u: World, w: World, v: World, plan: FirewallPlan, dns: DnsPlan, before: Resolvers,
      after: Resolvers, repopulate: bool, fine: bool, dnsFor: FirewallPlan -> DnsPlan)
    requires Faithful(u, before, dnsFor) && Tallies(w) && dnsFor(plan) == dns
    requires if repopulate then !Clean(w.disk) else Settled(u.disk, plan)
    requires Clean(w.disk) ==> w.disk == u.disk
    requires Tallies(w) ==> Tallies(v)
    requires Clean(v.disk) ==> v.disk == w.disk || (v.disk.record.plan == Some(plan) && Serves(after, dns))
    requires KeepsServing(before, after, dns) && (fine && repopulate ==> Serves(after, dns))
    ensures Faithful(v, after, dnsFor)
    ensures fine ==> Serves(after, dns)
  {
    hide Tallies, Clean, Serves, KeepsServing;
    if !repopulate { StillServes(before, after, dns); }
  }

  lemma LostIsSafe(v: World, disk: Disk)
    requires Safe(v.(disk := disk)) && (v.disk == disk || !v.disk.Stored?)
    ensures Safe(v)
  {
    hide Accounts, Repopulated;
    if v.disk == disk { assert v.(disk := disk) == v; }
  }

  lemma AfterClear(w: World, v: World, plan: FirewallPlan, scopes: set<Cidr>, repopulate: bool, known: bool, fine: bool)
    requires Drifts(w, v) && OnlyTable(w.table, plan)
    requires known ==> Safe(w) && Accounts(w, Transition(plan, scopes, repopulate))
    requires fine ==> Cleared(v, plan, scopes)
    ensures OnlyTable(v.table, plan) && Grows(w, v, plan)
    ensures known ==> Safe(v)
    ensures known && fine ==> NoStale(v, plan) && Accounts(v, Transition(plan, {}, true))
  {
    hide Safe, Accounts, Transition, Cleared, NoStale, Drifts, Grows;
    KeepsOnlyTable(w, v, plan);
    DriftKeepsDisk(w, v);
    DriftGrows(w, v, plan);
    if known {
      DriftSafe(w, v);
      DriftAccounts(w, v, Transition(plan, scopes, repopulate));
      if fine { ClearedAccounts(v, plan, scopes, repopulate, true); }
    }
  }

  lemma KeepsOnlyTable(w: World, v: World, plan: FirewallPlan)
    requires Drifts(w, v) && OnlyTable(w.table, plan)
    ensures OnlyTable(v.table, plan)
  {
  }

  lemma AfterFinalWrite(w: World, v: World, plan: FirewallPlan, scopes: set<Cidr>, known: bool)
    requires Drifts(w, v.(disk := w.disk)) && OnlyTable(w.table, plan)
    requires v.disk == Stored(Transition(plan, {}, true)) || v.disk == w.disk || !v.disk.Stored?
    requires known ==> Safe(w) && NoStale(w, plan) && Accounts(w, Transition(plan, {}, true))
    ensures OnlyTable(v.table, plan) && Grows(w, v, plan)
    ensures known ==> Safe(v) && NoStale(v, plan)
  {
    hide Safe, Accounts, Transition, Drifts, Grows;
    KeepsOnlyTable(w, v.(disk := w.disk), plan);
    DriftGrows(w, v, plan);
    if known {
      DriftSafe(w, v.(disk := w.disk));
      DriftAccounts(w, v.(disk := w.disk), RecordFor(plan));
      DriftAccounts(w, v.(disk := w.disk), Transition(plan, {}, true));
      AccountsIgnoresDisk(v, w.disk, RecordFor(plan));
      AccountsIgnoresDisk(v, w.disk, Transition(plan, {}, true));
      if v.disk == Stored(Transition(plan, {}, true)) {
        TransitionSafe(v, plan, {});
      } else {
        LostIsSafe(v, w.disk);
      }
    }
  }

  lemma ScopesSplit(done: set<Cidr>, scope: Cidr, all: set<Cidr>)
    requires all == done + {scope}
    ensures forall a :: InScope(all, a) <==> InScope(done, a) || Contains(scope, a)
  {
    hide Contains;
    forall a | InScope(done, a) ensures InScope(all, a) { InScopeGrows(done, all, a); }
    forall a | Contains(scope, a) ensures InScope(all, a) { assert scope in all; }
  }

  lemma FreshIgnoresTable(before: World, middle: World, after: World)
    requires Drifts(before, middle)
    requires after.table.Some? && after == middle.(table := after.table, loads := middle.loads + 1)
    ensures Loaded(before, after, after.table.value)
  {
  }

  // ------------------------------------------------------------------
  // Whole runs
  // ------------------------------------------------------------------

  datatype Pass = Pass(plan: FirewallPlan, dns: DnsPlan)

  datatype Snapshot = Snapshot(plan: FirewallPlan, dns: DnsPlan, status: Status, world: World, resolvers: Resolvers)

  ghost predicate Proper(pass: Pass) {
    && Usable(pass.plan) && ClientsWithin(pass.plan)
    && UnitsOf(pass.dns) == UnitsFor(pass.plan) && OneText(pass.dns)
  }

  /** What a snapshot of a run shows: a successful pass leaves no connection at another resolver than
  its client's, but for those made while the table was gone, and every resolver running from the text
  of its plan, as it does whenever the record says the transition is over. */
  ghost predicate Sound(shot: Snapshot, dnsFor: FirewallPlan -> DnsPlan, strays: set<Flow>) {
    && Safe(shot.world) && Faithful(shot.world, shot.resolvers, dnsFor)
    && (shot.status == Fine ==>
          NoStale(shot.world, shot.plan) && OnlyStrays(shot.world, shot.plan) && Serves(shot.resolvers, shot.dns))
    && (!shot.world.gap ==> shot.world.strays <= strays)
  }

  /** Any number of passes over any plans of one client subnet, with anything the script has in
  store between and inside their steps, the loss of the record included.  Throughout, every live
  flow is accounted for by whatever record there is, and a record that is not pending means every
  resolver was started since the last load and runs from its plan's text; and whenever a pass reports
  success every resolver does, and no connection points at any resolver but its client's own, other
  than one made while the table was gone.  As long as it never is, there are none but those of the
  beginning. */
  method History(script: nat -> Event, world: World, resolvers: Resolvers, passes: seq<Pass>,
      ghost dnsFor: FirewallPlan -> DnsPlan)
    returns (log: seq<Snapshot>)
    requires Safe(world) && Faithful(world, resolvers, dnsFor)
    requires forall i :: 0 <= i < |passes| ==> Proper(passes[i]) && dnsFor(passes[i].plan) == passes[i].dns
    requires forall i :: 0 <= i < |passes| ==> passes[i].plan.clientCidr == passes[0].plan.clientCidr
    requires passes != [] ==> Within(world, passes[0].plan)
    ensures |log| == |passes|
    ensures forall i :: 0 <= i < |log| ==>
      log[i].plan == passes[i].plan && log[i].dns == passes[i].dns && Sound(log[i], dnsFor, world.strays)
  {
    hide Safe, NoStale, OnlyStrays, Within, Grows, Needed, Usable, ClientsWithin, UnitsOf, UnitsFor, Faithful, Serves,
         OneText;
    var hub := new Hub(script, world, resolvers);
    log := [];
    for i := 0 to |passes|
      invariant !hub.gap ==> !world.gap && hub.strays <= world.strays
      invariant fresh(hub) && hub.script == script && |log| == i
      invariant Safe(hub.Now()) && Faithful(hub.Now(), hub.Held(), dnsFor)
        && (passes != [] ==> Within(hub.Now(), passes[0].plan))
      invariant forall k :: 0 <= k < i ==>
        log[k].plan == passes[k].plan && log[k].dns == passes[k].dns && Sound(log[k], dnsFor, world.strays)
    {
      var pass := passes[i];
      assert Proper(pass);
      ghost var before := hub.Now();
      SameSubnet(before, passes[0].plan, pass.plan);
      var status := hub.Reconcile(pass.plan, pass.dns, dnsFor);
      if status == Fine { StaleIsStray(hub.Now(), pass.plan); }
      GrowsGap(before, hub.Now(), pass.plan);
      GrowsWithin(before, hub.Now(), pass.plan);
      SameSubnet(hub.Now(), pass.plan, passes[0].plan);
      var shot := hub.Shot(pass, status);
      log := log + [shot];
    }
  }

  /** As long as the record is not lost, the client subnet may change from plan to plan as well: the
  record tells where flows may point, and the theorem holds of every sequence of plans. */
  method HistoryAcrossSubnets(script: nat -> Event, world: World, resolvers: Resolvers, passes: seq<Pass>,
      ghost dnsFor: FirewallPlan -> DnsPlan)
    returns (log: seq<Snapshot>)
    requires Safe(world) && Faithful(world, resolvers, dnsFor) && Readable(world.disk) && NothingLost(script)
    requires forall i :: 0 <= i < |passes| ==> Proper(passes[i]) && dnsFor(passes[i].plan) == passes[i].dns
    ensures |log| == |passes|
    ensures forall i :: 0 <= i < |log| ==>
      && log[i].plan == passes[i].plan && log[i].dns == passes[i].dns && Sound(log[i], dnsFor, world.strays)
      && Readable(log[i].world.disk)
  {
    hide Safe, NoStale, OnlyStrays, Within, Grows, Needed, Usable, ClientsWithin, UnitsOf, UnitsFor, Readable, Faithful,
         Serves, OneText;
    var hub := new Hub(script, world, resolvers);
    log := [];
    for i := 0 to |passes|
      invariant !hub.gap ==> !world.gap && hub.strays <= world.strays
      invariant fresh(hub) && hub.script == script && |log| == i
      invariant Safe(hub.Now()) && Faithful(hub.Now(), hub.Held(), dnsFor) && Readable(hub.disk)
      invariant forall k :: 0 <= k < i ==>
        && log[k].plan == passes[k].plan && log[k].dns == passes[k].dns && Sound(log[k], dnsFor, world.strays)
        && Readable(log[k].world.disk)
    {
      var pass := passes[i];
      assert Proper(pass);
      ghost var before := hub.Now();
      var status := hub.Reconcile(pass.plan, pass.dns, dnsFor);
      if status == Fine { StaleIsStray(hub.Now(), pass.plan); }
      GrowsGap(before, hub.Now(), pass.plan);
      var shot := hub.Shot(pass, status);
      log := log + [shot];
    }
  }

  lemma NeededReads(w: World, plan: FirewallPlan)
    ensures !Needed(w, plan) ==> Readable(w.disk)
  {
  }

  /** When every command works the first pass settles everything, and the second touches nothing. */
  method SecondPassIsIdle(script: nat -> Event, world: World, pass: Pass) returns (first: World, second: World)
    requires AllCalm(script) && Safe(world) && Proper(pass)
    requires Within(world, pass.plan) || Readable(world.disk)
    ensures !Needed(first, pass.plan) && !Needed(second, pass.plan)
    ensures second.disk == first.disk && second.loads == first.loads
    ensures NoStale(first, pass.plan) && NoStale(second, pass.plan)
  {
    hide Faithful, Serves, OneText, Safe, NoStale, Within, Grows, Needed, Usable, ClientsWithin, UnitsOf, UnitsFor,
         Readable;
    var hub := new Hub(script, world, Resolvers({}, map[], map[]));
    var s := hub.Reconcile(pass.plan, pass.dns, _ => pass.dns);
    first := World(hub.disk, hub.table, hub.flows, hub.strays, hub.gap, hub.loads, hub.started);
    NeededReads(first, pass.plan);
    var again := hub.Reconcile(pass.plan, pass.dns, _ => pass.dns);
    second := World(hub.disk, hub.table, hub.flows, hub.strays, hub.gap, hub.loads, hub.started);
  }

  /** What a pass leaves behind, exactly: as long as nothing goes away by itself, a connection that
  points elsewhere than the plan outlives a pass that succeeds just when its client is in none of the
  scopes the record calls for, however it came about. */
  method StaleOutlives(script: nat -> Event, world: World, plan: FirewallPlan) returns (s: Status, after: World)
    requires NothingVanishes(script) && Usable(plan) && Safe(world)
    ensures var scopes := ScopesFor(Previous(world.disk), RecordFor(plan));
      s == Fine ==>
        && (forall f :: f in Live(world) && !Agrees(MappingOf(plan), f) ==>
             (f in Live(after) <==> !InScope(scopes, f.client)))
        && (forall f :: f in Live(after) && InScope(scopes, f.client) ==> Agrees(MappingOf(plan), f))
  {
    hide MappingOf, Contains, InScope, ScopesFor, Readable, Grows, Needed, Safe, NoStale, Usable;
    var hub := new Hub(script, world, Resolvers({}, map[], map[]));
    var repopulate: bool;
    s, repopulate := hub.Apply(plan);
    after := World(hub.disk, hub.table, hub.flows, hub.strays, hub.gap, hub.loads, hub.started);
  }

  /** Losing the record is survived only inside the subnet: without one, what points elsewhere outlives
  a pass that succeeds just when its client lies outside the plan's client subnet, as it may after the
  subnet was changed. */
  method LossThenMove(script: nat -> Event, world: World, plan: FirewallPlan) returns (s: Status, after: World)
    requires NothingVanishes(script) && Usable(plan) && !Readable(world.disk)
    ensures s == Fine ==>
      forall f :: f in Live(world) && !Agrees(MappingOf(plan), f) ==>
        (f in Live(after) <==> !Contains(plan.clientCidr.value, f.client))
  {
    hide MappingOf, Contains, InScope, ScopesFor, Readable;
    s, after := StaleOutlives(script, world, plan);
    forall f: Flow ensures InScope(ScopesFor(None, RecordFor(plan)), f.client) <==>
      Contains(plan.clientCidr.value, f.client) {
      FirstScopeCovers(RecordFor(plan), f);
    }
  }

  /** A flushed table is not survived while clients ask: with the plan's own record in place there is
  nothing to clear, and every connection made to any resolver while the table was gone outlives the
  pass that loads it again and reports success. */
  method FlushLeavesStrays(script: nat -> Event, world: World, plan: FirewallPlan) returns (s: Status, after: World)
    requires NothingVanishes(script) && Usable(plan) && Safe(world)
    requires world.table == None && world.disk == Stored(RecordFor(plan))
    ensures s == Fine ==> after.table != None && forall f :: f in world.strays && !Agrees(MappingOf(plan), f) ==>
      f in Live(after)
    ensures AllCalm(script) ==> s == Fine
  {
    hide MappingOf, Contains, ScopesFor, Readable, Grows, Needed, Safe, NoStale, Usable;
    TransitionReadable(plan, {}, false);
    SamePlanNoScopes(plan);
    var hub := new Hub(script, world, Resolvers({}, map[], map[]));
    var repopulate: bool;
    s, repopulate := hub.Apply(plan);
    after := World(hub.disk, hub.table, hub.flows, hub.strays, hub.gap, hub.loads, hub.started);
  }
}
