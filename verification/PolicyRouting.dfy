/** The fwmark rules and route tables that steer marked traffic into the tunnels.

`ip rule fwmark M lookup T` fails open: a table with no route is a lookup that falls through to
main.  What keeps that from leaking is proved elsewhere; here is when a tunnel is steered at all. */
module PolicyRouting {
  import opened Domain
  import opened Links
  import opened FirewallPlanner

  const FIRST_MARK := DIRECT_MARK + 1

  datatype RoutingRule = RoutingRule(mark: Mark, table: nat)

  /** What one command did, and what it reported. */
  datatype Command = Works | Fails | TimesOut // a timed-out command took effect and reported failure

  datatype Attempt = Attempt(before: Command, route: Command, show: Command, add: Command, after: Command)

  /** One removal: whether deleting the namespace has taken the tunnel's link, and with it the routes
  through that, by the time of the sweep; and the outcomes of the sweep's commands. */
  datatype Sweep = Sweep(linkGone: bool, listed: bool, shown: RoutingRule -> bool, deleted: RoutingRule -> bool,
      flushed: RoutingRule -> bool)

  /** The tables once an interface is gone. */
  function Without(tables: map<nat, string>, device: string): map<nat, string> {
    map t | t in tables && tables[t] != device :: tables[t]
  }

  function Digits(n: nat): string {
    var d := [('0' as int + n % 10) as char];
    if n < 10 then d else Digits(n / 10) + d
  }

  predicate Occurs(needle: string, hay: string) {
    exists i :: 0 <= i <= |hay| && needle <= hay[i..]
  }

  /** A mark only ever names one table, whatever revision installed the rule. */
  ghost predicate Coherent(rules: set<RoutingRule>) {
    forall r :: r in rules ==> r.mark >= FIRST_MARK && r.table == r.mark - FIRST_MARK + ROUTE_TABLE_BASE
  }

  function RuleOf(spec: EgressSpec): RoutingRule { RoutingRule(spec.mark, spec.routeTable) }

  /** Packets carrying the tunnel's mark are routed into the tunnel. */
  predicate Steers(rules: set<RoutingRule>, tables: map<nat, string>, spec: EgressSpec) {
    RuleOf(spec) in rules && spec.routeTable in tables && tables[spec.routeTable] == spec.hostVeth
  }

  /** The listing of this mark's rules contains the text "lookup T". */
  predicate Mentions(rules: set<RoutingRule>, mark: Mark, table: nat) {
    exists r :: r in rules && r.mark == mark && Digits(table) <= Digits(r.table)
  }

  /** The sweep for a removed device takes this rule for its own. */
  predicate Hits(device: string, tables: map<nat, string>, r: RoutingRule) {
    r.table in tables && Occurs(device, tables[r.table])
  }

  ghost predicate Within(tables: map<nat, string>, before: map<nat, string>) {
    forall t :: t in tables ==> t in before && tables[t] == before[t]
  }

  ghost predicate Intact(before: map<nat, string>, tables: map<nat, string>, t: nat) {
    t in before ==> t in tables && tables[t] == before[t]
  }

  ghost predicate SpecsApart(specs: seq<EgressSpec>) {
    && (forall k :: 0 <= k < |specs| ==> Coherent({RuleOf(specs[k])}))
    && (forall i, j :: 0 <= i < j < |specs| ==> specs[i].routeTable != specs[j].routeTable)
  }

  ghost predicate Untouched(removed: seq<string>, spec: EgressSpec) {
    forall i :: 0 <= i < |removed| ==> !Occurs(removed[i], spec.hostVeth)
  }

  predicate AllWorks(a: Attempt) {
    a.before == Works && a.route == Works && a.show == Works && a.add == Works && a.after == Works
  }

  ghost predicate Thorough(s: Sweep) {
    s.listed && forall r: RoutingRule :: s.shown(r) && s.deleted(r) && s.flushed(r)
  }

  class HostRouting {
    var tables: map<nat, string>   // table -> device of its default route
    var rules: set<RoutingRule>

    constructor (tables: map<nat, string>, rules: set<RoutingRule>)
      ensures this.tables == tables && this.rules == rules
    {
      this.tables, this.rules := tables, rules;
    }

    method EnsurePolicyRouting(spec: EgressSpec, a: Attempt) returns (ok: bool)
      requires Coherent(rules) && Coherent({RuleOf(spec)})
      modifies this
      ensures Coherent(rules) && old(rules) <= rules <= old(rules) + {RuleOf(spec)}
      ensures tables == old(tables) || tables == old(tables)[spec.routeTable := spec.hostVeth]
      ensures ok ==> Steers(rules, tables, spec)
      ensures a.route == Works && a.show == Works && a.add == Works ==> ok
    {
      assert RuleOf(spec) in {RuleOf(spec)};
      if a.route != Fails { tables := tables[spec.routeTable := spec.hostVeth]; }
      if a.route != Works { return false; }
      if a.show == Works && Mentions(rules, spec.mark, spec.routeTable) {
        return true;
      }
      if a.add != Fails { rules := rules + {RuleOf(spec)}; }
      return a.add == Works;
    }

    /** One tunnel: its namespace and link, then its routing, then the tunnel itself.  The routing does not
    wait for the tunnel: with the link up it is steered whether or not the tunnel comes up. */
    method ApplyOne(spec: EgressSpec, a: Attempt) returns (ok: bool)
      requires Coherent(rules) && Coherent({RuleOf(spec)})
      modifies this
      ensures Coherent(rules) && old(rules) <= rules <= old(rules) + {RuleOf(spec)}
      ensures tables == old(tables) || tables == old(tables)[spec.routeTable := spec.hostVeth]
      ensures ok ==> Steers(rules, tables, spec)
      ensures AllWorks(a) ==> ok
      ensures a.before != Works ==> rules == old(rules) && tables == old(tables)
      ensures a.before == Works && a.route == Works && a.show == Works && a.add == Works ==> Steers(rules, tables, spec)
    {
      if a.before != Works { return false; }
      ok := EnsurePolicyRouting(spec, a);
      if !ok { return false; }
      return a.after == Works;
    }

    /** Takes down the rules whose table mentions a removed device: none but those, and all of
    them when every command works. */
    method ForgetRouting(device: string, s: Sweep)
      requires Coherent(rules)
      modifies this
      ensures Coherent(rules) && rules <= old(rules) && Within(tables, old(tables))
      ensures forall r :: r in old(rules) && !Hits(device, old(tables), r) ==>
        r in rules && Intact(old(tables), tables, r.table)
      ensures Thorough(s) ==> forall r :: r in rules ==> !Hits(device, old(tables), r)
      ensures Thorough(s) ==> forall r :: r in old(rules) && Hits(device, old(tables), r) ==> r.table !in tables
    {
      if !s.listed { return; }
      ghost var before, all := tables, rules;
      var left := rules;
      while left != {}
        invariant left <= rules <= all && Within(tables, before)
        invariant forall r :: r in left ==> Intact(before, tables, r.table)
        invariant forall r :: r in all && !Hits(device, before, r) ==> r in rules && Intact(before, tables, r.table)
        invariant Thorough(s) ==> forall r :: r in rules && r !in left ==> !Hits(device, before, r)
        invariant Thorough(s) ==> forall r :: r in all && r !in left && Hits(device, before, r) ==> r.table !in tables
      {
        var r :| r in left;
        left := left - {r};
        TablesAreOwned(all, r);
        if !s.shown(r) || !Hits(device, tables, r) { continue; }
        if s.deleted(r) { rules := rules - {r}; }
        if s.flushed(r) { tables := tables - {r.table}; }
      }
    }

    /** A removed tunnel: its namespace is deleted, then its routing swept.  If the link went with the
    namespace, the sweep finds nothing of the tunnel's own: its rules stay, leading into tables that
    have no route left. */
    method Remove(device: string, s: Sweep)
      requires Coherent(rules)
      modifies this
      ensures Coherent(rules) && rules <= old(rules) && Within(tables, old(tables))
      ensures forall r :: r in old(rules) && !Hits(device, old(tables), r) ==>
        r in rules && Intact(old(tables), tables, r.table)
      ensures forall r :: r in old(rules) && r.table in old(tables) && old(tables)[r.table] == device ==>
        && (s.linkGone ==> r in rules && r.table !in tables)
        && (!s.linkGone && Thorough(s) ==> r !in rules && r.table !in tables)
      ensures Thorough(s) ==> forall r :: r in rules && r.table in tables ==> !Occurs(device, tables[r.table])
    {
      OccursInItself(device);
      if s.linkGone { tables := Without(tables, device); }
      ForgetRouting(device, s);
    }

    /** Every tunnel is attempted and the failures gathered, then the dropped ones are swept. */
    method Apply(specs: seq<EgressSpec>, attempts: seq<Attempt>, removed: seq<string>, sweeps: seq<Sweep>)
      returns (failed: set<nat>)
      requires |attempts| == |specs| && |sweeps| == |removed|
      requires Coherent(rules) && SpecsApart(specs)
      modifies this
      ensures Coherent(rules) && forall k :: k in failed ==> k < |specs|
      ensures forall k :: 0 <= k < |specs| && AllWorks(attempts[k]) ==> k !in failed
      ensures forall k :: 0 <= k < |specs| && k !in failed && Untouched(removed, specs[k]) ==>
        Steers(rules, tables, specs[k])
      ensures (forall i :: 0 <= i < |sweeps| ==> Thorough(sweeps[i])) ==>
        forall k :: 0 <= k < |specs| && Steers(rules, tables, specs[k]) ==> Untouched(removed, specs[k])
    {
      failed := {};
      for k := 0 to |specs|
        invariant Coherent(rules)
        invariant forall j :: 0 <= j < k && AllWorks(attempts[j]) ==> j !in failed
        invariant forall j :: j in failed ==> 0 <= j < k
        invariant forall j :: 0 <= j < k && j !in failed ==> Steers(rules, tables, specs[j])
      {
        assert Coherent({RuleOf(specs[k])});
        var ok := ApplyOne(specs[k], attempts[k]);
        if !ok { failed := failed + {k}; }
      }
      for i := 0 to |removed|
        invariant Coherent(rules)
        invariant forall k :: 0 <= k < |specs| && k !in failed && Untouched(removed[..i], specs[k]) ==>
          Steers(rules, tables, specs[k])
        invariant (forall j :: 0 <= j < |sweeps| ==> Thorough(sweeps[j])) ==>
          forall k :: 0 <= k < |specs| && Steers(rules, tables, specs[k]) ==> Untouched(removed[..i], specs[k])
      {
        ghost var rulesBefore, tablesBefore := rules, tables;
        Remove(removed[i], sweeps[i]);
        forall k | 0 <= k < |specs|
          ensures Untouched(removed[..i + 1], specs[k]) <==>
            Untouched(removed[..i], specs[k]) && !Occurs(removed[i], specs[k].hostVeth)
        {
          assert removed[..i + 1] == removed[..i] + [removed[i]];
        }
        forall k | 0 <= k < |specs| && Steers(rules, tables, specs[k])
          ensures Steers(rulesBefore, tablesBefore, specs[k])
        {
          assert specs[k].routeTable in tablesBefore;
        }
      }
      assert removed[..|removed|] == removed;
    }
  }

  lemma TablesAreOwned(rules: set<RoutingRule>, r: RoutingRule)
    requires Coherent(rules) && r in rules
    ensures forall q :: q in rules && q.table == r.table ==> q == r
  {
  }

  lemma OccursInItself(device: string)
    ensures Occurs(device, device)
  {
    assert device <= device[0..];
  }

  /** `de` in `de2`, and in `a-vh-de`. */
  lemma NamesakeOccurs(id: string, more: string)
    ensures Occurs(EgressInterface(id), EgressInterface(id + more))
    ensures Occurs(EgressInterface(id), EgressInterface(more + "-" + EgressInterface(id)))
  {
    var device, longer, after := EgressInterface(id), EgressInterface(id + more),
      EgressInterface(more + "-" + EgressInterface(id));
    assert device <= longer[0..];
    assert after == ("vh-" + more + "-") + device;
    assert after[|more| + 4..] == device;
  }

  /** The sweep goes by text: in a pass in which every command works and which reports no failure,
  withdrawing tunnel `de` takes down the routing of a live tunnel `de2`, or `a-vh-de`, because one
  interface name occurs in the other. */
  method SweepTakesNamesake(tables: map<nat, string>, rules: set<RoutingRule>, spec: EgressSpec, id: string,
      more: string, a: Attempt, s: Sweep)
    returns (failed: set<nat>, steered: bool)
    requires Coherent(rules) && Coherent({RuleOf(spec)}) && AllWorks(a) && Thorough(s)
    requires spec.hostVeth == EgressInterface(id + more)
      || spec.hostVeth == EgressInterface(more + "-" + EgressInterface(id))
    ensures failed == {} && !steered
  {
    NamesakeOccurs(id, more);
    var host := new HostRouting(tables, rules);
    var specs, removed := [spec], [EgressInterface(id)];
    assert Occurs(removed[0], specs[0].hostVeth);
    failed := host.Apply(specs, [a], removed, [s]);
    assert !Untouched(removed, specs[0]);
    steered := Steers(host.rules, host.tables, spec);
  }

  /** A rule the removed tunnel leaves behind leads nowhere, and stays until a tunnel takes its place. */
  method RuleIsLeft(tables: map<nat, string>, rules: set<RoutingRule>, r: RoutingRule, device: string, s: Sweep)
    returns (kept: bool, empty: bool)
    requires Coherent(rules) && r in rules && r.table in tables && tables[r.table] == device && Thorough(s)
    ensures kept <==> s.linkGone
    ensures empty
  {
    var host := new HostRouting(tables, rules);
    host.Remove(device, s);
    kept, empty := r in host.rules, r.table !in host.tables;
  }
}
