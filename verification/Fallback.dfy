/** The TCP/443 fallback: the listener's configuration, and the chains its connections pass.

These connections originate on the hub, so the forward chain never sees them; their socket mark is
what ties them to the egress their device chose. */
module Fallback {
  import opened Netip
  import opened Ordering
  import opened Domain
  import opened Links
  import opened FirewallPlanner
  import opened Validation
  import opened Revision
  import opened EgressPlanner
  import opened Compiler
  import opened Nftables
  import opened Renderer
  import opened PlanFacts
  import SetFacts
  import opened PolicySets
  import opened KillSwitch
  import opened Keys
  import opened PolicyRouting
  import opened Steering
  import opened DnsAgreement

  // ------------------------------------------------------------------
  // The listener's specification
  // ------------------------------------------------------------------

  /** Derived from the private key by cryptography outside this model. */
  datatype Credentials = Credentials(privateKey: string, shortId: string, uuid: (string, string) -> string)

  const NO_LISTENER := RealitySpec(false, 0, "", "", "", None, [])

  ghost function MarksOf(groups: seq<EgressGroup>): map<string, Mark> {
    if groups == [] then map[]
    else
      var last := groups[|groups| - 1];
      MarksOf(groups[..|groups| - 1])[last.id := last.mark]
  }

  predicate UserLe(a: RealityUser, b: RealityUser) { LexLe(a.deviceId, b.deviceId) }

  ghost predicate Planned(devices: seq<Device>, marks: map<string, Mark>) {
    forall i :: 0 <= i < |devices| ==> devices[i].egress in marks
  }

  function UserFor(d: Device, marks: map<string, Mark>, keys: Credentials): RealityUser
    requires d.egress in marks
  {
    RealityUser(d.id, keys.uuid(d.id, d.publicKey), marks[d.egress])
  }

  ghost function UsersOf(devices: seq<Device>, marks: map<string, Mark>, keys: Credentials): seq<RealityUser>
    requires Planned(devices, marks)
  {
    seq(|devices|, i requires 0 <= i < |devices| => UserFor(devices[i], marks, keys))
  }

  /** Why the first device that cannot be a user cannot be one. */
  ghost function UserFailure(devices: seq<Device>, marks: map<string, Mark>): (e: Option<Error>)
    ensures e.None? <==> Planned(devices, marks) && forall i :: 0 <= i < |devices| ==> devices[i].publicKey != ""
  {
    if devices == [] then None
    else
      var front, last := UserFailure(devices[..|devices| - 1], marks), devices[|devices| - 1];
      if front.Some? then front
      else if last.publicKey == "" then Some(DeviceKeyMissing)
      else if last.egress !in marks then Some(EgressNotPlanned)
      else None
  }

  ghost function RealitySpecOf(state: DesiredState, plan: FirewallPlan, keys: Credentials): Result<RealitySpec> {
    if !state.hub.realityEnabled then Ok(NO_LISTENER)
    else if keys.privateKey == "" then Err(RealityKeyMissing)
    else if !IsUrlKey(keys.privateKey) then Err(RealityKeyMalformed)
    else if UserFailure(state.devices, MarksOf(plan.egresses)).Some? then
      Err(UserFailure(state.devices, MarksOf(plan.egresses)).value)
    else Ok(RealitySpec(true, REALITY_PORT, state.hub.serverName, keys.privateKey, keys.shortId, state.hub.dnsAddress,
                        Sort(UserLe, UsersOf(state.devices, MarksOf(plan.egresses), keys))))
  }

  method MarksByEgress(groups: seq<EgressGroup>) returns (marks: map<string, Mark>)
    ensures marks == MarksOf(groups)
  {
    marks := map[];
    for i := 0 to |groups|
      invariant marks == MarksOf(groups[..i])
    {
      TakeNext(groups, i);
      marks := marks[groups[i].id := groups[i].mark];
    }
    assert groups[..|groups|] == groups;
  }

  lemma {:induction false} FailureStays(devices: seq<Device>, marks: map<string, Mark>, i: nat)
    requires i <= |devices| && UserFailure(devices[..i], marks).Some?
    ensures UserFailure(devices, marks) == UserFailure(devices[..i], marks)
    decreases |devices| - i
  {
    if i < |devices| {
      TakeNext(devices, i);
      FailureStays(devices, marks, i + 1);
    } else {
      assert devices[..i] == devices;
    }
  }

  lemma NoFailure(marks: map<string, Mark>)
    ensures UserFailure([], marks).None?
  {
  }

  lemma FailureNext(devices: seq<Device>, marks: map<string, Mark>, i: nat)
    requires i < |devices| && UserFailure(devices[..i], marks).None?
    ensures UserFailure(devices[..i + 1], marks) ==
      if devices[i].publicKey == "" then Some(DeviceKeyMissing)
      else if devices[i].egress !in marks then Some(EgressNotPlanned)
      else None
  {
    TakeNext(devices, i);
  }

  method UsersFor(devices: seq<Device>, marks: map<string, Mark>, keys: Credentials)
    returns (r: Result<seq<RealityUser>>)
    ensures r == if UserFailure(devices, marks).None? then Ok(UsersOf(devices, marks, keys))
      else Err(UserFailure(devices, marks).value)
  {
    hide UserFailure;
    var users: seq<RealityUser> := [];
    NoFailure(marks);
    assert devices[..0] == [];
    for i := 0 to |devices|
      invariant |users| == i && UserFailure(devices[..i], marks).None?
      invariant forall k :: 0 <= k < i ==> devices[k].egress in marks && users[k] == UserFor(devices[k], marks, keys)
    {
      FailureNext(devices, marks, i);
      if devices[i].publicKey == "" {
        FailureStays(devices, marks, i + 1);
        return Err(DeviceKeyMissing);
      }
      if devices[i].egress !in marks {
        FailureStays(devices, marks, i + 1);
        return Err(EgressNotPlanned);
      }
      users := users + [UserFor(devices[i], marks, keys)];
    }
    assert devices[..|devices|] == devices;
    assert Planned(devices, marks) && users == UsersOf(devices, marks, keys);
    return Ok(users);
  }

  method BuildRealityIngressSpec(state: DesiredState, plan: FirewallPlan, keys: Credentials)
    returns (r: Result<RealitySpec>)
    ensures r == RealitySpecOf(state, plan, keys)
  {
    if !state.hub.realityEnabled { return Ok(NO_LISTENER); }
    if keys.privateKey == "" { return Err(RealityKeyMissing); }
    if !IsUrlKey(keys.privateKey) { return Err(RealityKeyMalformed); }
    var marks := MarksByEgress(plan.egresses);
    var users :- UsersFor(state.devices, marks, keys);
    return Ok(RealitySpec(true, REALITY_PORT, state.hub.serverName, keys.privateKey, keys.shortId, state.hub.dnsAddress,
      Sort(UserLe, users)));
  }

  // ------------------------------------------------------------------
  // The listener's configuration
  // ------------------------------------------------------------------

  datatype Tag = DirectTag | BlockTag | EgressTag(mark: Mark)

  datatype Outbound = Outbound(tag: Tag, mark: Mark)

  datatype RouteRule = RefusePrivate | ForUser(name: string, tag: Tag)

  datatype ListenerConfig = ListenerConfig(
    port: Port, serverName: string, privateKey: string, shortId: string, dnsAddress: Option<Addr>,
    users: seq<(string, string)>, rules: seq<RouteRule>, outbounds: seq<Outbound>, final: Tag)

  function Accounts(users: seq<RealityUser>): seq<(string, string)> {
    seq(|users|, i requires 0 <= i < |users| => (users[i].deviceId, users[i].uuid))
  }

  function UserRules(users: seq<RealityUser>): seq<RouteRule> {
    if users == [] then []
    else
      var last := users[|users| - 1];
      UserRules(users[..|users| - 1]) + (if last.mark == 0 then [] else [ForUser(last.deviceId, EgressTag(last.mark))])
  }

  function MarksIn(users: seq<RealityUser>): set<Mark> { set u | u in users && u.mark != 0 :: u.mark }

  /** One outbound per distinct mark, in the order the marks first appear. */
  function UserOutbounds(users: seq<RealityUser>): seq<Outbound> {
    if users == [] then [Outbound(DirectTag, 0), Outbound(BlockTag, 0)]
    else
      var front, last := users[..|users| - 1], users[|users| - 1];
      UserOutbounds(front)
        + (if last.mark == 0 || last.mark in MarksIn(front) then [] else [Outbound(EgressTag(last.mark), last.mark)])
  }

  ghost predicate UsersComplete(users: seq<RealityUser>) {
    forall i :: 0 <= i < |users| ==> users[i].deviceId != "" && users[i].uuid != ""
  }

  ghost function ConfigOf(spec: RealitySpec): Result<ListenerConfig> {
    if spec.serverName == "" || spec.privateKey == "" || spec.shortId == "" || spec.port == 0
      then Err(IncompleteRealitySpec)
    else if !UsersComplete(spec.users) then Err(InvalidRealityUser)
    else Ok(ListenerConfig(spec.port, spec.serverName, spec.privateKey, spec.shortId, spec.dnsAddress,
      Accounts(spec.users),
                           [RefusePrivate] + UserRules(spec.users), UserOutbounds(spec.users), DirectTag))
  }

  lemma UsersGrow(users: seq<RealityUser>, i: nat)
    requires i < |users|
    ensures var user, front := users[i], users[..i];
      && (UsersComplete(users[..i + 1]) <==> UsersComplete(front) && user.deviceId != "" && user.uuid != "")
      && Accounts(users[..i + 1]) == Accounts(front) + [(user.deviceId, user.uuid)]
      && MarksIn(users[..i + 1]) == MarksIn(front) + (if user.mark == 0 then {} else {user.mark})
      && UserRules(users[..i + 1]) == UserRules(front)
           + (if user.mark == 0 then [] else [ForUser(user.deviceId, EgressTag(user.mark))])
      && UserOutbounds(users[..i + 1]) == UserOutbounds(front) +
           (if user.mark == 0 || user.mark in MarksIn(front) then [] else [Outbound(EgressTag(user.mark), user.mark)])
    ensures UsersComplete(users) ==> users[i].deviceId != "" && users[i].uuid != ""
  {
    TakeNext(users, i);
    assert users[..i + 1] == users[..i] + [users[i]];
  }

  method RenderRealityServerConfig(spec: RealitySpec) returns (r: Result<ListenerConfig>)
    ensures r == ConfigOf(spec)
  {
    hide UsersComplete, Accounts, MarksIn;
    if spec.serverName == "" || spec.privateKey == "" || spec.shortId == "" || spec.port == 0 {
      return Err(IncompleteRealitySpec);
    }
    var users: seq<(string, string)> := [];
    var rules: seq<RouteRule> := [];
    var marked: set<Mark> := {};
    var outbounds := [Outbound(DirectTag, 0), Outbound(BlockTag, 0)];
    NoUsers();
    for i := 0 to |spec.users|
      invariant UsersComplete(spec.users[..i]) && users == Accounts(spec.users[..i])
      invariant rules == UserRules(spec.users[..i])
      invariant marked == MarksIn(spec.users[..i]) && outbounds == UserOutbounds(spec.users[..i])
    {
      var user := spec.users[i];
      UsersGrow(spec.users, i);
      if user.deviceId == "" || user.uuid == "" { return Err(InvalidRealityUser); }
      users := users + [(user.deviceId, user.uuid)];
      if user.mark == 0 { continue; }
      if user.mark !in marked {
        marked := marked + {user.mark};
        outbounds := outbounds + [Outbound(EgressTag(user.mark), user.mark)];
      }
      rules := rules + [ForUser(user.deviceId, EgressTag(user.mark))];
    }
    assert spec.users[..|spec.users|] == spec.users;
    return Ok(ListenerConfig(spec.port, spec.serverName, spec.privateKey, spec.shortId, spec.dnsAddress, users,
                             [RefusePrivate] + rules, outbounds, DirectTag));
  }

  lemma NoUsers()
    ensures UsersComplete([]) && Accounts([]) == [] && MarksIn([]) == {}
  {
  }

  // ---- what the listener does with a connection ----

  datatype Disposition = Blocked | Via(mark: Mark) | NoSuchOutbound

  predicate RuleMatches(rule: RouteRule, user: string, toPrivate: bool) {
    match rule case RefusePrivate => toPrivate case ForUser(name, _) => name == user
  }

  function ChosenTag(rules: seq<RouteRule>, final: Tag, user: string, toPrivate: bool): Tag {
    if rules == [] then final
    else if RuleMatches(rules[0], user, toPrivate)
      then (match rules[0] case RefusePrivate => BlockTag case ForUser(_, tag) => tag)
    else ChosenTag(rules[1..], final, user, toPrivate)
  }

  function OutboundOf(outbounds: seq<Outbound>, tag: Tag): Disposition {
    if outbounds == [] then NoSuchOutbound
    else if outbounds[0].tag == tag then (if tag == BlockTag then Blocked else Via(outbounds[0].mark))
    else OutboundOf(outbounds[1..], tag)
  }

  /** First matching rule, then the outbound it names. */
  function Dispatch(config: ListenerConfig, user: string, toPrivate: bool): Disposition {
    OutboundOf(config.outbounds, ChosenTag(config.rules, config.final, user, toPrivate))
  }

  /** What a client asks the listener to reach: an address, or a name and the address it resolves to. */
  datatype Destination = Literal(address: Addr) | Name(address: Addr)

  /** Not an address of the public Internet: private, loopback, link-local, multicast or unspecified. */
  predicate NotPublic(a: Addr) {
    var top, next := a / 0x100_0000, a / 0x1_0000;
    a == 0 || top == 10 || top == 127 || 224 <= top < 240 || 172 * 16 + 1 == a / 0x10_0000 || next == 192 * 256 + 168
      || next == 169 * 256 + 254
  }

  /** The refusal sees the address a client wrote.  A name is resolved later, by the outbound. */
  predicate RefusedAtOnce(dest: Destination) { dest.Literal? && NotPublic(dest.address) }

  function DispatchTo(config: ListenerConfig, user: string, dest: Destination): Disposition {
    Dispatch(config, user, RefusedAtOnce(dest))
  }

  ghost predicate OneMark(users: seq<RealityUser>, name: string, mark: Mark) {
    && (forall u :: u in users && u.deviceId == name ==> u.mark == mark)
    && (exists u :: u in users && u.deviceId == name)
  }

  lemma {:induction false} ChosenTagAppend(a: seq<RouteRule>, b: seq<RouteRule>, final: Tag, user: string,
      toPrivate: bool)
    ensures ChosenTag(a + b, final, user, toPrivate) ==
      if exists i :: 0 <= i < |a| && RuleMatches(a[i], user, toPrivate) then ChosenTag(a, final, user, toPrivate)
      else ChosenTag(b, final, user, toPrivate)
  {
    if a == [] {
      assert a + b == b;
    } else {
      assert (a + b)[1..] == a[1..] + b;
      ChosenTagAppend(a[1..], b, final, user, toPrivate);
      if i :| 0 <= i < |a| && RuleMatches(a[i], user, toPrivate) && i > 0 { assert a[1..][i - 1] == a[i]; }
      if i :| 0 <= i < |a[1..]| && RuleMatches(a[1..][i], user, toPrivate) { assert a[i + 1] == a[1..][i]; }
    }
  }

  lemma {:induction false} UserRulesAre(users: seq<RealityUser>)
    ensures forall rule :: rule in UserRules(users) <==>
      exists u :: u in users && u.mark != 0 && rule == ForUser(u.deviceId, EgressTag(u.mark))
  {
    if users != [] {
      var front, last := users[..|users| - 1], users[|users| - 1];
      UserRulesAre(front);
      assert users == front + [last];
      assert forall u :: u in users <==> u in front || u == last;
    }
  }

  lemma {:induction false} FirstRuleFor(rules: seq<RouteRule>, final: Tag, user: string, tag: Tag)
    requires forall rule :: rule in rules ==> rule.ForUser? && (rule.name == user ==> rule.tag == tag)
    requires exists rule :: rule in rules && rule.ForUser? && rule.name == user
    ensures ChosenTag(rules, final, user, false) == tag
  {
    if !RuleMatches(rules[0], user, false) {
      assert rules == [rules[0]] + rules[1..];
      FirstRuleFor(rules[1..], final, user, tag);
    }
  }

  lemma {:induction false} LookupAppend(a: seq<Outbound>, b: seq<Outbound>, tag: Tag)
    ensures OutboundOf(a + b, tag) == if OutboundOf(a, tag) == NoSuchOutbound then OutboundOf(b, tag)
      else OutboundOf(a, tag)
  {
    if a == [] {
      assert a + b == b;
    } else {
      assert (a + b)[1..] == a[1..] + b;
      LookupAppend(a[1..], b, tag);
    }
  }

  lemma {:induction false} OutboundFor(users: seq<RealityUser>, mark: Mark)
    ensures OutboundOf(UserOutbounds(users), EgressTag(mark)) == if mark in MarksIn(users) then Via(mark)
      else NoSuchOutbound
    ensures OutboundOf(UserOutbounds(users), BlockTag) == Blocked
  {
    if users == [] {
      var base := UserOutbounds(users);
      assert base[1..] == [Outbound(BlockTag, 0)] && [Outbound(BlockTag, 0)][1..] == [];
      assert OutboundOf([Outbound(BlockTag, 0)], EgressTag(mark)) == OutboundOf([], EgressTag(mark));
      NoUsers();
    } else {
      var front, last := users[..|users| - 1], users[|users| - 1];
      OutboundFor(front, mark);
      assert users == front + [last];
      var one := if last.mark == 0 || last.mark in MarksIn(front) then []
        else [Outbound(EgressTag(last.mark), last.mark)];
      LookupAppend(UserOutbounds(front), one, EgressTag(mark));
      LookupAppend(UserOutbounds(front), one, BlockTag);
      assert one != [] ==> one[1..] == [];
      assert MarksIn(users) == MarksIn(front) + (if last.mark == 0 then {} else {last.mark});
    }
  }

  /** The listener sends each user's connections by its own mark, and refuses private addresses. */
  lemma DispatchIs(spec: RealitySpec, config: ListenerConfig, name: string, mark: Mark)
    requires ConfigOf(spec) == Ok(config) && OneMark(spec.users, name, mark) && mark != 0
    ensures Dispatch(config, name, false) == Via(mark)
    ensures Dispatch(config, name, true) == Blocked
  {
    hide Accounts;
    var rules := UserRules(spec.users);
    UserRulesAre(spec.users);
    assert ([RefusePrivate] + rules)[1..] == rules;
    var u :| u in spec.users && u.deviceId == name;
    assert ForUser(u.deviceId, EgressTag(u.mark)) in rules;
    FirstRuleFor(rules, DirectTag, name, EgressTag(mark));
    OutboundFor(spec.users, mark);
    assert u.mark in MarksIn(spec.users);
  }

  // ---- marks agree with the packet filter's ----

  lemma {:induction false} MarksFrom(groups: seq<EgressGroup>, id: string)
    ensures id in MarksOf(groups) <==> exists i :: 0 <= i < |groups| && groups[i].id == id
    ensures id in MarksOf(groups) ==> exists i ::
      0 <= i < |groups| && groups[i].id == id && groups[i].mark == MarksOf(groups)[id]
  {
    if groups != [] {
      var front, n := groups[..|groups| - 1], |groups| - 1;
      MarksFrom(front, id);
      if i :| 0 <= i < |front| && front[i].id == id && id in MarksOf(front) && front[i].mark == MarksOf(front)[id] {
        assert groups[i] == front[i];
      }
      if i :| 0 <= i < |groups| && groups[i].id == id && i < n { assert front[i].id == id; }
      assert groups[n].id == id ==> groups[n].mark == MarksOf(groups)[id];
    }
  }

  lemma DeviceMark(state: DesiredState, uplink: string, upstreams: set<string>, c: Compiled, d: Device)
    requires Compiles(state, uplink, upstreams, c) && d in state.devices
    ensures d.egress in MarksOf(c.plan.egresses) && EgressMark(state, d.egress, MarksOf(c.plan.egresses)[d.egress])
  {
    hide Compiles, EgressGroups, InternalNetworks, HasLayout, EndpointClients, Endpoints, ValidRevision, AddressesParse,
         EgressMark;
    CompiledCarries(state, uplink, upstreams, c);
    var i := DeviceHasGroup(state, uplink, d);
    MarksFrom(c.plan.egresses, d.egress);
    var j :| 0 <= j < |c.plan.egresses| && c.plan.egresses[j].id == d.egress
      && c.plan.egresses[j].mark == MarksOf(c.plan.egresses)[d.egress];
    GroupMarkIs(state, uplink, j);
  }

  lemma OrderBound(state: DesiredState, uplink: string, upstreams: set<string>, c: Compiled, egress: string, mark: Mark)
    requires Compiles(state, uplink, upstreams, c) && EgressMark(state, egress, mark)
    ensures DIRECT_MARK <= mark < FIRST_MARK + LINK_LIMIT
  {
    hide Compiles, EgressOrder, TunnelOrder;
    OrderFits(state, uplink, upstreams, c);
  }

  lemma UsersOfMarks(state: DesiredState, uplink: string, upstreams: set<string>, c: Compiled, keys: Credentials,
      d: Device, mark: Mark)
    requires Compiles(state, uplink, upstreams, c) && d in state.devices && EgressMark(state, d.egress, mark)
    requires Planned(state.devices, MarksOf(c.plan.egresses))
    ensures OneMark(Sort(UserLe, UsersOf(state.devices, MarksOf(c.plan.egresses), keys)), d.id, mark)
  {
    hide Compiles, ValidRevision, EgressMark, MarksOf, Sort;
    var marks := MarksOf(c.plan.egresses);
    var users := UsersOf(state.devices, marks, keys);
    SameElements(users, Sort(UserLe, users));
    CompilesIsValid(state, uplink, upstreams, c);
    RevisionDevices(state);
    DeviceMark(state, uplink, upstreams, c, d);
    EgressMarkUnique(state, d.egress, mark, marks[d.egress]);
    forall u | u in users && u.deviceId == d.id ensures u.mark == mark {
      var i :| 0 <= i < |users| && users[i] == u;
      assert state.devices[i] in state.devices;
    }
    var i :| 0 <= i < |state.devices| && state.devices[i] == d;
    assert users[i].deviceId == d.id && users[i] in users;
  }

  /** For every device the listener's outbound carries the mark the packet filter gives its egress, for
  whatever destination is not refused at once. */
  lemma ListenerFollowsEgress(state: DesiredState, uplink: string, upstreams: set<string>, c: Compiled,
      keys: Credentials, spec: RealitySpec, config: ListenerConfig, d: Device)
    requires Compiles(state, uplink, upstreams, c) && state.hub.realityEnabled && d in state.devices
    requires RealitySpecOf(state, c.plan, keys) == Ok(spec) && ConfigOf(spec) == Ok(config)
    ensures exists mark :: EgressMark(state, d.egress, mark) && forall dest ::
      DispatchTo(config, d.id, dest) == if RefusedAtOnce(dest) then Blocked else Via(mark)
  {
    hide Compiles, EgressMark, MarksOf, UsersOf, Sort, ConfigOf, Dispatch, OneMark, Planned;
    DeviceMark(state, uplink, upstreams, c, d);
    var mark := MarksOf(c.plan.egresses)[d.egress];
    OrderBound(state, uplink, upstreams, c, d.egress, mark);
    UsersOfMarks(state, uplink, upstreams, c, keys, d, mark);
    DispatchIs(spec, config, d.id, mark);
    assert forall dest :: DispatchTo(config, d.id, dest) == if RefusedAtOnce(dest) then Blocked else Via(mark);
  }

  /** The listener is the hub's: it has the port the packet filter accepts, the key, name and short id its
  clients are given, the hub's resolver, and an account for each device and nobody else. */
  lemma ListenerMeetsClients(state: DesiredState, uplink: string, upstreams: set<string>, c: Compiled,
      keys: Credentials, spec: RealitySpec, config: ListenerConfig)
    requires Compiles(state, uplink, upstreams, c) && state.hub.realityEnabled
    requires RealitySpecOf(state, c.plan, keys) == Ok(spec) && ConfigOf(spec) == Ok(config)
    ensures config.port == REALITY_PORT == c.plan.realityPort
    ensures config.serverName == state.hub.serverName && config.dnsAddress == state.hub.dnsAddress
    ensures config.privateKey == keys.privateKey && config.shortId == keys.shortId
    ensures forall name, uuid :: (name, uuid) in config.users <==>
      exists d :: d in state.devices && name == d.id && uuid == keys.uuid(d.id, d.publicKey)
  {
    hide Compiles, MarksOf, Sort, UserOutbounds, UserRules, PortACLs, AddressBook, DnsDestinationsOf, AddressesParse,
         IsUrlKey;
    PlanFields(state, uplink, upstreams, c);
    var marks := MarksOf(c.plan.egresses);
    var users := UsersOf(state.devices, marks, keys);
    SameElements(users, spec.users);
    forall name, uuid
      ensures (name, uuid) in config.users <==>
        exists d :: d in state.devices && name == d.id && uuid == keys.uuid(d.id, d.publicKey)
    {
      AccountIff(state.devices, marks, keys, spec.users, name, uuid);
    }
  }

  lemma AccountIff(devices: seq<Device>, marks: map<string, Mark>, keys: Credentials, users: seq<RealityUser>,
      name: string, uuid: string)
    requires Planned(devices, marks) && forall u :: u in users <==> u in UsersOf(devices, marks, keys)
    ensures (name, uuid) in Accounts(users) <==>
      exists d :: d in devices && name == d.id && uuid == keys.uuid(d.id, d.publicKey)
  {
    var all := UsersOf(devices, marks, keys);
    if (name, uuid) in Accounts(users) {
      var i :| 0 <= i < |users| && Accounts(users)[i] == (name, uuid);
      assert users[i] in all;
      var k :| 0 <= k < |all| && all[k] == users[i];
      assert devices[k] in devices;
    }
    if d :| d in devices && name == d.id && uuid == keys.uuid(d.id, d.publicKey) {
      var k :| 0 <= k < |devices| && devices[k] == d;
      assert all[k] in all;
      var i :| 0 <= i < |users| && users[i] == all[k];
      assert Accounts(users)[i] == (name, uuid);
    }
  }

  /** A valid revision always has a listener specification, once there is a key. */
  lemma SpecExists(state: DesiredState, uplink: string, upstreams: set<string>, c: Compiled, keys: Credentials)
    requires Compiles(state, uplink, upstreams, c)
    ensures RealitySpecOf(state, c.plan, keys).Err? <==> state.hub.realityEnabled && !IsUrlKey(keys.privateKey)
  {
    hide Compiles, MarksOf, UsersOf, IsUrlKey, ValidRevision, ValidDevice;
    CompilesIsValid(state, uplink, upstreams, c);
    DevicesHaveKeys(state);
    KeyText(keys.privateKey);
    forall i | 0 <= i < |state.devices| ensures state.devices[i].egress in MarksOf(c.plan.egresses) {
      DeviceMark(state, uplink, upstreams, c, state.devices[i]);
    }
  }

  lemma DevicesHaveKeys(state: DesiredState)
    requires ValidRevision(state)
    ensures forall i :: 0 <= i < |state.devices| ==> state.devices[i].publicKey != ""
  {
    hide IsKey;
    forall i | 0 <= i < |state.devices| ensures state.devices[i].publicKey != "" {
      assert ValidDevice(state.hub, state.devices[i]);
      KeyText(state.devices[i].publicKey);
    }
  }

  // ------------------------------------------------------------------
  // The chains its connections pass
  // ------------------------------------------------------------------

  const MARKED: Match := Match.Marked

  /** output_mark leaves a socket that has already chosen its way out alone. */
  lemma MarkedIsLeftAlone(plan: FirewallPlan, t: Tables, p: Packet)
    requires p.mark != 0
    ensures After(OutputMarkRules(plan), t, p) == p
  {
    hide DestinationMarkRules;
    var guard := Rule([MARKED], [Return]);
    if plan.internals != [] {
      WalkAppend([guard], DestinationMarkRules(plan.internals), t, p);
      WalkOne(guard, t, p);
      assert guard.matches[0] == MARKED;
    }
  }

  lemma StayApplies(mark: Mark, iface: string, t: Tables, p: Packet)
    ensures Applies(StayRule(mark, iface), t, p) <==> p.mark == mark && p.oif != iface
  {
    var m := StayRule(mark, iface).matches;
    assert m[0] == MarkIs(mark) && m[1] == OifIsNot(iface);
  }

  lemma {:induction false} GroupStays(groups: seq<EgressGroup>, t: Tables, p: Packet)
    ensures AllGive(GroupStayRules(groups), Dropped)
    ensures SomeApplies(GroupStayRules(groups), t, p) <==>
      exists i :: 0 <= i < |groups| && groups[i].id != DIRECT && p.mark == groups[i].mark && p.oif != groups[i].iface
  {
    hide Applies;
    if groups != [] {
      var front, last := groups[..|groups| - 1], groups[|groups| - 1];
      GroupStays(front, t, p);
      StayApplies(last.mark, last.iface, t, p);
      var one := if last.id == DIRECT then [] else [StayRule(last.mark, last.iface)];
      SomeAppliesAppend(GroupStayRules(front), one, t, p);
      assert forall i :: 0 <= i < |front| ==> front[i] == groups[i];
      if last.id != DIRECT { assert SomeApplies(one, t, p) <==> Applies(one[0], t, p); }
    }
  }

  lemma NetworkStays(networks: seq<InternalNetwork>, t: Tables, p: Packet)
    ensures AllGive(NetworkStayRules(networks), Dropped)
    ensures SomeApplies(NetworkStayRules(networks), t, p) <==>
      exists i :: 0 <= i < |networks| && p.mark == networks[i].mark && p.oif != networks[i].iface
  {
    hide Applies;
    forall i | 0 <= i < |networks| ensures Applies(NetworkStayRules(networks)[i], t, p) <==>
      p.mark == networks[i].mark && p.oif != networks[i].iface {
      StayApplies(networks[i].mark, networks[i].iface, t, p);
    }
    if i :| 0 <= i < |networks| && p.mark == networks[i].mark && p.oif != networks[i].iface {
      assert Applies(NetworkStayRules(networks)[i], t, p);
    }
  }

  ghost predicate StraysFrom(plan: FirewallPlan, p: Packet) {
    || (exists i :: 0 <= i < |plan.egresses| && plan.egresses[i].id != DIRECT && p.mark == plan.egresses[i].mark
         && p.oif != plan.egresses[i].iface)
    || (exists i :: 0 <= i < |plan.internals| && p.mark == plan.internals[i].mark && p.oif != plan.internals[i].iface)
  }

  /** The output chain drops a marked packet that leaves by another interface than its mark's. */
  lemma OutputIs(plan: FirewallPlan, t: Tables, p: Packet)
    ensures Filter(OutputRules(plan), Accepted, t, p) == if StraysFrom(plan, p) then Dropped else Accepted
  {
    hide Walk, GroupStayRules, NetworkStayRules, SomeApplies, AllGive, Applies;
    var v6 := Rule([Ipv6], [Drop]);
    var g, n := GroupStayRules(plan.egresses), NetworkStayRules(plan.internals);
    WalkAppend([v6] + g, n, t, p);
    WalkAppend([v6], g, t, p);
    WalkOne(v6, t, p);
    Ipv6Passes(t, p);
    GroupStays(plan.egresses, t, p);
    NetworkStays(plan.internals, t, p);
    WalkUniform(g, Dropped, t, p);
    WalkUniform(n, Dropped, t, p);
  }

  lemma Ipv6Passes(t: Tables, p: Packet)
    ensures !Applies(Rule([Ipv6], [Drop]), t, p)
  {
    assert Rule([Ipv6], [Drop]).matches[0] == Ipv6;
  }

  /** Marks tell interfaces apart: only the tunnel a mark belongs to lets its traffic out. */
  lemma MarkHasOneWayOut(state: DesiredState, uplink: string, upstreams: set<string>, c: Compiled, egress: string,
      mark: Mark, p: Packet)
    requires Compiles(state, uplink, upstreams, c) && EgressMark(state, egress, mark) && p.mark == mark
    requires egress == DIRECT || egress in EgressTunnelIds(state.tunnels)
    ensures StraysFrom(c.plan, p) <==> egress != DIRECT && p.oif != EgressInterface(egress)
  {
    hide Compiles, EgressGroups, InternalNetworks, HasLayout, EndpointClients, Endpoints, ValidRevision, AddressesParse,
         EgressTunnelIds, EgressInterface, ClientsFit, Chose, NetworkRoutes, EgressOrder, PrivateOrder, EgressMark;
    CompiledCarries(state, uplink, upstreams, c);
    NetworkMarksApart(state, uplink, upstreams, c, egress, mark);
    forall i | 0 <= i < |c.plan.egresses| && c.plan.egresses[i].id != DIRECT && c.plan.egresses[i].mark == mark
      ensures c.plan.egresses[i].id == egress && c.plan.egresses[i].iface == EgressInterface(egress)
    {
      GroupsFit(state, uplink, i);
      GroupMarkIs(state, uplink, i);
      SameMarkSameEgress(state, uplink, upstreams, c, egress, c.plan.egresses[i].id, mark);
    }
    if egress != DIRECT {
      var i := EgressGroupIndex(state, uplink, egress);
      GroupMarkIs(state, uplink, i);
      EgressMarkUnique(state, egress, mark, c.plan.egresses[i].mark);
      GroupsFit(state, uplink, i);
    }
  }

  lemma EgressGroupIndex(state: DesiredState, uplink: string, egress: string) returns (i: nat)
    requires ValidRevision(state) && AddressesParse(state.devices) && egress in EgressTunnelIds(state.tunnels)
    ensures i < |EgressGroups(state, uplink)| && EgressGroups(state, uplink)[i].id == egress
  {
    hide ValidRevision, EgressGroups, AddressesParse;
    var t :| t in state.tunnels && t.role == EgressRole && t.id == egress;
    var k: nat;
    i, k := TunnelGroupIndex(state, uplink, t);
  }

  lemma SameMarkSameEgress(state: DesiredState, uplink: string, upstreams: set<string>, c: Compiled, a: string,
      b: string, mark: Mark)
    requires Compiles(state, uplink, upstreams, c) && EgressMark(state, a, mark) && EgressMark(state, b, mark)
    ensures a == b
  {
    hide Compiles, EgressOrder, TunnelOrder;
    OrderFits(state, uplink, upstreams, c);
  }

  lemma NetworkMarksApart(state: DesiredState, uplink: string, upstreams: set<string>, c: Compiled, egress: string,
      mark: Mark)
    requires Compiles(state, uplink, upstreams, c) && EgressMark(state, egress, mark)
    ensures forall i :: 0 <= i < |c.plan.internals| ==> c.plan.internals[i].mark != mark
  {
    hide Compiles, EgressGroups, InternalNetworks, HasLayout, EndpointClients, Endpoints, ValidRevision, AddressesParse,
         EgressOrder, PrivateOrder, NetworkFits;
    CompiledCarries(state, uplink, upstreams, c);
    OrderFits(state, uplink, upstreams, c);
    NetworkCount(state);
    forall i | 0 <= i < |c.plan.internals| ensures c.plan.internals[i].mark != mark {
      NetworkAt(state, i);
    }
  }

  lemma InstalledOutput(plan: FirewallPlan, r: Ruleset, t: Tables)
    requires Installed(plan, r, t)
    ensures r.outputMark == OutputMarkRules(plan) && r.output == OutputRules(plan)
  {
    hide SetsOf, ListsAdmitted, PreroutingRules, ForwardRules, InputRules, OutputMarkRules, OutputRules,
         PreroutingNatRules;
    var admitted := InstalledSets(plan, r, t);
  }

  /** What becomes of a connection a device opens through the fallback, routing choosing any
  interface: refused at the listener, or sent with a mark that the output hooks then judge. */
  ghost function FallbackVerdict(r: Ruleset, t: Tables, config: ListenerConfig, user: string, dest: Destination,
      p: Packet): Verdict {
    match DispatchTo(config, user, dest)
    case Via(mark) =>
      var marked := After(r.outputMark, t, p.(mark := mark));
      if marked.mark == mark then Filter(r.output, Accepted, t, marked) else Dropped
    case _ => Rejected
  }

  /** Fallback traffic follows the device's egress: an address that is not public is refused, and
  anything else, whatever a name resolved to and whatever interface routing picks, gets out only by
  the device's own tunnel, or freely for a direct device. */
  lemma FallbackIsExact(state: DesiredState, uplink: string, upstreams: set<string>, c: Compiled, r: Ruleset, t: Tables,
      keys: Credentials, spec: RealitySpec, config: ListenerConfig, d: Device, dest: Destination, p: Packet)
    requires Compiles(state, uplink, upstreams, c) && Installed(c.plan, r, t) && state.hub.realityEnabled
      && d in state.devices
    requires RealitySpecOf(state, c.plan, keys) == Ok(spec) && ConfigOf(spec) == Ok(config) && p.daddr == dest.address
    ensures FallbackVerdict(r, t, config, d.id, dest, p) ==
      if dest.Literal? && NotPublic(p.daddr) then Rejected
      else if d.egress == DIRECT || p.oif == EgressInterface(d.egress) then Accepted
      else Dropped
  {
    hide Compiles, Installed, RealitySpecOf, ConfigOf, DispatchTo, EgressMark, EgressTunnelIds, After, Filter,
         OutputMarkRules, OutputRules, StraysFrom, EgressInterface, ValidRevision, NotPublic;
    ListenerFollowsEgress(state, uplink, upstreams, c, keys, spec, config, d);
    if !RefusedAtOnce(dest) {
      var mark :| EgressMark(state, d.egress, mark) && forall dest ::
        DispatchTo(config, d.id, dest) == if RefusedAtOnce(dest) then Blocked else Via(mark);
      assert DispatchTo(config, d.id, dest) == Via(mark);
      InstalledOutput(c.plan, r, t);
      OrderBound(state, uplink, upstreams, c, d.egress, mark);
      MarkedIsLeftAlone(c.plan, t, p.(mark := mark));
      OutputIs(c.plan, t, p.(mark := mark));
      CompilesIsValid(state, uplink, upstreams, c);
      EgressIsTunnel(state, d);
      MarkHasOneWayOut(state, uplink, upstreams, c, d.egress, mark, p.(mark := mark));
    }
  }

  /** A private network is out of reach over this path: a tunnel-bound device's connection never leaves
  by the network's link, not even to a name that resolves into it. */
  lemma NoWayIntoANetwork(state: DesiredState, uplink: string, upstreams: set<string>, c: Compiled, r: Ruleset,
      t: Tables, keys: Credentials, spec: RealitySpec, config: ListenerConfig, d: Device, dest: Destination, s: Tunnel,
      p: Packet)
    requires Compiles(state, uplink, upstreams, c) && Installed(c.plan, r, t) && state.hub.realityEnabled
      && d in state.devices
    requires RealitySpecOf(state, c.plan, keys) == Ok(spec) && ConfigOf(spec) == Ok(config) && p.daddr == dest.address
    requires d.egress != DIRECT && s in state.tunnels && s.role == PrivateNetworkRole && p.oif == EgressInterface(s.id)
    ensures FallbackVerdict(r, t, config, d.id, dest, p) != Accepted
  {
    hide Compiles, Installed, RealitySpecOf, ConfigOf, DispatchTo, After, Filter, EgressInterface, ValidRevision,
         NotPublic, FallbackVerdict;
    FallbackIsExact(state, uplink, upstreams, c, r, t, keys, spec, config, d, dest, p);
    CompilesIsValid(state, uplink, upstreams, c);
    InterfaceInjective(d.egress, s.id);
    EgressIsNoNetwork(state, d, s);
  }

  /** An interface behind which the hub's clients or another tunnel's namespace are. */
  ghost predicate Inside(state: DesiredState, d: Device, iface: string) {
    iface == INGRESS || exists s :: s in state.tunnels && s.id != d.egress && iface == EgressInterface(s.id)
  }

  /** What the refusal leaves open: towards other clients and other tunnels' namespaces a connection is
  let out just when its device goes direct and asked for a name, which is not refused whatever it
  resolves to, or for a public address. */
  lemma OnlyDirectGoesInside(state: DesiredState, uplink: string, upstreams: set<string>, c: Compiled, r: Ruleset,
      t: Tables, keys: Credentials, spec: RealitySpec, config: ListenerConfig, d: Device, dest: Destination, p: Packet)
    requires Compiles(state, uplink, upstreams, c) && Installed(c.plan, r, t) && state.hub.realityEnabled
      && d in state.devices
    requires RealitySpecOf(state, c.plan, keys) == Ok(spec) && ConfigOf(spec) == Ok(config) && p.daddr == dest.address
    requires Inside(state, d, p.oif)
    ensures FallbackVerdict(r, t, config, d.id, dest, p) == Accepted <==>
      d.egress == DIRECT && (dest.Name? || !NotPublic(dest.address))
  {
    hide Compiles, Installed, RealitySpecOf, ConfigOf, DispatchTo, After, Filter, EgressInterface, NotPublic,
         FallbackVerdict;
    FallbackIsExact(state, uplink, upstreams, c, r, t, keys, spec, config, d, dest, p);
    IngressIsNoTunnel(d.egress);
    if p.oif != INGRESS {
      var s :| s in state.tunnels && s.id != d.egress && p.oif == EgressInterface(s.id);
      InterfaceInjective(d.egress, s.id);
    }
  }

  lemma IngressIsNoTunnel(id: string)
    ensures INGRESS != EgressInterface(id)
  {
    assert EgressInterface(id)[0] == 'v';
  }

  lemma EgressIsNoNetwork(state: DesiredState, d: Device, s: Tunnel)
    requires ValidRevision(state) && d in state.devices && d.egress != DIRECT && s in state.tunnels
      && s.role == PrivateNetworkRole
    ensures d.egress != s.id
  {
    hide ValidDevices, ValidHub;
    ValidTunnelsAreDistinct(state);
    var i :| 0 <= i < |state.devices| && state.devices[i] == d;
    assert ValidChoice(state.devices[i], state.tunnels);
    var u :| u in state.tunnels && MayUse(d, u);
    if u.id == s.id { SameTunnel(state.tunnels, u, s); }
  }

  lemma EgressIsTunnel(state: DesiredState, d: Device)
    requires ValidRevision(state) && d in state.devices
    ensures d.egress == DIRECT || d.egress in EgressTunnelIds(state.tunnels)
  {
    var j :| 0 <= j < |state.devices| && state.devices[j] == d;
    assert ValidChoice(state.devices[j], state.tunnels);
  }

  // ------------------------------------------------------------------
  // The hub's own services
  // ------------------------------------------------------------------

  lemma {:induction false} DnsRulesIgnoreLoopback(plan: FirewallPlan, groups: seq<EgressGroup>, t: Tables, p: Packet)
    requires p.iif != plan.ingress
    ensures Walk(DnsInputRules(plan, groups), t, p) == Going(p)
  {
    hide Applies, ServedBy, Walk, ResolveRules, RefuseRules;
    if groups == [] {
      NoRules(t, p);
    } else {
      var front, last := groups[..|groups| - 1], groups[|groups| - 1];
      DnsRulesIgnoreLoopback(plan, front, t, p);
      var served := ServedBy(plan, last);
      if served.Some? {
        var ref := DnsClientSet(last.id);
        WalkAppend(DnsInputRules(plan, front), ResolveRules(plan, ref, served.value.resolver)
          + RefuseRules(plan, ref), t, p);
        WalkAppend(ResolveRules(plan, ref, served.value.resolver), RefuseRules(plan, ref), t, p);
        IngressPairPasses(plan, ref, served.value.resolver, t, p);
      } else {
        assert DnsInputRules(plan, front) + [] == DnsInputRules(plan, front);
      }
    }
  }

  lemma IngressPairPasses(plan: FirewallPlan, ref: SetRef, resolver: Option<Addr>, t: Tables, p: Packet)
    requires p.iif != plan.ingress
    ensures Walk(ResolveRules(plan, ref, resolver), t, p) == Going(p) && Walk(RefuseRules(plan, ref), t, p) == Going(p)
  {
    hide Walk;
    var a, b := ResolveRules(plan, ref, resolver), RefuseRules(plan, ref);
    PairWalk(a[0], a[1], t, p);
    PairWalk(b[0], b[1], t, p);
    assert a[0].matches[0] == IifIs(plan.ingress) && a[1].matches[0] == IifIs(plan.ingress);
    assert b[0].matches[0] == IifIs(plan.ingress) && b[1].matches[0] == IifIs(plan.ingress);
  }

  function LoopbackDns(plan: FirewallPlan, admitted: seq<Addr>): seq<Rule> {
    if admitted != [] && plan.dnsAddress.Some? then
      [Rule([IifIs(LOOPBACK), MARKED, Destination(Block(HostText(plan.dnsAddress))), DestPort(Udp, 53)], [Accept]),
       Rule([IifIs(LOOPBACK), MARKED, Destination(Block(HostText(plan.dnsAddress))), DestPort(Tcp, 53)], [Accept])]
    else []
  }

  lemma LoopbackDnsWalk(plan: FirewallPlan, admitted: seq<Addr>, t: Tables, p: Packet)
    requires p.iif == LOOPBACK && p.mark != 0
    ensures Walk(LoopbackDns(plan, admitted), t, p) ==
      if admitted != [] && plan.dnsAddress == Some(p.daddr) && AsksDns(p) then Stopped(Some(Accepted), p) else Going(p)
  {
    hide Walk;
    var rules := LoopbackDns(plan, admitted);
    HostHolds(plan.dnsAddress, t, p.daddr);
    NoRules(t, p);
    if rules != [] {
      PairWalk(rules[0], rules[1], t, p);
      var udp, tcp := rules[0].matches, rules[1].matches;
      assert udp[0] == IifIs(LOOPBACK) && udp[1] == MARKED && udp[2] == Destination(Block(HostText(plan.dnsAddress)))
        && udp[3] == DestPort(Udp, 53);
      assert tcp[0] == IifIs(LOOPBACK) && tcp[1] == MARKED && tcp[2] == Destination(Block(HostText(plan.dnsAddress)))
        && tcp[3] == DestPort(Tcp, 53);
    }
  }

  lemma ServiceWalk(plan: FirewallPlan, admitted: seq<Addr>, t: Tables, p: Packet)
    requires plan.ingress == INGRESS && p.iif == LOOPBACK && p.mark != 0 && !p.established
    ensures Filter(ServiceRules(plan, admitted), Dropped, t, p) == Accepted <==>
      admitted != [] && plan.dnsAddress == Some(p.daddr) && AsksDns(p)
  {
    hide Walk, LoopbackDns, AsksDns;
    var rules := ServiceRules(plan, admitted);
    var head := [Rule([IifIs(INGRESS), DestPort(Udp, 53)], [Drop]), Rule([IifIs(INGRESS), DestPort(Tcp, 53)], [Drop])];
    var established, refuse := Rule([Established], [Accept]), Rule([IifIs(LOOPBACK), MARKED], [Drop]);
    var rest := rules[|rules| - (if plan.realityPort != 0 then 5 else 4)..];
    ServiceParts(plan, admitted);
    assert rules == head + [established] + LoopbackDns(plan, admitted) + [refuse] + rest;
    WalkAppend(head + [established] + LoopbackDns(plan, admitted) + [refuse], rest, t, p);
    WalkAppend(head + [established] + LoopbackDns(plan, admitted), [refuse], t, p);
    WalkAppend(head + [established], LoopbackDns(plan, admitted), t, p);
    WalkAppend(head, [established], t, p);
    PairWalk(head[0], head[1], t, p);
    WalkOne(established, t, p);
    WalkOne(refuse, t, p);
    LoopbackDnsWalk(plan, admitted, t, p);
    assert head[0].matches[0] == IifIs(INGRESS) && head[1].matches[0] == IifIs(INGRESS)
      && established.matches[0] == Established;
    assert refuse.matches[0] == IifIs(LOOPBACK) && refuse.matches[1] == MARKED;
  }

  lemma ServiceParts(plan: FirewallPlan, admitted: seq<Addr>)
    ensures ServiceRules(plan, admitted) ==
      [Rule([IifIs(plan.ingress), DestPort(Udp, 53)], [Drop]), Rule([IifIs(plan.ingress), DestPort(Tcp, 53)], [Drop])]
      + [Rule([Established], [Accept])] + LoopbackDns(plan, admitted)
      + [Rule([IifIs(LOOPBACK), MARKED], [Drop])]
      + ServiceRules(plan, admitted)[|ServiceRules(plan, admitted)| - (if plan.realityPort != 0 then 5 else 4)..]
  {
  }

  /** The one service of the hub a fallback connection can reach is the hub's resolver: the mark it
  carries keeps it from everything else the hub answers over loopback. */
  lemma FallbackReachesOnlyTheResolver(state: DesiredState, uplink: string, upstreams: set<string>, c: Compiled,
      r: Ruleset, t: Tables, p: Packet)
    requires Compiles(state, uplink, upstreams, c) && Installed(c.plan, r, t)
    requires p.iif == LOOPBACK && p.mark != 0 && !p.established
    ensures Filter(r.input, Dropped, t, p) == Accepted <==>
      state.devices != [] && state.hub.dnsAddress == Some(p.daddr) && AsksDns(p)
  {
    hide Compiles, Installed, PortACLs, AddressBook, DnsDestinationsOf, AddressesParse, ListsAdmitted, RendersWith,
         Walk, ServiceRules, DnsInputRules, ResolveRules, AsksDns, SetsOf, InputRules;
    PlanFields(state, uplink, upstreams, c);
    var admitted := InstalledSets(c.plan, r, t);
    AdmissionIs(state, uplink, upstreams, c, r, t, admitted);
    InputParts(c.plan, r, t, admitted);
    WalkAppend(DnsInputRules(c.plan, c.plan.egresses) + HubDnsRules(c.plan, admitted),
      ServiceRules(c.plan, admitted), t, p);
    WalkAppend(DnsInputRules(c.plan, c.plan.egresses), HubDnsRules(c.plan, admitted), t, p);
    DnsRulesIgnoreLoopback(c.plan, c.plan.egresses, t, p);
    NoRules(t, p);
    IngressPairPasses(c.plan, AdmittedSet, c.plan.dnsAddress, t, p);
    ServiceWalk(c.plan, admitted, t, p);
  }

  lemma InputParts(plan: FirewallPlan, r: Ruleset, t: Tables, admitted: seq<Addr>)
    requires RendersWith(plan, admitted, r)
    ensures r.input == DnsInputRules(plan, plan.egresses) + HubDnsRules(plan, admitted) + ServiceRules(plan, admitted)
  {
    hide SetsOf, PreroutingRules, ForwardRules, DnsInputRules, HubDnsRules, ServiceRules, OutputMarkRules, OutputRules,
         PreroutingNatRules;
  }

  lemma AdmissionIs(state: DesiredState, uplink: string, upstreams: set<string>, c: Compiled, r: Ruleset, t: Tables,
      admitted: seq<Addr>)
    requires Compiles(state, uplink, upstreams, c) && Installed(c.plan, r, t)
      && ListsAdmitted(admitted, c.plan.egresses) && t.sets == SetsOf(c.plan, admitted)
    ensures admitted == [] <==> state.devices == []
  {
    hide Compiles, Installed, SetsOf, ListsAdmitted, InSet, ValidRevision;
    CompilesIsValid(state, uplink, upstreams, c);
    RevisionDevices(state);
    if state.devices != [] {
      var a := state.devices[0].address.value.addr;
      assert state.devices[0] in state.devices && HasAddress(state.devices[0], a);
      AdmittedSetMeans(state, uplink, upstreams, c, r, t, a);
      AdmittedHas(c.plan, admitted, t, a);
    }
    if admitted != [] {
      AdmittedSetMeans(state, uplink, upstreams, c, r, t, admitted[0]);
      AdmittedHas(c.plan, admitted, t, admitted[0]);
    }
  }

  lemma AdmittedHas(plan: FirewallPlan, admitted: seq<Addr>, t: Tables, a: Addr)
    requires t.sets == SetsOf(plan, admitted)
    ensures InSet(t, AdmittedSet, a) <==> a in admitted
  {
    hide SetsOf, Declared;
    SetFacts.InAdmittedSet(plan, admitted, a);
  }
}
