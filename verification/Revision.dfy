/** Compiles a configuration into the revision the agent converges on. */
module Revision {
  import opened Netip
  import opened Ordering
  import opened Domain
  import opened Links
  import opened FirewallPlanner
  import opened Validation

  predicate DeviceLe(a: Device, b: Device) { LexLe(a.id, b.id) }

  predicate ACLLe(a: ClientACL, b: ClientACL) {
    if a.source != b.source then LexLe(a.source, b.source)
    else if a.target != b.target then LexLe(a.target, b.target)
    else if a.protocol != b.protocol then ProtocolRank(a.protocol) < ProtocolRank(b.protocol)
    else a.port <= b.port
  }

  function Enabled(tunnels: seq<Tunnel>): seq<Tunnel> {
    if tunnels == [] then []
    else
      var last := tunnels[|tunnels| - 1];
      Enabled(tunnels[..|tunnels| - 1]) + (if last.enabled then [last] else [])
  }

  function RevisionOf(cfg: Config): DesiredState {
    DesiredState(
      cfg.hub,
      Sort(DeviceLe, cfg.devices),
      Enabled(Sort(TunnelLe, cfg.tunnels)),
      Sort(ACLLe, cfg.acls))
  }

  method BuildDesiredState(cfg: Config) returns (state: DesiredState)
    ensures state == RevisionOf(cfg)
  {
    var devices := Sort(DeviceLe, cfg.devices);
    var tunnels := Sort(TunnelLe, cfg.tunnels);
    var acls := Sort(ACLLe, cfg.acls);
    var enabled: seq<Tunnel> := [];
    for i := 0 to |tunnels|
      invariant enabled == Enabled(tunnels[..i])
    {
      TakeNext(tunnels, i);
      if tunnels[i].enabled {
        enabled := enabled + [tunnels[i]];
      }
    }
    assert tunnels[..|tunnels|] == tunnels;
    return DesiredState(cfg.hub, devices, enabled, acls);
  }

  function Kept(devices: seq<Device>, revoked: set<string>): seq<Device> {
    if devices == [] then []
    else
      var last := devices[|devices| - 1];
      Kept(devices[..|devices| - 1], revoked) + (if last.id in revoked then [] else [last])
  }

  function Pruned(cfg: Config, revoked: set<string>): Config {
    cfg.(devices := Kept(cfg.devices, revoked))
  }

  method RemoveRevoked(cfg: Config, revoked: seq<string>) returns (result: Config)
    ensures result == Pruned(cfg, set id | id in revoked)
  {
    if revoked == [] {
      KeptAll(cfg.devices);
      assert (set id | id in revoked) == {};
      return cfg;
    }
    var denied := set id | id in revoked;
    var devices: seq<Device> := [];
    for i := 0 to |cfg.devices|
      invariant devices == Kept(cfg.devices[..i], denied)
    {
      TakeNext(cfg.devices, i);
      if cfg.devices[i].id !in denied {
        devices := devices + [cfg.devices[i]];
      }
    }
    assert cfg.devices[..|cfg.devices|] == cfg.devices;
    return cfg.(devices := devices);
  }

  lemma {:induction false} KeptAll(devices: seq<Device>)
    ensures Kept(devices, {}) == devices
  {
    if devices != [] {
      KeptAll(devices[..|devices| - 1]);
      assert devices == devices[..|devices| - 1] + [devices[|devices| - 1]];
    }
  }

  // ------------------------------------------------------------------
  // What a compiled revision is known to satisfy
  // ------------------------------------------------------------------

  ghost predicate ValidRevision(state: DesiredState) {
    && ValidHub(state.hub)
    && ValidDevices(state.hub, state.devices)
    && (forall i :: 0 <= i < |state.tunnels| ==> ValidRevisionTunnel(state.tunnels[i]))
    && (forall i, j :: 0 <= i < j < |state.tunnels| ==> state.tunnels[i].id != state.tunnels[j].id)
    && (forall i :: 0 <= i < |state.devices| ==> ValidChoice(state.devices[i], state.tunnels))
  }

  predicate ValidRevisionTunnel(t: Tunnel) {
    && Identifier(t.id) && t.id != DIRECT && |t.id| <= MAX_TUNNEL_ID
    && t.kind != UnsupportedType && t.role != UnsupportedRole && t.enabled
    && (t.dnsZones != [] ==> t.dnsServers != [])
  }

  /** Every endpoint of a client ACL is a device of the revision, or `any`. */
  ghost predicate ACLsResolve(state: DesiredState) {
    forall i :: 0 <= i < |state.acls| ==> ValidACL(state.acls[i], DeviceIds(state.devices))
  }

  lemma {:induction false} EnabledMembers(tunnels: seq<Tunnel>, t: Tunnel)
    ensures t in Enabled(tunnels) <==> t in tunnels && t.enabled
  {
    if tunnels != [] {
      EnabledMembers(tunnels[..|tunnels| - 1], t);
      assert tunnels == tunnels[..|tunnels| - 1] + [tunnels[|tunnels| - 1]];
    }
  }

  lemma {:induction false} KeptMembers(devices: seq<Device>, revoked: set<string>, d: Device)
    ensures d in Kept(devices, revoked) <==> d in devices && d.id !in revoked
  {
    if devices != [] {
      KeptMembers(devices[..|devices| - 1], revoked, d);
      assert devices == devices[..|devices| - 1] + [devices[|devices| - 1]];
    }
  }

  ghost predicate DistinctTunnelIds(tunnels: seq<Tunnel>) {
    forall i, j :: 0 <= i < j < |tunnels| ==> tunnels[i].id != tunnels[j].id
  }

  ghost predicate DistinctDevices(devices: seq<Device>) {
    forall i, j :: 0 <= i < j < |devices| ==> !SameIdentity(devices[i], devices[j])
  }

  lemma {:induction false} KeptDistinct(devices: seq<Device>, revoked: set<string>)
    requires DistinctDevices(devices)
    ensures DistinctDevices(Kept(devices, revoked))
  {
    if devices != [] {
      var front, last := devices[..|devices| - 1], devices[|devices| - 1];
      KeptDistinct(front, revoked);
      forall d | d in Kept(front, revoked) ensures !SameIdentity(d, last) {
        KeptMembers(front, revoked, d);
        var k :| 0 <= k < |front| && front[k] == d;
        assert devices[k] == d;
      }
    }
  }

  lemma {:induction false} EnabledDistinct(tunnels: seq<Tunnel>)
    requires DistinctTunnelIds(tunnels)
    ensures DistinctTunnelIds(Enabled(tunnels))
  {
    if tunnels != [] {
      var front, last := tunnels[..|tunnels| - 1], tunnels[|tunnels| - 1];
      EnabledDistinct(front);
      forall t | t in Enabled(front) ensures t.id != last.id {
        EnabledMembers(front, t);
        var k :| 0 <= k < |front| && front[k] == t;
        assert tunnels[k] == t;
      }
    }
  }

  /** Elements that are pairwise apart by a symmetric test stay so under permutation. */
  lemma DevicesStayDistinct(a: seq<Device>, b: seq<Device>)
    requires DistinctDevices(a) && multiset(a) == multiset(b)
    ensures DistinctDevices(b)
  {
    assert Distinct(a);
    DistinctPermutation(a, b);
    SameElements(a, b);
    forall i, j | 0 <= i < j < |b| ensures !SameIdentity(b[i], b[j]) {
      assert b[i] in a && b[j] in a && b[i] != b[j];
      var k :| 0 <= k < |a| && a[k] == b[i];
      var m :| 0 <= m < |a| && a[m] == b[j];
      assert k < m || m < k;
    }
  }

  lemma TunnelsStayDistinct(a: seq<Tunnel>, b: seq<Tunnel>)
    requires DistinctTunnelIds(a) && multiset(a) == multiset(b)
    ensures DistinctTunnelIds(b)
  {
    assert Distinct(a);
    DistinctPermutation(a, b);
    SameElements(a, b);
    forall i, j | 0 <= i < j < |b| ensures b[i].id != b[j].id {
      assert b[i] in a && b[j] in a && b[i] != b[j];
      var k :| 0 <= k < |a| && a[k] == b[i];
      var m :| 0 <= m < |a| && a[m] == b[j];
      assert k < m || m < k;
    }
  }

  lemma CompiledDevices(cfg: Config, revoked: set<string>)
    requires Valid(cfg)
    ensures var state := RevisionOf(Pruned(cfg, revoked));
      && ValidDevices(state.hub, state.devices)
      && (forall i :: 0 <= i < |state.devices| ==> ValidChoice(state.devices[i], state.tunnels))
  {
    var kept := Kept(cfg.devices, revoked);
    var state := RevisionOf(Pruned(cfg, revoked));
    KeptDistinct(cfg.devices, revoked);
    DevicesStayDistinct(kept, state.devices);
    SameElements(kept, state.devices);
    forall i | 0 <= i < |state.devices|
      ensures ValidDevice(state.hub, state.devices[i]) && ValidChoice(state.devices[i], state.tunnels)
    {
      var d := state.devices[i];
      assert d in kept;
      KeptMembers(cfg.devices, revoked, d);
      ChoiceSurvives(cfg, d, state.tunnels);
    }
  }

  lemma CompiledTunnels(cfg: Config)
    requires Valid(cfg)
    ensures var tunnels := Enabled(Sort(TunnelLe, cfg.tunnels));
      && DistinctTunnelIds(tunnels)
      && (forall i :: 0 <= i < |tunnels| ==> ValidRevisionTunnel(tunnels[i]))
  {
    var sorted := Sort(TunnelLe, cfg.tunnels);
    SameElements(cfg.tunnels, sorted);
    TunnelsStayDistinct(cfg.tunnels, sorted);
    EnabledDistinct(sorted);
    forall i | 0 <= i < |Enabled(sorted)| ensures ValidRevisionTunnel(Enabled(sorted)[i]) {
      EnabledMembers(sorted, Enabled(sorted)[i]);
    }
  }

  lemma CompiledACLs(cfg: Config, revoked: set<string>)
    requires Valid(cfg)
    requires forall a :: a in cfg.acls ==> a.source !in revoked && a.target !in revoked
    ensures ACLsResolve(RevisionOf(Pruned(cfg, revoked)))
  {
    var state := RevisionOf(Pruned(cfg, revoked));
    SameElements(cfg.acls, state.acls);
    forall i | 0 <= i < |state.acls| ensures ValidACL(state.acls[i], DeviceIds(state.devices)) {
      assert state.acls[i] in cfg.acls;
      EndpointSurvives(cfg, revoked, state.acls[i].source);
      EndpointSurvives(cfg, revoked, state.acls[i].target);
    }
  }

  /** Compiling a valid configuration, with any devices revoked from it, yields a valid revision;
  its client ACLs resolve as long as no revoked device is one of their endpoints. */
  lemma CompiledIsValid(cfg: Config, revoked: set<string>)
    requires Valid(cfg)
    ensures ValidRevision(RevisionOf(Pruned(cfg, revoked)))
    ensures (forall a :: a in cfg.acls ==> a.source !in revoked && a.target !in revoked) ==>
      ACLsResolve(RevisionOf(Pruned(cfg, revoked)))
  {
    CompiledDevices(cfg, revoked);
    CompiledTunnels(cfg);
    if forall a :: a in cfg.acls ==> a.source !in revoked && a.target !in revoked {
      CompiledACLs(cfg, revoked);
    }
  }

  lemma ChoiceSurvives(cfg: Config, d: Device, tunnels: seq<Tunnel>)
    requires Valid(cfg) && d in cfg.devices
    requires tunnels == Enabled(Sort(TunnelLe, cfg.tunnels))
    ensures ValidDevice(cfg.hub, d) && ValidChoice(d, tunnels)
  {
    var k :| 0 <= k < |cfg.devices| && cfg.devices[k] == d;
    assert ValidChoice(cfg.devices[k], cfg.tunnels);
    if d.egress != DIRECT {
      var t :| t in cfg.tunnels && MayUse(d, t);
      SameElements(cfg.tunnels, Sort(TunnelLe, cfg.tunnels));
      EnabledMembers(Sort(TunnelLe, cfg.tunnels), t);
    }
  }

  lemma EndpointSurvives(cfg: Config, revoked: set<string>, id: string)
    requires id !in revoked
    ensures id in DeviceIds(cfg.devices) <==> id in DeviceIds(RevisionOf(Pruned(cfg, revoked)).devices)
  {
    var kept := Kept(cfg.devices, revoked);
    SameElements(kept, Sort(DeviceLe, kept));
    forall d ensures d in kept <==> d in cfg.devices && d.id !in revoked { KeptMembers(cfg.devices, revoked, d); }
  }

  /** Facts about a valid revision used throughout: device addresses are distinct hosts. */
  lemma RevisionDevices(state: DesiredState)
    requires ValidRevision(state)
    ensures AddressesParse(state.devices)
    ensures forall d, e ::
      d in state.devices && e in state.devices && d.address.value.addr == e.address.value.addr ==> d == e
    ensures forall d, e :: d in state.devices && e in state.devices && d.id == e.id ==> d == e
  {
    forall d, e | d in state.devices && e in state.devices && d != e
      ensures d.address.value.addr != e.address.value.addr && d.id != e.id
    {
      var i :| 0 <= i < |state.devices| && state.devices[i] == d;
      var j :| 0 <= j < |state.devices| && state.devices[j] == e;
      assert !SameIdentity(state.devices[i], state.devices[j]) by {
        if i < j { assert !SameIdentity(state.devices[i], state.devices[j]); }
        else { assert !SameIdentity(state.devices[j], state.devices[i]); }
      }
      assert d.address.value.bits == e.address.value.bits == 32;
    }
  }
}
