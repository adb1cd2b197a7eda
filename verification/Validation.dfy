/** What a configuration must satisfy before a revision is compiled from it. */
module Validation {
  import opened Netip
  import opened Ordering
  import opened Domain
  import opened Links
  import opened FirewallPlanner
  import opened Keys

  const MAX_DEVICE_ID := 32
  const MAX_TUNNEL_ID := 12
  const MAX_ZONE := 253

  // ------------------------------------------------------------------
  // Overlap tests and what they decide
  // ------------------------------------------------------------------

  predicate HasSuffix(s: string, suffix: string) {
    |suffix| <= |s| && s[|s| - |suffix|..] == suffix
  }

  predicate ZonesOverlap(a: string, b: string) {
    a == b || HasSuffix(a, "." + b) || HasSuffix(b, "." + a)
  }

  /** A DNS name belongs to a zone when it is the zone's name or extends it by whole labels
  (section 2.3.1 of RFC 1035). */
  predicate Under(name: string, zone: string) {
    name == zone || HasSuffix(name, "." + zone)
  }

  ghost predicate ShareName(a: string, b: string) {
    exists name: string :: Under(name, a) && Under(name, b)
  }

  ghost predicate ShareAddress(p: Cidr, q: Cidr) {
    exists a: Addr :: Contains(p, a) && Contains(q, a)
  }

  lemma SuffixesNest(name: string, long: string, short: string)
    requires Under(name, long) && Under(name, short) && |short| <= |long|
    ensures long == short || HasSuffix(long, "." + short)
  {
    var n := |name|;
    assert name[n - |long|..] == long;
    assert name[n - |short|..] == short;
    if |short| < |long| {
      assert name[n - |short| - 1..] == "." + short;
      assert long[|long| - |short| - 1..] == name[n - |long|..][|long| - |short| - 1..];
      assert name[n - |long|..][|long| - |short| - 1..] == name[n - |short| - 1..];
    }
  }

  /** The zone test is exact: two zones overlap just when some name lies under both. */
  lemma ZonesOverlapIffShared(a: string, b: string)
    ensures ZonesOverlap(a, b) <==> ShareName(a, b)
  {
    if ZonesOverlap(a, b) {
      if HasSuffix(b, "." + a) {
        assert Under(b, a) && Under(b, b);
      } else {
        assert Under(a, a) && Under(a, b);
      }
    }
    if name: string :| Under(name, a) && Under(name, b) {
      if |a| <= |b| { SuffixesNest(name, b, a); } else { SuffixesNest(name, a, b); }
    }
  }

  // ------------------------------------------------------------------
  // What validity means
  // ------------------------------------------------------------------

  predicate IdentifierChar(c: char) { 'a' <= c <= 'z' || '0' <= c <= '9' }

  predicate Identifier(s: string) {
    s != "" && IdentifierChar(s[0]) && forall i :: 0 <= i < |s| ==> IdentifierChar(s[i]) || s[i] == '-'
  }

  predicate ZoneChar(c: char) {
    'a' <= c <= 'z' || 'A' <= c <= 'Z' || '0' <= c <= '9' || c == '-' || c == '_' || c == '.'
  }

  /** A name that can be written as one directive: non-empty labels of letters, digits, '-' and '_'. */
  predicate ZoneName(zone: string) {
    && 0 < |zone| <= MAX_ZONE
    && (forall i :: 0 <= i < |zone| ==> ZoneChar(zone[i]))
    && zone[0] != '.' && zone[|zone| - 1] != '.'
    && (forall i :: 0 <= i < |zone| - 1 ==> !(zone[i] == '.' && zone[i + 1] == '.'))
  }

  /** A host route inside the client subnet that is neither its network nor its broadcast address. */
  predicate ProfileAddress(address: Option<Cidr>, subnet: Option<Cidr>) {
    && address.Some? && address.value.bits == 32
    && subnet.Some? && Contains(subnet.value, address.value.addr)
    && (subnet.value.bits < 31 ==>
          && address.value.addr != Masked(subnet.value).addr
          && InBlock(subnet.value, Next(address.value.addr)))
  }

  ghost predicate ValidHub(hub: Hub) {
    && hub.endpointPort.Some? && hub.endpointPort.value != 0 && IsKey(hub.serverPublicKey)
    && hub.clientCidr.Some? && hub.dnsAddress.Some?
    && !ShareAddress(hub.clientCidr.value, LINK_BASE)
    && Contains(hub.clientCidr.value, hub.dnsAddress.value)
    && (hub.udp443 ==> hub.endpointPort.value != REALITY_PORT)
    && (hub.realityEnabled ==> hub.serverName != "")
  }

  predicate ValidDevice(hub: Hub, d: Device) {
    && Identifier(d.id) && |d.id| <= MAX_DEVICE_ID
    && IsKey(d.publicKey) && d.egress != ""
    && ProfileAddress(d.address, hub.clientCidr)
    && (hub.dnsAddress.Some? ==> d.address.value.addr != hub.dnsAddress.value)
  }

  predicate SameIdentity(a: Device, b: Device) {
    a.id == b.id || a.address == b.address || a.publicKey == b.publicKey
  }

  ghost predicate ValidDevices(hub: Hub, devices: seq<Device>) {
    && (forall i :: 0 <= i < |devices| ==> ValidDevice(hub, devices[i]))
    && (forall i, j :: 0 <= i < j < |devices| ==> !SameIdentity(devices[i], devices[j]))
  }

  function DeviceIds(devices: seq<Device>): set<string> { set d | d in devices :: d.id }

  predicate ValidTunnel(t: Tunnel, deviceIds: set<string>) {
    && Identifier(t.id) && t.id != DIRECT && |t.id| <= MAX_TUNNEL_ID
    && t.kind != UnsupportedType && t.role != UnsupportedRole
    && (forall i :: 0 <= i < |t.allowedDevices| ==> t.allowedDevices[i] in deviceIds)
    && (t.dnsZones != [] ==> t.dnsServers != [])
    && (forall i :: 0 <= i < |t.dnsServers| ==> t.dnsServers[i].Some?)
    && (forall i :: 0 <= i < |t.dnsZones| ==> ZoneName(NormalizeZone(t.dnsZones[i])))
  }

  function NormalizedZones(zones: seq<string>): seq<string> {
    seq(|zones|, i requires 0 <= i < |zones| => NormalizeZone(zones[i]))
  }

  /** Every zone the tunnels declare, in declaration order. */
  function AllZones(tunnels: seq<Tunnel>): seq<string> {
    if tunnels == [] then []
    else AllZones(tunnels[..|tunnels| - 1]) + NormalizedZones(tunnels[|tunnels| - 1].dnsZones)
  }

  function AllRoutes(tunnels: seq<Tunnel>): seq<Option<Cidr>> {
    if tunnels == [] then []
    else AllRoutes(tunnels[..|tunnels| - 1]) + tunnels[|tunnels| - 1].routes
  }

  /** Each name lies under at most one declared zone. */
  ghost predicate ZonesApart(zones: seq<string>) {
    forall i, j :: 0 <= i < j < |zones| ==> !ShareName(zones[i], zones[j])
  }

  /** Each address lies in at most one declared route. */
  ghost predicate RoutesApart(routes: seq<Option<Cidr>>) {
    && (forall i :: 0 <= i < |routes| ==> routes[i].Some?)
    && (forall i, j :: 0 <= i < j < |routes| ==> !ShareAddress(routes[i].value, routes[j].value))
  }

  ghost predicate ValidTunnels(tunnels: seq<Tunnel>, deviceIds: set<string>) {
    && (forall i :: 0 <= i < |tunnels| ==> ValidTunnel(tunnels[i], deviceIds))
    && (forall i, j :: 0 <= i < j < |tunnels| ==> tunnels[i].id != tunnels[j].id)
    && ZonesApart(AllZones(tunnels))
  }

  predicate Allows(t: Tunnel, d: Device) { t.allowedDevices == [] || d.id in t.allowedDevices }

  /** The device may leave by this tunnel: it is an enabled egress that allows the device. */
  predicate MayUse(d: Device, t: Tunnel) {
    t.id == d.egress && t.role == EgressRole && t.enabled && Allows(t, d)
  }

  ghost predicate ValidChoice(d: Device, tunnels: seq<Tunnel>) {
    d.egress == DIRECT || exists t :: t in tunnels && MayUse(d, t)
  }

  predicate ValidACL(rule: ClientACL, deviceIds: set<string>) {
    && rule.source != "" && rule.target != ""
    && (rule.source != ANY ==> rule.source in deviceIds)
    && rule.target in deviceIds && rule.source != rule.target
    && (rule.protocol == Tcp || rule.protocol == Udp)
    && rule.port != 0
  }

  ghost predicate ValidACLs(rules: seq<ClientACL>, deviceIds: set<string>) {
    && (forall i :: 0 <= i < |rules| ==> ValidACL(rules[i], deviceIds))
    && (forall i, j :: 0 <= i < j < |rules| ==> rules[i] != rules[j])
  }

  /** Some device goes direct, or some egress tunnel is on, or there is no device at all. */
  ghost predicate SomeWayOut(cfg: Config) {
    || cfg.devices == []
    || (exists t :: t in cfg.tunnels && t.role == EgressRole && t.enabled)
    || (exists d :: d in cfg.devices && d.egress == DIRECT)
  }

  ghost predicate Valid(cfg: Config) {
    && ValidHub(cfg.hub)
    && ValidDevices(cfg.hub, cfg.devices)
    && ValidTunnels(cfg.tunnels, DeviceIds(cfg.devices))
    && (forall i :: 0 <= i < |cfg.devices| ==> ValidChoice(cfg.devices[i], cfg.tunnels))
    && ValidACLs(cfg.acls, DeviceIds(cfg.devices))
    && SomeWayOut(cfg)
    && RoutesApart(AllRoutes(cfg.tunnels))
  }

  // ------------------------------------------------------------------
  // The checks
  // ------------------------------------------------------------------

  method ValidateHub(hub: Hub) returns (accepted: bool)
    ensures accepted <==> ValidHub(hub)
  {
    if hub.endpointPort.None? || hub.clientCidr.None? || hub.dnsAddress.None? {
      return false;
    }
    OverlapsIffShared(hub.clientCidr.value, LINK_BASE);
    if Overlaps(hub.clientCidr.value, LINK_BASE) { return false; }
    if hub.endpointPort.value == 0 { return false; }
    if !IsKey(hub.serverPublicKey) { return false; }
    if !Contains(hub.clientCidr.value, hub.dnsAddress.value) { return false; }
    if hub.udp443 && hub.endpointPort.value == REALITY_PORT { return false; }
    if hub.realityEnabled && hub.serverName == "" { return false; }
    return true;
  }

  method ValidateDevices(hub: Hub, devices: seq<Device>) returns (accepted: bool)
    ensures accepted <==> ValidDevices(hub, devices)
  {
    hide IsKey, ProfileAddress, Identifier;
    var ids: set<string> := {};
    var addresses: set<Option<Cidr>> := {};
    var keys: set<string> := {};
    for i := 0 to |devices|
      invariant ValidDevices(hub, devices[..i])
      invariant ids == set k | 0 <= k < i :: devices[k].id
      invariant addresses == set k | 0 <= k < i :: devices[k].address
      invariant keys == set k | 0 <= k < i :: devices[k].publicKey
    {
      var device := devices[i];
      if !ValidDevice(hub, device) {
        return false;
      }
      if device.id in ids || device.address in addresses || device.publicKey in keys {
        var k :| 0 <= k < i && SameIdentity(devices[k], device);
        return false;
      }
      forall k | 0 <= k < i ensures !SameIdentity(devices[k], device) {
        assert devices[k].id in ids && devices[k].address in addresses && devices[k].publicKey in keys;
      }
      ids := ids + {device.id};
      addresses := addresses + {device.address};
      keys := keys + {device.publicKey};
    }
    assert devices[..|devices|] == devices;
    return true;
  }

  /** Accepts one more tunnel's zones against those already accepted. */
  method ValidateZones(accepted: seq<string>, declared: seq<string>) returns (ok: bool)
    requires ZonesApart(accepted)
    ensures ok <==> ZonesApart(accepted + NormalizedZones(declared))
  {
    ghost var all := accepted + NormalizedZones(declared);
    var zones := accepted;
    for i := 0 to |declared|
      invariant zones == all[..|accepted| + i]
      invariant ZonesApart(zones)
    {
      var zone := NormalizeZone(declared[i]);
      assert zone == all[|accepted| + i];
      for k := 0 to |zones|
        invariant forall m :: 0 <= m < k ==> !ShareName(zones[m], zone)
      {
        ZonesOverlapIffShared(zone, zones[k]);
        ShareNameSymmetric(zone, zones[k]);
        if ZonesOverlap(zone, zones[k]) {
          assert all[k] == zones[k];
          return false;
        }
      }
      zones := zones + [zone];
    }
    assert all[..|all|] == all;
    return true;
  }

  lemma ShareNameSymmetric(a: string, b: string)
    ensures ShareName(a, b) <==> ShareName(b, a)
  {
  }

  lemma ZonesApartPrefix(zones: seq<string>, more: seq<string>)
    requires ZonesApart(zones + more)
    ensures ZonesApart(zones)
  {
    forall i, j | 0 <= i < j < |zones| ensures !ShareName(zones[i], zones[j]) {
      assert (zones + more)[i] == zones[i] && (zones + more)[j] == zones[j];
    }
  }

  lemma {:induction false} ZonesGrow(tunnels: seq<Tunnel>, i: nat)
    requires i <= |tunnels| && ZonesApart(AllZones(tunnels))
    ensures ZonesApart(AllZones(tunnels[..i]))
    decreases |tunnels| - i
  {
    if i == |tunnels| {
      assert tunnels[..i] == tunnels;
    } else {
      ZonesGrow(tunnels, i + 1);
      TakeNext(tunnels, i);
      ZonesApartPrefix(AllZones(tunnels[..i]), NormalizedZones(tunnels[i].dnsZones));
    }
  }

  lemma NoZones()
    ensures ZonesApart([])
  {
  }

  method ValidateTunnels(tunnels: seq<Tunnel>, deviceIds: set<string>) returns (accepted: bool)
    ensures accepted <==> ValidTunnels(tunnels, deviceIds)
  {
    hide ValidTunnel, NormalizedZones, ZonesApart;
    var ids: set<string> := {};
    var zones: seq<string> := [];
    NoZones();
    for i := 0 to |tunnels|
      invariant forall k :: 0 <= k < i ==> ValidTunnel(tunnels[k], deviceIds)
      invariant forall k, m :: 0 <= k < m < i ==> tunnels[k].id != tunnels[m].id
      invariant ids == set k | 0 <= k < i :: tunnels[k].id
      invariant zones == AllZones(tunnels[..i]) && ZonesApart(zones)
    {
      var tunnel := tunnels[i];
      if !ValidTunnel(tunnel, deviceIds) || tunnel.id in ids {
        return false;
      }
      TakeNext(tunnels, i);
      var apart := ValidateZones(zones, tunnel.dnsZones);
      if !apart {
        if ZonesApart(AllZones(tunnels)) { ZonesGrow(tunnels, i + 1); }
        return false;
      }
      ids := ids + {tunnel.id};
      zones := zones + NormalizedZones(tunnel.dnsZones);
    }
    assert tunnels[..|tunnels|] == tunnels;
    return true;
  }

  method ValidateChoices(devices: seq<Device>, tunnels: seq<Tunnel>) returns (accepted: bool)
    requires forall i, j :: 0 <= i < j < |tunnels| ==> tunnels[i].id != tunnels[j].id
    ensures accepted <==> forall i :: 0 <= i < |devices| ==> ValidChoice(devices[i], tunnels)
  {
    var byId := map t | t in tunnels :: t.id := t;
    for i := 0 to |devices|
      invariant forall k :: 0 <= k < i ==> ValidChoice(devices[k], tunnels)
    {
      var device := devices[i];
      if device.egress == DIRECT { continue; }
      if device.egress !in byId {
        return false;
      }
      var tunnel := byId[device.egress];
      if tunnel.role != EgressRole || !tunnel.enabled ||
         (tunnel.allowedDevices != [] && device.id !in tunnel.allowedDevices) {
        return false;
      }
      assert tunnel in tunnels && MayUse(device, tunnel);
    }
    return true;
  }

  method ValidateACLs(rules: seq<ClientACL>, deviceIds: set<string>) returns (accepted: bool)
    ensures accepted <==> ValidACLs(rules, deviceIds)
  {
    var seen: set<ClientACL> := {};
    for i := 0 to |rules|
      invariant ValidACLs(rules[..i], deviceIds)
      invariant seen == set k | 0 <= k < i :: rules[k]
    {
      if !ValidACL(rules[i], deviceIds) {
        return false;
      }
      if rules[i] in seen {
        var k :| 0 <= k < i && rules[k] == rules[i];
        return false;
      }
      seen := seen + {rules[i]};
    }
    assert rules[..|rules|] == rules;
    return true;
  }

  method ValidateRouteOverlaps(tunnels: seq<Tunnel>) returns (accepted: bool)
    ensures accepted <==> RoutesApart(AllRoutes(tunnels))
  {
    var routes: seq<Option<Cidr>> := [];
    for i := 0 to |tunnels|
      invariant routes == AllRoutes(tunnels[..i]) && RoutesApart(routes)
    {
      TakeNext(tunnels, i);
      var apart := AcceptRoutes(routes, tunnels[i].routes);
      if !apart {
        if RoutesApart(AllRoutes(tunnels)) { RoutesGrow(tunnels, i + 1); }
        return false;
      }
      routes := routes + tunnels[i].routes;
    }
    assert tunnels[..|tunnels|] == tunnels;
    return true;
  }

  method AcceptRoutes(accepted: seq<Option<Cidr>>, declared: seq<Option<Cidr>>) returns (ok: bool)
    requires RoutesApart(accepted)
    ensures ok <==> RoutesApart(accepted + declared)
  {
    ghost var all := accepted + declared;
    var routes := accepted;
    for i := 0 to |declared|
      invariant routes == all[..|accepted| + i]
      invariant RoutesApart(routes)
    {
      var route := declared[i];
      assert route == all[|accepted| + i];
      if route.None? {
        return false;
      }
      for k := 0 to |routes|
        invariant forall m :: 0 <= m < k ==> !ShareAddress(routes[m].value, route.value)
      {
        OverlapsIffShared(route.value, routes[k].value);
        if Overlaps(route.value, routes[k].value) {
          assert all[k] == routes[k];
          assert ShareAddress(routes[k].value, route.value);
          return false;
        }
      }
      routes := routes + [route];
    }
    assert all[..|all|] == all;
    return true;
  }

  lemma RoutesApartPrefix(routes: seq<Option<Cidr>>, more: seq<Option<Cidr>>)
    requires RoutesApart(routes + more)
    ensures RoutesApart(routes)
  {
    forall i | 0 <= i < |routes| ensures routes[i].Some? { assert (routes + more)[i].Some?; }
    forall i, j | 0 <= i < j < |routes| ensures !ShareAddress(routes[i].value, routes[j].value) {
      assert (routes + more)[i] == routes[i] && (routes + more)[j] == routes[j];
    }
  }

  lemma {:induction false} RoutesGrow(tunnels: seq<Tunnel>, i: nat)
    requires i <= |tunnels| && RoutesApart(AllRoutes(tunnels))
    ensures RoutesApart(AllRoutes(tunnels[..i]))
    decreases |tunnels| - i
  {
    if i == |tunnels| {
      assert tunnels[..i] == tunnels;
    } else {
      RoutesGrow(tunnels, i + 1);
      TakeNext(tunnels, i);
      RoutesApartPrefix(AllRoutes(tunnels[..i]), tunnels[i].routes);
    }
  }

  method SomeWayOutCheck(cfg: Config) returns (accepted: bool)
    ensures accepted <==> SomeWayOut(cfg)
  {
    var enabledEgresses := 0;
    for i := 0 to |cfg.tunnels|
      invariant enabledEgresses >= 0
      invariant enabledEgresses > 0 <==> exists k ::
        0 <= k < i && cfg.tunnels[k].role == EgressRole && cfg.tunnels[k].enabled
    {
      if cfg.tunnels[i].role == EgressRole && cfg.tunnels[i].enabled {
        enabledEgresses := enabledEgresses + 1;
      }
    }
    if cfg.devices == [] || enabledEgresses != 0 {
      return true;
    }
    var hasDirect := false;
    for i := 0 to |cfg.devices|
      invariant hasDirect <==> exists k :: 0 <= k < i && cfg.devices[k].egress == DIRECT
    {
      if cfg.devices[i].egress == DIRECT {
        hasDirect := true;
      }
    }
    return hasDirect;
  }

  /** Accepts a configuration exactly when it is valid. */
  method Validate(cfg: Config) returns (accepted: bool)
    ensures accepted <==> Valid(cfg)
  {
    var ok := ValidateHub(cfg.hub);
    if !ok { return false; }
    ok := ValidateDevices(cfg.hub, cfg.devices);
    if !ok { return false; }
    ok := ValidateTunnels(cfg.tunnels, DeviceIds(cfg.devices));
    if !ok { return false; }
    ok := ValidateChoices(cfg.devices, cfg.tunnels);
    if !ok { return false; }
    ok := ValidateACLs(cfg.acls, DeviceIds(cfg.devices));
    if !ok { return false; }
    ok := SomeWayOutCheck(cfg);
    if !ok { return false; }
    accepted := ValidateRouteOverlaps(cfg.tunnels);
  }
}
