/** The entities a configuration and its compiled plan are made of.

Text that has to parse before it means anything (an address, a CIDR block, the endpoint's port)
is held as the outcome of parsing it: None is text the parser rejects. */
module Domain {
  import opened Netip

  datatype Option<+T> = None | Some(value: T)

  datatype Result<+T> = Ok(value: T) | Err(error: Error) {
    predicate IsFailure() { Err? }
    function PropagateFailure<U>(): Result<U> requires Err? { Err(error) }
    function Extract(): T requires Ok? { value }
  }

  datatype Error =
    | UplinkRequired
    | InvalidEndpointPort
    | InvalidDeviceAddress
    | OutOfLinkAddresses
    | TunnelNotInRevision
    | NoEgressDriver
    | NoUpstreamConfiguration
    | DnsAddressRequired
    | ZoneWithoutResolver
    | NoMatchingSpec
    | HubKeyUnusable
    | HubKeyRequired
    | HubKeyMalformed
    | HubKeyMismatch
    | HubAddressOutside
    | DeviceKeyMissing
    | RealityKeyMissing
    | RealityKeyMalformed
    | EgressNotPlanned
    | IncompleteRealitySpec
    | InvalidRealityUser

  type Port = p: int | 0 <= p < 0x1_0000
  type Mark = m: int | 0 <= m < 0x1_0000_0000

  /** The truncating conversions to Go's uint16 and uint32. */
  function U16(x: int): Port { x % 0x1_0000 }
  function U32(x: int): Mark { x % 0x1_0000_0000 }

  // ---- configuration ----

  const DIRECT := "direct"
  const ANY := "any"
  const INGRESS := "awg0"
  const MANAGEMENT_PORT: Port := 22
  const REALITY_PORT: Port := 443

  datatype TunnelType = WireGuard | AmneziaWG | OpenVPN | Xray | UnsupportedType

  datatype Role = EgressRole | PrivateNetworkRole | UnsupportedRole

  datatype Protocol = Tcp | Udp | Icmp | OtherProtocol

  datatype Hub = Hub(
    endpointPort: Option<Port>,
    serverPublicKey: string,
    clientCidr: Option<Cidr>,
    dnsAddress: Option<Addr>,
    udp443: bool,
    realityEnabled: bool,
    serverName: string
  )

  datatype Device = Device(id: string, address: Option<Cidr>, publicKey: string, egress: string)

  datatype Tunnel = Tunnel(
    id: string,
    kind: TunnelType,
    role: Role,
    enabled: bool,
    routes: seq<Option<Cidr>>,
    dnsServers: seq<Option<Addr>>,
    dnsZones: seq<string>,
    allowedDevices: seq<string>
  )

  datatype ClientACL = ClientACL(source: string, target: string, protocol: Protocol, port: Port)

  datatype Config = Config(hub: Hub, devices: seq<Device>, tunnels: seq<Tunnel>, acls: seq<ClientACL>)

  datatype DesiredState = DesiredState(hub: Hub, devices: seq<Device>, tunnels: seq<Tunnel>, acls: seq<ClientACL>)

  // ---- the firewall plan ----

  datatype EgressGroup = EgressGroup(
    id: string, proxied: bool, mark: Mark, iface: string, addresses: seq<Addr>, clients: seq<Addr>)

  datatype InternalNetwork = InternalNetwork(
    tunnelId: string, mark: Mark, proxied: bool, iface: string,
    routes: seq<Option<Cidr>>, zones: seq<string>, resolvers: seq<Option<Addr>>, clients: seq<Addr>)

  datatype SocksEndpoint = SocksEndpoint(
    tunnelId: string, address: Addr, iface: string, port: Port, clients: seq<Addr>)

  /** A missing source means any client; a missing target is text no rule can carry. */
  datatype ClientPortACL = ClientPortACL(
    source: Option<Addr>, target: Option<Addr>, protocol: Protocol, port: Port)

  datatype DnsDestination = DnsDestination(clients: seq<Addr>, resolver: Option<Addr>)

  datatype FirewallPlan = FirewallPlan(
    ingress: string,
    uplink: string,
    listenPort: Port,
    managementPort: Port,
    clientCidr: Option<Cidr>,
    dnsAddress: Option<Addr>,
    dnsDestinations: seq<DnsDestination>,
    internals: seq<InternalNetwork>,
    socks: seq<SocksEndpoint>,
    altUdp443: bool,
    realityPort: Port,
    acls: seq<ClientPortACL>,
    egresses: seq<EgressGroup>
  )

  // ---- the layout, the DNS plan and the fallback listener ----

  datatype EgressSpec = EgressSpec(
    tunnelId: string, namespace: string, hostVeth: string,
    hostAddress: Addr, peerAddress: Addr,
    mark: Mark, routeTable: nat, socksPort: Port, kind: TunnelType)

  datatype DnsZoneRoute = DnsZoneRoute(
    zone: string, resolvers: seq<Option<Addr>>, forwardAddress: Option<Addr>, set_: string)

  datatype DnsPrivateResolver = DnsPrivateResolver(
    tunnelId: string, namespace: string, address: Addr, resolvers: seq<Option<Addr>>)

  datatype DnsEgressResolver = DnsEgressResolver(
    egressId: string, clients: seq<Addr>, hubAddress: Option<Addr>,
    namespace: Option<string>, namespaceAddress: Option<Addr>)

  datatype DnsPlan = DnsPlan(
    zones: seq<DnsZoneRoute>, privateResolvers: seq<DnsPrivateResolver>, egressResolvers: seq<DnsEgressResolver>)

  datatype RealityUser = RealityUser(deviceId: string, uuid: string, mark: Mark)

  datatype RealitySpec = RealitySpec(
    enabled: bool, port: Port, serverName: string, privateKey: string, shortId: string,
    dnsAddress: Option<Addr>, users: seq<RealityUser>)

  // ---- orders the plan's lists are sorted in ----

  predicate AddrLe(a: Addr, b: Addr) { a <= b }

  predicate RouteLe(a: Option<Cidr>, b: Option<Cidr>) {
    a.None? || (b.Some?
      && (a.value.addr < b.value.addr || (a.value.addr == b.value.addr && a.value.bits <= b.value.bits)))
  }
}
