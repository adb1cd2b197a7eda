/** The sing-box configuration of a proxy tunnel. */
module SingBox {
  import opened Domain
  import opened ShareLink

  const TUN_INTERFACE := "sb0"
  const TUN_ADDRESS := "172.19.0.1/30"
  const OUTBOUND_MARK := 2

  datatype RealitySettings = RealitySettings(publicKey: string, shortId: Option<string>)

  datatype TlsSettings = TlsSettings(serverName: Option<string>, fingerprint: Option<string>,
      reality: Option<RealitySettings>)

  datatype TransportSettings = Web(kind: string, path: string, hostHeader: Option<string>) | Grpc(serviceName: string)

  datatype Outbound = Outbound(
    server: string, port: Port, uuid: string, routingMark: nat,
    flow: Option<string>, tls: Option<TlsSettings>, transport: Option<TransportSettings>)

  datatype BoxConfig = BoxConfig(tunInterface: string, tunAddress: string, autoRoute: bool, outbound: Outbound)

  predicate Supported(t: ProxyTunnel) {
    && t.protocol == "vless" && t.server != "" && t.port != 0 && t.uuid != ""
    && (t.transport.kind == "" || t.transport.kind == "ws" || t.transport.kind == "httpupgrade"
         || t.transport.kind == "grpc")
  }

  /** A key that is left out when there is nothing to say. */
  function Setting(s: string): Option<string> { if s == "" then None else Some(s) }

  function TlsFor(tls: Tls): TlsSettings {
    TlsSettings(Setting(tls.serverName), Setting(tls.fingerprint),
                if tls.reality.enabled then Some(RealitySettings(tls.reality.publicKey, Setting(tls.reality.shortId)))
                  else None)
  }

  function TransportFor(transport: Transport): Option<TransportSettings> {
    if transport.kind == "" then None
    else if transport.kind == "grpc" then Some(Grpc(transport.serviceName))
    else Some(Web(transport.kind, transport.path, Setting(transport.host)))
  }

  /** None is a tunnel sing-box is not given. */
  function ConfigFor(t: ProxyTunnel): Option<BoxConfig> {
    if !Supported(t) then None
    else
      Some(BoxConfig(TUN_INTERFACE, TUN_ADDRESS, false,
                  Outbound(t.server, t.port, t.uuid, OUTBOUND_MARK, Setting(t.flow),
                           if t.tls.enabled then Some(TlsFor(t.tls)) else None, TransportFor(t.transport))))
  }

  method RenderSingBoxConfig(t: ProxyTunnel) returns (config: Option<BoxConfig>)
    ensures config == ConfigFor(t)
  {
    if t.protocol != "vless" { return None; }
    if t.server == "" || t.port == 0 || t.uuid == "" { return None; }
    var outbound := Outbound(t.server, t.port, t.uuid, OUTBOUND_MARK, None, None, None);
    if t.flow != "" { outbound := outbound.(flow := Some(t.flow)); }
    if t.tls.enabled {
      var tls := TlsSettings(None, None, None);
      if t.tls.serverName != "" { tls := tls.(serverName := Some(t.tls.serverName)); }
      if t.tls.fingerprint != "" { tls := tls.(fingerprint := Some(t.tls.fingerprint)); }
      if t.tls.reality.enabled {
        var reality := RealitySettings(t.tls.reality.publicKey, None);
        if t.tls.reality.shortId != "" { reality := reality.(shortId := Some(t.tls.reality.shortId)); }
        tls := tls.(reality := Some(reality));
      }
      outbound := outbound.(tls := Some(tls));
    }
    if t.transport.kind == "ws" || t.transport.kind == "httpupgrade" {
      var web := Web(t.transport.kind, t.transport.path, None);
      if t.transport.host != "" { web := web.(hostHeader := Some(t.transport.host)); }
      outbound := outbound.(transport := Some(web));
    } else if t.transport.kind == "grpc" {
      outbound := outbound.(transport := Some(Grpc(t.transport.serviceName)));
    } else if t.transport.kind != "" {
      return None;
    }
    return Some(BoxConfig(TUN_INTERFACE, TUN_ADDRESS, false, outbound));
  }

  function DialledTls(tls: Tls): Tls {
    if !tls.enabled then NO_TLS else if tls.reality.enabled then tls else tls.(reality := NO_REALITY)
  }

  function DialledTransport(transport: Transport): Transport {
    if transport.kind == "" then NO_TRANSPORT
    else if transport.kind == "grpc" then transport.(path := "", host := "")
    else transport.(serviceName := "")
  }

  /** What of a tunnel a connection depends on: settings that are switched off are not part of it. */
  function Dialled(t: ProxyTunnel): ProxyTunnel {
    t.(originServer := "", tls := DialledTls(t.tls), transport := DialledTransport(t.transport))
  }

  // ---- what the process makes of its configuration ----

  function Read(setting: Option<string>): string { if setting.None? then "" else setting.value }

  function TlsRead(settings: Option<TlsSettings>): Tls {
    if settings.None? then NO_TLS
    else
      Tls(true, Read(settings.value.serverName), Read(settings.value.fingerprint),
          if settings.value.reality.None? then NO_REALITY
          else Reality(true, settings.value.reality.value.publicKey, Read(settings.value.reality.value.shortId)))
  }

  function TransportRead(settings: Option<TransportSettings>): Transport {
    match settings
    case None => NO_TRANSPORT
    case Some(Web(kind, path, hostHeader)) => Transport(kind, path, Read(hostHeader), "")
    case Some(Grpc(serviceName)) => Transport("grpc", "", "", serviceName)
  }

  /** The connection sing-box makes from its settings: where to, as whom, and with what TLS and transport.
  A setting that is left out is empty. */
  function Dials(config: BoxConfig): ProxyTunnel {
    var o := config.outbound;
    ProxyTunnel("vless", o.server, "", o.port, o.uuid, Read(o.flow), TlsRead(o.tls), TransportRead(o.transport))
  }

  /** The name a TLS handshake shows: the configured one, or the server's. */
  function ShownName(config: BoxConfig): string {
    var o := config.outbound;
    if o.tls.None? then "" else if o.tls.value.serverName.None? then o.server else o.tls.value.serverName.value
  }

  /** The host a web transport asks for: that of the header, or the server. */
  function ShownHost(config: BoxConfig): string {
    var o := config.outbound;
    if o.transport.None? || o.transport.value.Grpc? then ""
    else if o.transport.value.hostHeader.None? then o.server else o.transport.value.hostHeader.value
  }

  /** Running the rendered configuration dials the tunnel: every setting ends up where the process looks
  for it.  Its sockets carry the mark, and it installs no routes of its own. */
  lemma RunningDialsTheTunnel(t: ProxyTunnel)
    ensures ConfigFor(t).Some? <==> Supported(t)
    ensures Supported(t) ==> var config := ConfigFor(t).value;
      && Dials(config) == Dialled(t)
      && config.outbound.routingMark == OUTBOUND_MARK && !config.autoRoute
      && config.tunInterface == TUN_INTERFACE && config.tunAddress == TUN_ADDRESS
  {
    hide TlsFor, TransportFor, TlsRead, TransportRead, DialledTls, DialledTransport;
    if Supported(t) {
      if t.tls.enabled { TlsIsRead(t.tls); }
      TransportIsRead(t.transport);
      NothingIsRead();
    }
  }

  lemma TlsIsRead(tls: Tls)
    requires tls.enabled
    ensures TlsRead(Some(TlsFor(tls))) == DialledTls(tls)
  {
  }

  lemma TransportIsRead(transport: Transport)
    ensures TransportRead(TransportFor(transport)) == DialledTransport(transport)
  {
  }

  lemma NothingIsRead()
    ensures TlsRead(None) == NO_TLS && forall tls: Tls :: !tls.enabled ==> DialledTls(tls) == NO_TLS
  {
  }

  lemma TlsSame(a: Tls, b: Tls)
    ensures a.enabled && b.enabled ==> (TlsFor(a) == TlsFor(b) <==> DialledTls(a) == DialledTls(b))
  {
  }

  lemma TransportSame(a: Transport, b: Transport)
    ensures TransportFor(a) == TransportFor(b) <==> DialledTransport(a) == DialledTransport(b)
  {
  }

  /** A configuration holds exactly what the connection depends on: nothing is lost and nothing is added. */
  lemma ConfigIsWhatIsDialled(t: ProxyTunnel, u: ProxyTunnel)
    ensures Supported(t) <==> Supported(Dialled(t))
    ensures Supported(t) && Supported(u) ==> (ConfigFor(t) == ConfigFor(u) <==> Dialled(t) == Dialled(u))
  {
    TlsSame(t.tls, u.tls);
    TransportSame(t.transport, u.transport);
  }
}
