/** Writing a tunnel as a link and reading it back. */
module LinkRoundTrip {
  import opened Ordering
  import opened Domain
  import opened Escaping
  import opened ShareLink

  // ------------------------------------------------------------------
  // Which tunnels
  // ------------------------------------------------------------------

  /** A host as it stands outside brackets. */
  ghost predicate HostName(server: string) {
    IsBytes(server) && HostText(server) && ':' !in server && '[' !in server && ']' !in server
  }

  ghost predicate ByteFields(t: ProxyTunnel) {
    && IsBytes(t.uuid) && IsBytes(t.flow)
    && IsBytes(t.tls.serverName) && IsBytes(t.tls.fingerprint) && IsBytes(t.tls.reality.publicKey)
         && IsBytes(t.tls.reality.shortId)
    && IsBytes(t.transport.kind) && IsBytes(t.transport.path) && IsBytes(t.transport.host)
         && IsBytes(t.transport.serviceName)
  }

  /** TLS settings a link can carry; a server name may be left over from pinning when TLS is off. */
  predicate LinkTls(tls: Tls) {
    if tls.reality.enabled then tls.enabled && tls.reality.publicKey != "" && tls.serverName != ""
      else tls.reality == NO_REALITY
  }

  predicate LinkTransport(transport: Transport) {
    || transport == NO_TRANSPORT
    || ((transport.kind == "ws" || transport.kind == "httpupgrade") && transport.path != ""
         && transport.serviceName == "")
    || (transport.kind == "grpc" && transport.path == "" && transport.host == "")
  }

  /** A tunnel a link can describe. */
  ghost predicate Formed(t: ProxyTunnel) {
    && t.protocol == "vless" && t.port != 0 && t.uuid != ""
    && HostName(t.server) && ByteFields(t) && LinkTls(t.tls) && LinkTransport(t.transport)
  }

  /** What reading the link back makes of it: where the address came from and TLS settings that are
  off are forgotten, and TLS without a name is given the server's. */
  function Reread(t: ProxyTunnel): ProxyTunnel {
    var name := if t.tls.serverName == "" then t.server else t.tls.serverName;
    t.(originServer := "", tls := if t.tls.enabled then t.tls.(serverName := name) else NO_TLS)
  }

  // ------------------------------------------------------------------
  // The query
  // ------------------------------------------------------------------

  function Value(query: map<string, string>, key: string): string { if key in query then query[key] else "" }

  lemma WithBytes(query: map<string, string>, key: string, value: string)
    requires BytesMap(query) && IsBytes(key) && IsBytes(value)
    ensures BytesMap(With(query, key, value)) && BytesMap(query[key := value])
  {
    hide IsBytes;
  }

  lemma SecurityBytes(query: map<string, string>, tls: Tls)
    requires BytesMap(query) && IsBytes(tls.reality.publicKey) && IsBytes(tls.reality.shortId)
    ensures BytesMap(SecurityQuery(query, tls))
  {
    hide BytesMap, With;
    WithBytes(query, "security", "reality");
    WithBytes(query, "security", "tls");
    WithBytes(query["security" := "reality"], "pbk", tls.reality.publicKey);
    WithBytes(query["security" := "reality"]["pbk" := tls.reality.publicKey], "sid", tls.reality.shortId);
  }

  lemma TransportBytes(query: map<string, string>, transport: Transport)
    requires BytesMap(query) && IsBytes(transport.kind) && IsBytes(transport.path) && IsBytes(transport.host)
      && IsBytes(transport.serviceName)
    ensures BytesMap(TransportQuery(query, transport))
  {
    hide BytesMap, With;
    WithBytes(query, "type", "tcp");
    WithBytes(query, "type", "grpc");
    WithBytes(query["type" := "grpc"], "serviceName", transport.serviceName);
    WithBytes(query, "type", transport.kind);
    WithBytes(query["type" := transport.kind], "path", transport.path);
    WithBytes(query["type" := transport.kind]["path" := transport.path], "host", transport.host);
  }

  lemma QueryIsBytes(t: ProxyTunnel)
    requires ByteFields(t)
    ensures BytesMap(QueryOf(t))
  {
    hide BytesMap, With, SecurityQuery, TransportQuery, IsBytes;
    OneEntry();
    Letters();
    WithBytes(map["encryption" := "none"], "flow", t.flow);
    var base := With(map["encryption" := "none"], "flow", t.flow);
    SecurityBytes(base, t.tls);
    WithBytes(SecurityQuery(base, t.tls), "sni", t.tls.serverName);
    WithBytes(With(SecurityQuery(base, t.tls), "sni", t.tls.serverName), "fp", t.tls.fingerprint);
    TransportBytes(With(With(SecurityQuery(base, t.tls), "sni", t.tls.serverName), "fp", t.tls.fingerprint),
      t.transport);
  }

  lemma OneEntry()
    ensures BytesMap(map["encryption" := "none"])
  {
  }

  lemma Letters()
    ensures IsBytes("flow") && IsBytes("sni") && IsBytes("fp")
  {
  }

  lemma SetValue(query: map<string, string>, key: string, value: string, other: string)
    ensures Value(query[key := value], other) == if other == key then value else Value(query, other)
    ensures Value(With(query, key, value), other) == if other == key && value != "" then value else Value(query, other)
  {
  }

  /** The keys of a written query are told apart by their first two letters. */
  lemma KeysDiffer(a: string, b: string)
    requires |a| >= 2 && |b| >= 2 && (a[0] != b[0] || a[1] != b[1])
    ensures a != b
  {
  }

  lemma SecurityValues(query: map<string, string>, tls: Tls, key: string)
    ensures key != "security" && key != "pbk" && key != "sid" ==>
      Value(SecurityQuery(query, tls), key) == Value(query, key)
  {
    hide Value, With;
    var q := query["security" := "reality"];
    SetValue(query, "security", "reality", key);
    SetValue(query, "security", "tls", key);
    SetValue(q, "pbk", tls.reality.publicKey, key);
    SetValue(q["pbk" := tls.reality.publicKey], "sid", tls.reality.shortId, key);
  }

  lemma SecurityLayer(query: map<string, string>, tls: Tls)
    requires !tls.reality.enabled
    ensures Value(SecurityQuery(query, tls), "security") == if tls.enabled then "tls" else Value(query, "security")
  {
    hide Value, With;
    SetValue(query, "security", "tls", "security");
  }

  lemma RealityLayer(query: map<string, string>, tls: Tls)
    requires tls.reality.enabled && Value(query, "sid") == ""
    ensures var q := SecurityQuery(query, tls);
      && Value(q, "security") == "reality" && Value(q, "pbk") == tls.reality.publicKey
           && Value(q, "sid") == tls.reality.shortId
  {
    hide Value, With;
    KeysDiffer("security", "pbk");
    KeysDiffer("security", "sid");
    KeysDiffer("pbk", "sid");
    RealityKey(query, tls, "security");
    RealityKey(query, tls, "pbk");
    RealityKey(query, tls, "sid");
  }

  lemma RealityKey(query: map<string, string>, tls: Tls, key: string)
    requires tls.reality.enabled
    ensures Value(SecurityQuery(query, tls), key) ==
      if key == "sid" && tls.reality.shortId != "" then tls.reality.shortId
      else if key == "pbk" then tls.reality.publicKey
      else if key == "security" then "reality"
      else Value(query, key)
  {
    hide Value, With;
    var q := query["security" := "reality"];
    SetValue(query, "security", "reality", key);
    SetValue(q, "pbk", tls.reality.publicKey, key);
    SetValue(q["pbk" := tls.reality.publicKey], "sid", tls.reality.shortId, key);
  }

  lemma TransportValues(query: map<string, string>, transport: Transport, key: string)
    ensures !TransportKey(key) ==> Value(TransportQuery(query, transport), key) == Value(query, key)
  {
    hide Value, With;
    var q := query["type" := transport.kind];
    SetValue(query, "type", "tcp", key);
    SetValue(query, "type", "grpc", key);
    SetValue(query["type" := "grpc"], "serviceName", transport.serviceName, key);
    SetValue(query, "type", transport.kind, key);
    SetValue(q, "path", transport.path, key);
    SetValue(q["path" := transport.path], "host", transport.host, key);
  }

  lemma PlainLayer(query: map<string, string>, transport: Transport)
    requires transport.kind == "" || transport.kind == "grpc"
    ensures Value(TransportQuery(query, transport), "type") == if transport.kind == "" then "tcp" else "grpc"
    ensures transport.kind == "grpc" ==> Value(TransportQuery(query, transport), "serviceName") == transport.serviceName
  {
    hide Value, With;
    KeysDiffer("type", "serviceName");
    SetValue(query, "type", "tcp", "type");
    SetValue(query, "type", "grpc", "type");
    SetValue(query["type" := "grpc"], "serviceName", transport.serviceName, "type");
    SetValue(query["type" := "grpc"], "serviceName", transport.serviceName, "serviceName");
  }

  lemma WebLayer(query: map<string, string>, transport: Transport)
    requires transport.kind != "" && transport.kind != "grpc" && Value(query, "host") == ""
    ensures var q := TransportQuery(query, transport);
      && Value(q, "type") == transport.kind && Value(q, "path") == transport.path && Value(q, "host") == transport.host
  {
    hide Value, With;
    KeysDiffer("type", "path");
    KeysDiffer("type", "host");
    KeysDiffer("path", "host");
    WebKey(query, transport, "type");
    WebKey(query, transport, "path");
    WebKey(query, transport, "host");
  }

  lemma WebKey(query: map<string, string>, transport: Transport, key: string)
    requires transport.kind != "" && transport.kind != "grpc"
    ensures Value(TransportQuery(query, transport), key) ==
      if key == "host" && transport.host != "" then transport.host
      else if key == "path" then transport.path
      else if key == "type" then transport.kind
      else Value(query, key)
  {
    hide Value, With;
    var q := query["type" := transport.kind];
    SetValue(query, "type", transport.kind, key);
    SetValue(q, "path", transport.path, key);
    SetValue(q["path" := transport.path], "host", transport.host, key);
  }

  /** The query before its transport, and before its names. */
  function Secured(t: ProxyTunnel): map<string, string> {
    SecurityQuery(With(map["encryption" := "none"], "flow", t.flow), t.tls)
  }

  function Named(t: ProxyTunnel): map<string, string> {
    With(With(Secured(t), "sni", t.tls.serverName), "fp", t.tls.fingerprint)
  }

  lemma FlowValues(t: ProxyTunnel, key: string)
    ensures key != "encryption" && key != "flow" ==> Value(With(map["encryption" := "none"], "flow", t.flow), key) == ""
    ensures Value(With(map["encryption" := "none"], "flow", t.flow), "flow") == t.flow
  {
    KeysDiffer("encryption", "flow");
  }

  lemma SecuredValues(t: ProxyTunnel)
    ensures Value(Secured(t), "flow") == t.flow && Value(Secured(t), "sni") == "" && Value(Secured(t), "fp") == ""
      && Value(Secured(t), "host") == ""
    ensures Value(Secured(t), "security")
      == (if t.tls.reality.enabled then "reality" else if t.tls.enabled then "tls" else "")
    ensures t.tls.reality.enabled ==>
      Value(Secured(t), "pbk") == t.tls.reality.publicKey && Value(Secured(t), "sid") == t.tls.reality.shortId
  {
    hide Value, With, SecurityQuery;
    var base := With(map["encryption" := "none"], "flow", t.flow);
    SecurityLetters();
    SecuredKey(t, "flow");
    SecuredKey(t, "sni");
    SecuredKey(t, "fp");
    SecuredKey(t, "host");
    FlowValues(t, "security");
    FlowValues(t, "sid");
    if t.tls.reality.enabled { RealityLayer(base, t.tls); } else { SecurityLayer(base, t.tls); }
  }

  lemma SecuredKey(t: ProxyTunnel, key: string)
    requires key != "security" && key != "pbk" && key != "sid" && key != "encryption"
    ensures Value(Secured(t), key) == if key == "flow" then t.flow else ""
  {
    hide Value, With, SecurityQuery;
    SecurityValues(With(map["encryption" := "none"], "flow", t.flow), t.tls, key);
    FlowValues(t, key);
  }

  lemma SecurityLetters()
    ensures "security" != "encryption" && "sid" != "encryption" && "sni" != "encryption" && "fp" != "encryption"
      && "host" != "encryption"
    ensures "security" != "flow" && "sid" != "flow" && "sni" != "flow" && "fp" != "flow" && "host" != "flow"
    ensures "flow" != "security" && "flow" != "pbk" && "flow" != "sid"
    ensures "sni" != "security" && "sni" != "pbk" && "sni" != "sid"
    ensures "fp" != "security" && "fp" != "pbk" && "fp" != "sid"
    ensures "host" != "security" && "host" != "pbk" && "host" != "sid"
  {
    KeysDiffer("security", "encryption");
    KeysDiffer("sid", "encryption");
    KeysDiffer("security", "sni");
    KeysDiffer("sid", "sni");
    KeysDiffer("fp", "flow");
    KeysDiffer("fp", "pbk");
    KeysDiffer("fp", "sid");
    KeysDiffer("flow", "security");
    KeysDiffer("flow", "host");
    KeysDiffer("pbk", "sni");
    KeysDiffer("host", "security");
  }

  lemma NamedValues(t: ProxyTunnel, key: string)
    requires Value(Secured(t), "sni") == "" && Value(Secured(t), "fp") == ""
    ensures Value(Named(t), key) ==
      if key == "sni" then t.tls.serverName else if key == "fp" then t.tls.fingerprint else Value(Secured(t), key)
  {
    hide Value, With, Secured;
    KeysDiffer("sni", "fp");
    SetValue(Secured(t), "sni", t.tls.serverName, key);
    SetValue(With(Secured(t), "sni", t.tls.serverName), "fp", t.tls.fingerprint, key);
  }

  lemma NameLetters()
    ensures "flow" != "sni" && "flow" != "fp" && "security" != "sni" && "security" != "fp" && "host" != "sni"
      && "host" != "fp"
    ensures "pbk" != "sni" && "pbk" != "fp" && "sid" != "sni" && "sid" != "fp"
  {
    SecurityLetters();
    KeysDiffer("flow", "sni");
    KeysDiffer("host", "sni");
    KeysDiffer("host", "fp");
    KeysDiffer("flow", "fp");
  }

  predicate TransportKey(key: string) { key == "type" || key == "path" || key == "host" || key == "serviceName" }

  lemma TransportLetters()
    ensures !TransportKey("flow") && !TransportKey("sni") && !TransportKey("fp") && !TransportKey("security")
      && !TransportKey("pbk") && !TransportKey("sid")
  {
    KeysDiffer("serviceName", "sni");
    KeysDiffer("serviceName", "sid");
    KeysDiffer("pbk", "path");
    assert "security"[2] == 'c' && "serviceName"[2] == 'r';
    KeysDiffer("flow", "type");
    KeysDiffer("flow", "path");
    KeysDiffer("flow", "host");
  }

  /** What each key of the written query holds. */
  lemma QueryValues(t: ProxyTunnel)
    ensures var q := QueryOf(t);
      && Value(q, "flow") == t.flow && Value(q, "sni") == t.tls.serverName && Value(q, "fp") == t.tls.fingerprint
      && Value(q, "security") == (if t.tls.reality.enabled then "reality" else if t.tls.enabled then "tls" else "")
      && Value(q, "type") == (if t.transport.kind == "" then "tcp" else t.transport.kind)
    ensures t.tls.reality.enabled ==>
      Value(QueryOf(t), "pbk") == t.tls.reality.publicKey && Value(QueryOf(t), "sid") == t.tls.reality.shortId
    ensures t.transport.kind == "grpc" ==> Value(QueryOf(t), "serviceName") == t.transport.serviceName
    ensures t.transport.kind != "" && t.transport.kind != "grpc" ==>
      Value(QueryOf(t), "path") == t.transport.path && Value(QueryOf(t), "host") == t.transport.host
  {
    hide Value, With, SecurityQuery, TransportQuery;
    assert QueryOf(t) == TransportQuery(Named(t), t.transport);
    ValuesOf(t);
  }

  lemma ValuesOf(t: ProxyTunnel)
    ensures var q := TransportQuery(Named(t), t.transport);
      && Value(q, "flow") == t.flow && Value(q, "sni") == t.tls.serverName && Value(q, "fp") == t.tls.fingerprint
      && Value(q, "security") == (if t.tls.reality.enabled then "reality" else if t.tls.enabled then "tls" else "")
      && Value(q, "type") == (if t.transport.kind == "" then "tcp" else t.transport.kind)
      && (t.tls.reality.enabled ==>
           Value(q, "pbk") == t.tls.reality.publicKey && Value(q, "sid") == t.tls.reality.shortId)
      && (t.transport.kind == "grpc" ==> Value(q, "serviceName") == t.transport.serviceName)
      && (t.transport.kind != "" && t.transport.kind != "grpc" ==>
           Value(q, "path") == t.transport.path && Value(q, "host") == t.transport.host)
  {
    hide Value, Named, Secured, TransportQuery, TransportKey;
    SecuredValues(t);
    TransportLetters();
    NameLetters();
    KeysDiffer("sni", "fp");
    Kept(t, "flow");
    Kept(t, "sni");
    Kept(t, "fp");
    Kept(t, "security");
    Kept(t, "pbk");
    Kept(t, "sid");
    NamedValues(t, "host");
    if t.transport.kind == "" || t.transport.kind == "grpc" { PlainLayer(Named(t), t.transport); }
      else { WebLayer(Named(t), t.transport); }
  }

  lemma Kept(t: ProxyTunnel, key: string)
    requires !TransportKey(key) && Value(Secured(t), "sni") == "" && Value(Secured(t), "fp") == ""
    ensures Value(TransportQuery(Named(t), t.transport), key) ==
      if key == "sni" then t.tls.serverName else if key == "fp" then t.tls.fingerprint else Value(Secured(t), key)
  {
    hide Value, Named, Secured, TransportQuery, TransportKey;
    TransportValues(Named(t), t.transport, key);
    NamedValues(t, key);
  }

  lemma TlsKept(t: ProxyTunnel, parameters: seq<(string, string)>)
    requires LinkTls(t.tls) && forall key :: Get(parameters, key) == Value(QueryOf(t), key)
    ensures ParseTls(t.server, parameters) == Some(Reread(t).tls)
  {
    hide QueryOf, Value, Get;
    QueryValues(t);
  }

  lemma TransportKept(t: ProxyTunnel, parameters: seq<(string, string)>)
    requires LinkTransport(t.transport) && forall key :: Get(parameters, key) == Value(QueryOf(t), key)
    ensures ParseTransport(parameters) == Some(t.transport)
  {
    hide QueryOf, Value, Get;
    QueryValues(t);
  }

  /** The parameters mean the tunnel they were written from. */
  lemma MeaningKept(t: ProxyTunnel, parameters: seq<(string, string)>)
    requires Formed(t) && forall key :: Get(parameters, key) == Value(QueryOf(t), key)
    ensures TunnelFrom(Parts(t.uuid, t.server, Itoa(t.port), parameters)) == Some(Reread(t))
  {
    hide QueryOf, Value, Get, HostName, ByteFields, LinkTls, LinkTransport, ParseTls, ParseTransport, Atoi, Itoa;
    TlsKept(t, parameters);
    TransportKept(t, parameters);
    QueryValues(t);
    AtoiItoa(t.port);
  }

  // ------------------------------------------------------------------
  // The link
  // ------------------------------------------------------------------

  predicate Printable(c: char) { '!' <= c <= '~' }

  ghost predicate Printed(s: string) { forall i :: 0 <= i < |s| ==> Printable(s[i]) && s[i] != '#' }

  lemma UserBytes(c: char)
    requires EscapedByte(c, UserPart)
    ensures Printable(c) && c != '#' && UserinfoByte(c) && c != '@' && c != '/' && c != '?' && c != ':'
  {
  }

  lemma HostBytes(c: char)
    requires EscapedByte(c, HostPart)
    ensures Printable(c) && c != '#' && c != '@' && c != '/' && c != '?'
  {
  }

  lemma UserText(uuid: string)
    ensures var u := Escape(uuid, UserPart);
      Printed(u) && ValidUserinfo(u) && '@' !in u && '/' !in u && '?' !in u && ':' !in u
  {
    hide EscapedByte, Escape, UserinfoByte;
    var u := Escape(uuid, UserPart);
    EscapedBytes(uuid, UserPart);
    forall i | 0 <= i < |u|
      ensures Printable(u[i]) && u[i] != '#' && UserinfoByte(u[i]) && u[i] != '@' && u[i] != '/' && u[i] != '?'
        && u[i] != ':'
    {
      UserBytes(u[i]);
    }
  }

  lemma {:induction false} AbsentStaysAbsent(s: string, mode: Mode, c: char)
    requires c !in s && c != '%' && c != '+' && !IsHex(c)
    ensures c !in Escape(s, mode)
  {
    hide EscapeByte;
    if s != "" {
      AbsentStaysAbsent(s[1..], mode, c);
      assert s[0] in s;
      AbsentFromOne(s[0], mode, c);
    }
  }

  lemma AbsentFromOne(b: char, mode: Mode, c: char)
    requires b != c && c != '%' && c != '+' && !IsHex(c)
    ensures c !in EscapeByte(b, mode)
  {
    hide ShouldEscape;
    HexRoundTrip(b as int / 16 % 16);
    HexRoundTrip(b as int % 16);
  }

  lemma DigitsArePlain(s: string)
    requires AllDigits(s)
    ensures forall i :: 0 <= i < |":" + s| ==> !ShouldEscape((":" + s)[i], HostPart) && (":" + s)[i] != ' '
    ensures forall i :: 0 <= i < |":" + s| ==> HostByte((":" + s)[i])
    ensures ':' !in s && '[' !in s && ']' !in s
  {
    forall i | 0 <= i < |":" + s| ensures !ShouldEscape((":" + s)[i], HostPart) && (":" + s)[i] != ' '
      && HostByte((":" + s)[i]) {
      if i > 0 { assert IsDigit(s[i - 1]); }
    }
  }

  /** The written authority's host part. */
  lemma HostPartText(server: string, port: string)
    requires HostName(server) && AllDigits(port) && port != ""
    ensures var h := Escape(server + ":" + port, HostPart);
      && Printed(h) && '@' !in h && '/' !in h && '?' !in h
      && ParseHost(h) == Some((server, port))
  {
    hide EscapedByte, Escape, Unescape, ShouldEscape, HostByte;
    var text := server + ":" + port;
    var h := Escape(text, HostPart);
    DigitsArePlain(port);
    assert text == server + (":" + port);
    EscapeAppend(server, ":" + port, HostPart);
    EscapePlain(":" + port, HostPart);
    assert h == Escape(server, HostPart) + [':'] + port;
    AbsentStaysAbsent(server, HostPart, '[');
    AbsentStaysAbsent(server, HostPart, ']');
    CutAtLast(Escape(server, HostPart), ':', port);
    assert text == server + [':'] + port;
    CutAtLast(server, ':', port);
    TextIsHost(server, port);
    UnescapeEscape(text, HostPart);
    EscapedBytes(text, HostPart);
    forall i | 0 <= i < |h| ensures Printable(h[i]) && h[i] != '#' && h[i] != '@' && h[i] != '/' && h[i] != '?' {
      HostBytes(h[i]);
    }
  }

  lemma TextIsHost(server: string, port: string)
    requires HostName(server) && AllDigits(port)
    ensures IsBytes(server + ":" + port) && HostText(server + ":" + port)
  {
    hide ShouldEscape, HostByte;
    var text := server + ":" + port;
    DigitsArePlain(port);
    forall i | 0 <= i < |text| ensures IsByte(text[i]) && HostByte(text[i]) {
      if i < |server| {
        assert text[i] == server[i];
      } else {
        assert text[i] == (":" + port)[i - |server|];
        HostByteIsByte(text[i]);
      }
    }
  }

  lemma HostByteIsByte(c: char)
    requires HostByte(c)
    ensures IsByte(c)
  {
  }

  lemma {:induction false} EncodedPrinted(query: map<string, string>, keys: seq<string>)
    requires BytesMap(query) && forall i :: 0 <= i < |keys| ==> keys[i] in query
    ensures Printed(EncodeKeys(query, keys))
  {
    hide PairText, BytesMap, PairBytes;
    if keys != [] {
      var first := PairText(keys[0], query[keys[0]]);
      BytesIn(query, keys[0]);
      PairTextIs(keys[0], query[keys[0]]);
      PairPrinted(first);
      EncodedPrinted(query, keys[1..]);
    }
  }

  lemma PairPrinted(s: string)
    requires PairBytes(s)
    ensures Printed(s)
  {
  }

  lemma QueryPrinted(query: map<string, string>)
    requires BytesMap(query)
    ensures Printed(Encode(query))
  {
    hide BytesMap, Printed, EncodeKeys;
    var keys := SortedNames(query.Keys);
    forall i | 0 <= i < |keys| ensures keys[i] in query { assert keys[i] in keys; }
    EncodedPrinted(query, keys);
  }

  lemma PrintedAppend(a: string, b: string)
    requires Printed(a) && Printed(b)
    ensures Printed(a + b)
  {
  }

  /** Printed text is its own trimming, and has nothing a URL is cut or refused at. */
  lemma PrintedIsWhole(s: string)
    requires Printed(s)
    ensures TrimSpace(s) == s && '#' !in s && !HasControl(s)
  {
    if s != "" { assert Printable(s[0]) && Printable(s[|s| - 1]); }
  }

  lemma AuthorityParses(uuid: string, server: string, port: string)
    requires IsBytes(uuid) && HostName(server) && AllDigits(port) && port != ""
    ensures var authority := Escape(uuid, UserPart) + "@" + Escape(server + ":" + port, HostPart);
      && Printed(authority) && '/' !in authority && '?' !in authority
      && ParseAuthority(authority) == Some((uuid, server, port))
  {
    hide Escape, Unescape, ParseHost, ValidUserinfo;
    var u, h := Escape(uuid, UserPart), Escape(server + ":" + port, HostPart);
    UserText(uuid);
    HostPartText(server, port);
    CutAtLast(u, '@', h);
    assert u + ['@'] + h == u + "@" + h;
    CutAt(u, ':', "");
    UnescapeEscape(uuid, UserPart);
    NothingDecodes();
  }

  lemma NothingDecodes()
    ensures Unescape("", UserPart) == Some("") && Unescape("", PathPart) == Some("")
  {
  }

  /** A link of this form comes apart into what it was put together from. */
  lemma FormSplits(authority: string, query: string)
    requires Printed(authority) && Printed(query) && '/' !in authority && '?' !in authority
    requires ParseAuthority(authority).Some?
    ensures var link, parsed := "vless://" + authority + "?" + query, ParseAuthority(authority).value;
      Printed(link) && SplitLink(link) == Some(Parts(parsed.0, parsed.1, parsed.2, Parameters(query)))
  {
    hide ParseAuthority, Parameters, Printed, HasControl, TrimSpace, Unescape;
    var head := "vless://";
    var link := head + authority + "?" + query;
    HeadPrinted();
    PrintedAppend(head, authority);
    PrintedAppend(head + authority, "?");
    PrintedAppend(head + authority + "?", query);
    PrintedIsWhole(link);
    CutAt(link, '#', "");
    assert link[..6] == "vless:";
    SchemeFound(link, authority + "?" + query);
    var rest := "//" + authority;
    assert link[6..] == rest + ['?'] + query;
    assert '?' !in rest;
    CutAt(rest, '?', query);
    assert rest[2..] == authority;
    CutAt(authority, '/', "");
    NothingDecodes();
  }

  lemma HeadPrinted()
    ensures Printed("vless://") && Printed("?")
  {
  }

  lemma SchemeFound(link: string, tail: string)
    requires link == "vless://" + tail
    ensures SchemeIsVless(link)
  {
    assert link[0] == 'v' && link[1] == 'l' && link[2] == 'e' && link[3] == 's' && link[4] == 's' && link[5] == ':';
  }

  /** Every link a tunnel is written as reads back as that tunnel, but for what is forgotten. */
  lemma WrittenLinkReads(t: ProxyTunnel)
    requires Formed(t)
    ensures RenderedLink(t) == if t.server == "" then None else Some(LinkOf(t))
    ensures ParseVLESS(LinkOf(t)) == Some(Reread(t)) && Printed(LinkOf(t)) && LinkOf(t) != ""
  {
    hide QueryOf, Escape, Encode, SplitLink, TunnelFrom, ParseAuthority, Printed, HostText, Reread, BytesMap, LinkTls,
         LinkTransport, Parameters, Get;
    var port := Itoa(t.port);
    AtoiItoa(t.port);
    AuthorityParses(t.uuid, t.server, port);
    QueryIsBytes(t);
    QueryPrinted(QueryOf(t));
    var authority := Escape(t.uuid, UserPart) + "@" + Escape(t.server + ":" + port, HostPart);
    FormSplits(authority, Encode(QueryOf(t)));
    assert LinkOf(t) == "vless://" + authority + "?" + Encode(QueryOf(t));
    forall key ensures Get(Parameters(Encode(QueryOf(t))), key) == Value(QueryOf(t), key) {
      GetEncoded(QueryOf(t), key);
    }
    MeaningKept(t, Parameters(Encode(QueryOf(t))));
  }

  // ------------------------------------------------------------------
  // What parsing yields
  // ------------------------------------------------------------------

  lemma {:induction false} ParametersAreBytes(query: string)
    requires IsBytes(query)
    ensures forall i :: 0 <= i < |Parameters(query)| ==>
      IsBytes(Parameters(query)[i].0) && IsBytes(Parameters(query)[i].1)
    decreases |query|
  {
    hide IsBytes, Unescape, Before, After;
    if query != "" {
      CutBytes(query, '&');
      ParametersAreBytes(After(query, '&'));
      ParameterIsBytes(Before(query, '&'));
    }
  }

  lemma ParameterIsBytes(part: string)
    requires IsBytes(part)
    ensures forall i :: 0 <= i < |Parameter(part)| ==> IsBytes(Parameter(part)[i].0) && IsBytes(Parameter(part)[i].1)
  {
    hide IsBytes, Unescape, Before, After;
    CutBytes(part, '=');
    if Unescape(Before(part, '='), QueryPart).Some? { UnescapedBytes(Before(part, '='), QueryPart); }
    if Unescape(After(part, '='), QueryPart).Some? { UnescapedBytes(After(part, '='), QueryPart); }
  }

  lemma {:induction false} GetIsBytes(parameters: seq<(string, string)>, key: string)
    requires forall i :: 0 <= i < |parameters| ==> IsBytes(parameters[i].1)
    ensures IsBytes(Get(parameters, key))
  {
    if parameters != [] { GetIsBytes(parameters[1..], key); }
  }

  lemma HostIsName(text: string)
    requires IsBytes(text) && ParseHost(text).Some?
    ensures HostName(ParseHost(text).value.0)
  {
    hide Unescape, ShouldEscape;
    UnescapedBytes(text, HostPart);
    var host := Unescape(text, HostPart).value;
    NoBracketsDecoded(text);
    LastCutBytes(host, ':');
    if ':' in host {
      var server := BeforeLast(host, ':');
      assert host == server + [':'] + AfterLast(host, ':');
      assert forall i :: 0 <= i < |server| ==> server[i] == host[i];
    } else {
      NoCut(host, ':');
    }
  }

  lemma {:induction false} NoCut(s: string, c: char)
    requires c !in s
    ensures BeforeLast(s, c) == ""
  {
    if s != "" { NoCut(s[..|s| - 1], c); }
  }

  /** Brackets cannot be smuggled into a host by escaping them. */
  lemma {:induction false} NoBracketsDecoded(text: string)
    requires '[' !in text && ']' !in text && Unescape(text, HostPart).Some?
    ensures '[' !in Unescape(text, HostPart).value && ']' !in Unescape(text, HostPart).value
  {
    hide ShouldEscape;
    if text != "" {
      if text[0] == '%' { NoBracketsDecoded(text[3..]); DecodedByte(text); } else { NoBracketsDecoded(text[1..]); }
    }
  }

  lemma DecodedByte(s: string)
    requires |s| >= 3 && IsHex(s[1]) && IsHex(s[2]) && (HexValue(s[1]) >= 8 || s[..3] == "%25")
    ensures (HexValue(s[1]) * 16 + HexValue(s[2])) as char != '['
      && (HexValue(s[1]) * 16 + HexValue(s[2])) as char != ']'
  {
    if HexValue(s[1]) < 8 { assert s[..3][1] == '2' && s[..3][2] == '5'; }
  }

  /** A link's parts are bytes, and its host a host name. */
  lemma PartsShape(link: string)
    requires IsBytes(link) && SplitLink(link).Some?
    ensures var parts := SplitLink(link).value;
      && HostName(parts.server) && IsBytes(parts.uuid)
      && forall i :: 0 <= i < |parts.parameters| ==> IsBytes(parts.parameters[i].1)
  {
    hide IsBytes, Unescape, Before, After, BeforeLast, AfterLast, TrimSpace, HasControl, ParseHost, ParseUser, HostName,
         Parameters;
    var raw := TrimSpace(link);
    TrimIsBytes(link);
    CutBytes(raw, '#');
    var u := Before(raw, '#');
    DropBytes(u, 6);
    CutBytes(u[6..], '?');
    var rest := Before(u[6..], '?');
    DropBytes(rest, 2);
    CutBytes(rest[2..], '/');
    var authority := Before(rest[2..], '/');
    LastCutBytes(authority, '@');
    HostIsName(AfterLast(authority, '@'));
    UserIsBytes(BeforeLast(authority, '@'));
    ParametersAreBytes(After(u[6..], '?'));
  }

  lemma TrimIsBytes(link: string)
    requires IsBytes(link)
    ensures IsBytes(TrimSpace(link))
  {
    TrimmedBytes(link);
    TrimmedBytes(Escaping.TrimLeft(link));
  }

  lemma DropBytes(s: string, n: nat)
    requires IsBytes(s) && n <= |s|
    ensures IsBytes(s[n..])
  {
  }

  lemma UserIsBytes(text: string)
    requires IsBytes(text) && ParseUser(text).Some?
    ensures IsBytes(ParseUser(text).value)
  {
    hide IsBytes, Unescape, Before, After;
    CutBytes(text, ':');
    UnescapedBytes(Before(text, ':'), UserPart);
  }

  /** Whatever link is accepted, a link can describe the tunnel it yields, and would forget nothing. */
  lemma ParsedIsFormed(link: string)
    requires IsBytes(link) && ParseVLESS(link).Some?
    ensures var t := ParseVLESS(link).value; Reread(t) == t && Formed(t)
  {
    hide SplitLink, Get, HostName, IsBytes, Atoi;
    PartsShape(link);
    var parts := SplitLink(link).value;
    forall key ensures IsBytes(Get(parts.parameters, key)) { GetIsBytes(parts.parameters, key); }
    KindsAreBytes();
    NameIsBytes(parts.server);
  }

  lemma KindsAreBytes()
    ensures IsBytes("") && IsBytes("grpc") && IsBytes("/")
  {
  }

  lemma NameIsBytes(server: string)
    requires HostName(server)
    ensures IsBytes(server)
  {
  }

  /** Reading undoes writing, on everything reading yields: the identity the stored link relies on. */
  lemma ParseRenderIdentity(link: string, t: ProxyTunnel)
    requires IsBytes(link) && ParseVLESS(link) == Some(t) && t.server != ""
    ensures RenderedLink(t).Some? && ParseVLESS(RenderedLink(t).value) == Some(t)
  {
    hide ParseVLESS, Formed, RenderedLink, Reread;
    ParsedIsFormed(link);
    WrittenLinkReads(t);
  }
}
