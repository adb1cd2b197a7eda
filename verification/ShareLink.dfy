/** VLESS share links: `vless://UUID@host:port?query`.

The URL is taken apart the way the URL library does (sections 2.1 and 3.2 of RFC 3986); the model
has no bracketed hosts, which only IPv6 literals need. */
module ShareLink {
  import opened Ordering
  import opened Domain
  import opened Escaping

  datatype Reality = Reality(enabled: bool, publicKey: string, shortId: string)

  datatype Tls = Tls(enabled: bool, serverName: string, fingerprint: string, reality: Reality)

  datatype Transport = Transport(kind: string, path: string, host: string, serviceName: string)

  datatype ProxyTunnel = ProxyTunnel(
    protocol: string, server: string, originServer: string, port: Port, uuid: string, flow: string, tls: Tls,
      transport: Transport)

  const NO_REALITY := Reality(false, "", "")
  const NO_TLS := Tls(false, "", "", NO_REALITY)
  const NO_TRANSPORT := Transport("", "", "", "")

  // ------------------------------------------------------------------
  // Queries
  // ------------------------------------------------------------------

  /** One `key=value` of a query; what does not decode is skipped. */
  function Parameter(part: string): seq<(string, string)> {
    if part == "" || ';' in part then []
    else
      var k, v := Unescape(Before(part, '='), QueryPart), Unescape(After(part, '='), QueryPart);
      if k.None? || v.None? then [] else [(k.value, v.value)]
  }

  function Parameters(query: string): seq<(string, string)>
    decreases |query|
  {
    if query == "" then [] else Parameter(Before(query, '&')) + Parameters(After(query, '&'))
  }

  /** The first value of a key, or nothing. */
  function Get(parameters: seq<(string, string)>, key: string): string {
    if parameters == [] then "" else if parameters[0].0 == key then parameters[0].1 else Get(parameters[1..], key)
  }

  function PairText(key: string, value: string): string { Escape(key, QueryPart) + "=" + Escape(value, QueryPart) }

  function EncodeKeys(query: map<string, string>, keys: seq<string>): string
    requires forall i :: 0 <= i < |keys| ==> keys[i] in query
  {
    if keys == [] then ""
    else PairText(keys[0], query[keys[0]]) + (if |keys| == 1 then "" else "&" + EncodeKeys(query, keys[1..]))
  }

  /** Keys in order, joined by ampersands. */
  ghost function Encode(query: map<string, string>): string {
    assert forall i :: 0 <= i < |SortedNames(query.Keys)| ==> SortedNames(query.Keys)[i] in SortedNames(query.Keys);
    EncodeKeys(query, SortedNames(query.Keys))
  }

  lemma {:induction false} EncodeSnoc(query: map<string, string>, keys: seq<string>, key: string)
    requires key in query && forall i :: 0 <= i < |keys| ==> keys[i] in query
    ensures EncodeKeys(query, keys + [key]) == EncodeKeys(query, keys) + (if keys == [] then "" else "&")
      + PairText(key, query[key])
  {
    hide PairText;
    if keys == [] {
      assert [] + [key] == [key];
    } else {
      assert (keys + [key])[1..] == keys[1..] + [key];
      EncodeSnoc(query, keys[1..], key);
      if |keys| == 1 { assert keys[1..] == []; }
    }
  }

  method EncodeQuery(query: map<string, string>) returns (text: string)
    ensures text == Encode(query)
  {
    var keys: seq<string> := [];
    var left := query.Keys;
    while left != {}
      invariant left <= query.Keys
      invariant Distinct(keys) && forall k :: k in keys <==> k in query.Keys - left
    {
      var key :| key in left;
      assert key !in keys;
      left := left - {key};
      keys := keys + [key];
    }
    ListingSorts(keys, query.Keys);
    keys := Sort(LexLe, keys);
    text := JoinPairs(query, keys);
  }

  method JoinPairs(query: map<string, string>, keys: seq<string>) returns (text: string)
    requires forall k :: k in keys ==> k in query
    ensures text == EncodeKeys(query, keys)
  {
    hide PairText;
    text := "";
    for i := 0 to |keys|
      invariant text == EncodeKeys(query, keys[..i])
    {
      assert keys[..i + 1] == keys[..i] + [keys[i]];
      EncodeSnoc(query, keys[..i], keys[i]);
      text := text + (if i == 0 then "" else "&") + PairText(keys[i], query[keys[i]]);
    }
    assert keys[..|keys|] == keys;
  }

  /** A character of an encoded query, apart from its separators. */
  predicate QueryByte(c: char) { '!' <= c <= '~' && c != '&' && c != '=' && c != ';' && c != '#' && c != '?' }

  lemma QueryBytes(c: char)
    requires EscapedByte(c, QueryPart)
    ensures QueryByte(c)
  {
  }

  ghost predicate PairBytes(s: string) { forall i :: 0 <= i < |s| ==> QueryByte(s[i]) || s[i] == '=' }

  lemma PairTextIs(key: string, value: string)
    requires IsBytes(key) && IsBytes(value)
    ensures PairBytes(PairText(key, value)) && PairText(key, value) != ""
    ensures Parameter(PairText(key, value)) == [(key, value)]
  {
    hide EscapedByte, Escape, Unescape, QueryByte;
    var k, v := Escape(key, QueryPart), Escape(value, QueryPart);
    EscapedBytes(key, QueryPart);
    EscapedBytes(value, QueryPart);
    forall i | 0 <= i < |k| ensures QueryByte(k[i]) { QueryBytes(k[i]); }
    forall i | 0 <= i < |v| ensures QueryByte(v[i]) { QueryBytes(v[i]); }
    NoSeparators(k);
    NoSeparators(v);
    CutAt(k, '=', v);
    UnescapeEscape(key, QueryPart);
    UnescapeEscape(value, QueryPart);
  }

  lemma NoSeparators(s: string)
    requires forall i :: 0 <= i < |s| ==> QueryByte(s[i])
    ensures '&' !in s && '=' !in s && ';' !in s
  {
  }

  ghost predicate BytesMap(query: map<string, string>) {
    forall k :: k in query ==> IsBytes(k) && IsBytes(query[k])
  }

  ghost function PairsOf(query: map<string, string>, keys: seq<string>): seq<(string, string)>
    requires forall i :: 0 <= i < |keys| ==> keys[i] in query
  {
    seq(|keys|, i requires 0 <= i < |keys| => (keys[i], query[keys[i]]))
  }

  lemma AmpersandFree(s: string)
    requires PairBytes(s)
    ensures '&' !in s
  {
  }

  lemma ParametersStep(first: string, rest: string)
    requires first != "" && '&' !in first
    ensures Parameters(first) == Parameter(first)
    ensures Parameters(first + "&" + rest) == Parameter(first) + Parameters(rest)
  {
    hide Parameter;
    CutAt(first, '&', rest);
    assert first + ['&'] + rest == first + "&" + rest;
    assert Parameter(first) + [] == Parameter(first);
  }

  /** Encoding a query is undone by parsing it. */
  lemma {:induction false} ParametersOfEncoded(query: map<string, string>, keys: seq<string>)
    requires BytesMap(query) && forall i :: 0 <= i < |keys| ==> keys[i] in query
    ensures Parameters(EncodeKeys(query, keys)) == PairsOf(query, keys)
  {
    hide PairText, Parameter, BytesMap, PairBytes, Before, After;
    if keys != [] {
      var first, rest := PairText(keys[0], query[keys[0]]), EncodeKeys(query, keys[1..]);
      BytesIn(query, keys[0]);
      PairTextIs(keys[0], query[keys[0]]);
      AmpersandFree(first);
      ParametersOfEncoded(query, keys[1..]);
      ParametersStep(first, rest);
      if |keys| == 1 {
        assert first + "" == first;
      } else {
        assert first + ("&" + rest) == first + "&" + rest;
      }
    }
  }

  lemma BytesIn(query: map<string, string>, k: string)
    requires BytesMap(query) && k in query
    ensures IsBytes(k) && IsBytes(query[k])
  {
  }

  lemma {:induction false} GetPair(query: map<string, string>, keys: seq<string>, key: string)
    requires forall i :: 0 <= i < |keys| ==> keys[i] in query
    ensures Get(PairsOf(query, keys), key) == if key in keys then query[key] else ""
  {
    if keys != [] {
      GetPair(query, keys[1..], key);
      assert PairsOf(query, keys)[1..] == PairsOf(query, keys[1..]);
      assert keys == [keys[0]] + keys[1..];
    }
  }

  /** Reading a key back from an encoded query. */
  lemma GetEncoded(query: map<string, string>, key: string)
    requires BytesMap(query)
    ensures Get(Parameters(Encode(query)), key) == if key in query then query[key] else ""
  {
    hide BytesMap, PairsOf, EncodeKeys, Get;
    var keys := SortedNames(query.Keys);
    forall i | 0 <= i < |keys| ensures keys[i] in query { assert keys[i] in keys; }
    ParametersOfEncoded(query, keys);
    GetPair(query, keys, key);
  }

  // ------------------------------------------------------------------
  // Parsing
  // ------------------------------------------------------------------

  /** What a link says, before its meaning is looked at. */
  datatype Parts = Parts(uuid: string, server: string, port: string, parameters: seq<(string, string)>)

  function Lower(c: char): char { if 'A' <= c <= 'Z' then (c as int + 32) as char else c }

  predicate SchemeIsVless(u: string) {
    && |u| >= 6 && u[5] == ':'
    && Lower(u[0]) == 'v' && Lower(u[1]) == 'l' && Lower(u[2]) == 'e' && Lower(u[3]) == 's' && Lower(u[4]) == 's'
  }

  predicate Control(c: char) { c < ' ' || c as int == 127 }

  predicate HasControl(s: string) { exists i :: 0 <= i < |s| && Control(s[i]) }

  predicate UserinfoByte(c: char) { Alphanumeric(c) || OneOf(c, "-._:~!$&'()*+,;=%@") }

  predicate ValidUserinfo(s: string) { forall i :: 0 <= i < |s| ==> UserinfoByte(s[i]) }

  predicate AllDigits(s: string) { forall i :: 0 <= i < |s| ==> IsDigit(s[i]) }

  /** The host and the port, as text, of the part of an authority after its last '@'. */
  function ParseHost(text: string): Option<(string, string)> {
    if '[' in text || ']' in text then None // an IPv6 literal, or nothing the library accepts
    else if ':' !in text || !AllDigits(AfterLast(text, ':')) then None
    else
      var host := Unescape(text, HostPart);
      if host.None? || ':' in BeforeLast(host.value, ':') then None
      else Some((BeforeLast(host.value, ':'), AfterLast(host.value, ':')))
  }

  /** The user name of a userinfo; a password after a colon is decoded and ignored. */
  function ParseUser(text: string): Option<string> {
    if !ValidUserinfo(text) then None
    else
      var name, password := Unescape(Before(text, ':'), UserPart), Unescape(After(text, ':'), UserPart);
      if name.None? || password.None? then None else name
  }

  function ParseAuthority(authority: string): Option<(string, string, string)> {
    if '@' !in authority then None
    else
      var user, host := ParseUser(BeforeLast(authority, '@')), ParseHost(AfterLast(authority, '@'));
      if user.None? || host.None? then None else Some((user.value, host.value.0, host.value.1))
  }

  function SplitLink(link: string): Option<Parts> {
    var raw := TrimSpace(link);
    var u, fragment := Before(raw, '#'), After(raw, '#');
    if HasControl(u) || !SchemeIsVless(u) then None
    else
      var rest, query := Before(u[6..], '?'), After(u[6..], '?');
      if !("//" <= rest) then None
      else
        var authority, path := Before(rest[2..], '/'), After(rest[2..], '/');
        var parsed := ParseAuthority(authority);
        if parsed.None? || Unescape(path, PathPart).None? || Unescape(fragment, PathPart).None? then None
        else Some(Parts(parsed.value.0, parsed.value.1, parsed.value.2, Parameters(query)))
  }

  function ParseTls(server: string, parameters: seq<(string, string)>): Option<Tls> {
    var security := Get(parameters, "security");
    var sni, fp := Get(parameters, "sni"), Get(parameters, "fp");
    if security == "reality" then
      (if Get(parameters, "pbk") == "" || sni == "" then None
       else Some(Tls(true, sni, fp, Reality(true, Get(parameters, "pbk"), Get(parameters, "sid")))))
    else if security == "tls" then Some(Tls(true, if sni == "" then server else sni, fp, NO_REALITY))
    else if security == "" || security == "none" then Some(NO_TLS)
    else None
  }

  function ParseTransport(parameters: seq<(string, string)>): Option<Transport> {
    var kind := Get(parameters, "type");
    if kind == "" || kind == "tcp" then Some(NO_TRANSPORT)
    else if kind == "ws" || kind == "httpupgrade" then
      var path := Get(parameters, "path");
      Some(Transport(kind, if path == "" then "/" else path, Get(parameters, "host"), ""))
    else if kind == "grpc" then Some(Transport("grpc", "", "", Get(parameters, "serviceName")))
    else None
  }

  function TunnelFrom(parts: Parts): Option<ProxyTunnel> {
    var port := Atoi(parts.port);
    if parts.uuid == "" || port.None? || port.value == 0 || port.value >= 0x1_0000 then None
    else
      var tls, transport := ParseTls(parts.server, parts.parameters), ParseTransport(parts.parameters);
      if tls.None? || transport.None? then None
      else Some(ProxyTunnel("vless", parts.server, "", port.value, parts.uuid, Get(parts.parameters, "flow"), tls.value,
        transport.value))
  }

  /** None is a link the hub does not accept. */
  function ParseVLESS(link: string): Option<ProxyTunnel> {
    var parts := SplitLink(link);
    if parts.None? then None else TunnelFrom(parts.value)
  }

  // ------------------------------------------------------------------
  // Rendering
  // ------------------------------------------------------------------

  function With(query: map<string, string>, key: string, value: string): map<string, string> {
    if value == "" then query else query[key := value]
  }

  function SecurityQuery(query: map<string, string>, tls: Tls): map<string, string> {
    if tls.reality.enabled
      then With(query["security" := "reality"]["pbk" := tls.reality.publicKey], "sid", tls.reality.shortId)
    else if tls.enabled then query["security" := "tls"]
    else query
  }

  function TransportQuery(query: map<string, string>, transport: Transport): map<string, string> {
    if transport.kind == "" then query["type" := "tcp"]
    else if transport.kind == "grpc" then query["type" := "grpc"]["serviceName" := transport.serviceName]
    else With(query["type" := transport.kind]["path" := transport.path], "host", transport.host)
  }

  function QueryOf(t: ProxyTunnel): map<string, string> {
    var base := With(map["encryption" := "none"], "flow", t.flow);
    var named := With(With(SecurityQuery(base, t.tls), "sni", t.tls.serverName), "fp", t.tls.fingerprint);
    TransportQuery(named, t.transport)
  }

  function JoinHostPort(server: string, port: string): string {
    if ':' in server then "[" + server + "]:" + port else server + ":" + port
  }

  ghost function LinkOf(t: ProxyTunnel): string {
    "vless://" + Escape(t.uuid, UserPart) + "@" + Escape(JoinHostPort(t.server, Itoa(t.port)), HostPart) + "?"
      + Encode(QueryOf(t))
  }

  ghost function RenderedLink(t: ProxyTunnel): Option<string> {
    if t.server == "" || t.port == 0 || t.uuid == "" then None else Some(LinkOf(t))
  }

  method BuildQuery(t: ProxyTunnel) returns (query: map<string, string>)
    ensures query == QueryOf(t)
  {
    query := map["encryption" := "none"];
    if t.flow != "" { query := query["flow" := t.flow]; }
    if t.tls.reality.enabled {
      query := query["security" := "reality"];
      query := query["pbk" := t.tls.reality.publicKey];
      if t.tls.reality.shortId != "" { query := query["sid" := t.tls.reality.shortId]; }
    } else if t.tls.enabled {
      query := query["security" := "tls"];
    }
    if t.tls.serverName != "" { query := query["sni" := t.tls.serverName]; }
    if t.tls.fingerprint != "" { query := query["fp" := t.tls.fingerprint]; }
    if t.transport.kind == "" {
      query := query["type" := "tcp"];
    } else if t.transport.kind == "grpc" {
      query := query["type" := "grpc"];
      query := query["serviceName" := t.transport.serviceName];
    } else {
      query := query["type" := t.transport.kind];
      query := query["path" := t.transport.path];
      if t.transport.host != "" { query := query["host" := t.transport.host]; }
    }
  }

  method RenderVLESS(t: ProxyTunnel) returns (link: Option<string>)
    ensures link == RenderedLink(t)
  {
    hide QueryOf, Escape, Encode;
    if t.server == "" || t.port == 0 || t.uuid == "" { return None; }
    var query := BuildQuery(t);
    var encoded := EncodeQuery(query);
    return Some("vless://" + Escape(t.uuid, UserPart) + "@" + Escape(JoinHostPort(t.server, Itoa(t.port)), HostPart)
      + "?" + encoded);
  }
}
