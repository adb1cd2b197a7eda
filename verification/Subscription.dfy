/** From a subscription's link to the configuration a tunnel runs on, by way of the link file. */
module Subscription {
  import opened Domain
  import opened Netip
  import opened Escaping
  import opened ShareLink
  import opened LinkRoundTrip
  import opened PublicEndpoint
  import opened SingBox

  // ------------------------------------------------------------------
  // Reading a link file
  // ------------------------------------------------------------------

  predicate HoldsAt(s: string, part: string, i: nat) { i <= |s| && part <= s[i..] }

  predicate Holds(s: string, part: string) { exists i :: 0 <= i <= |s| && HoldsAt(s, part, i) }

  /** The marks of a SOPS file, wherever they stand. */
  predicate Encrypted(content: string) {
    Holds(content, "sops") && (Holds(content, "ENC[") || Holds(content, "\"mac\"") || Holds(content, "mac="))
  }

  /** The first line that is neither blank nor a comment. */
  function FirstLine(content: string): string
    decreases |content|
  {
    var line := TrimSpace(Before(content, '\n'));
    if line != "" && line[0] != '#' then line
    else if content == "" then ""
    else FirstLine(After(content, '\n'))
  }

  method ReadFirstLine(content: string) returns (line: string)
    ensures line == FirstLine(content)
  {
    hide TrimSpace;
    var rest := content;
    while rest != ""
      invariant FirstLine(rest) == FirstLine(content)
      decreases |rest|
    {
      line := TrimSpace(Before(rest, '\n'));
      if line != "" && line[0] != '#' { return; }
      rest := After(rest, '\n');
    }
    NoLine();
    return "";
  }

  /** Blank lines and comments are passed over. */
  lemma CommentsAreSkipped(comment: string, beneath: string)
    requires '\n' !in comment && (TrimSpace(comment) == "" || TrimSpace(comment)[0] == '#')
    ensures FirstLine(comment + "\n" + beneath) == FirstLine(beneath)
  {
    hide TrimSpace;
    CutAt(comment, '\n', beneath);
    assert comment + ['\n'] + beneath == comment + "\n" + beneath;
  }

  lemma NoLine()
    ensures FirstLine("") == ""
  {
  }

  lemma NoNewline(s: string)
    requires Printed(s)
    ensures '\n' !in s
  {
  }

  /** A link on a line of its own is found whatever stands beneath it. */
  lemma LinkIsFirstLine(link: string, beneath: string)
    requires Printed(link) && link != ""
    ensures FirstLine(link + "\n" + beneath) == link
  {
    hide TrimSpace;
    PrintedIsWhole(link);
    NoNewline(link);
    CutAt(link, '\n', beneath);
    assert link + ['\n'] + beneath == link + "\n" + beneath;
  }

  /** What the reconciler makes of a link file: `decrypted` is what a decryptor makes of one that looks encrypted. */
  function Loaded(content: Option<string>, decrypted: Option<string>, lookup: Option<seq<Addr>>): Option<ProxyTunnel> {
    if content.None? then None
    else
      var text := if Encrypted(content.value) then decrypted else content;
      if text.None? then None
      else
        var parsed := ParseVLESS(FirstLine(text.value));
        if parsed.None? then None else Pinned(parsed.value, lookup)
  }

  /** An encrypted file is read as what it decrypts to. */
  lemma EncryptedIsItsText(content: string, text: string, lookup: Option<seq<Addr>>)
    requires Encrypted(content) && !Encrypted(text)
    ensures Loaded(Some(content), Some(text), lookup) == Loaded(Some(text), None, lookup)
    ensures Loaded(Some(content), None, lookup).None?
  {
  }

  method Load(content: Option<string>, decrypted: Option<string>, lookup: Option<seq<Addr>>)
    returns (upstream: Option<ProxyTunnel>)
    ensures upstream == Loaded(content, decrypted, lookup)
  {
    hide Encrypted, ParseVLESS, FirstLine, Pinned;
    if content.None? { return None; }
    var text := content.value;
    if Encrypted(text) {
      if decrypted.None? { return None; }
      text := decrypted.value;
    }
    var line := ReadFirstLine(text);
    var parsed := ParseVLESS(line);
    if parsed.None? { return None; }
    upstream := PinPublicEndpoint(parsed.value, lookup);
  }

  // ------------------------------------------------------------------
  // What was proven and what is deployed
  // ------------------------------------------------------------------

  lemma DottedIsName(a: Addr)
    ensures HostName(Dotted(a)) && Dotted(a) != "" && IsBytes(Dotted(a))
  {
    hide Dotted;
    DottedIsPlain(a);
    var s := Dotted(a);
    forall i | 0 <= i < |s| ensures HostByte(s[i]) && s[i] != ':' && s[i] != '[' && s[i] != ']' && IsByte(s[i]) {
      PlainByte(s[i]);
    }
  }

  lemma PlainByte(c: char)
    requires IsDigit(c) || c == '.'
    ensures HostByte(c) && c != ':' && c != '[' && c != ']' && IsByte(c)
  {
  }

  /** Pinning keeps a tunnel one that a link can describe. */
  lemma PinnedIsFormed(t: ProxyTunnel, lookup: Option<seq<Addr>>)
    requires Formed(t) && Pinned(t, lookup).Some?
    ensures Formed(Pinned(t, lookup).value) && Pinned(t, lookup).value.server != ""
  {
    hide Dotted, ParseAddress, Public, Lowest, HostText, IsBytes;
    var literal := ParseAddress(t.server);
    if literal.Some? { DottedIsName(literal.value); } else { DottedIsName(Lowest(lookup.value)); }
    NameIsBytes(t.server);
  }

  /** A pinned connection has a name to expect: a tunnel with neither host nor name is not pinned. */
  lemma PinnedIsNamed(t: ProxyTunnel, lookup: Option<seq<Addr>>)
    requires Reread(t) == t && Pinned(t, lookup).Some?
    ensures var p := Pinned(t, lookup).value; !(p.tls.enabled && p.tls.serverName == "")
  {
    hide Dotted, Public, Lowest;
    if t.server == "" { EmptyIsNoAddress(); }
  }

  lemma EmptyIsNoAddress()
    ensures ParseAddress("").None?
  {
  }

  /** Reading a link back changes what is dialled only where TLS had no name. */
  lemma RereadDials(p: ProxyTunnel)
    requires Formed(p) && p.server != ""
    ensures Supported(p) && Supported(Reread(p))
    ensures ConfigFor(Reread(p)) == ConfigFor(p) <==> !(p.tls.enabled && p.tls.serverName == "")
  {
    hide ConfigFor, HostName, ByteFields;
    ConfigIsWhatIsDialled(Reread(p), p);
  }

  /** Pinning changes which address is dialled and nothing a provider sees: the handshake shows the name and
  the web transport the host they would have shown had the tunnel been dialled by its name, and every
  other setting is as it was. */
  lemma PinningIsUnseen(t: ProxyTunnel, lookup: Option<seq<Addr>>)
    requires Supported(t) && Pinned(t, lookup).Some?
    ensures var p := Pinned(t, lookup).value;
      && Supported(p)
      && ShownName(ConfigFor(p).value) == ShownName(ConfigFor(t).value)
      && ShownHost(ConfigFor(p).value) == ShownHost(ConfigFor(t).value)
      && (ParseAddress(t.server).None? ==> p.originServer == t.server)
      && p == t.(server := p.server, originServer := p.originServer,
                 tls := t.tls.(serverName := p.tls.serverName), transport := t.transport.(host := p.transport.host))
  {
    hide Dotted, Public, ParseAddress, Lowest;
    if ParseAddress(t.server).Some? {
      DottedIsName(ParseAddress(t.server).value);
      DottedParsed(t.server);
    } else {
      DottedIsName(Lowest(lookup.value));
    }
  }

  function ConfigOf(upstream: Option<ProxyTunnel>): Option<BoxConfig> { if upstream.None? then None
      else ConfigFor(upstream.value) }

  ghost function StoredAs(p: ProxyTunnel): string { LinkOf(p) + "\n" }

  /** What the reconciler makes of a stored pinned tunnel, whatever its own lookup answers. */
  lemma StoredLoads(p: ProxyTunnel, decrypted: Option<string>, later: Option<seq<Addr>>)
    requires Formed(p) && ParseAddress(p.server).Some? && Public(ParseAddress(p.server).value)
      && !Encrypted(StoredAs(p))
    ensures Loaded(Some(StoredAs(p)), decrypted, later) == Some(Reread(p))
  {
    hide Formed, LinkOf, Encrypted, ParseVLESS, FirstLine, Public, Dotted, ParseAddress, Printed;
    WrittenLinkReads(p);
    LinkIsFirstLine(LinkOf(p), "");
    DottedParsed(p.server);
    assert LinkOf(p) + "\n" + "" == StoredAs(p);
  }

  /** What was proven is what is deployed: for every accepted link and every pair of lookups, the
  configuration rendered from the stored link is the one the canary proved, unless the stored link
  is taken for an encrypted file. */
  lemma DeployedIsProven(link: string, t: ProxyTunnel, atCanary: Option<seq<Addr>>, atReload: Option<seq<Addr>>)
    requires IsBytes(link) && ParseVLESS(link) == Some(t) && Pinned(t, atCanary).Some?
    ensures var p := Pinned(t, atCanary).value;
      && ConfigFor(p).Some? && RenderedLink(p) == Some(LinkOf(p))
      && (ConfigOf(Loaded(Some(StoredAs(p)), None, atReload)) == ConfigFor(p) <==> !Encrypted(StoredAs(p)))
  {
    hide ParseVLESS, Formed, LinkOf, Encrypted, Public, Dotted, ParseAddress, Reread, ConfigFor, StoredAs;
    var p := Pinned(t, atCanary).value;
    ParsedIsFormed(link);
    PinnedIsFormed(t, atCanary);
    PinnedIsNamed(t, atCanary);
    PinningIsFinal(t, atCanary, atReload);
    WrittenLinkReads(p);
    RereadDials(p);
    SupportedHasConfig(p);
    if !Encrypted(StoredAs(p)) { StoredLoads(p, None, atReload); }
  }

  lemma SupportedHasConfig(p: ProxyTunnel)
    requires Supported(p)
    ensures ConfigFor(p).Some?
  {
  }

  // ---- how it fails ----

  const RESOLVER: Addr := 0x0808_0808

  lemma ResolverIsPublic()
    ensures Public(RESOLVER)
  {
    hide Contains;
    forall i | 0 <= i < |SPECIAL| ensures !Contains(SPECIAL[i], RESOLVER) {
      NotSpecial(i);
    }
    ListDecides(RESOLVER);
  }

  lemma NotSpecial(i: nat)
    requires i < |SPECIAL|
    ensures !Contains(SPECIAL[i], RESOLVER)
  {
    hide BlockSize;
    BlockSizes();
    if Contains(SPECIAL[i], RESOLVER) && i < 16 {
      SpecialTops(i);
      ShorterPrefix(RESOLVER, SPECIAL[i].addr, 8, SPECIAL[i].bits);
    }
    assert SPECIAL[16] == Prefix(0xE000_0000, 4) && SPECIAL[17] == Prefix(0xF000_0000, 4);
  }

  lemma SpecialTops(i: nat)
    requires i < 16
    ensures 8 <= SPECIAL[i].bits <= 32 && SPECIAL[i].addr / 0x100_0000 != 8
  {
  }

  lemma PrintedIsBytes(s: string)
    requires Printed(s)
    ensures IsBytes(s)
  {
  }

  /** A user name that reads like the marks of a SOPS file. */
  lemma UserTakenForMarks() returns (link: string, t: ProxyTunnel)
    ensures IsBytes(link) && ParseVLESS(link) == Some(t) && Pinned(t, None) == Some(t) && Encrypted(StoredAs(t))
    ensures ConfigFor(t).Some? && Loaded(Some(StoredAs(t)), None, None).None?
  {
    hide ParseVLESS, Public, Dotted, ParseAddress, ConfigFor, Encrypted, LinkOf, Printed;
    t := ProxyTunnel("vless", Dotted(RESOLVER), "", 443, "sops-mac=", "", NO_TLS, NO_TRANSPORT);
    ResolverIsPublic();
    ParseDotted(RESOLVER);
    DottedIsName(RESOLVER);
    assert HostName("") && IsBytes("sops-mac=");
    WrittenLinkReads(t);
    link := LinkOf(t);
    PrintedIsBytes(link);
    DeployedIsProven(link, t, None, None);
    MarksFound(t);
  }

  lemma MarksFound(t: ProxyTunnel)
    requires t.uuid == "sops-mac=" && ':' !in t.server
    ensures Encrypted(StoredAs(t))
  {
    hide Escape, Encode, QueryOf, Holds, HoldsAt;
    MarksUnescaped();
    var rest := "@" + Escape(JoinHostPort(t.server, Itoa(t.port)), HostPart) + "?" + Encode(QueryOf(t)) + "\n";
    var s := StoredAs(t);
    assert s == "vless://" + "sops-mac=" + rest;
    assert s[8..] == "sops-mac=" + rest;
    assert s[13..] == "mac=" + rest;
    FoundAt(s, "sops", 8);
    FoundAt(s, "mac=", 13);
  }

  lemma FoundAt(s: string, part: string, i: nat)
    requires i <= |s| && part <= s[i..]
    ensures Holds(s, part)
  {
    assert HoldsAt(s, part, i);
  }

  lemma MarksUnescaped()
    ensures Escape("sops-mac=", UserPart) == "sops-mac="
  {
    hide Escape;
    EscapePlain("sops-mac=", UserPart);
  }
}
