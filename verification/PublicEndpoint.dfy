/** Which addresses a provider may send the hub to, and how a host name is pinned to one. */
module PublicEndpoint {
  import opened Ordering
  import opened Domain
  import opened Netip
  import opened Escaping
  import opened ShareLink

  // ------------------------------------------------------------------
  // Dotted addresses
  // ------------------------------------------------------------------

  function Join(a: nat, b: nat, c: nat, d: nat): int { ((a * 256 + b) * 256 + c) * 256 + d }

  function Dotted(a: Addr): string {
    Itoa(a / 0x100_0000) + "." + Itoa(a / 0x1_0000 % 256) + "." + Itoa(a / 256 % 256) + "." + Itoa(a % 256)
  }

  /** One field of a dotted address: a number below 256 without leading zeros. */
  function Field(s: string): Option<nat> {
    var n := Atoi(s);
    if n.None? || n.value >= 256 || Itoa(n.value) != s then None else n
  }

  /** None is text that is not an address, and so a name to be looked up. */
  function ParseAddress(s: string): Option<Addr> {
    var r1 := After(s, '.');
    var r2 := After(r1, '.');
    var a, b, c, d := Field(Before(s, '.')), Field(Before(r1, '.')), Field(Before(r2, '.')), Field(After(r2, '.'));
    if a.None? || b.None? || c.None? || d.None? then None else Some(Join(a.value, b.value, c.value, d.value))
  }

  lemma FieldPrinted(n: nat)
    requires n < 256
    ensures Field(Itoa(n)) == Some(n) && '.' !in Itoa(n) && Itoa(n) != ""
    ensures forall i :: 0 <= i < |Itoa(n)| ==> IsDigit(Itoa(n)[i])
  {
    hide Itoa, Atoi;
    AtoiItoa(n);
  }

  lemma {:induction false} CutWhole(s: string, c: char)
    ensures After(s, c) != "" ==> s == Before(s, c) + [c] + After(s, c)
  {
    if s != "" && s[0] != c { CutWhole(s[1..], c); assert s == [s[0]] + s[1..]; }
  }

  lemma BytesOf(a: Addr)
    ensures a / 0x100_0000 < 256
    ensures Join(a / 0x100_0000, a / 0x1_0000 % 256, a / 256 % 256, a % 256) == a
  {
    assert a / 256 / 256 == a / 0x1_0000 && a / 256 / 256 / 256 == a / 0x100_0000;
  }

  lemma BytesJoined(a: nat, b: nat, c: nat, d: nat)
    requires a < 256 && b < 256 && c < 256 && d < 256
    ensures var j := Join(a, b, c, d);
      j < ADDRESS_SPACE && j / 0x100_0000 == a && j / 0x1_0000 % 256 == b && j / 256 % 256 == c && j % 256 == d
  {
    var j := Join(a, b, c, d);
    assert j / 256 == (a * 256 + b) * 256 + c;
    assert j / 256 / 256 == a * 256 + b;
    assert j / 256 / 256 / 256 == a;
    assert j / 256 / 256 == j / 0x1_0000 && j / 256 / 256 / 256 == j / 0x100_0000;
  }

  /** Printing and reading an address are each other's inverse. */
  lemma ParseDotted(a: Addr)
    ensures ParseAddress(Dotted(a)) == Some(a)
  {
    hide Itoa, Field, Before, After;
    var w, x, y, z := Itoa(a / 0x100_0000), Itoa(a / 0x1_0000 % 256), Itoa(a / 256 % 256), Itoa(a % 256);
    BytesOf(a);
    FieldPrinted(a / 0x100_0000);
    FieldPrinted(a / 0x1_0000 % 256);
    FieldPrinted(a / 256 % 256);
    FieldPrinted(a % 256);
    assert Dotted(a) == w + ['.'] + (x + "." + y + "." + z);
    CutAt(w, '.', x + "." + y + "." + z);
    assert x + "." + y + "." + z == x + ['.'] + (y + "." + z);
    CutAt(x, '.', y + "." + z);
    assert y + "." + z == y + ['.'] + z;
    CutAt(y, '.', z);
  }

  lemma DottedParsed(s: string)
    requires ParseAddress(s).Some?
    ensures Dotted(ParseAddress(s).value) == s
  {
    hide Itoa, Before, After, Atoi;
    var r1 := After(s, '.');
    var r2 := After(r1, '.');
    var a, b, c, d := Field(Before(s, '.')), Field(Before(r1, '.')), Field(Before(r2, '.')), Field(After(r2, '.'));
    BytesJoined(a.value, b.value, c.value, d.value);
    AtoiItoa(d.value);
    CutWhole(r2, '.');
    CutWhole(r1, '.');
    CutWhole(s, '.');
  }

  /** A dotted address is a host name that needs no escaping. */
  lemma DottedIsPlain(a: Addr)
    ensures Dotted(a) != "" && forall i :: 0 <= i < |Dotted(a)| ==> IsDigit(Dotted(a)[i]) || Dotted(a)[i] == '.'
  {
    hide Itoa, Field;
    BytesOf(a);
    FieldPrinted(a / 0x100_0000);
    FieldPrinted(a / 0x1_0000 % 256);
    FieldPrinted(a / 256 % 256);
    FieldPrinted(a % 256);
  }

  // ------------------------------------------------------------------
  // Public addresses
  // ------------------------------------------------------------------

  function Four(a: nat, b: nat, c: nat, d: nat): Addr
    requires a < 256 && b < 256 && c < 256 && d < 256
  {
    Join(a, b, c, d)
  }

  /** The special-purpose IPv4 blocks. */
  const SPECIAL: seq<Cidr> := [
    Prefix(Four(0, 0, 0, 0), 8), Prefix(Four(10, 0, 0, 0), 8), Prefix(Four(100, 64, 0, 0), 10),
      Prefix(Four(127, 0, 0, 0), 8),
    Prefix(Four(169, 254, 0, 0), 16), Prefix(Four(172, 16, 0, 0), 12), Prefix(Four(192, 0, 0, 0), 24),
      Prefix(Four(192, 0, 2, 0), 24),
    Prefix(Four(192, 31, 196, 0), 24), Prefix(Four(192, 52, 193, 0), 24), Prefix(Four(192, 88, 99, 0), 24),
    Prefix(Four(192, 168, 0, 0), 16), Prefix(Four(192, 175, 48, 0), 24), Prefix(Four(198, 18, 0, 0), 15),
    Prefix(Four(198, 51, 100, 0), 24), Prefix(Four(203, 0, 113, 0), 24), Prefix(Four(224, 0, 0, 0), 4),
      Prefix(Four(240, 0, 0, 0), 4)
  ]

  /** Neither unspecified, broadcast, loopback, multicast nor link-local. */
  predicate GlobalUnicast(a: Addr) {
    var top := a / 0x100_0000;
    a != 0 && a != 0xFFFF_FFFF && top != 127 && !(224 <= top < 240) && a / 0x1_0000 != 169 * 256 + 254
  }

  predicate Public(a: Addr) {
    GlobalUnicast(a) && forall i :: 0 <= i < |SPECIAL| ==> !Contains(SPECIAL[i], a)
  }

  method ValidatePublicEndpoint(a: Addr) returns (ok: bool)
    ensures ok == Public(a)
  {
    if !GlobalUnicast(a) { return false; }
    for i := 0 to |SPECIAL|
      invariant forall j :: 0 <= j < i ==> !Contains(SPECIAL[j], a)
    {
      if Contains(SPECIAL[i], a) { return false; }
    }
    return true;
  }

  lemma BlockSizes()
    ensures BlockSize(8) == 0x100_0000 && BlockSize(16) == 0x1_0000 && BlockSize(4) == 0x1000_0000
  {
    assert Pow2(8) == 256;
    Pow2Adds(8, 8);
    Pow2Adds(16, 8);
    assert Pow2(4) == 16;
    Pow2Adds(24, 4);
  }

  lemma TopBlocks(a: Addr)
    requires forall i :: 0 <= i < |SPECIAL| ==> !Contains(SPECIAL[i], a)
    ensures a / 0x100_0000 != 0 && a / 0x100_0000 != 127
    ensures a / 0x1_0000 != 169 * 256 + 254 && a / 0x1000_0000 != 14 && a / 0x1000_0000 != 15
  {
    hide BlockSize;
    BlockSizes();
    assert SPECIAL[0] == Prefix(0, 8) && SPECIAL[3] == Prefix(0x7F00_0000, 8) && SPECIAL[4] == Prefix(0xA9FE_0000, 16);
    assert SPECIAL[16] == Prefix(0xE000_0000, 4) && SPECIAL[17] == Prefix(0xF000_0000, 4);
  }

  /** The list alone decides: what it lets through is global unicast already. */
  lemma ListDecides(a: Addr)
    ensures Public(a) <==> forall i :: 0 <= i < |SPECIAL| ==> !Contains(SPECIAL[i], a)
  {
    hide Contains;
    if forall i :: 0 <= i < |SPECIAL| ==> !Contains(SPECIAL[i], a) {
      TopBlocks(a);
      assert a / 0x100_0000 / 16 == a / 0x1000_0000;
    }
  }

  // ------------------------------------------------------------------
  // Pinning
  // ------------------------------------------------------------------

  function Lowest(answers: seq<Addr>): (a: Addr)
    requires answers != []
  {
    if |answers| == 1 then answers[0]
    else var rest := Lowest(answers[1..]); if answers[0] <= rest then answers[0] else rest
  }

  predicate AllPublic(answers: seq<Addr>) { forall i :: 0 <= i < |answers| ==> Public(answers[i]) }

  function HostHeader(transport: Transport, origin: string): Transport {
    if (transport.kind == "ws" || transport.kind == "httpupgrade") && transport.host == ""
      then transport.(host := origin) else transport
  }

  /** A name pinned to an address keeps its name wherever the name was the default. */
  function PinnedTo(t: ProxyTunnel, a: Addr): ProxyTunnel {
    t.(server := Dotted(a), originServer := t.server,
       tls := if t.tls.serverName == "" then t.tls.(serverName := t.server) else t.tls,
       transport := HostHeader(t.transport, t.server))
  }

  /** A lookup: the resolver has its own answer for every name but the empty one, which it refuses. */
  function LookedUp(name: string, lookup: Option<seq<Addr>>): Option<seq<Addr>> { if name == "" then None else lookup }

  /** The pinned tunnel, given what a lookup of its server would answer; None in either place is a failure. */
  function Pinned(t: ProxyTunnel, lookup: Option<seq<Addr>>): Option<ProxyTunnel> {
    var literal := ParseAddress(t.server);
    if literal.Some? then (if Public(literal.value) then Some(t.(server := Dotted(literal.value))) else None)
    else
      var answers := LookedUp(t.server, lookup);
      if answers.None? || answers.value == [] || !AllPublic(answers.value) then None
      else Some(PinnedTo(t, Lowest(answers.value)))
  }

  method PinPublicEndpoint(candidate: ProxyTunnel, lookup: Option<seq<Addr>>) returns (pinned: Option<ProxyTunnel>)
    ensures pinned == Pinned(candidate, lookup)
  {
    hide Public, Dotted, ParseAddress, Sort;
    var literal := ParseAddress(candidate.server);
    if literal.Some? {
      var ok := ValidatePublicEndpoint(literal.value);
      if !ok { return None; }
      return Some(candidate.(server := Dotted(literal.value)));
    }
    var found := LookedUp(candidate.server, lookup);
    if found.None? { return None; }
    var answers := found.value;
    if |answers| == 0 { return None; }
    var addresses: seq<Addr> := [];
    for i := 0 to |answers|
      invariant addresses == answers[..i]
      invariant AllPublic(addresses)
    {
      var ok := ValidatePublicEndpoint(answers[i]);
      if !ok { return None; }
      addresses := addresses + [answers[i]];
    }
    assert addresses == answers;
    addresses := Sort((x: Addr, y: Addr) => x <= y, addresses);
    SortedFirst(answers);
    var origin, t := candidate.server, candidate;
    t := t.(server := Dotted(addresses[0]));
    t := t.(originServer := origin);
    if t.tls.serverName == "" { t := t.(tls := t.tls.(serverName := origin)); }
    if (t.transport.kind == "ws" || t.transport.kind == "httpupgrade") && t.transport.host == "" {
      t := t.(transport := t.transport.(host := origin));
    }
    return Some(t);
  }

  lemma {:induction false} LowestIs(answers: seq<Addr>)
    requires answers != []
    ensures Lowest(answers) in answers && forall i :: 0 <= i < |answers| ==> Lowest(answers) <= answers[i]
  {
    if |answers| > 1 {
      LowestIs(answers[1..]);
      assert forall i :: 1 <= i < |answers| ==> answers[i] == answers[1..][i - 1];
    }
  }

  lemma SortedFirst(answers: seq<Addr>)
    requires answers != []
    ensures Sort((x: Addr, y: Addr) => x <= y, answers)[0] == Lowest(answers)
  {
    hide Sort, Lowest;
    var le := (x: Addr, y: Addr) => x <= y;
    var sorted := Sort(le, answers);
    SortSorted(le, answers);
    SameElements(sorted, answers);
    LowestIs(answers);
    assert sorted[0] in sorted && Lowest(answers) in sorted;
  }

  /** What is pinned is a public address from the answers, and pins to itself whatever a later lookup says. */
  lemma PinningIsFinal(t: ProxyTunnel, lookup: Option<seq<Addr>>, later: Option<seq<Addr>>)
    requires Pinned(t, lookup).Some?
    ensures var p := Pinned(t, lookup).value;
      && ParseAddress(p.server).Some? && Public(ParseAddress(p.server).value)
      && (ParseAddress(t.server).None? ==> lookup.Some? && ParseAddress(p.server).value in lookup.value)
      && Pinned(p, later) == Some(p)
  {
    hide Public, Dotted, ParseAddress, Lowest;
    var literal := ParseAddress(t.server);
    if literal.Some? {
      ParseDotted(literal.value);
    } else {
      LowestIs(lookup.value);
      ParseDotted(Lowest(lookup.value));
    }
  }

  /** The choice does not depend on the order a resolver answers in, nor on repeated answers. */
  lemma AnswersAreASet(t: ProxyTunnel, one: seq<Addr>, other: seq<Addr>)
    requires forall a: Addr :: a in one <==> a in other
    ensures Pinned(t, Some(one)) == Pinned(t, Some(other))
  {
    hide Public, Dotted, ParseAddress, Lowest;
    EmptyTogether(one, other);
    if one != [] {
      LowestIs(one);
      LowestIs(other);
      assert Lowest(one) in other && Lowest(other) in one;
      if AllPublic(other) { PublicAsSet(one, other); }
      if AllPublic(one) { PublicAsSet(other, one); }
    }
  }

  lemma EmptyTogether(one: seq<Addr>, other: seq<Addr>)
    requires forall a: Addr :: a in one <==> a in other
    ensures one == [] <==> other == []
  {
    if |one| > 0 { assert one[0] in one; }
    if |other| > 0 { assert other[0] in other; }
  }

  lemma PublicAsSet(one: seq<Addr>, other: seq<Addr>)
    requires (forall a: Addr :: a in one ==> a in other) && AllPublic(other)
    ensures AllPublic(one)
  {
    hide Public;
    forall i | 0 <= i < |one| ensures Public(one[i]) { assert one[i] in other; }
  }
}
