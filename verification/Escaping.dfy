/** Percent-encoding (section 2.1 of RFC 3986) of the parts of an authority and of a query, as the
URL library does it, and the text tools the link parser is written with.  Text is a sequence of
bytes, each held as a character below 256. */
module Escaping {
  import opened Domain

  datatype Mode = UserPart | HostPart | QueryPart | PathPart

  predicate IsByte(c: char) { c as int < 256 }

  ghost predicate IsBytes(s: string) { forall i :: 0 <= i < |s| ==> IsByte(s[i]) }

  predicate IsDigit(c: char) { '0' <= c <= '9' }

  predicate Alphanumeric(c: char) { 'a' <= c <= 'z' || 'A' <= c <= 'Z' || IsDigit(c) }

  predicate IsHex(c: char) { IsDigit(c) || 'a' <= c <= 'f' || 'A' <= c <= 'F' }

  predicate OneOf(c: char, s: string) { c in s }

  predicate ShouldEscape(c: char, mode: Mode) {
    if Alphanumeric(c) then false
    else if mode == HostPart && OneOf(c, "!$&'()*+,;=:[]<>\"") then false
    else if OneOf(c, "-_.~") then false
    else if OneOf(c, "$&+,/:;=?@") then
      (match mode case UserPart => OneOf(c, "@/?:") case PathPart => c == '?' case _ => true)
    else true
  }

  function HexDigit(n: int): char
    requires 0 <= n < 16
  {
    if n < 10 then ('0' as int + n) as char else ('A' as int + n - 10) as char
  }

  function HexValue(c: char): (n: int)
    requires IsHex(c)
    ensures 0 <= n < 16
  {
    if IsDigit(c) then c as int - '0' as int
    else if 'a' <= c <= 'f' then c as int - 'a' as int + 10
    else c as int - 'A' as int + 10
  }

  function EscapeByte(c: char, mode: Mode): string {
    if mode == QueryPart && c == ' ' then "+"
    else if ShouldEscape(c, mode) then ['%', HexDigit(c as int / 16 % 16), HexDigit(c as int % 16)]
    else [c]
  }

  function Escape(s: string, mode: Mode): string {
    if s == "" then "" else EscapeByte(s[0], mode) + Escape(s[1..], mode)
  }

  /** None is text the library rejects: a broken escape, or in a host an escape of anything but '%'
  and bytes above 127, or a character a host cannot hold. */
  function Unescape(s: string, mode: Mode): Option<string> {
    if s == "" then Some("")
    else if s[0] == '%' then
      if |s| < 3 || !IsHex(s[1]) || !IsHex(s[2]) then None
      else if mode == HostPart && HexValue(s[1]) < 8 && s[..3] != "%25" then None
      else
        var rest := Unescape(s[3..], mode);
        if rest.None? then None else Some([(HexValue(s[1]) * 16 + HexValue(s[2])) as char] + rest.value)
    else if mode == HostPart && s[0] as int < 128 && ShouldEscape(s[0], mode) then None
    else
      var rest := Unescape(s[1..], mode);
      if rest.None? then None else Some([if mode == QueryPart && s[0] == '+' then ' ' else s[0]] + rest.value)
  }

  /** A byte that survives in a host. */
  predicate HostByte(c: char) { IsByte(c) && (c as int >= 128 || c == '%' || !ShouldEscape(c, HostPart)) }

  ghost predicate HostText(s: string) { forall i :: 0 <= i < |s| ==> HostByte(s[i]) }

  lemma HexRoundTrip(n: int)
    requires 0 <= n < 16
    ensures IsHex(HexDigit(n)) && HexValue(HexDigit(n)) == n
  {
  }

  function Prefixed(c: char, rest: Option<string>): Option<string> {
    if rest.None? then None else Some([c] + rest.value)
  }

  lemma UnescapePercent(hi: char, lo: char, rest: string, mode: Mode)
    requires IsHex(hi) && IsHex(lo) && (mode == HostPart ==> HexValue(hi) >= 8 || (hi == '2' && lo == '5'))
    ensures Unescape(['%', hi, lo] + rest, mode)
      == Prefixed((HexValue(hi) * 16 + HexValue(lo)) as char, Unescape(rest, mode))
  {
    hide ShouldEscape;
    var s := ['%', hi, lo] + rest;
    assert s[3..] == rest && s[..3] == ['%', hi, lo];
  }

  lemma UnescapePlain(c: char, rest: string, mode: Mode)
    requires c != '%' && (mode == HostPart ==> c as int >= 128 || !ShouldEscape(c, mode))
    ensures Unescape([c] + rest, mode)
      == Prefixed(if mode == QueryPart && c == '+' then ' ' else c, Unescape(rest, mode))
  {
    hide ShouldEscape;
    assert ([c] + rest)[1..] == rest;
  }

  lemma Escaped(c: char, mode: Mode)
    ensures ShouldEscape('%', mode) && (mode == QueryPart ==> ShouldEscape('+', mode))
    ensures mode == HostPart && c as int >= 128 ==> ShouldEscape(c, mode)
  {
  }

  lemma UnescapeOne(c: char, rest: string, mode: Mode)
    requires IsByte(c) && (mode == HostPart ==> HostByte(c))
    ensures Unescape(EscapeByte(c, mode) + rest, mode) == Prefixed(c, Unescape(rest, mode))
  {
    hide ShouldEscape, Unescape, Prefixed, HexDigit, HexValue;
    Escaped(c, mode);
    if mode == QueryPart && c == ' ' {
      UnescapePlain('+', rest, mode);
    } else if ShouldEscape(c, mode) {
      var hi, lo := c as int / 16 % 16, c as int % 16;
      HexRoundTrip(hi);
      HexRoundTrip(lo);
      PercentHex();
      UnescapePercent(HexDigit(hi), HexDigit(lo), rest, mode);
      assert hi * 16 + lo == c as int;
    } else {
      UnescapePlain(c, rest, mode);
    }
  }

  lemma PercentHex()
    ensures '%' as int == 37 && HexDigit(2) == '2' && HexDigit(5) == '5'
  {
  }

  /** Escaping is undone by unescaping, for every byte string; in a host, for what a host can hold. */
  lemma {:induction false} UnescapeEscape(s: string, mode: Mode)
    requires IsBytes(s) && (mode == HostPart ==> HostText(s))
    ensures Unescape(Escape(s, mode), mode) == Some(s)
  {
    hide EscapeByte, ShouldEscape, HostByte;
    if s != "" {
      UnescapeEscape(s[1..], mode);
      UnescapeOne(s[0], Escape(s[1..], mode), mode);
      assert [s[0]] + s[1..] == s;
    }
  }

  /** What can appear in escaped text. */
  predicate EscapedByte(c: char, mode: Mode) {
    c == '%' || (c == '+' && mode == QueryPart) || !ShouldEscape(c, mode)
  }

  lemma {:induction false} EscapedBytes(s: string, mode: Mode)
    ensures forall i :: 0 <= i < |Escape(s, mode)| ==> EscapedByte(Escape(s, mode)[i], mode)
  {
    if s != "" {
      EscapedBytes(s[1..], mode);
      EscapedOne(s[0], mode);
    }
  }

  lemma EscapedOne(c: char, mode: Mode)
    ensures EscapeByte(c, mode) != "" && forall i :: 0 <= i < |EscapeByte(c, mode)| ==>
      EscapedByte(EscapeByte(c, mode)[i], mode)
  {
  }

  lemma {:induction false} EscapeAppend(a: string, b: string, mode: Mode)
    ensures Escape(a + b, mode) == Escape(a, mode) + Escape(b, mode)
  {
    hide EscapeByte;
    if a == "" {
      assert a + b == b;
    } else {
      assert (a + b)[1..] == a[1..] + b;
      EscapeAppend(a[1..], b, mode);
    }
  }

  lemma {:induction false} EscapePlain(s: string, mode: Mode)
    requires forall i :: 0 <= i < |s| ==> !ShouldEscape(s[i], mode) && s[i] != ' '
    ensures Escape(s, mode) == s
  {
    hide ShouldEscape;
    if s != "" { EscapePlain(s[1..], mode); }
  }

  /** Unescaping yields bytes, and in a host only what a host can hold. */
  lemma {:induction false} UnescapedBytes(s: string, mode: Mode)
    requires IsBytes(s) && Unescape(s, mode).Some?
    ensures IsBytes(Unescape(s, mode).value)
    ensures mode == HostPart ==> HostText(Unescape(s, mode).value)
  {
    hide ShouldEscape;
    if s != "" {
      if s[0] == '%' { UnescapedBytes(s[3..], mode); } else { UnescapedBytes(s[1..], mode); }
      if s[0] == '%' && mode == HostPart { DecodedHostByte(s); }
    }
  }

  lemma DecodedHostByte(s: string)
    requires |s| >= 3 && s[0] == '%' && IsHex(s[1]) && IsHex(s[2]) && (HexValue(s[1]) >= 8 || s[..3] == "%25")
    ensures HostByte((HexValue(s[1]) * 16 + HexValue(s[2])) as char)
  {
    if HexValue(s[1]) < 8 { assert s[..3][1] == '2' && s[..3][2] == '5'; }
  }

  // ------------------------------------------------------------------
  // Cutting text
  // ------------------------------------------------------------------

  function Before(s: string, c: char): string {
    if s == "" || s[0] == c then "" else [s[0]] + Before(s[1..], c)
  }

  function After(s: string, c: char): (r: string)
    ensures s != "" ==> |r| < |s|
    ensures s == "" ==> r == ""
  {
    if s == "" then "" else if s[0] == c then s[1..] else After(s[1..], c)
  }

  function BeforeLast(s: string, c: char): string {
    if s == "" then "" else if s[|s| - 1] == c then s[..|s| - 1] else BeforeLast(s[..|s| - 1], c)
  }

  function AfterLast(s: string, c: char): string {
    if s == "" || s[|s| - 1] == c then "" else AfterLast(s[..|s| - 1], c) + [s[|s| - 1]]
  }

  lemma {:induction false} CutAt(a: string, c: char, b: string)
    requires c !in a
    ensures Before(a + [c] + b, c) == a && After(a + [c] + b, c) == b
    ensures Before(a, c) == a && After(a, c) == ""
  {
    if a == "" {
      assert a + [c] + b == [c] + b;
    } else {
      assert (a + [c] + b)[1..] == a[1..] + [c] + b;
      CutAt(a[1..], c, b);
      assert [a[0]] + a[1..] == a;
    }
  }

  lemma {:induction false} CutAtLast(a: string, c: char, b: string)
    requires c !in b
    ensures BeforeLast(a + [c] + b, c) == a && AfterLast(a + [c] + b, c) == b
  {
    var s := a + [c] + b;
    if b == "" {
      assert s == a + [c];
    } else {
      var n := |b| - 1;
      assert s[..|s| - 1] == a + [c] + b[..n];
      CutAtLast(a, c, b[..n]);
      assert b == b[..n] + [b[n]];
    }
  }

  /** Cuts of bytes are bytes. */
  lemma {:induction false} CutBytes(s: string, c: char)
    requires IsBytes(s)
    ensures IsBytes(Before(s, c)) && IsBytes(After(s, c)) && c !in Before(s, c)
  {
    if s != "" && s[0] != c { CutBytes(s[1..], c); }
  }

  lemma {:induction false} LastCutBytes(s: string, c: char)
    requires IsBytes(s)
    ensures IsBytes(BeforeLast(s, c)) && IsBytes(AfterLast(s, c))
    ensures c in s ==> s == BeforeLast(s, c) + [c] + AfterLast(s, c)
  {
    if s != "" {
      var front, n := s[..|s| - 1], |s| - 1;
      if s[n] == c {
        assert s == front + [c] + "";
      } else {
        LastCutBytes(front, c);
        if c in s {
          assert c in front;
          assert s == front + [s[n]];
        }
      }
    }
  }

  // ---- numbers ----

  function Itoa(n: nat): string {
    var d := [('0' as int + n % 10) as char];
    if n < 10 then d else Itoa(n / 10) + d
  }

  /** The value of a non-empty run of digits. */
  function Atoi(s: string): Option<nat> {
    if s == "" || !IsDigit(s[|s| - 1]) then None
    else
      var d := s[|s| - 1] as int - '0' as int;
      if |s| == 1 then Some(d)
      else
        var front := Atoi(s[..|s| - 1]);
        if front.None? then None else Some(front.value * 10 + d)
  }

  lemma {:induction false} AtoiItoa(n: nat)
    ensures Itoa(n) != "" && Atoi(Itoa(n)) == Some(n)
    ensures forall i :: 0 <= i < |Itoa(n)| ==> IsDigit(Itoa(n)[i])
  {
    if n >= 10 {
      AtoiItoa(n / 10);
      var d := [('0' as int + n % 10) as char];
      assert Itoa(n) == Itoa(n / 10) + d;
      assert Itoa(n)[..|Itoa(n)| - 1] == Itoa(n / 10);
    }
  }

  // ---- white space ----

  predicate IsSpace(c: char) { c == ' ' || '\t' <= c <= '\r' }

  function TrimLeft(s: string): string { if s != "" && IsSpace(s[0]) then TrimLeft(s[1..]) else s }

  function TrimRight(s: string): string { if s != "" && IsSpace(s[|s| - 1]) then TrimRight(s[..|s| - 1]) else s }

  function TrimSpace(s: string): string { TrimRight(TrimLeft(s)) }

  lemma {:induction false} TrimmedBytes(s: string)
    requires IsBytes(s)
    ensures IsBytes(TrimLeft(s)) && IsBytes(TrimRight(s))
  {
    if s != "" {
      if IsSpace(s[0]) { TrimmedBytes(s[1..]); }
      if IsSpace(s[|s| - 1]) { TrimmedBytes(s[..|s| - 1]); }
    }
  }
}
