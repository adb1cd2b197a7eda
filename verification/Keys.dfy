/** Keys as the text they are written in, and the files they are read from.

An X25519 key is 32 bytes: in base64 a run of 43 characters, with one of padding in the standard
encoding and none in the one made for URLs.  Decoding skips line breaks, as the library does. */
module Keys {
  import opened Domain
  import opened Escaping

  function Unbroken(s: string): string {
    if s == "" then ""
    else if s[0] == '\n' || s[0] == '\r' then Unbroken(s[1..])
    else [s[0]] + Unbroken(s[1..])
  }

  predicate StandardChar(c: char) { Alphanumeric(c) || c == '+' || c == '/' }

  predicate UrlChar(c: char) { Alphanumeric(c) || c == '-' || c == '_' }

  /** Decodes to a key in the standard encoding. */
  predicate IsKey(s: string) {
    var u := Unbroken(s);
    |u| == 44 && u[43] == '=' && forall i :: 0 <= i < 43 ==> StandardChar(u[i])
  }

  /** Decodes to a key in the encoding for URLs, the one the fallback's clients read. */
  predicate IsUrlKey(s: string) {
    var u := Unbroken(s);
    |u| == 43 && forall i :: 0 <= i < 43 ==> UrlChar(u[i])
  }

  /** What reading a key file yields: its trimmed content, if it is there and a key this hub can use. */
  function KeyIn(file: Option<string>, usable: string -> bool): (key: Option<string>)
    ensures key.Some? ==> usable(key.value)
  {
    if file.None? || !usable(TrimSpace(file.value)) then None else Some(TrimSpace(file.value))
  }

  method ReadKey(file: Option<string>, usable: string -> bool) returns (key: Option<string>)
    ensures key == KeyIn(file, usable)
  {
    if file.None? { return None; }
    var text := TrimSpace(file.value);
    if !usable(text) { return None; }
    return Some(text);
  }

  /** Every key is told from the empty text and from the other encoding's keys. */
  lemma KeyText(s: string)
    ensures IsKey(s) ==> s != "" && !IsUrlKey(s)
    ensures IsUrlKey(s) ==> s != ""
  {
  }

  lemma {:induction false} PlainText(s: string)
    requires forall i :: 0 <= i < |s| ==> s[i] != '\n' && s[i] != '\r'
    ensures Unbroken(s) == s
  {
    if s != "" {
      PlainText(s[1..]);
      assert [s[0]] + s[1..] == s;
    }
  }
}
