/** The browser's `btoa` and `atob`, which carry the PCM bytes as text in both directions:
    `btoa` is the base64 encoding of section 4 of RFC 4648 with padding, applied to a
    string whose characters are bytes; `atob` is the "forgiving-base64 decode" of the
    WHATWG Infra standard (ASCII white space removed, padding optional, leftover bits
    discarded). */
module Base64 {
  import opened Wrappers

  type sextet = v: int | 0 <= v < 64
  type octet = b: int | 0 <= b < 256

  /** The character for a 6-bit value in the alphabet of RFC 4648, section 4 (Table 1). */
  function EncodeChar(v: sextet): (c: char)
    ensures c != '='
  {
    if v < 26 then ('A' as int + v) as char
    else if v < 52 then ('a' as int + (v - 26)) as char
    else if v < 62 then ('0' as int + (v - 52)) as char
    else if v == 62 then '+' else '/'
  }

  predicate IsBase64Char(c: char) {
    ('A' <= c <= 'Z') || ('a' <= c <= 'z') || ('0' <= c <= '9') || c == '+' || c == '/'
  }

  function DecodeChar(c: char): (v: sextet)
    requires IsBase64Char(c)
  {
    if 'A' <= c <= 'Z' then c as int - 'A' as int
    else if 'a' <= c <= 'z' then c as int - 'a' as int + 26
    else if '0' <= c <= '9' then c as int - '0' as int + 52
    else if c == '+' then 62 else 63
  }

  lemma CharRoundTrip(v: sextet)
    ensures IsBase64Char(EncodeChar(v)) && DecodeChar(EncodeChar(v)) == v
  {
  }

  /** The 6-bit groups of a byte sequence, before padding: four per three bytes, and two or
      three for a final group of one or two bytes, its spare low bits zero. */
  function Sextets(b: seq<octet>): (r: seq<sextet>)
    ensures |r| == 4 * (|b| / 3) + (if |b| % 3 == 0 then 0 else |b| % 3 + 1)
    decreases |b|
  {
    if |b| == 0 then []
    else if |b| == 1 then [b[0] / 4, (b[0] % 4) * 16]
    else if |b| == 2 then [b[0] / 4, (b[0] % 4) * 16 + b[1] / 16, (b[1] % 16) * 4]
    else [b[0] / 4, (b[0] % 4) * 16 + b[1] / 16, (b[1] % 16) * 4 + b[2] / 64, b[2] % 64] + Sextets(b[3..])
  }

  function Padding(n: nat): string {
    if n % 3 == 1 then "==" else if n % 3 == 2 then "=" else ""
  }

  function Chars(v: seq<sextet>): (s: string)
    ensures |s| == |v|
  {
    seq(|v|, i requires 0 <= i < |v| => EncodeChar(v[i]))
  }

  /** Base64 with padding (RFC 4648, section 4). */
  function Encode(b: seq<octet>): (s: string)
    ensures |s| % 4 == 0
  {
    Chars(Sextets(b)) + Padding(|b|)
  }

  predicate IsBinaryString(s: string) {
    forall i :: 0 <= i < |s| ==> s[i] as int < 256
  }

  function Codes(s: string): (b: seq<octet>)
    requires IsBinaryString(s)
    ensures |b| == |s|
  {
    seq(|s|, i requires 0 <= i < |s| => s[i] as int)
  }

  function FromCodes(b: seq<octet>): (s: string)
    ensures |s| == |b| && IsBinaryString(s)
  {
    seq(|b|, i requires 0 <= i < |b| => b[i] as char)
  }

  /** A string built from byte codes reads back as the same codes. */
  lemma CodesOfFromCodes(b: seq<octet>)
    ensures Codes(FromCodes(b)) == b
  {
  }

  /** `btoa`: throws InvalidCharacterError (here None) for a character above U+00FF. */
  function Btoa(s: string): (r: Option<string>)
    ensures r.None? <==> !IsBinaryString(s)
  {
    if IsBinaryString(s) then Some(Encode(Codes(s))) else None
  }

  /** ASCII white space as the Infra standard defines it: TAB, LF, FF, CR and SPACE. */
  predicate IsAsciiSpace(c: char) {
    c == '\t' || c == '\n' || c == '\U{C}' || c == '\r' || c == ' '
  }

  function RemoveAsciiSpace(s: string): (r: string)
    ensures |r| <= |s|
    ensures forall i :: 0 <= i < |r| ==> !IsAsciiSpace(r[i])
  {
    if s == [] then []
    else if IsAsciiSpace(s[0]) then RemoveAsciiSpace(s[1..])
    else [s[0]] + RemoveAsciiSpace(s[1..])
  }

  /** When the length is a multiple of four, one or two trailing '=' are dropped. */
  function StripPadding(t: string): (r: string)
    ensures |r| <= |t|
  {
    if |t| % 4 == 0 && |t| >= 2 && t[|t| - 2] == '=' && t[|t| - 1] == '=' then t[..|t| - 2]
    else if |t| % 4 == 0 && |t| >= 1 && t[|t| - 1] == '=' then t[..|t| - 1]
    else t
  }

  /** Reassembles bytes from 6-bit groups; a final group of two or three keeps the one or
      two whole bytes its bits hold and discards the rest. */
  function DecodeSextets(v: seq<sextet>): (b: seq<octet>)
    requires |v| % 4 != 1
    decreases |v|
  {
    if |v| == 0 then []
    else
      var v0, v1: int := v[0], v[1];
      if |v| == 2 then [v0 * 4 + v1 / 16]
      else
        var v2: int := v[2];
        if |v| == 3 then [v0 * 4 + v1 / 16, (v1 % 16) * 16 + v2 / 4]
        else
          var v3: int := v[3];
          [v0 * 4 + v1 / 16, (v1 % 16) * 16 + v2 / 4, (v2 % 4) * 64 + v3] + DecodeSextets(v[4..])
  }

  predicate AllBase64(t: string) {
    forall i :: 0 <= i < |t| ==> IsBase64Char(t[i])
  }

  function Values(t: string): (v: seq<sextet>)
    requires AllBase64(t)
    ensures |v| == |t|
  {
    seq(|t|, i requires 0 <= i < |t| => DecodeChar(t[i]))
  }

  /** `atob`: None where it throws InvalidCharacterError. */
  function Atob(s: string): (r: Option<string>)
    ensures r.Some? ==> IsBinaryString(r.value)
  {
    var t := StripPadding(RemoveAsciiSpace(s));
    if |t| % 4 == 1 || !AllBase64(t) then None
    else Some(FromCodes(DecodeSextets(Values(t))))
  }

  lemma {:induction false} DecodeEncodedSextets(b: seq<octet>)
    ensures DecodeSextets(Sextets(b)) == b
    decreases |b|
  {
    if |b| >= 3 {
      var v := Sextets(b);
      var rest := Sextets(b[3..]);
      assert v[4..] == rest;
      DecodeEncodedSextets(b[3..]);
      assert b == b[..3] + b[3..];
      assert [b[0], b[1], b[2]] == b[..3];
    }
  }

  lemma NoAsciiSpaceUnchanged(s: string)
    requires forall i :: 0 <= i < |s| ==> !IsAsciiSpace(s[i])
    ensures RemoveAsciiSpace(s) == s
  {
    if s != [] {
      NoAsciiSpaceUnchanged(s[1..]);
      assert s == [s[0]] + s[1..];
    }
  }

  lemma StripEncodedPadding(b: seq<octet>)
    ensures StripPadding(Encode(b)) == Chars(Sextets(b))
  {
    var body := Chars(Sextets(b));
    var e := Encode(b);
    if |b| % 3 == 0 {
      if |e| >= 1 {
        assert e[|e| - 1] == body[|body| - 1] != '=';
      }
    } else if |b| % 3 == 1 {
      assert e[..|e| - 2] == body;
    } else {
      assert e[|e| - 2] == body[|body| - 1] != '=';
      assert e[..|e| - 1] == body;
    }
  }

  lemma ValuesOfChars(v: seq<sextet>)
    ensures AllBase64(Chars(v)) && Values(Chars(v)) == v
  {
    forall i | 0 <= i < |v|
      ensures IsBase64Char(Chars(v)[i]) && DecodeChar(Chars(v)[i]) == v[i]
    {
      CharRoundTrip(v[i]);
    }
  }

  lemma EncodedHasNoAsciiSpace(b: seq<octet>)
    ensures forall i :: 0 <= i < |Encode(b)| ==> !IsAsciiSpace(Encode(b)[i])
  {
    var e := Encode(b);
    var v := Sextets(b);
    forall i | 0 <= i < |e|
      ensures !IsAsciiSpace(e[i])
    {
      if i < |v| {
        CharRoundTrip(v[i]);
        assert e[i] == EncodeChar(v[i]);
      }
    }
  }

  /** Decoding what `btoa` produced gives the original binary string back. */
  lemma AtobBtoa(s: string)
    requires IsBinaryString(s)
    ensures Btoa(s).Some? && Atob(Btoa(s).value) == Some(s)
  {
    var b := Codes(s);
    var e := Encode(b);
    EncodedHasNoAsciiSpace(b);
    NoAsciiSpaceUnchanged(e);
    StripEncodedPadding(b);
    var v := Sextets(b);
    var t := Chars(v);
    assert StripPadding(RemoveAsciiSpace(e)) == t;
    SextetCount(b);
    ValuesOfChars(v);
    DecodeEncodedSextets(b);
    AtobOfBody(e, v);
    assert FromCodes(b) == s;
  }

  lemma SextetCount(b: seq<octet>)
    ensures |Sextets(b)| % 4 != 1
  {
    var n := |b|;
    assert |Sextets(b)| == 4 * (n / 3) + (if n % 3 == 0 then 0 else n % 3 + 1);
  }

  lemma AtobOfBody(e: string, v: seq<sextet>)
    requires StripPadding(RemoveAsciiSpace(e)) == Chars(v)
    requires |v| % 4 != 1
    requires AllBase64(Chars(v)) && Values(Chars(v)) == v
    ensures Atob(e) == Some(FromCodes(DecodeSextets(v)))
  {
  }

  /** `atob` rejects a string that, after white space and padding are removed, leaves one
      character more than a multiple of four, or that holds a character outside the
      alphabet. */
  lemma AtobRejects(s: string)
    ensures var t := StripPadding(RemoveAsciiSpace(s));
      Atob(s).None? <==> (|t| % 4 == 1 || exists i :: 0 <= i < |t| && !IsBase64Char(t[i]))
  {
  }
}
