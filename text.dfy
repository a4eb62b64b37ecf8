/** String helpers shared by several pages: JavaScript's notion of white space,
    String.prototype.trim, and Number.prototype.toString on non-negative integers. */
module Text {

  /** The code points matched by `\s` in a JavaScript regular expression and removed
      by String.prototype.trim: WhiteSpace and LineTerminator of ECMA-262. */
  predicate IsSpace(c: char) {
    c == '\t' || c == '\n' || c == '\U{B}' || c == '\U{C}' || c == '\r' || c == ' ' ||
    c == '\U{A0}' || c == '\U{1680}' || ('\U{2000}' <= c <= '\U{200A}') ||
    c == '\U{2028}' || c == '\U{2029}' || c == '\U{202F}' || c == '\U{205F}' ||
    c == '\U{3000}' || c == '\U{FEFF}'
  }

  predicate NoSpace(s: string) {
    forall i :: 0 <= i < |s| ==> !IsSpace(s[i])
  }

  lemma NoSpaceTail(s: string)
    requires s != [] && NoSpace(s)
    ensures NoSpace(s[1..])
  {
    forall i | 0 <= i < |s| - 1 ensures !IsSpace(s[1..][i]) {
      assert s[1..][i] == s[i + 1];
    }
  }

  /** Drops leading white space. */
  function TrimStart(s: string): (r: string)
    ensures |r| <= |s| && r == s[|s| - |r|..]
    ensures r == [] || !IsSpace(r[0])
  {
    if s == [] || !IsSpace(s[0]) then s else TrimStart(s[1..])
  }

  /** Everything `TrimStart` drops is white space. */
  lemma {:induction false} TrimStartDropsSpace(s: string)
    ensures forall k :: 0 <= k < |s| - |TrimStart(s)| ==> IsSpace(s[k])
    decreases |s|
  {
    if s != [] && IsSpace(s[0]) {
      TrimStartDropsSpace(s[1..]);
      forall k | 1 <= k < |s| - |TrimStart(s)| ensures IsSpace(s[k]) {
        assert s[k] == s[1..][k - 1];
      }
    }
  }

  /** Drops trailing white space. */
  function TrimEnd(s: string): (r: string)
    ensures |r| <= |s| && r == s[..|r|]
    ensures r == [] || !IsSpace(r[|r| - 1])
  {
    if s == [] || !IsSpace(s[|s| - 1]) then s else TrimEnd(s[..|s| - 1])
  }

  /** Everything `TrimEnd` drops is white space. */
  lemma {:induction false} TrimEndDropsSpace(s: string)
    ensures forall k :: |TrimEnd(s)| <= k < |s| ==> IsSpace(s[k])
    decreases |s|
  {
    if s != [] && IsSpace(s[|s| - 1]) {
      TrimEndDropsSpace(s[..|s| - 1]);
      forall k | |TrimEnd(s)| <= k < |s| - 1 ensures IsSpace(s[k]) {
        assert s[k] == s[..|s| - 1][k];
      }
    }
  }

  /** String.prototype.trim. */
  function Trim(s: string): string {
    TrimEnd(TrimStart(s))
  }

  /** Trimming leaves a contiguous piece of the input with no white space at either end. */
  lemma TrimIsInfix(s: string)
    ensures exists i, j :: 0 <= i <= j <= |s| && Trim(s) == s[i..j]
    ensures Trim(s) == [] || (!IsSpace(Trim(s)[0]) && !IsSpace(Trim(s)[|Trim(s)| - 1]))
  {
    var i := TrimOffset(s);
    assert Trim(s) == s[i..i + |Trim(s)|];
    TrimEdges(s);
  }

  /** Where the trimmed text starts in the input. */
  lemma TrimOffset(s: string) returns (i: nat)
    ensures i + |Trim(s)| <= |s| && Trim(s) == s[i..i + |Trim(s)|]
  {
    i := |s| - |TrimStart(s)|;
    PrefixOfSuffix(s, TrimStart(s), Trim(s), i);
  }

  lemma PrefixOfSuffix(s: string, t: string, r: string, i: nat)
    requires i <= |s| && t == s[i..] && |r| <= |t| && r == t[..|r|]
    ensures i + |r| <= |s| && r == s[i..i + |r|]
  {
  }

  lemma TrimEdges(s: string)
    ensures Trim(s) == [] || (!IsSpace(Trim(s)[0]) && !IsSpace(Trim(s)[|Trim(s)| - 1]))
  {
    var t := TrimStart(s);
    var r := TrimEnd(t);
    if r != [] {
      assert r[0] == t[0];
    }
  }

  function DigitChar(d: nat): (c: char)
    requires d < 10
    ensures '0' <= c <= '9'
    ensures c as int - '0' as int == d
  {
    ('0' as int + d) as char
  }

  /** The decimal digits of `n`, as Number.prototype.toString writes an integer. */
  function NatToString(n: nat): (r: string)
    ensures |r| >= 1
    ensures forall i :: 0 <= i < |r| ==> '0' <= r[i] <= '9'
    ensures NoSpace(r)
  {
    if n < 10 then [DigitChar(n)] else NatToString(n / 10) + [DigitChar(n % 10)]
  }

  /** Different numbers are written differently, so ids made from different clock readings
      differ. */
  lemma {:induction false} NatToStringInjective(a: nat, b: nat)
    ensures NatToString(a) == NatToString(b) <==> a == b
    decreases a
  {
    if NatToString(a) == NatToString(b) && a >= 10 && b >= 10 {
      var ra := NatToString(a);
      var rb := NatToString(b);
      assert ra[|ra| - 1] == DigitChar(a % 10) && rb[|rb| - 1] == DigitChar(b % 10);
      assert ra[..|ra| - 1] == NatToString(a / 10) && rb[..|rb| - 1] == NatToString(b / 10);
      NatToStringInjective(a / 10, b / 10);
    }
  }

  /** Trimming keeps a first character that is not white space. */
  lemma TrimKeepsFirst(s: string)
    requires s != [] && !IsSpace(s[0])
    ensures Trim(s) != [] && Trim(s)[0] == s[0]
  {
    assert TrimStart(s) == s;
    TrimEndDropsSpace(s);
  }

  /** The code units JavaScript stores for one character: a character above U+FFFF is a
      surrogate pair of two, any other character one. */
  function CodeUnits(c: char): (n: nat)
    ensures n == 1 || n == 2
    ensures n == 2 <==> c as int > 0xFFFF
  {
    if c as int > 0xFFFF then 2 else 1
  }

  /** The `length` of a JavaScript string holding `s`, in UTF-16 code units. */
  function Utf16Length(s: string): nat {
    if s == [] then 0 else CodeUnits(s[0]) + Utf16Length(s[1..])
  }

  /** `s.substring(0, n)`: the longest prefix of `s` within `n` code units. When code unit
      `n` is the first half of a surrogate pair, JavaScript keeps that lone half; a Dafny
      string cannot hold it, so the prefix ends before that character. */
  function Substring(s: string, n: nat): (r: string)
    ensures r <= s && Utf16Length(r) <= n
    ensures Utf16Length(s) <= n ==> r == s
    ensures |r| < |s| ==> Utf16Length(r) + CodeUnits(s[|r|]) > n && Utf16Length(r) + 1 >= n
    decreases |s|
  {
    if s == [] || CodeUnits(s[0]) > n then []
    else
      var rest := Substring(s[1..], n - CodeUnits(s[0]));
      assert ([s[0]] + rest)[1..] == rest;
      [s[0]] + rest
  }

  /** One step of `Substring`: a first character that fits is kept. */
  lemma SubstringCons(s: string, n: nat, c: nat)
    requires s != [] && c == CodeUnits(s[0]) && c <= n
    ensures Substring(s, n) == [s[0]] + Substring(s[1..], n - c)
  {
  }

  /** On text without characters above U+FFFF, code units are characters, and the
      substring is the plain prefix of `n` characters. */
  lemma {:induction false} SubstringBmp(s: string, n: nat)
    requires forall i :: 0 <= i < |s| ==> s[i] as int <= 0xFFFF
    ensures Substring(s, n) == s[..if |s| <= n then |s| else n]
    decreases |s|
  {
    if s == [] {
    } else if n == 0 {
      assert CodeUnits(s[0]) > n;
    } else {
      SubstringCons(s, n, 1);
      SubstringBmp(s[1..], n - 1);
      var m := if |s| - 1 <= n - 1 then |s| - 1 else n - 1;
      assert [s[0]] + s[1..][..m] == s[..m + 1];
    }
  }

  /** On text made only of characters above U+FFFF, each takes two code units, so the
      substring keeps `n / 2` characters. */
  lemma {:induction false} SubstringAstral(s: string, n: nat)
    requires forall i :: 0 <= i < |s| ==> s[i] as int > 0xFFFF
    ensures Substring(s, n) == s[..if |s| <= n / 2 then |s| else n / 2]
    decreases |s|
  {
    if s == [] {
    } else if n <= 1 {
      assert CodeUnits(s[0]) > n;
    } else {
      SubstringCons(s, n, 2);
      SubstringAstral(s[1..], n - 2);
      var m := if |s| - 1 <= (n - 2) / 2 then |s| - 1 else (n - 2) / 2;
      assert m + 1 == (if |s| <= n / 2 then |s| else n / 2);
      assert [s[0]] + s[1..][..m] == s[..m + 1];
    }
  }
}
