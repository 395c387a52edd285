/** String and number helpers standing in for the JavaScript built-ins the source calls. */
module Text {
  import opened Wrappers

  function Min(a: int, b: int): int { if a <= b then a else b }
  function Max(a: int, b: int): int { if a >= b then a else b }

  /** JavaScript `Math.round` on an exact real: round half up. */
  function Round(x: real): (r: int)
    ensures x - 0.5 < r as real <= x + 0.5
  {
    (x + 0.5).Floor
  }

  /** `c.repeat(n)`. */
  function Repeat(c: char, n: nat): (r: string)
    ensures |r| == n && forall i :: 0 <= i < n ==> r[i] == c
  {
    if n == 0 then "" else Repeat(c, n - 1) + [c]
  }

  /** `parts.join(sep)`. */
  function Join(parts: seq<string>, sep: string): string
  {
    if |parts| == 0 then ""
    else if |parts| == 1 then parts[0]
    else parts[0] + sep + Join(parts[1..], sep)
  }

  predicate StartsWith(s: string, p: string) {
    |p| <= |s| && s[..|p|] == p
  }

  /** `s.includes(sub)`. */
  predicate Contains(s: string, sub: string)
    decreases |s|
  {
    StartsWith(s, sub) || (|s| > 0 && Contains(s[1..], sub))
  }

  function LowerChar(c: char): char {
    if 'A' <= c <= 'Z' then (c as int - 'A' as int + 'a' as int) as char else c
  }

  /** `s.toLowerCase()`, restricted to the ASCII letters. */
  function LowerAscii(s: string): (r: string)
    ensures |r| == |s| && forall i :: 0 <= i < |s| ==> r[i] == LowerChar(s[i])
  {
    if s == [] then [] else [LowerChar(s[0])] + LowerAscii(s[1..])
  }

  // ---- UTF-16 code units --------------------------------------------------------
  // A Dafny string is a sequence of Unicode scalar values; JavaScript measures and
  // slices strings in UTF-16 code units, two for a code point above U+FFFF.

  function Utf16Units(c: char): nat { if c as int >= 0x10000 then 2 else 1 }

  /** JavaScript's `s.length`. */
  function Utf16Length(s: string): (n: nat)
    ensures |s| <= n <= 2 * |s|
  {
    if s == [] then 0 else Utf16Units(s[0]) + Utf16Length(s[1..])
  }

  /** `.length` agrees with the number of characters exactly when none lies above U+FFFF. */
  lemma {:induction false} Utf16LengthBmp(s: string)
    ensures Utf16Length(s) == |s| <==> forall i :: 0 <= i < |s| ==> s[i] as int < 0x10000
  {
    if s != [] {
      Utf16LengthBmp(s[1..]);
      assert forall i :: 1 <= i < |s| ==> s[i] == s[1..][i - 1];
    }
  }

  lemma {:induction false} Utf16LengthConcat(a: string, b: string)
    ensures Utf16Length(a + b) == Utf16Length(a) + Utf16Length(b)
  {
    if a != [] {
      assert (a + b)[0] == a[0] && (a + b)[1..] == a[1..] + b;
      Utf16LengthConcat(a[1..], b);
    } else {
      assert a + b == b;
    }
  }

  /**
   * `s.slice(0, n)` on a code-unit boundary: the longest prefix of `s` that is at
   * most `n` code units long.
   */
  function Utf16Prefix(s: string, n: nat): (r: string)
    ensures |r| <= |s| && r == s[..|r|] && Utf16Length(r) <= n
    ensures Utf16Length(s) <= n ==> r == s
    ensures |r| < |s| ==> Utf16Length(s[..|r| + 1]) > n
  {
    if s == [] || Utf16Units(s[0]) > n then
      assert s != [] ==> Utf16Length(s[..1]) == Utf16Units(s[0]) by {
        if s != [] { assert s[..1][1..] == []; }
      }
      []
    else
      var rest := Utf16Prefix(s[1..], n - Utf16Units(s[0]));
      assert ([s[0]] + rest)[1..] == rest;
      assert |rest| < |s[1..]| ==> s[..|rest| + 2][1..] == s[1..][..|rest| + 1];
      [s[0]] + rest
  }

  /** Position of the first `c` in `s`, or `|s|` when there is none. */
  function IndexOf(s: string, c: char): (k: nat)
    ensures k <= |s| && c !in s[..k] && (k < |s| ==> s[k] == c)
  {
    if s == [] then 0 else if s[0] == c then 0 else 1 + IndexOf(s[1..], c)
  }

  /** `s.split(c)` for a one-character separator. */
  function Split(s: string, c: char): (r: seq<string>)
    ensures |r| >= 1
    decreases |s|
  {
    var k := IndexOf(s, c);
    if k == |s| then [s] else [s[..k]] + Split(s[k + 1..], c)
  }

  lemma SplitAt(a: string, c: char, b: string)
    requires c !in a
    ensures Split(a + [c] + b, c) == [a] + Split(b, c)
  {
    var s := a + [c] + b;
    IndexOfPrefix(a, c, b);
    assert s[..|a|] == a;
    assert s[|a| + 1..] == b;
  }

  lemma IndexOfPrefix(a: string, c: char, b: string)
    requires c !in a
    ensures IndexOf(a + [c] + b, c) == |a|
  {
    if a != [] {
      assert (a + [c] + b)[1..] == a[1..] + [c] + b;
      IndexOfPrefix(a[1..], c, b);
    }
  }

  /** The first piece runs up to the first separator; the rest split the text after it. */
  lemma SplitHead(s: string, c: char)
    ensures Split(s, c)[0] == s[..IndexOf(s, c)]
    ensures |Split(s, c)| > 1 <==> IndexOf(s, c) < |s|
    ensures IndexOf(s, c) < |s| ==> Split(s, c)[1..] == Split(s[IndexOf(s, c) + 1..], c)
  {
    var k := IndexOf(s, c);
    if k == |s| {
      assert s[..k] == s;
    } else {
      assert Split(s, c) == [s[..k]] + Split(s[k + 1..], c);
    }
  }

  lemma SplitNone(s: string, c: char)
    requires c !in s
    ensures Split(s, c) == [s]
  {
    assert s[..IndexOf(s, c)] == s[..|s|];
  }

  // ---- decimal numbers -----------------------------------------------------

  predicate IsDigit(c: char) { '0' <= c <= '9' }

  predicate AllDigits(s: string) { forall i :: 0 <= i < |s| ==> IsDigit(s[i]) }

  function DigitChar(d: nat): char
    requires d < 10
  {
    ('0' as int + d) as char
  }

  function DigitVal(c: char): nat
    requires IsDigit(c)
  {
    c as int - '0' as int
  }

  /** The value of a string of decimal digits, read left to right. */
  function DigitsValue(ds: string): nat
    requires AllDigits(ds)
  {
    if ds == [] then 0 else DigitsValue(ds[..|ds| - 1]) * 10 + DigitVal(ds[|ds| - 1])
  }

  /** The value of the digits after a decimal point. */
  function FracValue(ds: string): real
    requires AllDigits(ds)
  {
    if ds == [] then 0.0 else (DigitVal(ds[0]) as real + FracValue(ds[1..])) / 10.0
  }

  /** Decimal text of a natural number (`String(n)`), no leading zeroes. */
  function NatToString(n: nat): (r: string)
    ensures |r| >= 1 && AllDigits(r)
  {
    if n < 10 then [DigitChar(n)] else NatToString(n / 10) + [DigitChar(n % 10)]
  }

  /** Decimal text of an integer (`String(i)` / a template literal). */
  function IntToString(i: int): (r: string)
    ensures |r| >= 1
  {
    if i < 0 then "-" + NatToString(-i) else NatToString(i)
  }

  predicate IsSpace(c: char) { c == ' ' || c == '\t' || c == '\n' || c == '\r' }

  function TrimStart(s: string): (r: string)
    ensures |r| <= |s|
  {
    if s != [] && IsSpace(s[0]) then TrimStart(s[1..]) else s
  }

  function TrimEnd(s: string): (r: string)
    ensures |r| <= |s|
  {
    if s != [] && IsSpace(s[|s| - 1]) then TrimEnd(s[..|s| - 1]) else s
  }

  /** `s.trim()`, for ASCII white space. */
  function Trim(s: string): string { TrimEnd(TrimStart(s)) }

  /** An unsigned decimal literal `digits[.digits]`, with at least one digit. */
  function ParseUnsigned(b: string): Option<real>
  {
    var k := IndexOf(b, '.');
    var ip := b[..k];
    var fp := if k < |b| then b[k + 1..] else "";
    if AllDigits(ip) && AllDigits(fp) && |ip| + |fp| > 0
    then Some(DigitsValue(ip) as real + FracValue(fp))
    else None
  }

  /**
   * JavaScript `Number(s)` for decimal text: surrounding white space is ignored,
   * the empty string is 0, an optional sign precedes `digits[.digits]`;
   * anything else is NaN (`None`).
   */
  function NumberOf(s: string): Option<real>
  {
    var t := Trim(s);
    if t == "" then Some(0.0)
    else if t[0] == '-' then
      match ParseUnsigned(t[1..])
      case Some(v) => Some(-v)
      case None => None
    else if t[0] == '+' then ParseUnsigned(t[1..])
    else ParseUnsigned(t)
  }

  lemma {:induction false} NatToStringValue(n: nat)
    ensures DigitsValue(NatToString(n)) == n
  {
    var r := NatToString(n);
    if n >= 10 {
      NatToStringValue(n / 10);
      assert r[..|r| - 1] == NatToString(n / 10);
    }
  }

  lemma NatToStringChars(n: nat)
    ensures '.' !in NatToString(n) && 'x' !in NatToString(n) && '-' !in NatToString(n)
    ensures ':' !in NatToString(n)
    ensures !IsSpace(NatToString(n)[0]) && !IsSpace(NatToString(n)[|NatToString(n)| - 1])
    ensures NatToString(n)[0] != '+'
  {
    var r := NatToString(n);
    assert IsDigit(r[0]) && IsDigit(r[|r| - 1]);
  }

  lemma TrimNoSpace(s: string)
    requires s != [] && !IsSpace(s[0]) && !IsSpace(s[|s| - 1])
    ensures Trim(s) == s
  {
  }

  /** Reading back the decimal text of an integer gives the integer. */
  lemma {:induction false} IntToStringRoundTrip(i: int)
    ensures NumberOf(IntToString(i)) == Some(i as real)
  {
    var m: nat := if i < 0 then -i else i;
    var d := NatToString(m);
    NatToStringChars(m);
    NatToStringValue(m);
    assert IndexOf(d, '.') == |d|;
    assert d[..|d|] == d;
    assert ParseUnsigned(d) == Some(m as real);
    var s := IntToString(i);
    assert !IsSpace(s[0]) && !IsSpace(s[|s| - 1]);
    TrimNoSpace(s);
    if i < 0 {
      assert s[1..] == d;
    }
  }
}
