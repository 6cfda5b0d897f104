/**
 The JavaScript string primitives the registration rules rely on:
 the white-space class shared by `\s`, `String.prototype.trim` and `parseInt`,
 trimming, and `parseInt` called without a radix.
 */
module JsText {
  import opened Wrappers

  /** ECMAScript WhiteSpace and LineTerminator code points: the set `\s` matches,
      `trim` removes and `parseInt` skips. */
  predicate IsSpace(c: char) {
    || c == '\t' || c == '\n' || c == '\U{B}' || c == '\U{C}' || c == '\r' || c == ' '
    || c == '\U{A0}' || c == '\U{1680}' || ('\U{2000}' <= c <= '\U{200A}')
    || c == '\U{2028}' || c == '\U{2029}' || c == '\U{202F}' || c == '\U{205F}'
    || c == '\U{3000}' || c == '\U{FEFF}'
  }

  /** Every character of `s` is white space (vacuously so for ""). */
  predicate IsBlank(s: string) {
    forall i | 0 <= i < |s| :: IsSpace(s[i])
  }

  /** `s.trimStart()`: drops white space from the front. */
  function TrimStart(s: string): (r: string)
    ensures |r| <= |s|
  {
    if |s| > 0 && IsSpace(s[0]) then TrimStart(s[1..]) else s
  }

  /** `s.trimEnd()`: drops white space from the back. */
  function TrimEnd(s: string): (r: string)
    ensures |r| <= |s|
  {
    if |s| > 0 && IsSpace(s[|s| - 1]) then TrimEnd(s[..|s| - 1]) else s
  }

  /** `s.trim()`. */
  function Trim(s: string): string {
    TrimEnd(TrimStart(s))
  }

  /** `trimStart` keeps the longest suffix that does not begin with white space:
      what it drops is all white space. */
  lemma {:induction false} TrimStartShape(s: string)
    ensures TrimStart(s) == s[|s| - |TrimStart(s)|..]
    ensures TrimStart(s) == [] || !IsSpace(TrimStart(s)[0])
    ensures IsBlank(s[..|s| - |TrimStart(s)|])
  {
    if |s| > 0 && IsSpace(s[0]) {
      TrimStartShape(s[1..]);
      var k := |s| - |TrimStart(s)|;
      assert s[1..][k - 1..] == s[k..];
      forall i | 0 <= i < k ensures IsSpace(s[..k][i]) {
        if i > 0 {
          assert s[..k][i] == s[1..][..k - 1][i - 1];
        }
      }
    }
  }

  /** `trimEnd` keeps the longest prefix that does not end with white space:
      what it drops is all white space. */
  lemma {:induction false} TrimEndShape(s: string)
    ensures TrimEnd(s) == s[..|TrimEnd(s)|]
    ensures TrimEnd(s) == [] || !IsSpace(TrimEnd(s)[|TrimEnd(s)| - 1])
    ensures IsBlank(s[|TrimEnd(s)|..])
  {
    if |s| > 0 && IsSpace(s[|s| - 1]) {
      var t := s[..|s| - 1];
      TrimEndShape(t);
      var k := |TrimEnd(s)|;
      assert t[..k] == s[..k];
      forall i | k <= i < |s| ensures IsSpace(s[i]) {
        if i < |s| - 1 {
          assert t[k..][i - k] == s[i];
        }
      }
    }
  }

  /** Trimming leaves nothing exactly when the string is blank; otherwise what is
      left starts and ends with a non-space character. */
  lemma TrimEmptyIffBlank(s: string)
    ensures Trim(s) == [] <==> IsBlank(s)
    ensures Trim(s) != [] ==> !IsSpace(Trim(s)[0]) && !IsSpace(Trim(s)[|Trim(s)| - 1])
  {
    var t := TrimStart(s);
    var r := TrimEnd(t);
    TrimStartShape(s);
    TrimEndShape(t);
    assert r == [] ==> t[|r|..] == t;
    assert t != [] ==> t[0] == s[|s| - |t|];
    assert s[..|s|] == s;
    if r != [] {
      assert r[0] == t[0];
    }
  }

  /** The value of `c` as a digit in bases up to 36 (`0`-`9`, then `a`/`A` = 10 and so on);
      36 for any other character. */
  function DigitValue(c: char): (d: nat)
    ensures d <= 36
  {
    if '0' <= c <= '9' then c as int - '0' as int
    else if 'a' <= c <= 'z' then c as int - 'a' as int + 10
    else if 'A' <= c <= 'Z' then c as int - 'A' as int + 10
    else 36
  }

  predicate IsRadixDigit(c: char, radix: nat) {
    DigitValue(c) < radix
  }

  /** The length of the longest prefix of `s` made of digits in `radix`. */
  function DigitRun(s: string, radix: nat): (n: nat)
    ensures n <= |s|
    ensures forall i | 0 <= i < n :: IsRadixDigit(s[i], radix)
    ensures n < |s| ==> !IsRadixDigit(s[n], radix)
  {
    if |s| > 0 && IsRadixDigit(s[0], radix) then 1 + DigitRun(s[1..], radix) else 0
  }

  /** The number a string of digits denotes in `radix`, most significant digit first. */
  function DigitsValue(ds: string, radix: nat): nat {
    if ds == [] then 0
    else DigitsValue(ds[..|ds| - 1], radix) * radix + DigitValue(ds[|ds| - 1])
  }

  /** The digits `parseInt` reads once white space and sign are gone: base 16 after a
      `0x`/`0X` prefix, base 10 otherwise; `None` when no digit follows. */
  function ParseMagnitude(u: string): (r: Option<nat>)
    ensures u == [] ==> r.None?
  {
    var hex := |u| >= 2 && u[0] == '0' && (u[1] == 'x' || u[1] == 'X');
    var radix := if hex then 16 else 10;
    var body := if hex then u[2..] else u;
    var n := DigitRun(body, radix);
    if n == 0 then None else Some(DigitsValue(body[..n], radix))
  }

  /**
   `parseInt(s)` with no radix: skip leading white space, then read a signed number.
   No digit at all gives `NaN`, here `None`.
   */
  function ParseInt(s: string): (r: Option<int>)
    ensures IsBlank(s) ==> r.None?
  {
    var t := TrimStart(s);
    assert IsBlank(s) ==> t == [] by {
      TrimStartShape(s);
      assert t != [] ==> t[0] == s[|s| - |t|];
    }
    ParseSigned(t)
  }

  /** An optional `-` or `+`, then the magnitude. */
  function ParseSigned(t: string): (r: Option<int>)
    ensures t == [] ==> r.None?
  {
    if |t| > 0 && t[0] == '-' then
      match ParseMagnitude(t[1..])
      case None => None
      case Some(v) => Some(-(v as int))
    else if |t| > 0 && t[0] == '+' then
      match ParseMagnitude(t[1..])
      case None => None
      case Some(v) => Some(v)
    else
      match ParseMagnitude(t)
      case None => None
      case Some(v) => Some(v)
  }

  /** The decimal digit character for `d`. */
  function DigitChar(d: nat): (c: char)
    requires d < 10
    ensures '0' <= c <= '9' && DigitValue(c) == d
  {
    ('0' as int + d) as char
  }

  /** The canonical decimal spelling of a natural number: digits only, no leading zero. */
  function NatToString(n: nat): (r: string)
    ensures |r| > 0
    ensures forall i | 0 <= i < |r| :: '0' <= r[i] <= '9'
    ensures n > 0 ==> r[0] != '0'
    ensures DigitsValue(r, 10) == n
  {
    if n < 10 then [DigitChar(n)]
    else
      var r := NatToString(n / 10) + [DigitChar(n % 10)];
      assert r[..|r| - 1] == NatToString(n / 10);
      r
  }

  /** The decimal spelling of an integer, as `String(n)` writes it. */
  function IntToString(n: int): (r: string)
    ensures |r| > 0 && !IsSpace(r[0])
  {
    if n < 0 then "-" + NatToString(-n) else NatToString(n)
  }

  /** A run of digits followed by a non-digit (or by nothing) is read up to its end. */
  lemma {:induction false} DigitRunStopsAfterDigits(ds: string, rest: string, radix: nat)
    requires forall i | 0 <= i < |ds| :: IsRadixDigit(ds[i], radix)
    requires rest == [] || !IsRadixDigit(rest[0], radix)
    ensures DigitRun(ds + rest, radix) == |ds|
  {
    if ds != [] {
      assert (ds + rest)[1..] == ds[1..] + rest;
      DigitRunStopsAfterDigits(ds[1..], rest, radix);
    } else {
      assert ds + rest == rest;
    }
  }

  /** Leading white space never changes what `parseInt` reads. */
  lemma {:induction false} ParseIntSkipsLeadingSpace(ws: string, s: string)
    requires IsBlank(ws)
    ensures ParseInt(ws + s) == ParseInt(s)
  {
    TrimStartSkipsBlank(ws, s);
    assert ParseInt(ws + s) == ParseSigned(TrimStart(s));
  }

  lemma {:induction false} TrimStartSkipsBlank(ws: string, s: string)
    requires IsBlank(ws)
    ensures TrimStart(ws + s) == TrimStart(s)
  {
    if ws != [] {
      assert (ws + s)[1..] == ws[1..] + s;
      TrimStartSkipsBlank(ws[1..], s);
    } else {
      assert ws + s == s;
    }
  }

  /**
   `parseInt` reads back the decimal spelling of any integer, and stops at the first
   character that cannot continue it: `parseInt("15abc")` is 15. (A following `x` or `X`
   would turn a leading `0` into a hexadecimal prefix, so it is excluded.)
   */
  lemma ParseIntOfDecimal(n: int, rest: string)
    requires rest == [] || (!IsRadixDigit(rest[0], 10) && rest[0] != 'x' && rest[0] != 'X')
    ensures ParseInt(IntToString(n) + rest) == Some(n)
  {
    ParseIntIsParseSigned(IntToString(n) + rest);
    if n < 0 {
      NegativeSpelling(n, rest);
      NegativeOfDecimal(-n, rest);
    } else {
      PositiveOfDecimal(n, rest);
    }
  }

  lemma ParseIntIsParseSigned(s: string)
    requires s != [] && !IsSpace(s[0])
    ensures ParseInt(s) == ParseSigned(s)
  {
    assert TrimStart(s) == s;
  }

  lemma PositiveOfDecimal(m: nat, rest: string)
    requires rest == [] || (!IsRadixDigit(rest[0], 10) && rest[0] != 'x' && rest[0] != 'X')
    ensures ParseSigned(IntToString(m) + rest) == Some(m)
  {
    var u := NatToString(m) + rest;
    MagnitudeOfDecimal(m, rest);
    assert u[0] == NatToString(m)[0];
  }

  lemma NegativeSpelling(n: int, rest: string)
    requires n < 0
    ensures IntToString(n) + rest == "-" + (NatToString(-n) + rest)
  {
  }

  lemma NegativeOfDecimal(m: nat, rest: string)
    requires m > 0
    requires rest == [] || (!IsRadixDigit(rest[0], 10) && rest[0] != 'x' && rest[0] != 'X')
    ensures ParseSigned("-" + (NatToString(m) + rest)) == Some(-(m as int))
  {
    var u := NatToString(m) + rest;
    MagnitudeOfDecimal(m, rest);
    assert ("-" + u)[1..] == u;
  }

  lemma MagnitudeOfDecimal(m: nat, rest: string)
    requires rest == [] || (!IsRadixDigit(rest[0], 10) && rest[0] != 'x' && rest[0] != 'X')
    ensures ParseMagnitude(NatToString(m) + rest) == Some(m)
  {
    var digits := NatToString(m);
    var u := digits + rest;
    assert !(|u| >= 2 && u[0] == '0' && (u[1] == 'x' || u[1] == 'X')) by {
      if m == 0 {
        assert digits == "0";
        assert rest != [] ==> u[1] == rest[0];
      } else {
        assert u[0] == digits[0];
      }
    }
    DigitRunStopsAfterDigits(digits, rest, 10);
    assert u[..|digits|] == digits;
  }
}
