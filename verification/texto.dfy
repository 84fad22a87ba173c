/**
 * The string operations the handlers apply to submitted form fields:
 * `str.strip()`, `str.lower()` (and SQL `lower()`), and `int()` on a decimal literal.
 * Only the ASCII part of each is modelled.
 */
module Texto {
  import opened Wrappers

  /** The ASCII characters `str.strip()` removes: space, tab to carriage return, and 0x1C to 0x1F. */
  predicate IsSpace(c: char) {
    c == ' ' || ('\t' <= c <= '\r') || ('\U{1C}' <= c <= '\U{1F}')
  }

  predicate AllSpaces(s: string) {
    forall i :: 0 <= i < |s| ==> IsSpace(s[i])
  }

  /** True of a string that `strip()` leaves as it is: empty, or not starting or ending in whitespace. */
  predicate Stripped(s: string) {
    s != [] ==> !IsSpace(s[0]) && !IsSpace(s[|s| - 1])
  }

  /** The number of whitespace characters at the front of `s`. */
  function LeadingSpaces(s: string): (n: nat)
    ensures n <= |s|
    ensures forall i :: 0 <= i < n ==> IsSpace(s[i])
    ensures n < |s| ==> !IsSpace(s[n])
  {
    if s == [] || !IsSpace(s[0]) then 0 else 1 + LeadingSpaces(s[1..])
  }

  /** The number of whitespace characters at the end of `s`. */
  function TrailingSpaces(s: string): (n: nat)
    ensures n <= |s|
    ensures forall i :: |s| - n <= i < |s| ==> IsSpace(s[i])
    ensures n < |s| ==> !IsSpace(s[|s| - 1 - n])
  {
    if s == [] || !IsSpace(s[|s| - 1]) then 0 else 1 + TrailingSpaces(s[..|s| - 1])
  }

  /** `s.strip()`: `s` without its leading and trailing whitespace. */
  function Strip(s: string): (r: string)
    ensures |r| <= |s|
    ensures Stripped(r)
    ensures r == [] <==> AllSpaces(s)
  {
    var lead := LeadingSpaces(s);
    if lead == |s| then [] else s[lead .. |s| - TrailingSpaces(s)]
  }

  /** `strip()` removes exactly the whitespace around a stripped core, so it gives the core back. */
  lemma StripPadded(before: string, core: string, after: string)
    requires AllSpaces(before) && AllSpaces(after) && Stripped(core)
    ensures Strip(before + core + after) == core
  {
    var s := before + core + after;
    if core == [] {
      assert AllSpaces(s) by {
        forall i | 0 <= i < |s| ensures IsSpace(s[i]) {
          if i < |before| { assert s[i] == before[i]; } else { assert s[i] == after[i - |before|]; }
        }
      }
    } else {
      var lead, trail := LeadingSpaces(s), TrailingSpaces(s);
      assert s[|before|] == core[0];
      assert s[|before| + |core| - 1] == core[|core| - 1];
      assert lead == |before|;
      assert trail == |after|;
      assert s[lead .. |s| - trail] == core;
    }
  }

  /** A string with no whitespace at either end is left as it is. */
  lemma StripStripped(t: string)
    requires Stripped(t)
    ensures Strip(t) == t
  {
    StripPadded([], t, []);
    assert [] + t + [] == t;
  }

  /** Stripping twice is stripping once. */
  lemma StripIdempotent(s: string)
    ensures Strip(Strip(s)) == Strip(s)
  {
    StripStripped(Strip(s));
  }

  /** ASCII case folding of one character. */
  function LowerChar(c: char): (r: char)
    ensures 'A' <= c <= 'Z' ==> 'a' <= r <= 'z' && r as int - c as int == 32
    ensures !('A' <= c <= 'Z') ==> r == c
  {
    if 'A' <= c <= 'Z' then (c as int + 32) as char else c
  }

  /** `s.lower()`, and SQL's `lower(s)`, on ASCII letters: every character folded on its own. */
  function Lower(s: string): (r: string)
    ensures |r| == |s|
    ensures forall i :: 0 <= i < |s| ==> r[i] == LowerChar(s[i])
    ensures forall i :: 0 <= i < |r| ==> !('A' <= r[i] <= 'Z')
  {
    seq(|s|, i requires 0 <= i < |s| => LowerChar(s[i]))
  }

  /** Folding an already folded string changes nothing. */
  lemma LowerIdempotent(s: string)
    ensures Lower(Lower(s)) == Lower(s)
  {
    var t := Lower(s);
    forall i | 0 <= i < |t| ensures Lower(t)[i] == t[i] {
      assert !('A' <= t[i] <= 'Z');
    }
  }

  predicate IsDigit(c: char) {
    '0' <= c <= '9'
  }

  predicate AllDigits(s: string) {
    forall i :: 0 <= i < |s| ==> IsDigit(s[i])
  }

  /** The value of a string of decimal digits; leading zeros are allowed, as `int()` allows them. */
  function DigitsValue(s: string): nat
    requires AllDigits(s)
  {
    if s == [] then 0 else DigitsValue(s[..|s| - 1]) * 10 + (s[|s| - 1] as int - '0' as int)
  }

  /**
   * `int(s)` in base 10: surrounding whitespace is ignored, then the rest must be a literal;
   * anything else is the `ValueError`, here `None`.
   */
  function ParseInt(s: string): (r: Option<int>)
    ensures AllSpaces(s) ==> r.None?
    ensures r.Some? <==> IsLiteral(Strip(s))
  {
    ParseLiteral(Strip(s))
  }

  predicate IsSign(c: char) {
    c == '-' || c == '+'
  }

  /** The shape `int()` accepts once stripped: an optional sign, then one or more digits. */
  predicate IsLiteral(t: string) {
    || (t != [] && AllDigits(t))
    || (|t| > 1 && IsSign(t[0]) && AllDigits(t[1..]))
  }

  /** `int()` on a stripped text: the value of a literal, `None` for anything else. */
  function ParseLiteral(t: string): (r: Option<int>)
    ensures r.Some? <==> IsLiteral(t)
  {
    if t != [] && (t[0] == '-' || t[0] == '+') then
      if |t| > 1 && AllDigits(t[1..]) then
        var n: int := DigitsValue(t[1..]);
        Some(if t[0] == '-' then -n else n)
      else
        None
    else if t != [] && AllDigits(t) then
      Some(DigitsValue(t))
    else
      None
  }

  function Digit(d: nat): (c: char)
    requires d < 10
  {
    ('0' as int + d) as char
  }

  /** `str(n)` for a natural number: its shortest decimal digits. */
  function Show(n: nat): (r: string)
    ensures r != [] && AllDigits(r)
    ensures DigitsValue(r) == n
    ensures |r| > 1 ==> r[0] != '0'
  {
    if n < 10 then [Digit(n)] else Show(n / 10) + [Digit(n % 10)]
  }

  /** `str(i)` for any integer. */
  function ShowInt(i: int): (r: string)
    ensures r != [] && Stripped(r)
  {
    if i < 0 then "-" + Show(-i) else Show(i)
  }

  /** `int()` reads back what `str()` writes, whatever whitespace surrounds it. */
  lemma ParseShowInt(before: string, i: int, after: string)
    requires AllSpaces(before) && AllSpaces(after)
    ensures ParseInt(before + ShowInt(i) + after) == Some(i)
  {
    StripPadded(before, ShowInt(i), after);
    ParseLiteralShowInt(i);
  }

  predicate AllZeros(s: string) {
    forall i :: 0 <= i < |s| ==> s[i] == '0'
  }

  lemma {:induction false} DigitsValueZeros(z: string)
    requires AllZeros(z)
    ensures AllDigits(z) && DigitsValue(z) == 0
  {
    if z != [] {
      DigitsValueZeros(z[..|z| - 1]);
    }
  }

  /** Leading zeros do not change the value of a string of digits. */
  lemma {:induction false} DigitsValueLeadingZeros(z: string, d: string)
    requires AllZeros(z) && AllDigits(d)
    ensures AllDigits(z + d) && DigitsValue(z + d) == DigitsValue(d)
  {
    DigitsValueZeros(z);
    if d == [] {
      assert z + d == z;
    } else {
      var p := d[..|d| - 1];
      assert (z + d)[..|z + d| - 1] == z + p;
      DigitsValueLeadingZeros(z, p);
    }
  }

  /** The value an optional sign gives to a natural number. */
  function Signed(sign: string, n: nat): int {
    if sign == "-" then -(n as int) else n
  }

  /** Leading zeros and the digits of `n`: digits worth `n`, with no whitespace at either end. */
  lemma ZerosShow(zeros: string, n: nat)
    requires AllZeros(zeros)
    ensures var d := zeros + Show(n);
      d != [] && AllDigits(d) && DigitsValue(d) == n && IsDigit(d[0]) && IsDigit(d[|d| - 1])
  {
    DigitsValueLeadingZeros(zeros, Show(n));
    var d := zeros + Show(n);
    assert d[0] in d;
  }

  /** A non-empty string of digits is read as its value. */
  lemma ParseLiteralDigits(d: string)
    requires d != [] && AllDigits(d)
    ensures Stripped(d) && ParseLiteral(d) == Some(DigitsValue(d))
  {
    assert IsDigit(d[0]) && IsDigit(d[|d| - 1]);
  }

  /** A sign followed by a non-empty string of digits is read as the signed value. */
  lemma ParseLiteralSigned(c: char, d: string)
    requires IsSign(c) && d != [] && AllDigits(d)
    ensures Stripped([c] + d)
    ensures ParseLiteral([c] + d) == Some(if c == '-' then -(DigitsValue(d) as int) else DigitsValue(d))
  {
    var t := [c] + d;
    assert t[0] == c && t[1..] == d && t[|t| - 1] == d[|d| - 1];
    assert IsDigit(d[|d| - 1]);
  }

  /** A sign, leading zeros and the digits of `n` form a literal with no whitespace at either end. */
  lemma ParseLiteralSpelled(sign: string, zeros: string, n: nat)
    requires sign == "" || sign == "+" || sign == "-"
    requires AllZeros(zeros)
    ensures Stripped(sign + zeros + Show(n))
    ensures ParseLiteral(sign + zeros + Show(n)) == Some(Signed(sign, n))
  {
    var d := zeros + Show(n);
    ZerosShow(zeros, n);
    assert sign + zeros + Show(n) == sign + d;
    if sign == "" {
      assert sign + d == d;
      ParseLiteralDigits(d);
    } else {
      assert sign == [sign[0]];
      ParseLiteralSigned(sign[0], d);
    }
  }

  /**
   * `int()` reads any spelling of a number: an optional `+` or `-`, any number of leading
   * zeros, and whitespace around it. So "+7", "007" and "-0" read as 7, 7 and 0.
   */
  lemma ParseIntSpelled(before: string, sign: string, zeros: string, n: nat, after: string)
    requires AllSpaces(before) && AllSpaces(after)
    requires sign == "" || sign == "+" || sign == "-"
    requires AllZeros(zeros)
    ensures ParseInt(before + (sign + zeros + Show(n)) + after) == Some(Signed(sign, n))
  {
    ParseLiteralSpelled(sign, zeros, n);
    StripPadded(before, sign + zeros + Show(n), after);
  }

  lemma ParseLiteralShowInt(i: int)
    ensures ParseLiteral(ShowInt(i)) == Some(i)
  {
    var t := ShowInt(i);
    if i < 0 {
      var d := Show(-i);
      assert t[0] == '-' && t[1..] == d;
    } else {
      assert IsDigit(t[0]);
    }
  }
}
