/**
 * The few JavaScript string operations the screens rely on:
 * `String.prototype.trim`, `Number.prototype.toString()` on a non-negative
 * integer and `String.prototype.padStart`.
 */
module JsText {

  /** ECMAScript WhiteSpace and LineTerminator code points: what `trim` removes. */
  predicate IsWhitespace(c: char) {
    || c == '\t' || c == '\n' || c == '\U{000B}' || c == '\U{000C}' || c == '\r'
    || c == ' ' || c == '\U{00A0}' || c == '\U{1680}'
    || ('\U{2000}' <= c <= '\U{200A}')
    || c == '\U{2028}' || c == '\U{2029}' || c == '\U{202F}' || c == '\U{205F}'
    || c == '\U{3000}' || c == '\U{FEFF}'
  }

  /** `trimStart`: drops the longest whitespace prefix. */
  function TrimStart(s: string): (r: string)
    ensures |r| <= |s| && r == s[|s| - |r|..]
    ensures forall i :: 0 <= i < |s| - |r| ==> IsWhitespace(s[i])
    ensures r != [] ==> !IsWhitespace(r[0])
  {
    if s != [] && IsWhitespace(s[0]) then TrimStart(s[1..]) else s
  }

  /** `trimEnd`: drops the longest whitespace suffix. */
  function TrimEnd(s: string): (r: string)
    ensures |r| <= |s| && r == s[..|r|]
    ensures forall i :: |r| <= i < |s| ==> IsWhitespace(s[i])
    ensures r != [] ==> !IsWhitespace(r[|r| - 1])
  {
    if s != [] && IsWhitespace(s[|s| - 1]) then TrimEnd(s[..|s| - 1]) else s
  }

  /** Number of leading whitespace characters of `s`. */
  function Leading(s: string): nat {
    |s| - |TrimStart(s)|
  }

  /**
   * `trim`: what is left of `s` once its whitespace prefix and suffix are
   * gone. It is empty exactly when `s` is all whitespace, and otherwise
   * starts and ends with a non-whitespace character.
   */
  function Trim(s: string): (r: string)
    ensures Leading(s) + |r| <= |s| && r == s[Leading(s)..Leading(s) + |r|]
    ensures forall i :: 0 <= i < Leading(s) ==> IsWhitespace(s[i])
    ensures forall i :: Leading(s) + |r| <= i < |s| ==> IsWhitespace(s[i])
    ensures r != [] ==> !IsWhitespace(r[0]) && !IsWhitespace(r[|r| - 1])
    ensures r == [] <==> forall i :: 0 <= i < |s| ==> IsWhitespace(s[i])
  {
    var t := TrimStart(s);
    var r := TrimEnd(t);
    assert r != [] ==> r[0] == t[0];
    r
  }

  /**
   * When `s` has exactly `a` leading whitespace characters and ends with
   * non-whitespace, `trim` removes exactly those `a` characters.
   */
  lemma TrimExact(s: string, a: nat)
    requires a < |s|
    requires forall i :: 0 <= i < a ==> IsWhitespace(s[i])
    requires !IsWhitespace(s[a]) && !IsWhitespace(s[|s| - 1])
    ensures Trim(s) == s[a..]
  {
    assert Leading(s) == a;
    assert Leading(s) + |Trim(s)| == |s|;
  }

  /** A string that starts and ends with non-whitespace is its own trim. */
  lemma TrimUnpadded(s: string)
    requires s != [] && !IsWhitespace(s[0]) && !IsWhitespace(s[|s| - 1])
    ensures Trim(s) == s
  {
    TrimExact(s, 0);
    assert s[0..] == s;
  }

  /** One leading space in front of a non-whitespace start is all `trim` removes. */
  lemma TrimLeadingSpace(s: string)
    requires |s| >= 2 && s[0] == ' ' && !IsWhitespace(s[1]) && !IsWhitespace(s[|s| - 1])
    ensures Trim(s) == s[1..]
  {
    TrimExact(s, 1);
  }

  predicate IsDigit(c: char) {
    '0' <= c <= '9'
  }

  predicate AllDigits(s: string) {
    forall i :: 0 <= i < |s| ==> IsDigit(s[i])
  }

  function DigitValue(c: char): (d: nat)
    requires IsDigit(c)
    ensures d < 10
  {
    c as int - '0' as int
  }

  function DigitChar(d: nat): (c: char)
    requires d < 10
    ensures IsDigit(c) && DigitValue(c) == d
  {
    ('0' as int + d) as char
  }

  /** `n.toString()` for a non-negative integer: decimal digits, no leading zero. */
  function Decimal(n: nat): (r: string)
    ensures |r| >= 1 && AllDigits(r)
    ensures r[0] == '0' ==> n == 0
    ensures n < 10 <==> |r| == 1
    ensures n < 100 <==> |r| <= 2
    ensures n < 1000 <==> |r| <= 3
  {
    if n < 10 then [DigitChar(n)] else Decimal(n / 10) + [DigitChar(n % 10)]
  }

  /** The value of a string of decimal digits (read most significant first). */
  function DecimalValue(s: string): nat
    requires AllDigits(s)
  {
    if s == [] then 0
    else DecimalValue(s[..|s| - 1]) * 10 + DigitValue(s[|s| - 1])
  }

  /** Reading back what `Decimal` wrote gives the number. */
  lemma {:induction false} DecimalRoundTrip(n: nat)
    ensures DecimalValue(Decimal(n)) == n
  {
    if n >= 10 {
      var r := Decimal(n);
      assert r[..|r| - 1] == Decimal(n / 10);
      DecimalRoundTrip(n / 10);
    }
  }

  /** Leading '0' characters do not change the value of a digit string. */
  lemma {:induction false} LeadingZerosIgnored(z: nat, s: string)
    requires AllDigits(s)
    ensures AllDigits(seq(z, _ => '0') + s)
    ensures DecimalValue(seq(z, _ => '0') + s) == DecimalValue(s)
    decreases |s| + z
  {
    var zs := seq(z, _ => '0');
    var t := zs + s;
    assert forall i :: 0 <= i < |t| ==> IsDigit(t[i]) by {
      forall i | 0 <= i < |t| ensures IsDigit(t[i]) {
        if i >= z { assert t[i] == s[i - z]; }
      }
    }
    if s == [] {
      if z > 0 {
        assert t[..|t| - 1] == seq(z - 1, _ => '0') + [];
        LeadingZerosIgnored(z - 1, []);
      }
    } else {
      assert t[..|t| - 1] == zs + s[..|s| - 1];
      LeadingZerosIgnored(z, s[..|s| - 1]);
    }
  }

  /**
   * `s.padStart(width, fill)` with a one-character fill: `s` itself when it
   * is already `width` long or longer, otherwise `s` behind enough copies of
   * `fill` to reach `width`.
   */
  function PadStart(s: string, width: nat, fill: char): (r: string)
    ensures |r| == if |s| < width then width else |s|
    ensures r[|r| - |s|..] == s
    ensures forall i :: 0 <= i < |r| - |s| ==> r[i] == fill
  {
    if |s| < width then seq(width - |s|, _ => fill) + s else s
  }
}
