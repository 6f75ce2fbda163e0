/** Python string behaviour the workbench relies on: slicing, prefix and suffix tests,
    ordering, `int()`/`float()` parsing of decimal text and `f"{n:03d}"` formatting. */
module Text {
  import opened Wrappers

  /** `s.startswith(p)` */
  predicate StartsWith(s: string, p: string) {
    |p| <= |s| && s[..|p|] == p
  }

  /** `s.endswith(p)` */
  predicate EndsWith(s: string, p: string) {
    |p| <= |s| && s[|s| - |p|..] == p
  }

  /** p occurs in s starting at index i */
  predicate OccursAt(s: string, p: string, i: int) {
    0 <= i <= |s| - |p| && s[i..i + |p|] == p
  }

  /** `p in s` for strings */
  predicate Contains(s: string, p: string) {
    exists i | 0 <= i <= |s| :: OccursAt(s, p, i)
  }

  /** `s[:n]` */
  function Prefix(s: string, n: nat): (r: string)
    ensures |r| == if n <= |s| then n else |s|
    ensures StartsWith(s, r)
  {
    if n <= |s| then s[..n] else s
  }

  /** `s[-n:]` for n > 0 */
  function Suffix(s: string, n: nat): (r: string)
    ensures |r| == if n <= |s| then n else |s|
    ensures EndsWith(s, r)
  {
    if n <= |s| then s[|s| - n..] else s
  }

  lemma StartsWithPrefix(s: string, n: nat)
    requires n <= |s|
    ensures forall t :: StartsWith(t, Prefix(s, n)) <==> n <= |t| && t[..n] == s[..n]
  {
  }

  // ---------------------------------------------------------------------------
  // Ordering: Python compares strings code point by code point.

  predicate StrLe(a: string, b: string)
    decreases |a|
  {
    if |a| == 0 then true
    else if |b| == 0 then false
    else if a[0] < b[0] then true
    else if b[0] < a[0] then false
    else StrLe(a[1..], b[1..])
  }

  lemma {:induction false} StrLeTotal(a: string, b: string)
    ensures StrLe(a, b) || StrLe(b, a)
    decreases |a|
  {
    if |a| > 0 && |b| > 0 && a[0] == b[0] {
      StrLeTotal(a[1..], b[1..]);
    }
  }

  lemma {:induction false} StrLeTrans(a: string, b: string, c: string)
    requires StrLe(a, b) && StrLe(b, c)
    ensures StrLe(a, c)
    decreases |a|
  {
    if |a| > 0 && |b| > 0 && |c| > 0 && a[0] == b[0] && b[0] == c[0] {
      StrLeTrans(a[1..], b[1..], c[1..]);
    }
  }

  lemma {:induction false} StrLeAntisym(a: string, b: string)
    requires StrLe(a, b) && StrLe(b, a)
    ensures a == b
    decreases |a|
  {
    if |a| > 0 && |b| > 0 {
      StrLeAntisym(a[1..], b[1..]);
      assert a == [a[0]] + a[1..] && b == [b[0]] + b[1..];
    }
  }

  // ---------------------------------------------------------------------------
  // Decimal digits

  predicate IsDigit(c: char) {
    '0' <= c <= '9'
  }

  predicate AllDigits(s: string) {
    forall i :: 0 <= i < |s| ==> IsDigit(s[i])
  }

  /** Python's `str.isspace` restricted to the ASCII white-space characters */
  predicate IsSpace(c: char) {
    c == ' ' || c == '\t' || c == '\n' || c == '\r' || c == '\U{B}' || c == '\U{C}'
  }

  function DigitChar(d: int): (c: char)
    requires 0 <= d < 10
    ensures IsDigit(c)
  {
    ('0' as int + d) as char
  }

  function DigitValue(c: char): (d: nat)
    requires IsDigit(c)
    ensures d < 10 && DigitChar(d) == c
  {
    (c as int - '0' as int)
  }

  /** The value of a string of decimal digits (leading zeros allowed) */
  function DigitsValue(s: string): nat
    requires AllDigits(s)
  {
    if s == [] then 0 else 10 * DigitsValue(s[..|s| - 1]) + DigitValue(s[|s| - 1])
  }

  /** `str(n)` for a natural number */
  function NatToString(n: nat): (r: string)
    ensures |r| > 0 && AllDigits(r)
    decreases n
  {
    if n < 10 then [DigitChar(n)] else NatToString(n / 10) + [DigitChar(n % 10)]
  }

  /** Left-pads with '0' to the given width, as a `0w` format spec does */
  function ZeroPad(s: string, w: nat): (r: string)
    ensures |r| == if |s| >= w then |s| else w
    ensures AllDigits(s) ==> AllDigits(r)
    decreases w - |s|
  {
    if |s| >= w then s else ZeroPad("0" + s, w)
  }

  /** `f"{n:03d}"`: at least three characters, the sign counting towards the width */
  function Format03(n: int): string {
    if n >= 0 then ZeroPad(NatToString(n), 3) else "-" + ZeroPad(NatToString(-n), 2)
  }

  /** The numbers below 1000 print as exactly three digits. */
  lemma Format03Width(k: int)
    requires 0 <= k < 1000
    ensures |Format03(k)| == 3
  {
    assert |NatToString(k)| <= 3 by {
      if k >= 10 {
        if k >= 100 {
          assert |NatToString(k / 10 / 10)| == 1;
        }
      }
    }
  }

  // ---------------------------------------------------------------------------
  // Parsing

  function StripLeft(s: string): (r: string)
    ensures |r| <= |s|
    ensures r == [] || !IsSpace(r[0])
  {
    if |s| > 0 && IsSpace(s[0]) then StripLeft(s[1..]) else s
  }

  function StripRight(s: string): (r: string)
    ensures |r| <= |s|
    ensures r == [] || !IsSpace(r[|r| - 1])
  {
    if |s| > 0 && IsSpace(s[|s| - 1]) then StripRight(s[..|s| - 1]) else s
  }

  /** `s.strip()` */
  function Strip(s: string): string {
    StripRight(StripLeft(s))
  }

  /** Python `int(s)` on text: optional white space around an optionally signed run of
      ASCII decimal digits. `None` stands for the `ValueError` it raises otherwise. */
  function ParseInt(s: string): (r: Option<int>)
    ensures var t := Strip(s);
            r.Some? ==> |t| > 0 && AllDigits(t[1..]) && (IsDigit(t[0]) || (|t| > 1 && (t[0] == '-' || t[0] == '+')))
    ensures r.Some? && r.value < 0 ==> Strip(s)[0] == '-'
    ensures |Strip(s)| > 0 && AllDigits(Strip(s)) ==> r == Some(DigitsValue(Strip(s)))
  {
    var t := Strip(s);
    if |t| > 1 && (t[0] == '-' || t[0] == '+') && AllDigits(t[1..]) then
      Some(if t[0] == '-' then -(DigitsValue(t[1..]) as int) else DigitsValue(t[1..]))
    else if |t| > 0 && AllDigits(t) then
      Some(DigitsValue(t))
    else
      None
  }

  /** The value of `digits "." fraction` */
  function DecimalValue(whole: string, frac: string): real
    requires AllDigits(whole) && AllDigits(frac)
  {
    DigitsValue(whole) as real + DigitsValue(frac) as real / Pow10(|frac|) as real
  }

  function Pow10(k: nat): (r: nat)
    ensures r >= 1
  {
    if k == 0 then 1 else 10 * Pow10(k - 1)
  }

  /** Index of the first '.' in s, or |s| */
  function DotIndex(s: string): (k: nat)
    ensures k <= |s|
    ensures forall i :: 0 <= i < k ==> s[i] != '.'
    ensures k < |s| ==> s[k] == '.'
  {
    if s == [] then 0 else if s[0] == '.' then 0 else 1 + DotIndex(s[1..])
  }

  /** An unsigned decimal numeral: digits with at most one '.', at least one digit */
  function ParseUnsignedDecimal(t: string): (r: Option<real>)
    ensures r.Some? ==> |t| > 0 && r.value >= 0.0 && forall i :: 0 <= i < |t| ==> IsDigit(t[i]) || t[i] == '.'
    ensures |t| > 0 && AllDigits(t) ==> r == Some(DigitsValue(t) as real)
  {
    var k := DotIndex(t);
    assert AllDigits(t) ==> k == |t| && t[..k] == t by {
      if AllDigits(t) {
        NoDotInDigits(t);
      }
    }
    var whole := t[..k];
    var frac := if k < |t| then t[k + 1..] else [];
    if AllDigits(whole) && AllDigits(frac) && |whole| + |frac| > 0 then
      Some(DecimalValue(whole, frac))
    else
      None
  }

  /** Python `float(s)` on decimal text: optional white space, an optional sign and a
      decimal numeral. `None` stands for the `ValueError` it raises otherwise. */
  function ParseReal(s: string): (r: Option<real>)
    ensures var t := Strip(s);
            r.Some? ==> |t| > 0 && forall i :: 0 <= i < |t| ==> IsDigit(t[i]) || t[i] == '.' || (i == 0 && (t[i] == '-' || t[i] == '+'))
    ensures r.Some? && r.value < 0.0 ==> Strip(s)[0] == '-'
    ensures |Strip(s)| > 0 && AllDigits(Strip(s)) ==> r == Some(DigitsValue(Strip(s)) as real)
  {
    var t := Strip(s);
    if |t| > 0 && (t[0] == '-' || t[0] == '+') then
      match ParseUnsignedDecimal(t[1..])
      case Some(v) => Some(if t[0] == '-' then -v else v)
      case None => None
    else
      ParseUnsignedDecimal(t)
  }

  // ---------------------------------------------------------------------------
  // Properties

  lemma {:induction false} DigitsValueConcat(s: string, c: char)
    requires AllDigits(s) && IsDigit(c)
    ensures AllDigits(s + [c])
    ensures DigitsValue(s + [c]) == 10 * DigitsValue(s) + DigitValue(c)
  {
    assert (s + [c])[..|s + [c]| - 1] == s;
  }

  lemma {:induction false} DigitsValueLeadingZero(s: string)
    requires AllDigits(s)
    ensures AllDigits("0" + s) && DigitsValue("0" + s) == DigitsValue(s)
    decreases |s|
  {
    if s != [] {
      var init := s[..|s| - 1];
      DigitsValueLeadingZero(init);
      assert ("0" + s)[..|"0" + s| - 1] == "0" + init;
    }
  }

  lemma {:induction false} ZeroPadValue(s: string, w: nat)
    requires AllDigits(s)
    ensures DigitsValue(ZeroPad(s, w)) == DigitsValue(s)
    decreases w - |s|
  {
    if |s| < w {
      DigitsValueLeadingZero(s);
      ZeroPadValue("0" + s, w);
    }
  }

  lemma {:induction false} NatToStringValue(n: nat)
    ensures DigitsValue(NatToString(n)) == n
    decreases n
  {
    if n >= 10 {
      NatToStringValue(n / 10);
      DigitsValueConcat(NatToString(n / 10), DigitChar(n % 10));
    }
  }

  lemma StripDigits(s: string)
    requires |s| > 0 && (AllDigits(s) || (s[0] == '-' && AllDigits(s[1..])))
    ensures Strip(s) == s
  {
    assert !IsSpace(s[0]);
    assert StripLeft(s) == s;
    assert !IsSpace(s[|s| - 1]);
  }

  /** Reading back what `f"{n:03d}"` wrote gives n again. */
  lemma FormatParseRoundTrip(n: int)
    ensures ParseInt(Format03(n)) == Some(n)
  {
    if n >= 0 {
      var d := NatToString(n);
      var t := ZeroPad(d, 3);
      StripDigits(t);
      ZeroPadValue(d, 3);
      NatToStringValue(n);
    } else {
      var d := NatToString(-n);
      var p := ZeroPad(d, 2);
      var t := "-" + p;
      assert t[1..] == p;
      StripDigits(t);
      ZeroPadValue(d, 2);
      NatToStringValue(-n);
    }
  }

  /** Text that `int()` accepts, `float()` accepts with the same value. */
  lemma ParseIntThenReal(s: string)
    requires ParseInt(s).Some?
    ensures ParseReal(s) == Some(ParseInt(s).value as real)
  {
    var t := Strip(s);
    if |t| > 1 && (t[0] == '-' || t[0] == '+') && AllDigits(t[1..]) {
      NoDotInDigits(t[1..]);
      assert t[1..][..|t[1..]|] == t[1..];
    } else {
      NoDotInDigits(t);
      assert t[..|t|] == t;
    }
  }

  lemma NoDotInDigits(s: string)
    requires AllDigits(s)
    ensures DotIndex(s) == |s|
  {
  }

  // ---------------------------------------------------------------------------
  // ASCII lower-casing, as `str.lower()` does for ASCII text

  function LowerChar(c: char): char {
    if 'A' <= c <= 'Z' then (c as int + 32) as char else c
  }

  function Lower(s: string): (r: string)
    ensures |r| == |s|
    ensures forall i :: 0 <= i < |s| ==> r[i] == LowerChar(s[i])
  {
    seq(|s|, i requires 0 <= i < |s| => LowerChar(s[i]))
  }
}
