/**
 * Decimal text as the scripts produce it: Python's `str(n)` and `%i` for
 * integers, and `format(x, '.3f')` for sample values held as integer
 * thousandths. Each printer has a parser beside it, and the lemmas prove
 * that parsing what was printed gives back the number.
 */
module Decimal {
  import opened Wrappers

  predicate IsDigit(c: char) { '0' <= c <= '9' }

  predicate AllDigits(s: string) { forall i :: 0 <= i < |s| ==> IsDigit(s[i]) }

  function DigitValue(c: char): (d: nat)
    requires IsDigit(c)
    ensures d < 10
  {
    c as int - '0' as int
  }

  function DigitChar(d: nat): (c: char)
    requires d < 10
    ensures IsDigit(c) && DigitValue(c) == d
  {
    ('0' as int + d) as char
  }

  function Pow10(k: nat): (p: nat)
    ensures p >= 1
  {
    if k == 0 then 1 else 10 * Pow10(k - 1)
  }

  /** The value of a string of decimal digits, most significant first. */
  function ParseDigits(s: string): (n: nat)
    requires AllDigits(s)
    ensures n < Pow10(|s|)
  {
    if s == [] then 0
    else
      var n' := ParseDigits(s[..|s| - 1]);
      assert n' <= Pow10(|s| - 1) - 1;
      n' * 10 + DigitValue(s[|s| - 1])
  }

  /** Python's `int(s)` restricted to unsigned decimal text. */
  function ParseNat(s: string): Option<nat>
  {
    if |s| >= 1 && AllDigits(s) then Some(ParseDigits(s)) else None
  }

  /** Python's `str(n)` on a non-negative integer. */
  function NatToString(n: nat): (s: string)
    ensures |s| >= 1 && AllDigits(s)
    ensures |s| > 1 ==> s[0] != '0'
  {
    if n < 10 then [DigitChar(n)] else NatToString(n / 10) + [DigitChar(n % 10)]
  }

  lemma {:induction false} ParseNatToString(n: nat)
    ensures ParseDigits(NatToString(n)) == n
    ensures ParseNat(NatToString(n)) == Some(n)
  {
    if n >= 10 {
      ParseNatToString(n / 10);
      var s := NatToString(n);
      assert s[..|s| - 1] == NatToString(n / 10);
    }
  }

  /** `str(n)` has exactly as many characters as n has decimal digits. */
  lemma {:induction false} NatToStringLength(n: nat)
    ensures n < Pow10(|NatToString(n)|)
    ensures n >= 10 ==> Pow10(|NatToString(n)| - 1) <= n
  {
    ParseNatToString(n);
    if n >= 10 {
      NatToStringLength(n / 10);
    }
  }

  /** A number below 10^k prints with at most k digits. */
  lemma NatToStringAtMost(n: nat, k: nat)
    requires k >= 1 && n < Pow10(k)
    ensures |NatToString(n)| <= k
  {
    NatToStringLength(n);
    if |NatToString(n)| > k {
      Pow10Monotone(k, |NatToString(n)| - 1);
    }
  }

  lemma {:induction false} Pow10Monotone(i: nat, j: nat)
    requires i <= j
    ensures Pow10(i) <= Pow10(j)
  {
    if i < j {
      Pow10Monotone(i, j - 1);
    }
  }

  /** Python's `'%i' % i`: a minus sign for negative numbers, then the digits. */
  function IntToString(i: int): (s: string)
    ensures |s| >= 1
    ensures forall k :: 0 <= k < |s| ==> IsDigit(s[k]) || s[k] == '-'
  {
    if i < 0 then "-" + NatToString(-i) else NatToString(i)
  }

  function ParseInt(s: string): Option<int>
  {
    if |s| >= 1 && s[0] == '-' then
      match ParseNat(s[1..])
      case Some(n) => Some(0 - n as int)
      case None => None
    else
      match ParseNat(s)
      case Some(n) => Some(n as int)
      case None => None
  }

  lemma IntToStringRoundTrip(i: int)
    ensures ParseInt(IntToString(i)) == Some(i)
  {
    if i < 0 {
      ParseNatToString(-i);
      assert IntToString(i)[1..] == NatToString(-i);
    } else {
      ParseNatToString(i);
    }
  }

  /** The three fractional digits of the three-decimal format, zero padded. */
  function Pad3(r: nat): (s: string)
    requires r < 1000
    ensures |s| == 3 && AllDigits(s)
  {
    [DigitChar(r / 100), DigitChar(r / 10 % 10), DigitChar(r % 10)]
  }

  lemma Pad3RoundTrip(r: nat)
    requires r < 1000
    ensures ParseDigits(Pad3(r)) == r
  {
    var a, b, c := r / 100, r / 10 % 10, r % 10;
    assert r == 100 * a + 10 * b + c;
    var s := Pad3(r);
    assert s[..2][..1] == [DigitChar(a)];
    assert ParseDigits(s[..2][..1]) == a;
    assert ParseDigits(s[..2]) == 10 * a + b;
  }

  function Abs(m: int): nat { if m < 0 then -m else m }

  /**
   * `format(m / 1000, '.3f')` for a value m given in thousandths: the sign,
   * the whole part, a point and exactly three fractional digits.
   */
  function FormatMilli(m: int): (s: string)
    ensures |s| >= 5 && s[|s| - 4] == '.'
    ensures forall k :: 0 <= k < |s| ==> IsDigit(s[k]) || s[k] == '-' || s[k] == '.'
  {
    MilliParts(Abs(m));
    (if m < 0 then "-" else "") + UnsignedMilli(Abs(m))
  }

  /**
   * The exact shape of that text: a minus sign first exactly when m is
   * negative, then whole digits without a leading zero, a point, and three
   * fraction digits.
   */
  lemma FormatMilliShape(m: int)
    ensures var s := FormatMilli(m);
      && (s[0] == '-' <==> m < 0)
      && var t := if m < 0 then s[1..] else s;
         && |t| >= 5 && t[|t| - 4] == '.'
         && AllDigits(t[..|t| - 4]) && AllDigits(t[|t| - 3..])
         && (|t| > 5 ==> t[0] != '0')
  {
    MilliParts(Abs(m));
    var t := UnsignedMilli(Abs(m));
    if m < 0 {
      assert ("-" + t)[1..] == t;
    } else {
      assert "" + t == t;
    }
  }

  /** The whole part, a point and three fraction digits of a non-negative count of thousandths. */
  function UnsignedMilli(a: nat): string
  {
    NatToString(a / 1000) + "." + Pad3(a % 1000)
  }

  /** Reads text of the shape FormatMilli prints back into thousandths. */
  function ParseMilli(s: string): Option<int>
  {
    if |s| >= 1 && s[0] == '-' then
      match ParseUnsignedMilli(s[1..])
      case Some(v) => Some(-v)
      case None => None
    else ParseUnsignedMilli(s)
  }

  /** Whole digits, a point and three fraction digits, as thousandths. */
  function ParseUnsignedMilli(t: string): Option<int>
  {
    if |t| < 5 || t[|t| - 4] != '.' then None
    else
      var whole, frac := t[..|t| - 4], t[|t| - 3..];
      if !(AllDigits(whole) && AllDigits(frac)) then None
      else Some(ParseDigits(whole) * 1000 + ParseDigits(frac))
  }

  lemma MilliRoundTrip(m: int)
    ensures ParseMilli(FormatMilli(m)) == Some(m)
  {
    var t := UnsignedMilli(Abs(m));
    MilliParts(Abs(m));
    UnsignedMilliReads(t, Abs(m));
    if m < 0 {
      assert ("-" + t)[1..] == t;
    } else {
      assert "" + t == t;
    }
  }

  lemma MilliParts(a: nat)
    ensures var t := UnsignedMilli(a);
      && |t| >= 5 && t[0] != '-' && t[|t| - 4] == '.' && (|t| > 5 ==> t[0] != '0')
      && (forall k :: 0 <= k < |t| ==> IsDigit(t[k]) || t[k] == '.')
      && AllDigits(t[..|t| - 4]) && AllDigits(t[|t| - 3..])
      && ParseDigits(t[..|t| - 4]) * 1000 + ParseDigits(t[|t| - 3..]) == a
  {
    var w, f := NatToString(a / 1000), Pad3(a % 1000);
    var t := w + "." + f;
    assert t[0] == w[0];
    assert t[..|t| - 4] == w;
    assert t[|t| - 3..] == f;
    ParseNatToString(a / 1000);
    Pad3RoundTrip(a % 1000);
  }

  lemma UnsignedMilliReads(t: string, a: nat)
    requires |t| >= 5 && t[|t| - 4] == '.'
    requires AllDigits(t[..|t| - 4]) && AllDigits(t[|t| - 3..])
    requires ParseDigits(t[..|t| - 4]) * 1000 + ParseDigits(t[|t| - 3..]) == a
    ensures ParseUnsignedMilli(t) == Some(a)
  {
  }
}
