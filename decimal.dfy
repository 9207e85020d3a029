/**
 * Python's fixed-point float formatting (`f"{x:.2f}"`, `f"{x:.4f}"`), used by
 * the rate-ratio rumour page's peak message and the exponential page's
 * slider labels, the thousands grouping of `f"{n:,}"` with the commas
 * replaced by spaces, and readers for the strings they produce.
 */
module Decimal {
  import opened Values

  predicate IsDigit(c: char) {
    '0' <= c <= '9'
  }

  predicate AllDigits(s: string) {
    forall i :: 0 <= i < |s| ==> IsDigit(s[i])
  }

  function DigitChar(d: nat): (c: char)
    requires d < 10
    ensures IsDigit(c) && c as int - '0' as int == d
  {
    ('0' as int + d) as char
  }

  function DigitValue(c: char): (d: nat)
    requires IsDigit(c)
    ensures d < 10 && DigitChar(d) == c
  {
    c as int - '0' as int
  }

  /** The decimal digits of `n`, most significant first, without leading zeros. */
  function NatToDigits(n: nat): (s: string)
    ensures |s| >= 1 && AllDigits(s)
    ensures |s| > 1 ==> s[0] != '0'
  {
    if n < 10 then [DigitChar(n)] else NatToDigits(n / 10) + [DigitChar(n % 10)]
  }

  /** The number a string of decimal digits denotes. */
  function DigitsToNat(s: string): nat
    requires AllDigits(s)
  {
    if |s| == 0 then 0 else DigitsToNat(s[..|s| - 1]) * 10 + DigitValue(s[|s| - 1])
  }

  lemma {:induction false} DigitsRoundTrip(n: nat)
    ensures DigitsToNat(NatToDigits(n)) == n
  {
    if n >= 10 {
      var s := NatToDigits(n);
      assert s[..|s| - 1] == NatToDigits(n / 10);
      DigitsRoundTrip(n / 10);
    }
  }

  function Pow10(k: nat): (p: nat)
    ensures p >= 1
  {
    if k == 0 then 1 else 10 * Pow10(k - 1)
  }

  function Zeros(k: nat): (s: string)
    ensures |s| == k && AllDigits(s)
  {
    if k == 0 then "" else Zeros(k - 1) + "0"
  }

  /** Leading zeros do not change the number digits denote. */
  lemma {:induction false} LeadingZeros(k: nat, s: string)
    requires AllDigits(s)
    ensures DigitsToNat(Zeros(k) + s) == DigitsToNat(s)
  {
    if |s| == 0 {
      assert Zeros(k) + s == Zeros(k);
      if k > 0 {
        LeadingZeros(k - 1, "");
        assert Zeros(k - 1) + "" == Zeros(k - 1);
        assert Zeros(k)[..k - 1] == Zeros(k - 1);
      }
    } else {
      LeadingZeros(k, s[..|s| - 1]);
      assert (Zeros(k) + s)[..|Zeros(k) + s| - 1] == Zeros(k) + s[..|s| - 1];
    }
  }

  /** The digits of `h`, padded with leading zeros to at least `width`. */
  function Padded(h: nat, width: nat): (s: string)
    ensures |s| >= width && |s| >= 1 && AllDigits(s)
    ensures DigitsToNat(s) == h
  {
    var digits := NatToDigits(h);
    DigitsRoundTrip(h);
    if |digits| >= width then digits
    else
      LeadingZeros(width - |digits|, digits);
      Zeros(width - |digits|) + digits
  }

  /** Rounding to the nearest whole number, ties to even, as Python's
      formatting does. */
  function RoundHalfEven(y: real): (h: int)
    ensures -0.5 <= h as real - y <= 0.5
    ensures h as real - y == 0.5 || h as real - y == -0.5 ==> h % 2 == 0
  {
    var n := y.Floor;
    var frac := y - n as real;
    if frac > 0.5 || (frac == 0.5 && n % 2 == 1) then n + 1 else n
  }

  /** A signed count of units `1/unit` as a number. */
  function Units(negative: bool, h: nat, unit: nat): real
    requires unit >= 1
  {
    if negative then -(h as real / unit as real) else h as real / unit as real
  }

  /** The count of units `1/unit` that `|x|` rounds to. */
  function Scaled(x: real, unit: nat): (h: nat)
    requires unit >= 1
    ensures -0.5 <= h as real - (if x < 0.0 then -x else x) * unit as real <= 0.5
  {
    var a := if x < 0.0 then -x else x;
    NonNegativeScaled(a, unit as real);
    RoundHalfEven(a * unit as real)
  }

  lemma NonNegativeScaled(a: real, p: real)
    requires 0.0 <= a && 1.0 <= p
    ensures 0.0 <= a * p
  {
  }

  /** `x` rounded to a whole number of units `1/unit`, ties to even. */
  function RoundTo(x: real, unit: nat): real
    requires unit >= 1
  {
    Units(x < 0.0, Scaled(x, unit), unit)
  }

  /** Dividing by `p` turns `h - a * p` into `p` times the error `h / p - a`. */
  lemma QuotientError(h: real, a: real, p: real)
    requires p >= 1.0
    ensures (h / p - a) * p == h - a * p
  {
  }

  /** The rounding error is at most half a unit: times `unit` it lies within
      one half. */
  lemma RoundError(x: real, unit: nat)
    requires unit >= 1
    ensures -0.5 <= (RoundTo(x, unit) - x) * unit as real <= 0.5
  {
    var a := if x < 0.0 then -x else x;
    var h := Scaled(x, unit);
    QuotientError(h as real, a, unit as real);
    if x < 0.0 {
      assert (RoundTo(x, unit) - x) * unit as real == -((h as real / unit as real - a) * unit as real);
    }
  }

  /** `f"{x:.<places>f}"`: an optional minus sign, the whole part, a point and
      exactly `places` digits. A negative value that rounds to zero keeps its
      sign (`-0.00`), as in Python. */
  function FormatFixed(x: real, places: nat): (s: string)
    requires places >= 1
    ensures |s| >= places + 2 && s[|s| - places - 1] == '.'
  {
    var digits := Padded(Scaled(x, Pow10(places)), places + 1);
    (if x < 0.0 then "-" else "") + digits[..|digits| - places] + "." + digits[|digits| - places..]
  }

  /** Reads `digits.digits` with exactly `places` digits after the point as
      a count of units `10^-places`. */
  function ParseUnits(s: string, places: nat): Option<nat> {
    if |s| < places + 2 || s[|s| - places - 1] != '.' then None
    else
      var digits := s[..|s| - places - 1] + s[|s| - places..];
      if AllDigits(digits) then Some(DigitsToNat(digits)) else None
  }

  /** Reads a string of the shape `FormatFixed` writes back into a number. */
  function ParseFixed(s: string, places: nat): Option<real> {
    var negative := |s| >= 1 && s[0] == '-';
    match ParseUnits(if negative then s[1..] else s, places)
    case None => None
    case Some(h) => Some(Units(negative, h, Pow10(places)))
  }

  lemma UnitsShape(whole: string, fraction: string)
    requires |whole| >= 1 && AllDigits(whole + fraction)
    ensures ParseUnits(whole + "." + fraction, |fraction|) == Some(DigitsToNat(whole + fraction))
  {
    var s := whole + "." + fraction;
    assert s[..|s| - |fraction| - 1] == whole;
    assert s[|s| - |fraction|..] == fraction;
  }

  /** The reader takes apart a string of the shape the formatter writes. */
  lemma ParseShape(negative: bool, whole: string, fraction: string)
    requires |whole| >= 1 && AllDigits(whole + fraction)
    ensures ParseFixed((if negative then "-" else "") + whole + "." + fraction, |fraction|)
      == Some(Units(negative, DigitsToNat(whole + fraction), Pow10(|fraction|)))
  {
    var body := whole + "." + fraction;
    var s := (if negative then "-" else "") + body;
    assert s == (if negative then "-" else "") + whole + "." + fraction;
    UnitsShape(whole, fraction);
    if negative {
      assert s[0] == '-' && s[1..] == body;
    } else {
      assert s == body && s[0] == (whole + fraction)[0];
    }
  }

  /** The formatted text reads back as the rounded value. */
  lemma FormatFixedRoundTrip(x: real, places: nat)
    requires places >= 1
    ensures ParseFixed(FormatFixed(x, places), places) == Some(RoundTo(x, Pow10(places)))
  {
    var h := Scaled(x, Pow10(places));
    var digits := Padded(h, places + 1);
    var whole, fraction := digits[..|digits| - places], digits[|digits| - places..];
    assert whole + fraction == digits;
    ParseShape(x < 0.0, whole, fraction);
  }

  /** `f"{n:,}".replace(",", " ")` on the digits of a whole number: a space
      between every group of three digits, counted from the right. */
  function GroupThousands(digits: string): (s: string)
    ensures |digits| <= 3 ==> s == digits
  {
    if |digits| <= 3 then digits
    else GroupThousands(digits[..|digits| - 3]) + " " + digits[|digits| - 3..]
  }

  /** The string with its spaces removed. */
  function Ungroup(s: string): string {
    if |s| == 0 then "" else Ungroup(s[..|s| - 1]) + (if s[|s| - 1] == ' ' then "" else [s[|s| - 1]])
  }

  lemma {:induction false} UngroupAppend(a: string, b: string)
    ensures Ungroup(a + b) == Ungroup(a) + Ungroup(b)
  {
    if |b| > 0 {
      assert (a + b)[..|a + b| - 1] == a + b[..|b| - 1];
      UngroupAppend(a, b[..|b| - 1]);
    } else {
      assert a + b == a;
    }
  }

  lemma {:induction false} UngroupDigits(digits: string)
    requires AllDigits(digits)
    ensures Ungroup(digits) == digits
  {
    if |digits| > 0 {
      UngroupDigits(digits[..|digits| - 1]);
      assert digits[..|digits| - 1] + [digits[|digits| - 1]] == digits;
    }
  }

  /** Grouping only inserts spaces: removing them gives back the digits. */
  lemma {:induction false} GroupThousandsRoundTrip(digits: string)
    requires AllDigits(digits)
    ensures Ungroup(GroupThousands(digits)) == digits
  {
    if |digits| <= 3 {
      UngroupDigits(digits);
    } else {
      var head, tail := digits[..|digits| - 3], digits[|digits| - 3..];
      GroupThousandsRoundTrip(head);
      UngroupAppend(GroupThousands(head) + " ", tail);
      UngroupAppend(GroupThousands(head), " ");
      UngroupDigits(tail);
      assert head + tail == digits;
    }
  }

  /** `f"{n:,}".replace(",", " ")`: sign, then the grouped digits of `|n|`. */
  function FormatGrouped(n: int): (s: string)
    ensures |s| >= 1
  {
    (if n < 0 then "-" else "") + GroupThousands(NatToDigits(if n < 0 then -n else n))
  }

  /** Reads a whole number with an optional sign and spaces between its digits. */
  function ParseGrouped(s: string): Option<int> {
    var negative := |s| >= 1 && s[0] == '-';
    var digits := Ungroup(if negative then s[1..] else s);
    if |digits| == 0 || !AllDigits(digits) then None
    else Some(if negative then -(DigitsToNat(digits) as int) else DigitsToNat(digits))
  }

  /** The grouped text reads back as the number. */
  lemma FormatGroupedRoundTrip(n: int)
    ensures ParseGrouped(FormatGrouped(n)) == Some(n)
  {
    var m := if n < 0 then -n else n;
    var grouped := GroupThousands(NatToDigits(m));
    GroupThousandsRoundTrip(NatToDigits(m));
    DigitsRoundTrip(m);
    var s := FormatGrouped(n);
    if n < 0 {
      assert s[0] == '-' && s[1..] == grouped;
    } else {
      assert s == grouped;
      assert grouped[0] != '-' by {
        assert Ungroup(grouped) == NatToDigits(m);
        GroupedHead(NatToDigits(m));
      }
    }
  }

  /** Grouping starts with the first digit. */
  lemma {:induction false} GroupedHead(digits: string)
    requires |digits| >= 1
    ensures |GroupThousands(digits)| >= 1 && GroupThousands(digits)[0] == digits[0]
  {
    if |digits| > 3 {
      GroupedHead(digits[..|digits| - 3]);
    }
  }
}
