/** The amount field of a billing record: a decimal literal, rounded to
    thousandths and rendered with exactly three fractional digits, as
    `f'{round(float(s), 3):.3f}'` does. The value is kept exact (a mantissa
    and a power-of-ten scale) instead of a binary double. */
module Decimal {
  import opened Optional
  import opened Text

  /** The value (-1)^negative * mantissa / 10^scale. */
  datatype Decimal = Decimal(negative: bool, mantissa: nat, scale: nat)

  /** A count of thousandths; the sign is kept apart so that a negative
      amount that rounds to zero still prints as `-0.000`, like a float. */
  datatype Thousandths = Thousandths(negative: bool, count: nat)

  /** `s` without its leading sign, if it has one. */
  function Unsigned(s: string): string {
    if |s| > 0 && (s[0] == '-' || s[0] == '+') then s[1..] else s
  }

  /** `body` is `whole` alone, or `whole`, a point and `frac`, with only
      digits on either side and at least one digit in all. */
  predicate DecimalShape(body: string, whole: string, frac: string) {
    && AllDigits(whole) && AllDigits(frac) && |whole| + |frac| > 0
    && (body == whole + "." + frac || (frac == "" && body == whole))
  }

  /** The text before the first point and the text after it; all of it and
      nothing when there is no point. */
  function SplitAtPoint(body: string): (string, string) {
    match IndexOf(body, '.')
    case None => (body, "")
    case Some(k) => (body[..k], body[k + 1..])
  }

  /** Reads `[+|-] digits [. digits]` with at least one digit in all (so
      `12.`, `.5` and `-0` are accepted, `.` and `+` are not). The text is
      accepted exactly when its unsigned part has that shape, and then the
      value is the digits read, scaled by the number of fractional ones. */
  function ParseDecimal(s: string): (r: Option<Decimal>)
    ensures r.Some? ==> (r.value.negative <==> |s| > 0 && s[0] == '-')
    ensures r.Some? <==> exists whole, frac :: DecimalShape(Unsigned(s), whole, frac)
    ensures forall whole, frac :: DecimalShape(Unsigned(s), whole, frac) ==>
              && AllDigits(whole + frac)
              && r == Some(Decimal(|s| > 0 && s[0] == '-', DigitsValue(whole + frac), |frac|))
  {
    var negative := |s| > 0 && s[0] == '-';
    var body := Unsigned(s);
    var (whole, frac) := SplitAtPoint(body);
    OnlyShapeIsTheSplit(body);
    if AllDigits(whole) && AllDigits(frac) && |whole| + |frac| > 0 then
      AllDigitsAppend(whole, frac);
      SplitRejoins(body);
      Some(Decimal(negative, DigitsValue(whole + frac), |frac|))
    else
      None
  }

  /** Cutting at the first point and putting the point back gives the text. */
  lemma SplitRejoins(body: string)
    ensures var (whole, frac) := SplitAtPoint(body);
            body == whole + "." + frac || (frac == "" && body == whole)
  {
    match IndexOf(body, '.')
    case None =>
    case Some(k) =>
      assert body == body[..k] + "." + body[k + 1..];
  }

  /** A text of the accepted shape has only one way to be read: the cut at
      its first point. */
  lemma ShapeIsTheSplit(body: string, whole: string, frac: string)
    requires DecimalShape(body, whole, frac)
    ensures SplitAtPoint(body) == (whole, frac)
  {
    if body == whole + "." + frac {
      IndexOfAfterDigits(whole, frac);
      assert body[..|whole|] == whole;
      assert body[|whole| + 1..] == frac;
    } else {
      assert IndexOf(body, '.').None?;
    }
  }

  lemma OnlyShapeIsTheSplit(body: string)
    ensures forall whole, frac :: DecimalShape(body, whole, frac) ==> SplitAtPoint(body) == (whole, frac)
  {
    forall whole, frac | DecimalShape(body, whole, frac)
      ensures SplitAtPoint(body) == (whole, frac)
    {
      ShapeIsTheSplit(body, whole, frac);
    }
  }

  function Dist(a: int, b: int): nat {
    if a >= b then a - b else b - a
  }

  /** The thousandths count nearest to the decimal's magnitude, where
      "nearest" compares mantissa * 1000 with count * 10^scale. */
  ghost predicate IsNearestEven(d: Decimal, count: nat) {
    var gap := Dist(d.mantissa * 1000, count * Pow10(d.scale));
    && 2 * gap <= Pow10(d.scale)
    && (2 * gap == Pow10(d.scale) ==> count % 2 == 0)
  }

  /** `round(x, 3)`: round half to even at the third fractional digit. */
  function RoundThousandths(d: Decimal): (r: Thousandths)
    ensures r.negative == d.negative
    ensures IsNearestEven(d, r.count)
  {
    if d.scale <= 3 then
      var r := Thousandths(d.negative, d.mantissa * Pow10(3 - d.scale));
      ExactAtScale(d);
      r
    else
      var unit := Pow10(d.scale - 3);
      var q, rem := d.mantissa / unit, d.mantissa % unit;
      QuotientAndRemainder(d.mantissa, unit);
      var up := 2 * rem > unit || (2 * rem == unit && q % 2 == 1);
      var r := Thousandths(d.negative, if up then q + 1 else q);
      HalfEvenStep(d, unit, q, rem, up, r.count);
      r
  }

  lemma QuotientAndRemainder(m: nat, unit: nat)
    requires unit >= 1
    ensures 0 <= m / unit && 0 <= m % unit < unit
    ensures m == (m / unit) * unit + m % unit
  {
  }

  /** With at most three fractional digits nothing is lost: scaling the
      mantissa up to thousandths is exact. */
  lemma ExactAtScale(d: Decimal)
    requires d.scale <= 3
    ensures IsNearestEven(d, d.mantissa * Pow10(3 - d.scale))
  {
    var a, b := Pow10(3 - d.scale), Pow10(d.scale);
    Pow10Add(3 - d.scale, d.scale);
    assert a * b == 1000 by {
      assert Pow10(3) == 1000;
    }
    calc {
      (d.mantissa * a) * b;
      d.mantissa * (a * b);
      d.mantissa * 1000;
    }
  }

  lemma HalfEvenStep(d: Decimal, unit: nat, q: nat, rem: nat, up: bool, count: nat)
    requires d.scale > 3 && unit == Pow10(d.scale - 3)
    requires d.mantissa == q * unit + rem && rem < unit
    requires up == (2 * rem > unit || (2 * rem == unit && q % 2 == 1))
    requires count == if up then q + 1 else q
    ensures IsNearestEven(d, count)
  {
    RoundingGap(d.mantissa, unit, q, rem, count, d.scale);
  }

  lemma RoundingGap(m: nat, unit: nat, q: nat, rem: nat, count: nat, scale: nat)
    requires scale > 3 && unit == Pow10(scale - 3)
    requires m == q * unit + rem && rem < unit
    requires count == q || count == q + 1
    ensures Pow10(scale) == 1000 * unit
    ensures Dist(m * 1000, count * Pow10(scale)) == 1000 * Dist(m, count * unit)
    ensures count == q ==> Dist(m, count * unit) == rem
    ensures count == q + 1 ==> Dist(m, count * unit) == unit - rem
  {
    Pow10Add(3, scale - 3);
    assert Pow10(scale) == 1000 * unit;
    assert count * Pow10(scale) == 1000 * (count * unit);
    if count == q + 1 {
      assert count * unit == q * unit + unit;
    }
  }

  /** Rounding is a function of the value: there is only one nearest
      thousandths count with ties going to even, so any count meeting
      `IsNearestEven` is the one `RoundThousandths` picks. */
  lemma RoundingIsUnique(d: Decimal, c: nat)
    requires IsNearestEven(d, c)
    ensures c == RoundThousandths(d).count
  {
    var r := RoundThousandths(d).count;
    if c != r {
      var lo, hi := if c < r then c else r, if c < r then r else c;
      NearestCountsAdjacent(d.mantissa * 1000, Pow10(d.scale), lo, hi);
      assert false;
    }
  }

  /** Two distinct counts both within half a unit of `x` are neighbours
      lying exactly half a unit away on either side. */
  lemma NearestCountsAdjacent(x: int, u: nat, lo: nat, hi: nat)
    requires u >= 1 && lo < hi
    requires 2 * Dist(x, lo * u) <= u && 2 * Dist(x, hi * u) <= u
    ensures hi == lo + 1
    ensures 2 * Dist(x, lo * u) == u && 2 * Dist(x, hi * u) == u
  {
    var k := hi - lo;
    assert hi * u == lo * u + k * u;
    assert k * u >= u by {
      assert k * u == (k - 1) * u + u;
    }
    if k >= 2 {
      assert false;
    }
  }

  /** `f'{t:.3f}'`: optional minus sign, the whole part without padding, a
      point and exactly three fractional digits. */
  function RenderThousandths(t: Thousandths): (s: string)
    ensures |s| >= 5 && s[|s| - 4] == '.' && AllDigits(s[|s| - 3..])
    ensures s[0] == '-' <==> t.negative
    ensures var w := s[(if t.negative then 1 else 0)..|s| - 4];
            && |w| >= 1 && AllDigits(w) && (|w| > 1 ==> w[0] != '0')
            && DigitsValue(w) == t.count / 1000
  {
    var whole := PaddedDigits(t.count / 1000, 1);
    var frac := PaddedDigits(t.count % 1000, 3);
    assert Pow10(3) == 1000;
    PlainDigitsUnpadded(t.count / 1000, 1);
    var s := (if t.negative then "-" else "") + whole + "." + frac;
    assert s[|s| - 3..] == frac;
    assert s[(if t.negative then 1 else 0)..|s| - 4] == whole;
    assert t.negative || s[0] == whole[0];
    s
  }

  lemma IndexOfAfterDigits(whole: string, rest: string)
    requires AllDigits(whole)
    ensures IndexOf(whole + "." + rest, '.') == Some(|whole|)
  {
    var body := whole + "." + rest;
    var k := IndexOf(body, '.');
    assert body[|whole|] == '.';
    if k.None? {
      assert false;
    } else if k.value < |whole| {
      assert false;
    } else if k.value > |whole| {
      assert false;
    }
  }

  lemma ParseSigned(negative: bool, whole: string, frac: string)
    requires AllDigits(whole) && AllDigits(frac) && |whole| >= 1
    ensures AllDigits(whole + frac)
    ensures ParseDecimal((if negative then "-" else "") + whole + "." + frac)
            == Some(Decimal(negative, DigitsValue(whole + frac), |frac|))
  {
    AllDigitsAppend(whole, frac);
    var body := whole + "." + frac;
    var s := (if negative then "-" else "") + whole + "." + frac;
    assert s == (if negative then "-" else "") + body;
    assert Unsigned(s) == body by {
      if negative {
        assert s[1..] == body;
      } else {
        assert s[0] == whole[0];
      }
    }
    assert negative <==> |s| > 0 && s[0] == '-' by {
      if !negative { assert s[0] == whole[0]; }
    }
    IndexOfAfterDigits(whole, frac);
    assert body[..|whole|] == whole;
    assert body[|whole| + 1..] == frac;
  }

  /** Reading a rendered amount gives back its sign and count of
      thousandths at scale 3: the text holds exactly three fractional
      digits and carries the rounded value unchanged. */
  lemma RenderRoundTrip(t: Thousandths)
    ensures ParseDecimal(RenderThousandths(t)) == Some(Decimal(t.negative, t.count, 3))
  {
    var whole := PaddedDigits(t.count / 1000, 1);
    var frac := PaddedDigits(t.count % 1000, 3);
    ThousandthsDigits(t.count);
    ParseSigned(t.negative, whole, frac);
  }

  /** The whole part and the three-digit fraction together spell the count. */
  lemma ThousandthsDigits(count: nat)
    ensures |PaddedDigits(count % 1000, 3)| == 3
    ensures DigitsValue(PaddedDigits(count / 1000, 1) + PaddedDigits(count % 1000, 3)) == count
  {
    var whole := PaddedDigits(count / 1000, 1);
    var frac := PaddedDigits(count % 1000, 3);
    assert Pow10(3) == 1000;
    DigitsValueAppend(whole, frac);
    assert DigitsValue(whole + frac) == (count / 1000) * 1000 + count % 1000;
  }
}
