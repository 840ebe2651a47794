// Exact decimal money. Every amount column is NUMERIC(19, 4), so an amount
// is modelled as an integer count of ten-thousandths; BigDecimal addition
// and subtraction are then integer arithmetic. This module adds the one
// rounding division the services perform (HALF_UP to four places), the
// comparison with the configured alert threshold, and toPlainString.

module Money {
  import opened Common
  import opened Digits

  /** Ten-thousandths per unit (scale 4). */
  const Scale: int := 10000

  /** The @DecimalMin("0.01") bound of the request DTOs. */
  const MinAmount: int := 100

  function Abs(x: int): nat
  {
    if x < 0 then -x else x
  }

  /** n / d rounded to an integer with RoundingMode.HALF_UP: to the nearest
      integer, and away from zero when n / d lies exactly half-way. */
  function DivideHalfUp(n: int, d: int): (q: int)
    requires d > 0
    ensures n >= 0 ==> q >= 0 && (2 * q - 1) * d <= 2 * n < (2 * q + 1) * d
    ensures n < 0 ==> q <= 0 && (2 * q - 1) * d < 2 * n <= (2 * q + 1) * d
  {
    if n >= 0 then
      var q := (2 * n + d) / (2 * d);
      DivisionBounds(2 * n + d, 2 * d);
      q
    else
      var q := (-2 * n + d) / (2 * d);
      DivisionBounds(-2 * n + d, 2 * d);
      -q
  }

  lemma DivisionBounds(a: int, b: int)
    requires b > 0
    ensures (a / b) * b <= a < (a / b) * b + b
  {
  }

  /** HALF_UP has exactly one answer: any q meeting the bounds is it. */
  lemma {:induction false} DivideHalfUpUnique(n: int, d: int, q: int)
    requires d > 0
    requires n >= 0 ==> (2 * q - 1) * d <= 2 * n < (2 * q + 1) * d
    requires n < 0 ==> (2 * q - 1) * d < 2 * n <= (2 * q + 1) * d
    ensures q == DivideHalfUp(n, d)
  {
    var r := DivideHalfUp(n, d);
    if q < r {
      assert (2 * q + 1) * d <= (2 * r - 1) * d by { MulMonotone(2 * q + 1, 2 * r - 1, d); }
    } else if q > r {
      assert (2 * r + 1) * d <= (2 * q - 1) * d by { MulMonotone(2 * r + 1, 2 * q - 1, d); }
    }
  }

  lemma MulMonotone(a: int, b: int, d: int)
    requires a <= b && d > 0
    ensures a * d <= b * d
  {
  }

  /**
   * spendingRatio = totalSpent.divide(budgetAmount, 4, HALF_UP), in
   * ten-thousandths: (total / budget) * 10000 rounded half up.
   */
  function SpendingRatio(total: int, budget: int): (r: int)
    requires budget > 0
    ensures total >= 0 ==> (2 * r - 1) * budget <= 2 * total * Scale < (2 * r + 1) * budget
  {
    DivideHalfUp(total * Scale, budget)
  }

  /** The alert threshold, a rational num / den with den > 0 (the
      configured double, read as the decimal it was written as). */
  datatype Threshold = Threshold(num: int, den: int)

  predicate ValidThreshold(t: Threshold)
  {
    t.den > 0
  }

  /** ratio.doubleValue() >= alertThreshold, for a ratio in ten-thousandths. */
  predicate ReachesThreshold(ratio: int, t: Threshold)
    requires ValidThreshold(t)
  {
    ratio * t.den >= t.num * Scale
  }

  /** Spending the whole budget reaches every threshold up to 1 (100%). */
  lemma {:induction false} FullBudgetReachesThreshold(total: int, budget: int, t: Threshold)
    requires budget > 0 && total >= budget && ValidThreshold(t) && t.num <= t.den
    ensures ReachesThreshold(SpendingRatio(total, budget), t)
  {
    var r := SpendingRatio(total, budget);
    assert 2 * total * Scale < (2 * r + 1) * budget;
    assert 2 * budget * Scale <= 2 * total * Scale by { MulMonotone(budget, total, 2 * Scale); }
    if r < Scale {
      MulMonotone(2 * r + 1, 2 * Scale - 1, budget);
      assert false;
    }
    MulMonotone(Scale, r, t.den);
    if t.num > 0 {
      MulMonotone(t.num, t.den, Scale);
    }
  }

  /** A larger total never lowers the rounded ratio: once an alert fires for
      a budget, every later transaction in that month fires it again. */
  lemma {:induction false} SpendingRatioMonotone(t1: int, t2: int, budget: int)
    requires budget > 0 && 0 <= t1 <= t2
    ensures SpendingRatio(t1, budget) <= SpendingRatio(t2, budget)
  {
    var r1, r2 := SpendingRatio(t1, budget), SpendingRatio(t2, budget);
    if r1 > r2 {
      MulMonotone(2 * r2 + 1, 2 * r1 - 1, budget);
      MulMonotone(t1, t2, 2 * Scale);
      assert false;
    }
  }

  // ---------------------------------------------------------------------
  // BigDecimal.toPlainString of a scale-4 amount
  // ---------------------------------------------------------------------

  /** "-" for negatives, the integer part without leading zeros, a point and
      exactly four fraction digits, e.g. 1505000 -> "150.5000". */
  function PlainString(a: int): (s: string)
    ensures |s| >= 6 && s[|s| - 5] == '.'
  {
    (if a < 0 then "-" else "") + Magnitude(Abs(a))
  }

  /** The unsigned part: the integer part, a point, four fraction digits. */
  function Magnitude(m: nat): (s: string)
    ensures |s| >= 6 && s[|s| - 5] == '.'
  {
    ToDecimal(m / Scale) + "." + PadDigits(m % Scale, 4)
  }

  /** Reads a plain decimal string with four fraction digits back. */
  function ParsePlain(s: string): (r: Option<int>)
  {
    var negative := |s| > 0 && s[0] == '-';
    match ParseMagnitude(if negative then s[1..] else s)
    case None => None
    case Some(m) => Some(if negative then -(m as int) else m as int)
  }

  /** Digits, a point and four digits, read as ten-thousandths. */
  function ParseMagnitude(body: string): (r: Option<nat>)
  {
    if |body| < 6 || body[|body| - 5] != '.' then None
    else
      var whole, frac := body[..|body| - 5], body[|body| - 4..];
      if !AllDigits(whole) || !AllDigits(frac) then None
      else Some(ValueOf(whole) * Scale + ValueOf(frac))
  }

  /** The rendering loses nothing: parsing it gives the amount back. */
  lemma PlainStringRoundTrip(a: int)
    ensures ParsePlain(PlainString(a)) == Some(a)
  {
    MagnitudeRoundTrip(Abs(a));
    ParseSigned(a < 0, Magnitude(Abs(a)), Abs(a));
  }

  /** The unsigned rendering of an amount reads back to it. */
  lemma MagnitudeRoundTrip(m: nat)
    ensures ParseMagnitude(Magnitude(m)) == Some(m) && Magnitude(m)[0] != '-'
  {
    var whole, frac := ToDecimal(m / Scale), PadDigits(m % Scale, 4);
    MagnitudeOf(whole, frac);
    assert m == (m / Scale) * Scale + m % Scale;
    assert (whole + "." + frac)[0] == whole[0] && IsDigit(whole[0]);
  }

  /** An optional minus sign in front of a magnitude. */
  lemma ParseSigned(negative: bool, body: string, m: nat)
    requires ParseMagnitude(body) == Some(m) && |body| > 0 && body[0] != '-'
    ensures ParsePlain((if negative then "-" else "") + body) == Some(if negative then -(m as int) else m as int)
  {
    if negative {
      assert ("-" + body)[1..] == body;
    } else {
      assert "" + body == body;
    }
  }

  /** Digits, a point and four digits read back to their value. */
  lemma MagnitudeOf(whole: string, frac: string)
    requires |whole| >= 1 && AllDigits(whole) && |frac| == 4 && AllDigits(frac)
    ensures ParseMagnitude(whole + "." + frac) == Some(ValueOf(whole) * Scale + ValueOf(frac))
  {
    var body := whole + "." + frac;
    var n := |whole|;
    assert |body| == n + 5 && body[n] == '.';
    assert body[..n] == whole;
    assert body[n + 1..] == frac;
  }
}
