/** Values shared by every part of the model: Java's `null` and thrown
    exceptions as datatypes, the `Math.min`/`Math.max` of doubles, and the
    truncating integer division Java performs on `long` values.

    Timestamps (`LocalDateTime`) and durations (`Duration`) are whole
    minutes; doubles are exact reals. */
module Common {

  /** A reference that may be `null`. */
  datatype Option<+T> = None | Some(value: T)

  /** The exceptions the modelled code can raise. */
  datatype JavaError = ArithmeticException(message: string)

  /** A value, or the exception raised while computing it. */
  datatype Result<+T> = Ok(value: T) | Err(error: JavaError)

  const DIVIDE_BY_ZERO: JavaError := ArithmeticException("/ by zero")

  function Min(a: real, b: real): (r: real)
    ensures r <= a && r <= b && (r == a || r == b)
  {
    if a <= b then a else b
  }

  function Max(a: real, b: real): (r: real)
    ensures r >= a && r >= b && (r == a || r == b)
  {
    if a >= b then a else b
  }

  function Abs(x: int): nat { if x < 0 then -x else x }

  /** Java's `long` division: the quotient is truncated toward zero
      (Dafny's own `/` is Euclidean). */
  function JavaDiv(a: int, b: int): (q: int)
    requires b != 0
    ensures Abs(q) == Abs(a) / Abs(b)
    ensures q >= 0 <==> (a < 0) == (b < 0) || Abs(a) < Abs(b)
  {
    var m := Abs(a) / Abs(b);
    assert m >= 0 && (m == 0 <==> Abs(a) < Abs(b)) by { QuotientOfNaturals(Abs(a), Abs(b)); }
    if (a < 0) == (b < 0) then m else -m
  }

  /** The quotient of naturals is a natural, zero exactly when the dividend
      is below the divisor. */
  lemma QuotientOfNaturals(x: nat, y: nat)
    requires y > 0
    ensures x / y >= 0
    ensures x / y == 0 <==> x < y
  {
    var q, r := x / y, x % y;
    assert x == y * q + r && 0 <= r < y;
    if q == 0 {
      assert x == r;
    } else {
      assert y * q >= y;
    }
  }

  const MINUTES_PER_HOUR := 60

  /** `Duration.toHours()`: whole hours, truncated toward zero. */
  function ToHours(minutes: int): (h: int)
    ensures minutes >= 0 ==> h == minutes / MINUTES_PER_HOUR && h >= 0
    ensures h == 0 <==> -MINUTES_PER_HOUR < minutes < MINUTES_PER_HOUR
  {
    JavaDiv(minutes, MINUTES_PER_HOUR)
  }

  /** Truncating division never decreases when its dividend grows and its
      divisor is positive. */
  lemma {:induction false} JavaDivMonotone(a1: int, a2: int, b: int)
    requires a1 <= a2 && b > 0
    ensures JavaDiv(a1, b) <= JavaDiv(a2, b)
  {
    if a1 >= 0 {
      DivMonotone(a1, a2, b);
    } else if a2 < 0 {
      DivMonotone(-a2, -a1, b);
    } else {
      QuotientOfNaturals(-a1, b);
      QuotientOfNaturals(a2, b);
    }
  }

  lemma {:induction false} DivMonotone(x: nat, y: nat, d: nat)
    requires x <= y && d > 0
    ensures x / d <= y / d
  {
    if x / d > y / d {
      assert d * (x / d) >= d * (y / d + 1) by {
        MulMonotone(d, y / d + 1, x / d);
      }
    }
  }

  lemma MulMonotone(d: nat, p: int, q: int)
    requires p <= q
    ensures d * p <= d * q
  {
  }

  /** `Math.min(1.0, numerator.toHours() / denominator.toHours())` with
      the `long` division of whole hours that both `MaintenanceSchedule`
      and `DriverSchedule` perform; a denominator under one hour makes
      the divisor 0 and the division throw. */
  function CappedHourRatio(numerator: int, denominator: int): (r: Result<real>)
    ensures r.Err? <==> -MINUTES_PER_HOUR < denominator < MINUTES_PER_HOUR
    ensures r.Err? ==> r.error == DIVIDE_BY_ZERO
    ensures r.Ok? ==> r.value <= 1.0
  {
    var divisor := ToHours(denominator);
    if divisor == 0 then Err(DIVIDE_BY_ZERO)
    else Ok(Min(1.0, JavaDiv(ToHours(numerator), divisor) as real))
  }

  /** For a non-negative numerator and a denominator of at least one hour
      the ratio is exactly 0 or 1, and it is 1 iff the whole hours of the
      numerator reach those of the denominator. */
  lemma CappedHourRatioZeroOrOne(numerator: int, denominator: int)
    requires numerator >= 0 && denominator >= MINUTES_PER_HOUR
    ensures CappedHourRatio(numerator, denominator) == Ok(0.0)
         || CappedHourRatio(numerator, denominator) == Ok(1.0)
    ensures CappedHourRatio(numerator, denominator) == Ok(1.0)
        <==> ToHours(numerator) >= ToHours(denominator)
  {
    var n, d := ToHours(numerator), ToHours(denominator);
    assert JavaDiv(n, d) == n / d;
    if n >= d {
      DivMonotone(d, n, d);
      assert d / d == 1;
    } else {
      SmallQuotient(n, d);
    }
  }

  lemma SmallQuotient(x: nat, d: nat)
    requires x < d
    ensures x / d == 0
  {
  }

  /** A larger numerator never gives a smaller ratio. */
  lemma CappedHourRatioMonotone(n1: int, n2: int, denominator: int)
    requires n1 <= n2 && denominator >= MINUTES_PER_HOUR
    ensures CappedHourRatio(n1, denominator).Ok? && CappedHourRatio(n2, denominator).Ok?
    ensures CappedHourRatio(n1, denominator).value <= CappedHourRatio(n2, denominator).value
  {
    var d := ToHours(denominator);
    JavaDivMonotone(n1, n2, MINUTES_PER_HOUR);
    JavaDivMonotone(ToHours(n1), ToHours(n2), d);
  }
}
