/**
 Decimal arithmetic as the pricing rules use it: every multiplication and division is rounded to 28
 significant digits, halves to even (the default context), and money is quantised to cents, halves up.
 */
module Decimal {
  import opened Common

  /** Coefficients of 28 digits lie between these two. */
  const LOW := 1_000_000_000_000_000_000_000_000_000.0
  const HIGH := 10_000_000_000_000_000_000_000_000_000.0
  const COEFFICIENT_LIMIT := 10_000_000_000_000_000_000_000_000_000

  /** Ten to any integer power. */
  function Scale(e: int): (r: real)
    ensures r > 0.0
    decreases if e < 0 then -e else e
  {
    if e == 0 then 1.0 else if e > 0 then 10.0 * Scale(e - 1) else Scale(e + 1) / 10.0
  }

  lemma ScaleStep(e: int)
    ensures Scale(e + 1) == 10.0 * Scale(e)
  {
  }

  lemma {:induction false} ScaleMonotone(a: int, b: int)
    requires a <= b
    ensures Scale(a) <= Scale(b)
    decreases b - a
  {
    if a < b {
      ScaleMonotone(a, b - 1);
      ScaleStep(b - 1);
    }
  }

  // ---- Products and quotients of reals -------------------------------------------------------

  lemma Cancel(a: real, b: real, u: real)
    requires u > 0.0 && a * u <= b * u
    ensures a <= b
  {
  }

  lemma AtMost(q: real, u: real, x: real, bound: real)
    requires u > 0.0 && q * u == x && x <= bound * u
    ensures q <= bound
  {
    Cancel(q, bound, u);
  }

  lemma AtLeast(q: real, u: real, x: real, bound: real)
    requires u > 0.0 && q * u == x && bound * u <= x
    ensures bound <= q
  {
    Cancel(bound, q, u);
  }

  lemma TimesMonotone(x: real, y: real, u: real)
    requires x <= y && u >= 0.0
    ensures x * u <= y * u
  {
    assert (y - x) * u >= 0.0;
  }

  lemma Quotient(x: real, u: real) returns (q: real)
    requires u > 0.0
    ensures q == x / u && q * u == x
  {
    q := x / u;
  }

  lemma DivideMonotone(x: real, y: real, u: real)
    requires x <= y && u > 0.0
    ensures x / u <= y / u
  {
    Cancel(x / u, y / u, u);
  }

  lemma TenFold(x: real, u: real)
    requires u > 0.0
    ensures x / (10.0 * u) == (x / u) / 10.0
    ensures x >= 10.0 * u ==> x / u >= 10.0
  {
    var q := Quotient(x, u);
    assert (q / 10.0) * (10.0 * u) == x;
    assert (q / 10.0) * (10.0 * u) / (10.0 * u) == q / 10.0;
    if x >= 10.0 * u { Cancel(10.0, q, u); }
  }

  lemma TenthOf(a: real, b: real, x: real)
    requires b == 10.0 * a && 0.0 < x < b
    ensures b / x > 1.0 && a / x == (b / x) / 10.0
  {
    var q := Quotient(b, x);
    assert (q / 10.0) * x == a;
    assert (q / 10.0) * x / x == q / 10.0;
    if q <= 1.0 { TimesMonotone(q, 1.0, x); }
  }

  // ---- Rounding to an integer ------------------------------------------------------------------

  function HalfEven(x: real): (n: int)
    ensures -0.5 <= n as real - x <= 0.5
  {
    var f := x.Floor;
    var d := x - f as real;
    if d < 0.5 then f else if d > 0.5 then f + 1 else if f % 2 == 0 then f else f + 1
  }

  lemma HalfEvenMonotone(x: real, y: real)
    requires x <= y
    ensures HalfEven(x) <= HalfEven(y)
  {
  }

  /** Rounding halves away from zero: what quantize with ROUND_HALF_UP does. */
  function HalfUp(x: real): (n: int)
    ensures -0.5 <= n as real - x <= 0.5
  {
    if x >= 0.0 then (x + 0.5).Floor else -((-x + 0.5).Floor)
  }

  lemma HalfUpMonotone(x: real, y: real)
    requires x <= y
    ensures HalfUp(x) <= HalfUp(y)
  {
  }

  /** Halves go away from zero, and the sign plays no part. */
  lemma HalvesGoUp(x: real, n: int)
    requires x >= 0.0
    ensures HalfUp(x) == n <==> n as real - 0.5 <= x < n as real + 0.5
    ensures HalfUp(-x) == -HalfUp(x)
  {
  }

  /** Halves go to the even neighbour. */
  lemma HalvesGoEven(x: real, n: int)
    requires x == n as real + 0.5
    ensures HalfEven(x) == if n % 2 == 0 then n else n + 1
  {
  }

  // ---- The 28-digit context ----------------------------------------------------------------------

  /** The power of ten of the last of 28 digits, climbing up from `k`. */
  function ClimbUp(x: real, k: int): (e: int)
    requires 0.0 < x && LOW * Scale(k) <= x
    ensures LOW * Scale(e) <= x < HIGH * Scale(e)
    decreases (x / Scale(k)).Floor
  {
    if x < HIGH * Scale(k) then k
    else
      ScaleStep(k);
      TenFold(x, Scale(k));
      ClimbUp(x, k + 1)
  }

  function ClimbDown(x: real, k: int): (e: int)
    requires 0.0 < x < HIGH * Scale(k)
    ensures LOW * Scale(e) <= x < HIGH * Scale(e)
    decreases (LOW * Scale(k) / x).Floor
  {
    if LOW * Scale(k) <= x then k
    else
      ScaleStep(k - 1);
      TenthOf(LOW * Scale(k - 1), LOW * Scale(k), x);
      ClimbDown(x, k - 1)
  }

  function LastDigit(x: real): (e: int)
    requires 0.0 < x
    ensures LOW * Scale(e) <= x < HIGH * Scale(e)
  {
    if LOW * Scale(0) <= x then ClimbUp(x, 0) else ClimbDown(x, 0)
  }

  function RoundTo(x: real, u: real): real
    requires u > 0.0
  {
    HalfEven(x / u) as real * u
  }

  /** The nearest number with 28 significant digits. */
  function Round28(x: real): real {
    if x == 0.0 then 0.0
    else if x > 0.0 then RoundTo(x, Scale(LastDigit(x)))
    else -RoundTo(-x, Scale(LastDigit(-x)))
  }

  lemma HalfEvenBetween(q: real, low: int, high: int)
    requires low as real <= q <= high as real
    ensures low <= HalfEven(q) <= high
  {
    HalfEvenMonotone(low as real, q);
    HalfEvenMonotone(q, high as real);
  }

  /** Rounding to a multiple of `u` never crosses a multiple of `u`. */
  lemma RoundBetween(x: real, u: real, low: int, high: int)
    requires u > 0.0 && low as real * u <= x <= high as real * u
    ensures low as real * u <= RoundTo(x, u) <= high as real * u
  {
    hide HalfEven;
    var q := Quotient(x, u);
    Cancel(low as real, q, u);
    Cancel(q, high as real, u);
    HalfEvenBetween(q, low, high);
    TimesMonotone(low as real, HalfEven(q) as real, u);
    TimesMonotone(HalfEven(q) as real, high as real, u);
  }

  lemma RoundToMonotone(x: real, y: real, u: real)
    requires x <= y && u > 0.0
    ensures RoundTo(x, u) <= RoundTo(y, u)
  {
    hide HalfEven;
    DivideMonotone(x, y, u);
    HalfEvenMonotone(x / u, y / u);
    TimesMonotone(HalfEven(x / u) as real, HalfEven(y / u) as real, u);
  }

  lemma RoundToError(x: real, u: real)
    requires u > 0.0
    ensures -(u / 2.0) <= RoundTo(x, u) - x <= u / 2.0
  {
    hide HalfEven;
    var q := Quotient(x, u);
    var h := HalfEven(x / u) as real;
    assert RoundTo(x, u) == h * u;
    NearMultiple(h, q, u, x);
  }

  lemma NearMultiple(h: real, q: real, u: real, x: real)
    requires u > 0.0 && q * u == x && -0.5 <= h - q <= 0.5
    ensures -(u / 2.0) <= h * u - x <= u / 2.0
  {
    Above(h, q, 0.5, u, x, u / 2.0);
    Below(h, q, 0.5, u, x, u / 2.0);
  }

  lemma Above(h: real, q: real, c: real, u: real, x: real, cu: real)
    requires q * u == x && c * u == cu && u >= 0.0 && h <= q + c
    ensures h * u <= x + cu
  {
    TimesMonotone(h - q, c, u);
    assert (h - q) * u == h * u - q * u;
  }

  lemma Below(h: real, q: real, c: real, u: real, x: real, cu: real)
    requires q * u == x && c * u == cu && u >= 0.0 && q - c <= h
    ensures x - cu <= h * u
  {
    TimesMonotone(q - h, c, u);
    assert (q - h) * u == q * u - h * u;
  }

  /** A positive number rounds into its own decade, end points included. */
  lemma RoundStaysInDecade(x: real, u: real)
    requires u > 0.0 && LOW * u <= x < HIGH * u
    ensures LOW * u <= RoundTo(x, u) <= HIGH * u
  {
    hide RoundTo;
    RoundBetween(x, u, 1_000_000_000_000_000_000_000_000_000, COEFFICIENT_LIMIT);
  }

  lemma Round28Monotone(x: real, y: real)
    requires 0.0 <= x <= y
    ensures 0.0 <= Round28(x) <= Round28(y)
  {
    hide RoundTo;
    hide Scale;
    if y > 0.0 {
      var b := LastDigit(y);
      RoundStaysInDecade(y, Scale(b));
      if x > 0.0 {
        var a := LastDigit(x);
        RoundStaysInDecade(x, Scale(a));
        if a > b { ScaleMonotone(b + 1, a); ScaleStep(b); }
        if a < b { ScaleMonotone(a + 1, b); ScaleStep(a); }
        if a == b { RoundToMonotone(x, y, Scale(a)); }
      }
    }
  }

  /** The relative error of one context rounding is at most half a unit in the 28th digit. */
  lemma Round28Error(x: real)
    requires 0.0 <= x
    ensures -(x / (2.0 * LOW)) <= Round28(x) - x <= x / (2.0 * LOW)
  {
    hide RoundTo;
    if x > 0.0 {
      RoundToError(x, Scale(LastDigit(x)));
    }
  }

  lemma OneDecade(x: real, e: int)
    requires LOW * Scale(e) <= x < HIGH * Scale(e)
    ensures x > 0.0 && LastDigit(x) == e
  {
    hide Scale;
    var k := LastDigit(x);
    if k < e { ScaleMonotone(k + 1, e); ScaleStep(k); }
    if k > e { ScaleMonotone(e + 1, k); ScaleStep(e); }
  }

  /**
   One context rounding: a positive number whose 28 leading digits end at the power `e` becomes the nearest multiple
   of that power, and the even one of two that are as near. The sign plays no part.
   */
  lemma Round28Is(x: real, e: int, n: int)
    requires LOW * Scale(e) <= x < HIGH * Scale(e)
    requires var off := x / Scale(e) - n as real; -0.5 <= off <= 0.5 && (off == 0.5 || off == -0.5 ==> n % 2 == 0)
    ensures Round28(x) == n as real * Scale(e) && Round28(-x) == -(n as real * Scale(e))
  {
    hide Scale, HalfEven, LastDigit;
    OneDecade(x, e);
    NearestIs(x / Scale(e), n);
    assert RoundTo(x, Scale(e)) == n as real * Scale(e);
    hide RoundTo;
    assert -(-x) == x;
  }

  lemma NearestIs(x: real, n: int)
    requires var off := x - n as real; -0.5 <= off <= 0.5 && (off == 0.5 || off == -0.5 ==> n % 2 == 0)
    ensures HalfEven(x) == n
  {
    if x - n as real == -0.5 { assert x.Floor == n - 1; }
  }

  lemma {:induction false} ScaleAdds(a: nat, b: nat)
    ensures Scale(0 - a - b) == Scale(0 - a) * Scale(0 - b)
  {
    if b > 0 {
      ScaleAdds(a, b - 1);
      ScaleStep(0 - b);
      ScaleStep(0 - a - b);
    }
  }

  /** The 28th place after the point, and the 29th. */
  lemma SmallScales()
    ensures Scale(-28) == 0.000_000_000_000_000_000_000_000_000_1
    ensures Scale(-29) == 0.000_000_000_000_000_000_000_000_000_01
  {
    assert Scale(0) == 1.0 && Scale(-1) == 0.1;
    ScaleAdds(1, 1);
    assert Scale(-2) == 0.01;
    ScaleAdds(2, 2);
    assert Scale(-4) == 0.000_1;
    ScaleAdds(4, 3);
    ScaleAdds(2, 1);
    assert Scale(-7) == 0.000_000_1;
    ScaleAdds(7, 7);
    ScaleAdds(14, 14);
    ScaleAdds(28, 1);
  }

  lemma MultipleIsExact(n: int, u: real)
    requires u > 0.0
    ensures RoundTo(n as real * u, u) == n as real * u
  {
    assert n as real * u / u == n as real;
  }

  /** A cent is a whole number of any smaller power of ten. */
  lemma {:induction false} CentInUnits(e: int) returns (k: nat)
    requires e <= -2
    ensures k as real * Scale(e) == 0.01
    decreases -e
  {
    if e == -2 {
      k := 1;
    } else {
      var j := CentInUnits(e + 1);
      k := 10 * j;
      ScaleStep(e);
      assert k as real * Scale(e) == j as real * (10.0 * Scale(e));
    }
  }

  lemma LastDigitOfCents(x: real)
    requires 0.0 < x < HIGH / 100.0
    ensures LastDigit(x) <= -2
  {
    if LastDigit(x) > -2 { ScaleMonotone(-1, LastDigit(x)); }
  }

  lemma CentsInUnits(n: nat, e: int) returns (m: int)
    requires e <= -2
    ensures m as real * Scale(e) == n as real / 100.0
  {
    var k := CentInUnits(e);
    m := n * k;
    assert n as real * (k as real * Scale(e)) == m as real * Scale(e);
  }

  lemma MultipleRoundsToItself(x: real, m: int, u: real)
    requires u > 0.0 && m as real * u == x
    ensures RoundTo(x, u) == x
  {
    MultipleIsExact(m, u);
  }

  lemma PositiveCentsAreExact(n: nat)
    requires 0 < n < COEFFICIENT_LIMIT
    ensures Round28(n as real / 100.0) == n as real / 100.0
  {
    var x := n as real / 100.0;
    LastDigitOfCents(x);
    var m := CentsInUnits(n, LastDigit(x));
    MultipleRoundsToItself(x, m, Scale(LastDigit(x)));
  }

  /** Whole cents with a coefficient of at most 28 digits need no rounding. */
  lemma CentsAreExact(c: int)
    requires -COEFFICIENT_LIMIT < c < COEFFICIENT_LIMIT
    ensures Round28(c as real / 100.0) == c as real / 100.0
  {
    if c > 0 { PositiveCentsAreExact(c); }
    if c < 0 { PositiveCentsAreExact(-c); assert -(c as real / 100.0) == (-c) as real / 100.0; }
  }

  // ---- Money -------------------------------------------------------------------------------------

  /** Cents after quantising; the operation refuses a coefficient of more than 28 digits. */
  function ToCents(x: real): Option<int> {
    var c := HalfUp(x * 100.0);
    if -COEFFICIENT_LIMIT < c < COEFFICIENT_LIMIT then Some(c) else None
  }
}
