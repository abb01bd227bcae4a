/** Decimal arithmetic with 38 significant digits, rounding half to even: how far one
    rounding and a chain of roundings can be off. Exponents are unbounded. */
module Decimal38 {

  /** Ten to the 37: the smallest number of 38 digits. */
  const LOW: real := 10_000_000_000_000_000_000_000_000_000_000_000_000.0

  /** Half a unit in the last of 38 places, relative to the smallest number. */
  ghost const U: real := 0.5 / LOW

  function Pow10(e: int): (p: real)
    ensures p > 0.0
    decreases if e < 0 then -e else e
  {
    if e == 0 then 1.0 else if e > 0 then 10.0 * Pow10(e - 1) else Pow10(e + 1) / 10.0
  }

  function Times(a: real, b: real): real { a * b }

  function Over(a: real, b: real): real
    requires b > 0.0
  {
    a / b
  }

  function HalfEven(y: real): int {
    var f := y.Floor;
    if y - f as real < 0.5 then f
    else if y - f as real > 0.5 then f + 1
    else if f % 2 == 0 then f
    else f + 1
  }

  /** Counted in units of ten to the `e`, `x` has exactly 38 digits before the point. */
  ghost predicate HasExponent(x: real, e: int) {
    LOW * Pow10(e) <= x < LOW * Pow10(e + 1)
  }

  ghost function ExponentOf(x: real): (e: int)
    requires x > 0.0
    ensures HasExponent(x, e)
  {
    ExponentExists(x);
    var e :| HasExponent(x, e);
    e
  }

  /** The nearest multiple of `unit`, the even one if two are as near. */
  function InUnits(x: real, unit: real): real
    requires unit > 0.0
  {
    Times(HalfEven(x / unit) as real, unit)
  }

  /** What the decimal context makes of an exact non-negative result. */
  ghost function Round(x: real): real
    requires x >= 0.0
  {
    if x == 0.0 then 0.0 else InUnits(x, Pow10(ExponentOf(x)))
  }

  // ------------------------------------------------------------------ exponents

  lemma {:induction false} GrowsPast(n: nat)
    ensures Pow10(n) > n as real
  {
    if n > 0 { GrowsPast(n - 1); }
  }

  lemma {:induction false} ShrinksBelow(n: int)
    requires n >= 0
    ensures Pow10(-n) * (n + 1) as real <= 1.0
    decreases n
  {
    if n > 0 {
      ShrinksBelow(n - 1);
      Tenth(Pow10(-n + 1), Pow10(-n), n as real);
    }
  }

  lemma Tenth(a: real, b: real, n: real)
    requires a > 0.0 && b == a / 10.0 && n >= 1.0 && a * n <= 1.0
    ensures b * (n + 1.0) <= 1.0
  {
    assert b * (n + 1.0) == (a * n + a) / 10.0;
    assert a * (n - 1.0) >= 0.0;
  }

  lemma {:induction false} BetweenPowers(x: real, low: int, high: int)
    requires low < high && LOW * Pow10(low) <= x < LOW * Pow10(high)
    ensures exists e :: HasExponent(x, e)
    decreases high - low
  {
    if x < LOW * Pow10(low + 1) {
      assert HasExponent(x, low);
    } else {
      assert low + 1 < high;
      BetweenPowers(x, low + 1, high);
    }
  }

  lemma ExponentExists(x: real)
    requires x > 0.0
    ensures exists e :: HasExponent(x, e)
  {
    var n := x.Floor + 1;
    GrowsPast(n);
    var m := (LOW / x).Floor + 1;
    ShrinksBelow(m);
    Lowest(x, Pow10(-m), (m + 1) as real);
    BetweenPowers(x, -m, n);
  }

  lemma Lowest(x: real, p: real, k: real)
    requires x > 0.0 && p > 0.0 && p * k <= 1.0 && k > LOW / x
    ensures LOW * p <= x
  {
    var r := LOW / x;
    assert p * (k - r) >= 0.0;
    assert p * r <= 1.0;
    assert r * x == LOW;
    assert LOW * p == (p * r) * x;
    assert (1.0 - p * r) * x >= 0.0;
  }

  // ------------------------------------------------------------------ one rounding

  lemma HalfEvenIsClose(y: real)
    ensures -0.5 <= HalfEven(y) as real - y <= 0.5
    ensures y >= 0.0 ==> HalfEven(y) >= 0
  {
  }

  /** One rounding is off by at most U, relative to the exact value. */
  lemma RoundIsClose(x: real)
    requires x >= 0.0
    ensures Close(Round(x), x)
  {
    if x > 0.0 { RoundInUnits(x, Pow10(ExponentOf(x))); }
  }

  ghost predicate Close(r: real, x: real) {
    0.0 <= r && -Times(U, x) <= r - x <= Times(U, x)
  }

  lemma RoundInUnits(x: real, p: real)
    requires x > 0.0 && p > 0.0 && LOW * p <= x
    ensures Close(InUnits(x, p), x)
  {
    var y := x / p;
    Quotient(x, p, y);
    HalfEvenIsClose(y);
    Scaled(x, p, y, HalfEven(y) as real);
  }

  lemma Quotient(x: real, p: real, y: real)
    requires x > 0.0 && p > 0.0 && y == x / p
    ensures y >= 0.0 && Times(y, p) == x
  {
  }

  lemma Scaled(x: real, p: real, y: real, n: real)
    requires p > 0.0 && LOW * p <= x && n >= 0.0 && Times(y, p) == x && -0.5 <= n - y <= 0.5
    ensures Close(Times(n, p), x)
  {
    TimesDifference(n, y, p);
    TimesGrows(n - y, 0.5, p);
    TimesGrows(-0.5, n - y, p);
    TimesGrows(0.0, n, p);
    HalfPlace(x, p);
  }

  lemma HalfPlace(x: real, p: real)
    requires LOW * p <= x
    ensures Times(0.5, p) <= Times(U, x) && Times(-0.5, p) == -Times(0.5, p) && Times(0.0, p) == 0.0
  {
  }

  lemma TimesGrows(a: real, b: real, p: real)
    requires a <= b && p >= 0.0
    ensures Times(a, p) <= Times(b, p)
  {
  }

  lemma TimesDifference(a: real, b: real, p: real)
    ensures Times(a - b, p) == Times(a, p) - Times(b, p)
  {
  }

  // ------------------------------------------------------------------ chains of roundings

  /** (1 + U) to the k. */
  ghost function Growth(k: nat): (g: real)
    ensures g >= 1.0
  {
    if k == 0 then 1.0 else GrowthStep(Growth(k - 1)); (1.0 + U) * Growth(k - 1)
  }

  lemma GrowthStep(g: real)
    requires g >= 1.0
    ensures U > 0.0 && (1.0 + U) * g >= 1.0
  {
  }

  /** After k roundings: within (1 + U)^k - 1 of the exact value, relatively. */
  ghost predicate Near(a: real, x: real, k: nat) {
    0.0 <= a && 0.0 <= x && -Times(Growth(k) - 1.0, x) <= a - x <= Times(Growth(k) - 1.0, x)
  }

  lemma Exact(x: real)
    requires x >= 0.0
    ensures Near(x, x, 0)
  {
  }

  /** A rounding adds one step. */
  lemma NearRounded(a: real, b: real, x: real, k: nat)
    requires Near(a, x, k) && Close(b, a)
    ensures Near(b, x, k + 1)
  {
    RoundedStep(a, b, x, Growth(k), U);
    assert Growth(k + 1) == (1.0 + U) * Growth(k);
  }

  lemma RoundedStep(a: real, b: real, x: real, g: real, u: real)
    requires 0.0 <= a && 0.0 <= x && g >= 1.0 && u > 0.0
    requires -Times(g - 1.0, x) <= a - x <= Times(g - 1.0, x) && -Times(u, a) <= b - a <= Times(u, a)
    ensures -Times((1.0 + u) * g - 1.0, x) <= b - x <= Times((1.0 + u) * g - 1.0, x)
  {
    assert a <= g * x;
    assert u * (g * x - a) >= 0.0;
    assert ((1.0 + u) * g - 1.0) * x == (g - 1.0) * x + u * (g * x);
  }

  lemma NearScaled(a: real, x: real, c: real, k: nat)
    requires Near(a, x, k) && c >= 0.0
    ensures Near(Times(a, c), Times(x, c), k)
  {
    ScaledStep(a, x, c, Growth(k) - 1.0);
  }

  lemma ScaledStep(a: real, x: real, c: real, g: real)
    requires 0.0 <= a && 0.0 <= x && c >= 0.0 && -Times(g, x) <= a - x <= Times(g, x)
    ensures 0.0 <= Times(a, c) && 0.0 <= Times(x, c)
    ensures -Times(g, Times(x, c)) <= Times(a, c) - Times(x, c) <= Times(g, Times(x, c))
  {
    var d := g * x;
    assert (d - (a - x)) * c >= 0.0;
    assert (a - x + d) * c >= 0.0;
    assert d * c == g * (x * c);
    assert (a - x) * c == a * c - x * c;
  }

  lemma NearSum(a: real, x: real, b: real, y: real, k: nat)
    requires Near(a, x, k) && Near(b, y, k)
    ensures Near(a + b, x + y, k)
  {
    SumStep(Growth(k) - 1.0, x, y);
  }

  lemma SumStep(g: real, x: real, y: real)
    ensures Times(g, x + y) == Times(g, x) + Times(g, y)
  {
  }

  /** A chain of fewer roundings is within the bound of a longer one. */
  lemma {:induction false} NearLonger(a: real, x: real, k: nat, m: nat)
    requires k <= m && Near(a, x, k)
    ensures Near(a, x, m)
    decreases m - k
  {
    if k < m {
      NearLonger(a, x, k, m - 1);
      assert Growth(m) == (1.0 + U) * Growth(m - 1);
      LongerStep(x, Growth(m - 1), U);
    }
  }

  lemma LongerStep(x: real, g: real, u: real)
    requires 0.0 <= x && g >= 1.0 && u > 0.0
    ensures Times(g - 1.0, x) <= Times((1.0 + u) * g - 1.0, x)
  {
    assert (u * g) * x >= 0.0;
    assert ((1.0 + u) * g - 1.0) * x == (g - 1.0) * x + (u * g) * x;
  }
}
