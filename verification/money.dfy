/** Commission rounding: every commission is rounded UP to the currency's
    minor unit (`CommissionCalculator::roundUp`). Amounts are exact reals; the
    float artefacts of `ceil($amount * $multiplier) / $multiplier` are not
    reproduced.
 */
module Money {

  /** Minor-unit digits of the currencies the engine knows; any other code
      gets two digits. */
  const KnownDecimalPlaces: map<string, nat> := map["JPY" := 0, "EUR" := 2, "USD" := 2]

  const DefaultDecimalPlaces: nat := 2

  function Pow10(n: nat): (p: nat)
    ensures p >= 1
  {
    if n == 0 then 1 else 10 * Pow10(n - 1)
  }

  /** `getCurrencyDecimalPlaces`: yen has no minor unit, every other code
      (listed or not) has cents. */
  function DecimalPlaces(currency: string): (n: nat)
    ensures currency == "JPY" ==> n == 0
    ensures currency != "JPY" ==> n == 2
  {
    if currency in KnownDecimalPlaces then KnownDecimalPlaces[currency] else DefaultDecimalPlaces
  }

  /** Number of minor units in one major unit (`10 ** $decimalPlaces`). */
  function Scale(currency: string): (m: real)
    ensures m >= 1.0
  {
    Pow10(DecimalPlaces(currency)) as real
  }

  /** The smallest amount the currency can express. */
  function MinorUnit(currency: string): (u: real)
    ensures 0.0 < u <= 1.0
  {
    1.0 / Scale(currency)
  }

  /** `r` is a whole number of minor units of `currency`. */
  predicate IsWholeUnits(r: real, currency: string) {
    (r * Scale(currency)).Floor as real == r * Scale(currency)
  }

  /** Least integer not below `x`. */
  function Ceil(x: real): (c: int)
    ensures x <= c as real < x + 1.0
  {
    -((-x).Floor)
  }

  /** Round `x` towards positive infinity at the currency's precision. */
  function RoundUp(x: real, currency: string): (r: real)
    ensures x <= r < x + MinorUnit(currency)
    ensures IsWholeUnits(r, currency)
  {
    var m := Scale(currency);
    var c := Ceil(x * m);
    var r := c as real / m;
    assert r * m == c as real;
    assert c as real - 1.0 < x * m <= c as real;
    DivideBounds(x, c as real, m);
    r
  }

  /** `x * m <= c < x * m + 1` scales down to `x <= c / m < x + 1 / m`. */
  lemma DivideBounds(x: real, c: real, m: real)
    requires m > 0.0
    requires c - 1.0 < x * m <= c
    ensures x <= c / m < x + 1.0 / m
  {
    assert c / m - 1.0 / m == (c - 1.0) / m;
    assert (x * m) / m == x;
  }

  /** No whole number of minor units at or above `x` is below `RoundUp(x)`:
      the result is the least such amount. */
  lemma RoundUpIsLeast(x: real, currency: string, k: int)
    requires k as real / Scale(currency) >= x
    ensures RoundUp(x, currency) <= k as real / Scale(currency)
  {
    assert (k as real / Scale(currency)) * Scale(currency) == k as real;
    assert k as real >= x * Scale(currency);
    assert Ceil(x * Scale(currency)) <= k;
  }

  /** An amount that is already a whole number of minor units is unchanged. */
  lemma RoundUpFixesWholeUnits(x: real, currency: string)
    requires IsWholeUnits(x, currency)
    ensures RoundUp(x, currency) == x
  {
    ScaleBack((x * Scale(currency)).Floor as real, x, Scale(currency));
    RoundUpIsLeast(x, currency, (x * Scale(currency)).Floor);
  }

  lemma ScaleBack(k: real, x: real, m: real)
    requires m > 0.0 && k == x * m
    ensures k / m == x
  {
  }

  /** Rounding twice is rounding once. */
  lemma RoundUpIdempotent(x: real, currency: string)
    ensures RoundUp(RoundUp(x, currency), currency) == RoundUp(x, currency)
  {
    RoundUpFixesWholeUnits(RoundUp(x, currency), currency);
  }

  /** Larger amounts never get a smaller commission. */
  lemma RoundUpMonotonic(x: real, y: real, currency: string)
    requires x <= y
    ensures RoundUp(x, currency) <= RoundUp(y, currency)
  {
    ScaleBack((RoundUp(y, currency) * Scale(currency)).Floor as real, RoundUp(y, currency), Scale(currency));
    RoundUpIsLeast(x, currency, (RoundUp(y, currency) * Scale(currency)).Floor);
  }

  /** Round-up is strict: a fraction of a cent still costs a whole cent. */
  lemma RoundUpExamples()
    ensures RoundUp(0.0301, "EUR") == 0.04
    ensures RoundUp(0.03, "EUR") == 0.03
    ensures RoundUp(8611.41, "JPY") == 8612.0
    ensures RoundUp(0.001, "GBP") == 0.01
  {
    assert "EUR" in KnownDecimalPlaces && "JPY" in KnownDecimalPlaces;
    assert "GBP" !in KnownDecimalPlaces;
    assert Pow10(2) == 100 && Pow10(0) == 1;
    assert Scale("EUR") == 100.0 && Scale("JPY") == 1.0 && Scale("GBP") == 100.0;
  }
}
