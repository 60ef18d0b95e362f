/**
 * The SDK's `Dec`: an arbitrary-precision decimal with 18 fractional digits,
 * represented here by the integer `d` standing for the value d / 10^18.
 */
module FixedPoint {

  /** 10^18: the scale of a `Dec` (one whole unit). */
  const Precision: nat := 1_000_000_000_000_000_000

  function Pow10(k: nat): (r: nat)
    ensures r >= 1
  {
    if k == 0 then 1 else 10 * Pow10(k - 1)
  }

  /** `NewDec(n)`: the whole number n as a decimal. */
  function NewDec(n: int): (d: int)
  {
    n * Precision
  }

  /** `NewDecWithPrec(n, prec)`: the value n * 10^-prec. */
  function NewDecWithPrec(n: int, prec: nat): (d: int)
    requires prec <= 18
  {
    n * Pow10(18 - prec)
  }

  /**
   * A non-negative 36-digit product brought back to 18 digits: the lowest 18
   * digits are dropped and the rest rounded half to even.
   */
  function ChopAndRound(mag: nat): (q: nat)
    ensures -(Precision / 2) <= q * Precision - mag <= Precision / 2
    ensures mag % Precision == 0 ==> q * Precision == mag
  {
    var quo := mag / Precision;
    var rem := mag % Precision;
    if rem > Precision / 2 || (rem == Precision / 2 && quo % 2 == 1) then quo + 1 else quo
  }

  /** `Dec.Mul`: the exact product rounded to 18 digits on its magnitude, the sign restored afterwards. */
  function Mul(a: int, b: int): (r: int)
    ensures var p := a * b;
            -(Precision / 2) <= r * Precision - p <= Precision / 2
    ensures (a * b) % Precision == 0 ==> r * Precision == a * b
    ensures 0 <= a * b ==> 0 <= r
  {
    var p := a * b;
    if p < 0 then -(ChopAndRound(-p) as int) else ChopAndRound(p)
  }

  /** `Dec.TruncateInt`: the whole part, rounding toward zero. */
  function TruncateInt(d: int): (r: int)
    ensures 0 <= d ==> 0 <= r && r * Precision <= d < (r + 1) * Precision
    ensures d < 0 ==> r <= 0 && (r - 1) * Precision < d <= r * Precision
  {
    if d >= 0 then d / Precision else -((-d) / Precision)
  }

  /** Rounding never takes a product past a whole number of units it does not exceed. */
  lemma ChopAndRoundAtMost(mag: nat, k: nat)
    requires mag <= k * Precision
    ensures ChopAndRound(mag) <= k
  {
    var quo := mag / Precision;
    assert quo * Precision <= mag;
    if quo == k {
      assert mag == k * Precision;
    }
  }

  lemma MulMonotone(a: int, f: int, g: int)
    requires 0 <= a && f <= g
    ensures a * f <= a * g
  {
    assert a * g - a * f == a * (g - f);
  }

  /**
   * Multiplying a non-negative decimal by a factor in [0, 1] never increases
   * it and keeps it non-negative; this is what a reduction step relies on.
   */
  lemma MulByFractionBounded(a: int, f: int)
    requires 0 <= a && 0 <= f <= Precision
    ensures 0 <= Mul(a, f) <= a
  {
    MulMonotone(a, 0, f);
    MulMonotone(a, f, Precision);
    ChopAndRoundAtMost(a * f, a);
  }

  /**
   * Multiplying a whole number of units by a decimal needs no rounding, so
   * the product's whole part is the floor of n * d / 10^18.
   */
  lemma MulWholeIsExact(n: int, d: int)
    requires 0 <= n && 0 <= d
    ensures Mul(NewDec(n), d) == n * d
    ensures TruncateInt(Mul(NewDec(n), d)) == (n * d) / Precision
  {
    var x := n * d;
    assert NewDec(n) * d == x * Precision;
    MulMonotone(n, 0, d);
    assert ChopAndRound(x * Precision) == x;
  }
}
