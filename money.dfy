/** Exact decimal arithmetic standing in for the JavaScript number operations the handlers use. */
module Money {

  /** Half a cent: the furthest a value can be from its rounding to two decimals. */
  const HalfCent: real := 0.005

  /** The number of cents a non-negative amount rounds to, ties upward. */
  function CentsHalfUp(x: real): (k: int)
    requires x >= 0.0
    ensures k >= 0
    ensures k as real - 0.5 <= x * 100.0 < k as real + 0.5
    ensures k >= 1 <==> x >= HalfCent
  {
    (x * 100.0 + 0.5).Floor
  }

  /** The signed number of cents `toFixed(2)` rounds to: the magnitude rounded half up, the sign put back. */
  function Cents(x: real): (k: int)
    ensures x >= 0.0 ==> k as real - 0.5 <= x * 100.0 < k as real + 0.5
    ensures x < 0.0 ==> k as real - 0.5 < x * 100.0 <= k as real + 0.5
    ensures k > 0 <==> x >= HalfCent
    ensures k < 0 <==> x <= -HalfCent
  {
    if x >= 0.0 then CentsHalfUp(x) else -CentsHalfUp(-x)
  }

  /**
   * `+x.toFixed(2)`: toFixed rounds the magnitude to two decimals with ties
   * going up and then puts the sign back, so halves round away from zero.
   */
  function Round2(x: real): (r: real)
    ensures r * 100.0 == Cents(x) as real
    ensures -HalfCent <= r - x <= HalfCent
    ensures (r * 100.0).Floor as real == r * 100.0
    ensures r > 0.0 <==> x >= HalfCent
    ensures r < 0.0 <==> x <= -HalfCent
  {
    var k := Cents(x);
    assert (k as real / 100.0) * 100.0 == k as real;
    k as real / 100.0
  }

  /** Exact halves round away from zero, as `toFixed(2)` rounds them (not to the even cent). */
  lemma HalvesRoundAwayFromZero()
    ensures Round2(0.015) == 0.02 && Round2(-0.015) == -0.02
    ensures Round2(0.025) == 0.03 && Round2(-0.025) == -0.03
  {
  }

  /** `Math.ceil`: the least integer not below x. */
  function Ceil(x: real): (r: int)
    ensures x <= r as real < x + 1.0
  {
    -((-x).Floor)
  }

  /** Multiplying by a positive factor keeps the sign. */
  lemma ScaleKeepsSign(a: real, e: real)
    requires e > 0.0
    ensures a > 0.0 ==> a * e > 0.0
    ensures a >= 0.0 ==> a * e >= 0.0
  {
  }

  /** Multiplying by a positive factor keeps the order. */
  lemma ScaleKeepsOrder(x: real, y: real, e: real)
    requires e > 0.0
    ensures x < y ==> x * e < y * e
    ensures x <= y ==> x * e <= y * e
  {
    ScaleKeepsSign(y - x, e);
    assert (y - x) * e == y * e - x * e;
  }

  /** For a positive balance b and installment e, Ceil(b / e) installments cover b and one fewer do not. */
  lemma CeilCovers(b: real, e: real)
    requires b > 0.0 && e > 0.0
    ensures Ceil(b / e) >= 1
    ensures (Ceil(b / e) - 1) as real * e < b <= Ceil(b / e) as real * e
  {
    var q := b / e;
    var k := Ceil(q) as real;
    assert q * e == b;
    ScaleKeepsOrder(q, 0.0, e);
    assert q > 0.0;
    assert k - 1.0 < q <= k;
    ScaleKeepsOrder(k - 1.0, q, e);
    ScaleKeepsOrder(q, k, e);
    assert (Ceil(q) - 1) as real == k - 1.0;
    assert (k - 1.0) * e < b <= k * e;
  }
}
