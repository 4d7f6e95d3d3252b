/** The few Python numeric built-ins the value engine relies on, over exact reals:
    `min`, `max` and `round(x, 2)`. */
module PyNumbers {

  /** Python's `max(a, b)` on two numbers. */
  function Max(a: real, b: real): (m: real)
    ensures m >= a && m >= b
    ensures m == a || m == b
  {
    if b > a then b else a
  }

  /** Python's `min(a, b)` on two numbers. */
  function Min(a: real, b: real): (m: real)
    ensures m <= a && m <= b
    ensures m == a || m == b
  {
    if b < a then b else a
  }

  /** The integer nearest to `y`; an exact tie goes to the even neighbour,
      as Python's `round` does. */
  function RoundHalfEven(y: real): (n: int)
    ensures -0.5 <= n as real - y <= 0.5
    ensures (-0.5 < n as real - y < 0.5) || n % 2 == 0
  {
    var f := y.Floor;
    var frac := y - f as real;
    if frac < 0.5 then f
    else if frac > 0.5 then f + 1
    else if f % 2 == 0 then f
    else f + 1
  }

  /** Python's `round(x, 2)`: the nearest multiple of 0.01, ties to even. */
  function Round2(x: real): (r: real)
    ensures -0.005 <= r - x <= 0.005
  {
    RoundHalfEven(x * 100.0) as real / 100.0
  }

  /** Distance between two numbers. */
  function Dist(a: real, b: real): (d: real)
    ensures d >= 0.0 && (d == a - b || d == b - a)
  {
    if a >= b then a - b else b - a
  }

  /** `k` hundredths. */
  function Cents(k: int): real {
    k as real / 100.0
  }

  /** The result of `round(x, 2)` is a whole number of hundredths. */
  lemma Round2IsCents(x: real)
    ensures exists k: int :: Round2(x) == Cents(k)
  {
    var n := RoundHalfEven(x * 100.0);
    assert Round2(x) == Cents(n);
  }

  /** No whole number of hundredths lies closer to `x` than `round(x, 2)`. */
  lemma Round2Nearest(x: real, k: int)
    ensures Dist(Round2(x), x) <= Dist(Cents(k), x)
  {
    var y := x * 100.0;
    var n := RoundHalfEven(y);
    assert Round2(x) - x == (n as real - y) / 100.0;
    assert Cents(k) - x == (k as real - y) / 100.0;
    if k < n {
      assert y - k as real >= 0.5;
    } else if k > n {
      assert k as real - y >= 0.5;
    }
  }

  /** Rounding to hundredths never reorders two numbers. */
  lemma Round2Monotone(x: real, y: real)
    requires x <= y
    ensures Round2(x) <= Round2(y)
  {
    var m, n := RoundHalfEven(x * 100.0), RoundHalfEven(y * 100.0);
    assert m as real <= x * 100.0 + 0.5 <= y * 100.0 + 0.5 <= n as real + 1.0;
    if m == n + 1 {
      assert x * 100.0 == y * 100.0;
    }
  }

  /** A number that already is a whole number of hundredths is left unchanged. */
  lemma Round2OfCents(k: int)
    ensures Round2(Cents(k)) == Cents(k)
  {
    assert Cents(k) * 100.0 == k as real;
  }

  /** A rounded number is strictly positive only if the number was at least
      half a hundredth; a rounded number at most zero comes from a number
      at most half a hundredth. */
  lemma Round2Sign(x: real)
    ensures Round2(x) > 0.0 ==> x >= 0.005
    ensures Round2(x) <= 0.0 ==> x <= 0.005
  {
    var n := RoundHalfEven(x * 100.0);
    assert Round2(x) == n as real / 100.0;
    assert Round2(x) > 0.0 ==> n >= 1;
  }
}
