/** The pieces of C and C++ arithmetic the game logic depends on, written out
    over unbounded numbers: truncating conversion and division, and std::fmod. */
module CMath {

  /** Absolute value (fabs). */
  function Abs(x: real): (r: real)
    ensures 0.0 <= r
    ensures r == x || r == -x
  {
    if x < 0.0 then -x else x
  }

  /** Conversion of a real to an integer by truncation toward zero. */
  function Trunc(q: real): (n: int)
    ensures 0.0 <= q ==> 0 <= n && n as real <= q < n as real + 1.0
    ensures q <= 0.0 ==> n <= 0 && n as real - 1.0 < q <= n as real
  {
    if q >= 0.0 then q.Floor else -((-q).Floor)
  }

  /** C integer division by two, which truncates toward zero (Dafny's `/`
      rounds toward negative infinity for negative operands). */
  function Half(a: int): (q: int)
    ensures 0 <= a ==> 0 <= a - 2 * q <= 1
    ensures a < 0 ==> -1 <= a - 2 * q <= 0
  {
    if a >= 0 then a / 2 else -((-a) / 2)
  }

  /** Whether a real number has no fractional part. */
  predicate IsIntegral(q: real) {
    q == q.Floor as real
  }

  /** Whole numbers of turns add up to a whole number of turns. */
  lemma IntegralSum(u: real, v: real)
    requires IsIntegral(u) && IsIntegral(v)
    ensures IsIntegral(u + v)
  {
    var k := u.Floor + v.Floor;
    assert u + v == k as real;
  }

  /** std::fmod(x, 360.0), the only divisor the game uses: the remainder of x
      after removing a whole number of full turns, carrying the sign of x. */
  function FMod360(x: real): (r: real)
    ensures -360.0 < r < 360.0
    ensures 0.0 <= x ==> 0.0 <= r
    ensures x <= 0.0 ==> r <= 0.0
    ensures -360.0 < x < 360.0 ==> r == x
    ensures IsIntegral((x - r) / 360.0)
  {
    x - 360.0 * Trunc(x / 360.0) as real
  }
}
