/** Python's conversions from a float to an integer: `int(x)` truncates toward zero,
    `math.ceil(x)` rounds up and `round(x)` rounds to the nearest integer, ties to even. */
module Numbers {

  /** `int(x)` */
  function Trunc(x: real): (n: int)
    ensures x >= 0.0 ==> 0 <= n && n as real <= x < n as real + 1.0
    ensures x < 0.0 ==> n <= 0 && n as real - 1.0 < x <= n as real
  {
    if x >= 0.0 then x.Floor else -((-x).Floor)
  }

  /** `math.ceil(x)` */
  function Ceil(x: real): (n: int)
    ensures n as real - 1.0 < x <= n as real
  {
    if x.Floor as real == x then x.Floor else x.Floor + 1
  }

  predicate IsEven(n: int) {
    n % 2 == 0
  }

  /** `round(x)`: the nearest integer, and of two equally near the even one */
  function RoundHalfEven(x: real): (n: int)
    ensures x - 0.5 <= n as real <= x + 0.5
    ensures n as real - x == 0.5 || x - n as real == 0.5 ==> IsEven(n)
  {
    var f := x.Floor;
    var frac := x - f as real;
    if frac < 0.5 then f
    else if frac > 0.5 then f + 1
    else if IsEven(f) then f else f + 1
  }

  /** `round` is the integer itself on an integer, and the nearer neighbour when the
      fraction is not one half. */
  lemma RoundHalfEvenNearest(x: real, k: int)
    requires k as real - 0.5 < x < k as real + 0.5
    ensures RoundHalfEven(x) == k
  {
  }

  /** `int`, `math.ceil` and `round` all leave a whole number as it is. */
  lemma WholeNumbers(k: int)
    ensures Trunc(k as real) == k && Ceil(k as real) == k && RoundHalfEven(k as real) == k
  {
  }

  /** `round(x, 2)`: within half a hundredth of x */
  function Round2(x: real): (r: real)
    ensures x - 0.005 <= r <= x + 0.005
  {
    RoundHalfEven(x * 100.0) as real / 100.0
  }

  /** The number of passes of `range(n)`: n, or none for a negative n */
  function Max0(n: int): nat {
    if n < 0 then 0 else n
  }
}
