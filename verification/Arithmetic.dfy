// Multiplication and remainders, for places on a circle and lexicographic measures.
module Arithmetic {

  lemma MulMono(a: int, b: int, r: int)
    requires a <= b && 0 <= r
    ensures a * r <= b * r
  {
  }

  // A number is its quotient times the divisor plus its remainder.
  lemma RemainderIs(x: nat, n: nat, q: int, r: nat)
    requires r < n && x == q * n + r
    ensures x % n == r
  {
    var d := x / n - q;
    assert x / n * n + x % n == x;
    assert d * n == x / n * n - q * n;
    assert d >= 1 ==> d * n >= n by { if d >= 1 { MulMono(1, d, n); } }
    assert d <= -1 ==> d * n + n <= 0 by { if d <= -1 { MulMono(d, -1, n); } }
  }

  // Positions around a circle of n places.
  lemma WrapsOnce(x: nat, n: nat)
    requires n > 0
    ensures x < n ==> x % n == x
    ensures n <= x < 2 * n ==> x % n == x - n
  {
    if x < n {
      RemainderIs(x, n, 0, x);
    } else if x < 2 * n {
      RemainderIs(x, n, 1, x - n);
    }
  }

  lemma AddCircle(x: nat, n: nat)
    requires n > 0
    ensures (x + n) % n == x % n
  {
    assert x == x / n * n + x % n;
    assert x + n == (x / n + 1) * n + x % n;
    RemainderIs(x + n, n, x / n + 1, x % n);
  }

  lemma NextOnCircle(x: nat, n: nat)
    requires n > 0
    ensures (x % n + 1) % n == (x + 1) % n
  {
    var q, r := x / n, x % n;
    assert x == q * n + r;
    if r + 1 < n {
      RemainderIs(x + 1, n, q, r + 1);
      WrapsOnce(r + 1, n);
    } else {
      assert x + 1 == (q + 1) * n;
      RemainderIs(x + 1, n, q + 1, 0);
      WrapsOnce(r + 1, n);
    }
  }

  // One more digit: pairs ordered lexicographically are ordered by value.
  lemma Digit(x: int, y: int, x': int, y': int, radix: int)
    requires 0 <= y' < radix && 0 <= y && (x' < x || (x' == x && y' < y))
    ensures x' * radix + y' < x * radix + y
  {
    if x' < x {
      MulMono(x' + 1, x, radix);
      assert (x' + 1) * radix == x' * radix + radix;
    }
  }
}
