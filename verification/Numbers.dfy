/** Small arithmetic shared by several components. */
module Numbers {

  function Min(a: nat, b: nat): nat {
    if a < b then a else b
  }

  function Max(a: int, b: int): int {
    if a < b then b else a
  }

  /** The multiples of `n` are at least `n` apart. */
  lemma Multiples(a: int, n: nat)
    requires n > 0
    ensures a >= 1 ==> a * n >= n
    ensures a <= -1 ==> -(a * n) >= n
  {
    if a >= 1 {
      assert a * n == (a - 1) * n + n && (a - 1) * n >= 0;
    } else if a <= -1 {
      assert -(a * n) == (-a - 1) * n + n && (-a - 1) * n >= 0;
    }
  }

  /** A division has only one result. */
  lemma OneQuotient(a: int, n: nat, q: int, rest: nat)
    requires n > 0 && rest < n && a == q * n + rest
    ensures a / n == q && a % n == rest
  {
    Multiples(a / n - q, n);
    assert (a / n - q) * n == rest - a % n;
  }
}
