/** The few facts about products and remainders that other modules use. */
module Arithmetic {
  lemma TimesNext(q: int, n: nat)
    ensures (q + 1) * n == q * n + n
  {
  }

  lemma Negated(d: int, n: nat)
    ensures -d * n == -(d * n)
  {
  }

  lemma AtLeast(d: nat, n: nat)
    requires d > 0
    ensures d * n >= n
  {
    assert (d - 1) * n >= 0;
  }

  lemma Decompose(k: nat, n: nat)
    requires n > 0
    ensures k == k / n * n + k % n && k % n < n
  {
  }

  lemma SmallMod(a: nat, n: nat)
    requires a < n
    ensures a % n == a
  {
  }

  lemma ModAtMost(a: nat, n: nat)
    requires n > 0
    ensures a % n <= a
  {
  }

  /** A quotient and a small enough rest are what division gives. */
  lemma ModOf(q: int, r: nat, n: nat)
    requires r < n && q * n + r >= 0
    ensures (q * n + r) % n == r && (q * n + r) / n == q
  {
    var a := q * n + r;
    var b, s := a / n, a % n;
    assert a == b * n + s;
    assert (b - q) * n == r - s;
    Negated(b - q, n);
    if b > q {
      AtLeast(b - q, n);
    } else if b < q {
      AtLeast(q - b, n);
    }
  }

  lemma ModStep(a: nat, step: nat)
    requires 0 < step <= a
    ensures (a - step) % step == a % step
  {
    TimesNext(a / step - 1, step);
    ModOf(a / step - 1, a % step, step);
  }
}
