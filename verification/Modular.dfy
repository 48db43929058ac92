/** Multiples, and quotients and remainders of counters that wrap around. */
module Modular {
  lemma OneTermMore(n: nat, p: nat)
    ensures (n + 1) * p == p + n * p
  {
  }

  lemma {:induction false} TimesPositive(n: int, d: int)
    requires n > 0 && d > 0
    ensures n * d >= n
    decreases d
  {
    if d > 1 {
      TimesPositive(n, d - 1);
      assert n * d == n * (d - 1) + n;
    }
  }

  lemma TimesGap(n: int, x: int, y: int)
    requires n > 0 && x > y
    ensures n * x >= n * y + n
  {
    TimesPositive(n, x - y);
    assert n * (x - y) == n * x - n * y;
  }

  /** Quotient and remainder are unique. */
  lemma Remainder(x: int, q: int, r: int, n: int)
    requires n > 0 && 0 <= r < n && x == n * q + r
    ensures x % n == r
  {
    var q', r' := x / n, x % n;
    assert x == n * q' + r';
    if q' > q {
      TimesGap(n, q', q);
    } else if q > q' {
      TimesGap(n, q, q');
    }
  }

  lemma NextIndex(k: nat, n: nat)
    requires n > 0
    ensures (k % n + 1) % n == (k + 1) % n
  {
    var q, m := k / n, k % n;
    if m + 1 < n {
      Remainder(k + 1, q, m + 1, n);
      Remainder(m + 1, 0, m + 1, n);
    } else {
      assert n * (q + 1) == n * q + n;
      Remainder(k + 1, q + 1, 0, n);
      Remainder(n, 1, 0, n);
    }
  }

  lemma Quotient(x: int, q: int, r: int, n: int)
    requires n > 0 && 0 <= r < n && x == n * q + r
    ensures x / n == q
  {
    Remainder(x, q, r, n);
    var q' := x / n;
    assert n * q' == n * q;
    if q' > q {
      TimesGap(n, q', q);
    } else if q > q' {
      TimesGap(n, q, q');
    }
  }

  /** Counting up by one. */
  lemma Increment(k: nat, n: nat)
    requires n > 0
    ensures (k + 1) % n == if k % n + 1 == n then 0 else k % n + 1
    ensures (k + 1) / n == if k % n + 1 == n then k / n + 1 else k / n
  {
    var q, m := k / n, k % n;
    if m + 1 < n {
      Remainder(k + 1, q, m + 1, n);
      Quotient(k + 1, q, m + 1, n);
    } else {
      assert n * (q + 1) == n * q + n;
      Remainder(k + 1, q + 1, 0, n);
      Quotient(k + 1, q + 1, 0, n);
    }
  }
}
