/** Quotients and remainders by a divisor the solver does not see through. */
module Arithmetic {
  function Min(a: int, b: int): int {
    if a < b then a else b
  }

  function Max(a: int, b: int): int {
    if a < b then b else a
  }

  lemma MultipleIsFar(n: int, d: int)
    requires d > 0
    ensures n >= 1 ==> n * d >= d
    ensures n <= -1 ==> n * d <= -d
  {
    if n >= 1 {
      assert (n - 1) * d >= 0;
    } else if n <= -1 {
      assert (-n - 1) * d >= 0;
    }
  }

  lemma QuotientAtLeast(t: int, d: int, o: int)
    requires d > 0 && o * d <= t
    ensures o <= t / d
  {
    var q := t / d;
    MultipleIsFar(o - q, d);
    assert (o - q) * d == o * d - q * d;
    assert t - q * d < d;
  }

  lemma QuotientIs(t: int, d: int, o: int)
    requires d > 0 && o * d <= t < o * d + d
    ensures t / d == o
  {
    var q := t / d;
    MultipleIsFar(o - q, d);
    assert (o - q) * d == o * d - q * d;
    assert 0 <= t - q * d < d;
  }

  lemma RemainderShift(t: int, d: int)
    requires d > 0
    ensures (t + d) % d == t % d
  {
    var q := t / d;
    assert (q + 1) * d == q * d + d;
    QuotientIs(t + d, d, q + 1);
  }

  lemma RemainderOfMultiple(q: int, t: int, d: int)
    requires d > 0
    ensures (q * d + t) % d == t % d
  {
    assert (q + t / d) * d == q * d + t / d * d;
    QuotientIs(q * d + t, d, q + t / d);
  }

  lemma RemainderOfSmall(t: int, d: int)
    requires 0 <= t < d
    ensures t % d == t
  {
    QuotientIs(t, d, 0);
  }

  lemma RemainderAtMost(t: int, d: int)
    requires d > 0 && 0 <= t
    ensures t % d <= t
  {
    QuotientAtLeast(t, d, 0);
    Parts(t, d);
    assert t / d * d >= 0;
  }

  lemma MultiplesGrow(j: nat, k: nat, d: int)
    requires d > 0 && j < k
    ensures j * d < k * d
  {
    MultipleIsFar(k - j, d);
    assert k * d == j * d + (k - j) * d;
  }

  lemma LaterMultiple(a: int, r: int, b: int, r': int, d: int)
    requires r < d && 0 <= r' && a < b && 0 < d
    ensures a * d + r < b * d + r'
  {
    MultipleIsFar(b - a, d);
    assert b * d == a * d + (b - a) * d;
  }

  lemma WholeStep(a: int, b: int, d: int)
    requires a < b && 0 < d
    ensures a * d + d <= b * d
  {
    MultipleIsFar(b - a, d);
    assert b * d == a * d + (b - a) * d;
  }

  lemma Parts(t: int, d: int)
    requires d > 0
    ensures t == t / d * d + t % d && 0 <= t % d < d
  {
  }

  lemma SumOfMultiples(a: int, b: int, d: int)
    ensures (a + b) * d == a * d + b * d
  {
  }

  lemma NextMultiple(n: int, d: int)
    ensures (n + 1) * d == n * d + d
  {
  }
}
