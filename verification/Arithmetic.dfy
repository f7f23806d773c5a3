/** Facts about products that the verifier does not find on its own. */
module Arithmetic {
  lemma TimesIsMonotone(x: nat, y: nat, p: nat)
    ensures x <= y ==> x * p <= y * p
  {
  }

  lemma OneMoreTimes(k: nat, a: nat)
    ensures (k + 1) * a == k * a + a
  {
  }

  /** The quotient is the largest number of times d fits into n. */
  lemma QuotientMeans(n: nat, d: nat)
    requires d > 0
    ensures n / d * d <= n < (n / d + 1) * d
  {
    OneMoreTimes(n / d, d);
  }

  lemma AtMostQuotient(k: nat, n: nat, d: nat)
    requires d > 0 && k * d <= n
    ensures k <= n / d
  {
    QuotientMeans(n, d);
    TimesIsMonotone(n / d + 1, k, d);
  }

  lemma QuotientIs(n: nat, d: nat, q: nat)
    requires d > 0 && q * d <= n < q * d + d
    ensures n / d == q
  {
    QuotientMeans(n, d);
    AtMostQuotient(q, n, d);
    OneMoreTimes(q, d);
    TimesIsMonotone(q + 1, n / d, d);
  }

  lemma QuotientAndRemainder(n: nat, d: nat)
    requires d > 0
    ensures n / d * d + n % d == n && n % d < d
  {
  }

  /** The quotient steps up when the remainder wraps around. */
  lemma NextQuotient(n: nat, d: nat)
    requires d > 0
    ensures (n + 1) / d == n / d + (if n % d == d - 1 then 1 else 0)
  {
    var q := n / d;
    QuotientAndRemainder(n, d);
    OneMoreTimes(q, d);
    QuotientIs(n + 1, d, if n % d == d - 1 then q + 1 else q);
  }
}
