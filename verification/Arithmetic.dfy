// A few facts about multiples, quotients and remainders, for numbers that are not constants.

module Arithmetic {

  function Multiple(n: nat, k: int): int {
    n * k
  }

  lemma MultipleBounds(n: nat, k: int, a: int, b: int)
    requires n <= a && 0 <= k <= b
    ensures 0 <= Multiple(n, k) <= a * b
  {
    assert n * k <= a * k <= a * b;
  }

  lemma MultipleNext(n: nat, k: int)
    ensures Multiple(n + 1, k) == Multiple(n, k) + k
  {
  }

  lemma MultipleMonotone(m: nat, n: nat, k: int)
    requires m <= n && 0 <= k
    ensures Multiple(m, k) <= Multiple(n, k)
  {
  }

  lemma QuotientSplits(a: int, k: int)
    requires 0 <= a && k > 0
    ensures 0 <= a / k && 0 <= a % k < k && a == Multiple(a / k, k) + a % k
  {
    assert a == k * (a / k) + a % k;
  }

  // A number lies in the slot that division says.
  lemma MultipleIsQuotient(a: int, k: int, i: nat)
    requires k > 0 && Multiple(i, k) <= a < Multiple(i + 1, k)
    ensures a / k == i && a % k == a - Multiple(i, k)
  {
    var q := a / k;
    MultipleMonotone(0, i, k);
    QuotientSplits(a, k);
    MultipleNext(q, k);
    if q < i {
      MultipleMonotone(q + 1, i, k);
    } else if q > i {
      MultipleMonotone(i + 1, q, k);
    }
  }

  lemma MultipleAssociates(n: nat, m: nat, p: nat)
    ensures Multiple(Multiple(n, m), p) == Multiple(n, p * m)
  {
  }

  // Dividing twice is dividing by the product.
  lemma DivideTwice(a: int, p: nat, m: nat)
    requires 0 <= a && p > 0 && m > 0
    ensures p * m > 0 && a / (p * m) == a / p / m
  {
    var page := a / p;
    var slot := page / m;
    QuotientSplits(a, p);
    QuotientSplits(page, m);
    MultipleNext(slot, m);
    MultipleNext(page, p);
    MultipleMonotone(Multiple(slot, m), page, p);
    MultipleMonotone(page + 1, Multiple(slot + 1, m), p);
    MultipleAssociates(slot, m, p);
    MultipleAssociates(slot + 1, m, p);
    MultipleIsQuotient(a, p * m, slot);
  }
}
