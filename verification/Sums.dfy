/** Sums over rows numbered from zero. A table whose rows are keyed by a serial
    number is summed by summing a function of the key; a missing row counts
    zero. */
module Sums {

  function Sum(f: nat -> int, n: nat): int {
    if n == 0 then 0 else Sum(f, n - 1) + f(n - 1)
  }

  lemma {:induction false} SumSame(f: nat -> int, g: nat -> int, n: nat)
    requires forall i: nat | i < n :: f(i) == g(i)
    ensures Sum(f, n) == Sum(g, n)
  {
    if n > 0 {
      SumSame(f, g, n - 1);
    }
  }

  lemma {:induction false} SumPoint(f: nat -> int, g: nat -> int, n: nat, k: nat)
    requires k < n
    requires forall i: nat | i < n && i != k :: f(i) == g(i)
    ensures Sum(g, n) == Sum(f, n) + g(k) - f(k)
  {
    if k == n - 1 {
      SumSame(f, g, n - 1);
    } else {
      SumPoint(f, g, n - 1, k);
    }
  }

  lemma {:induction false} SumWithin(f: nat -> int, bound: nat -> int, n: nat)
    requires forall i: nat | i < n :: -bound(i) <= f(i) <= bound(i)
    ensures -Sum(bound, n) <= Sum(f, n) <= Sum(bound, n)
  {
    if n > 0 {
      SumWithin(f, bound, n - 1);
    }
  }

  lemma {:induction false} SumZero(f: nat -> int, n: nat)
    requires forall i: nat | i < n :: f(i) == 0
    ensures Sum(f, n) == 0
  {
    if n > 0 {
      SumZero(f, n - 1);
    }
  }

  /** A total of terms none of which is negative is zero only if they all are. */
  lemma {:induction false} SumOfNonNegative(f: nat -> int, n: nat)
    requires forall i: nat | i < n :: f(i) >= 0
    ensures Sum(f, n) >= 0
    ensures Sum(f, n) == 0 <==> forall i: nat | i < n :: f(i) == 0
  {
    if n > 0 {
      SumOfNonNegative(f, n - 1);
    }
  }

  /** Two columns that change alike row by row have totals that change alike. */
  lemma {:induction false} SumShift(f: nat -> int, f': nat -> int, g: nat -> int, g': nat -> int, n: nat)
    requires forall i: nat | i < n :: f'(i) - f(i) == g'(i) - g(i)
    ensures Sum(f', n) - Sum(f, n) == Sum(g', n) - Sum(g, n)
  {
    if n > 0 {
      SumShift(f, f', g, g', n - 1);
    }
  }

  /** Trailing rows that count zero may be ignored. */
  lemma {:induction false} SumExtend(f: nat -> int, n: nat, m: nat)
    requires n <= m
    requires forall i: nat | n <= i < m :: f(i) == 0
    ensures Sum(f, m) == Sum(f, n)
    decreases m - n
  {
    if n < m {
      SumExtend(f, n, m - 1);
    }
  }
}
