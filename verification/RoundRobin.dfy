/** The round-robin balancer of infra/db/postgresx/lb.go: a 64-bit counter that wraps around,
    advanced atomically, so concurrent calls take their turns in some order. */
module RoundRobin {
  import opened Arithmetic

  const WRAP: nat := 0x1_0000_0000_0000_0000

  class RoundRobinLoadBalancer {
    var counter: nat

    predicate Valid()
      reads this
    {
      counter < WRAP
    }

    constructor ()
      ensures Valid() && counter == 0
    {
      counter := 0;
    }

    /** Picks one of `n` pools. With a single pool the counter does not move. */
    method Resolve(n: nat) returns (index: nat)
      requires Valid() && n > 0
      modifies this
      ensures Valid() && index < n
      ensures n == 1 ==> index == 0 && counter == old(counter)
      ensures n > 1 ==> counter == CounterAfter(old(counter), 1) && index == counter % n
    {
      if n == 1 {
        return 0;
      }
      counter := (counter + 1) % WRAP;
      index := counter % n;
    }
  }

  /** The counter after `k` calls, by any number of callers in turn. */
  function CounterAfter(c: nat, k: nat): nat {
    (c + k) % WRAP
  }

  lemma CounterStep(c: nat, k: nat)
    ensures CounterAfter(CounterAfter(c, k), 1) == CounterAfter(c, k + 1)
  {
    var x := c + k;
    if x % WRAP == WRAP - 1 {
      DivUnique(x + 1, WRAP, x / WRAP + 1, 0);
    } else {
      DivUnique(x + 1, WRAP, x / WRAP, x % WRAP + 1);
    }
  }

  /** Counts a value that selects pool `r`. */
  function Hit(x: nat, n: nat, r: nat): nat
    requires n > 0
  {
    if x % n == r then 1 else 0
  }

  /** How many of the first `k` calls after counter value `c` get pool `r`: call number `k`
      finds the counter at `CounterAfter(c, k)`. */
  function Count(c: nat, n: nat, k: nat, r: nat): nat
    requires n > 0
  {
    if k == 0 then 0 else Count(c, n, k - 1, r) + Hit(CounterAfter(c, k), n, r)
  }

  // ---- Residues ----

  /** How many numbers below `x` leave remainder `r`. */
  function Below(x: nat, n: nat, r: nat): nat
    requires r < n
  {
    if x == 0 then 0 else Below(x - 1, n, r) + Hit(x - 1, n, r)
  }

  /** Each full round of `n` meets every remainder once, and a part of a round at most once. */
  lemma {:induction false} BelowForm(x: nat, n: nat, r: nat)
    requires r < n
    ensures Below(x, n, r) == x / n + (if r < x % n then 1 else 0)
  {
    if x > 0 {
      BelowForm(x - 1, n, r);
      BelowStep(x, n, r);
    }
  }

  /** One number more: either the round is complete and all remainders have been met once more,
      or the last remainder is met. */
  lemma {:induction false} BelowStep(x: nat, n: nat, r: nat)
    requires r < n && x > 0
    ensures x / n + (if r < x % n then 1 else 0) == (x - 1) / n + (if r < (x - 1) % n then 1 else 0) + Hit(x - 1, n, r)
  {
    DivStep(x, n);
    var q, m := (x - 1) / n, (x - 1) % n;
    if x % n == 0 {
      assert m == n - 1 && x / n == q + 1;
    } else {
      assert m == x % n - 1 && x / n == q;
    }
  }

  /** Between two bounds, remainders are met equally often, up to one. */
  lemma Spread(a: nat, b: nat, n: nat, r: nat, s: nat)
    requires r < n && s < n && a <= b
    ensures Below(b, n, r) - Below(a, n, r) <= Below(b, n, s) - Below(a, n, s) + 1
  {
    BelowForm(a, n, r);
    BelowForm(b, n, r);
    BelowForm(a, n, s);
    BelowForm(b, n, s);
  }

  // ---- Balance ----

  /** No pool gets two calls more than another. */
  predicate Balanced(c: nat, n: nat, k: nat)
    requires n > 0
  {
    forall r, s :: 0 <= r < n && 0 <= s < n ==> Count(c, n, k, r) <= Count(c, n, k, s) + 1
  }

  lemma CounterForm(c: nat, k: nat)
    requires c + k < 2 * WRAP
    ensures CounterAfter(c, k) == if c + k < WRAP then c + k else c + k - WRAP
  {
  }

  /** Up to one wrap, the calls run through the counter values in one or two intervals. */
  lemma {:induction false} CountForm(c: nat, n: nat, k: nat, r: nat)
    requires r < n && c < WRAP && c + k < 2 * WRAP
    ensures Count(c, n, k, r) ==
            if c + k < WRAP then Below(c + k + 1, n, r) - Below(c + 1, n, r)
            else Below(WRAP, n, r) - Below(c + 1, n, r) + Below(c + k + 1 - WRAP, n, r)
  {
    if k > 0 {
      CountForm(c, n, k - 1, r);
      CounterForm(c, k);
    }
  }

  /** While the counter does not wrap around, the pools are served equally, up to one. */
  lemma NoWrapBalanced(c: nat, n: nat, k: nat)
    requires n > 0 && c + k < WRAP
    ensures Balanced(c, n, k)
  {
    forall r, s | 0 <= r < n && 0 <= s < n
      ensures Count(c, n, k, r) <= Count(c, n, k, s) + 1
    {
      CountForm(c, n, k, r);
      CountForm(c, n, k, s);
      Spread(c + 1, c + k + 1, n, r, s);
    }
  }

  /** Across one wrap, up to two. */
  lemma OneWrapBalanced(c: nat, n: nat, k: nat, r: nat, s: nat)
    requires r < n && s < n && c < WRAP && c + k < 2 * WRAP
    ensures Count(c, n, k, r) <= Count(c, n, k, s) + 2
  {
    CountForm(c, n, k, r);
    CountForm(c, n, k, s);
    if c + k < WRAP {
      Spread(c + 1, c + k + 1, n, r, s);
    } else {
      Spread(c + 1, WRAP, n, r, s);
      Spread(0, c + k + 1 - WRAP, n, r, s);
    }
  }

  /** When `n` divides the range of the counter, wrapping around is not felt. */
  lemma {:induction false} SeamlessCount(c: nat, n: nat, k: nat, r: nat)
    requires r < n && WRAP % n == 0
    ensures Count(c, n, k, r) == Below(c + k + 1, n, r) - Below(c + 1, n, r)
  {
    if k > 0 {
      SeamlessCount(c, n, k - 1, r);
      ModMod(c + k, n);
    }
  }

  lemma ModMod(x: nat, n: nat)
    requires n > 0 && WRAP % n == 0
    ensures (x % WRAP) % n == x % n
  {
    var q, p, m := x / WRAP, WRAP / n, x % WRAP;
    assert WRAP == n * p;
    assert x == WRAP * q + m == n * (p * q) + m;
    assert m == n * (m / n) + m % n;
    assert x == n * (p * q + m / n) + m % n;
    DivUnique(x, n, p * q + m / n, m % n);
  }

  /** The last `m` values before the wrap, and the first `m` after it, meet the same remainders. */
  lemma {:induction false} AroundWrap(n: nat, m: nat, q: nat, r: nat)
    requires r < n && 0 < m < n && WRAP == n * q + m
    ensures Below(WRAP, n, r) - Below(WRAP - m, n, r) == if r < m then 1 else 0
    ensures Below(m, n, r) == if r < m then 1 else 0
  {
    DivUnique(WRAP, n, q, m);
    DivUnique(WRAP - m, n, q, 0);
    DivUnique(m, n, 0, m);
    BelowForm(WRAP, n, r);
    BelowForm(WRAP - m, n, r);
    BelowForm(m, n, r);
  }

  /** When it does not, the wrap serves the first pool twice before the last one again. */
  lemma {:induction false} UnevenWrap(n: nat)
    requires 0 < n < WRAP && WRAP % n != 0
    ensures var m := WRAP % n; Count(WRAP - m - 1, n, 2 * m, 0) == 2 && Count(WRAP - m - 1, n, 2 * m, n - 1) == 0
  {
    var m := WRAP % n;
    AroundWrap(n, m, WRAP / n, 0);
    AroundWrap(n, m, WRAP / n, n - 1);
    CountForm(WRAP - m - 1, n, 2 * m, 0);
    CountForm(WRAP - m - 1, n, 2 * m, n - 1);
  }

  /** Balance up to one holds for every counter value and every number of calls exactly when
      the number of pools divides 2^64. */
  lemma AlwaysBalanced(n: nat)
    requires 0 < n < WRAP
    ensures (forall c: nat, k: nat :: c < WRAP ==> Balanced(c, n, k)) <==> WRAP % n == 0
  {
    if WRAP % n == 0 {
      forall c: nat, k: nat | c < WRAP
        ensures Balanced(c, n, k)
      {
        forall r, s | 0 <= r < n && 0 <= s < n
          ensures Count(c, n, k, r) <= Count(c, n, k, s) + 1
        {
          SeamlessCount(c, n, k, r);
          SeamlessCount(c, n, k, s);
          Spread(c + 1, c + k + 1, n, r, s);
        }
      }
    } else {
      UnevenWrap(n);
      assert !Balanced(WRAP - WRAP % n - 1, n, 2 * (WRAP % n));
    }
  }

  // ---- Which numbers of pools ----

  function Power(k: nat): nat {
    if k == 0 then 1 else 2 * Power(k - 1)
  }

  /** A number divides a power of two only if it is one. */
  lemma {:induction false} Divisor(n: nat, k: nat) returns (j: nat)
    requires n > 0 && Power(k) % n == 0
    ensures j <= k && n == Power(j)
  {
    if n % 2 == 1 {
      OddDivisor(n, k);
      j := 0;
    } else {
      if k == 0 {
        DivUnique(1, n, 0, 1);
      }
      var half, q := n / 2, Power(k) / n;
      assert n == 2 * half && Power(k) == n * q;
      assert 2 * Power(k - 1) == 2 * (half * q);
      DivUnique(Power(k - 1), half, q, 0);
      var i := Divisor(half, k - 1);
      j := i + 1;
    }
  }

  lemma {:induction false} OddDivisor(n: nat, k: nat)
    requires n % 2 == 1 && Power(k) % n == 0
    ensures n == 1
  {
    if k == 0 {
      if n > 1 {
        DivUnique(1, n, 0, 1);
      }
    } else {
      OddHalf(n, Power(k - 1), Power(k) / n);
      OddDivisor(n, k - 1);
    }
  }

  lemma {:induction false} OddHalf(n: nat, p: nat, q: nat)
    requires n % 2 == 1 && n * q == 2 * p
    ensures p % n == 0
  {
    OddProduct(n, q);
    var half := q / 2;
    assert n * (2 * half) == 2 * (n * half);
    DivUnique(p, n, half, 0);
  }

  lemma {:induction false} OddProduct(n: nat, q: nat)
    requires n % 2 == 1
    ensures (n * q) % 2 == q % 2
  {
    Doubled(n / 2, q);
    TwiceMore(n / 2 * q, q);
  }

  lemma {:induction false} Doubled(h: nat, q: nat)
    ensures (2 * h + 1) * q == 2 * (h * q) + q
  {
  }

  lemma {:induction false} TwiceMore(r: nat, q: nat)
    ensures (2 * r + q) % 2 == q % 2
  {
  }

  lemma {:induction false} Powers(j: nat, k: nat)
    requires j <= k
    ensures Power(j) > 0 && Power(k) % Power(j) == 0
  {
    if j < k {
      Powers(j, k - 1);
      var q := Power(k - 1) / Power(j);
      assert Power(k) == Power(j) * (2 * q);
      DivUnique(Power(k), Power(j), 2 * q, 0);
    } else if j > 0 {
      Powers(j - 1, k - 1);
      DivUnique(Power(k), Power(j), 1, 0);
    }
  }

  /** So the pools are served equally for ever, up to one, exactly when their number is a power
      of two. */
  lemma {:induction false} BalancedPowers(n: nat)
    requires 0 < n < WRAP
    ensures (forall c: nat, k: nat :: c < WRAP ==> Balanced(c, n, k)) <==> exists j: nat :: j < 64 && n == Power(j)
  {
    AlwaysBalanced(n);
    Wraps();
    if WRAP % n == 0 {
      var j := Divisor(n, 64);
      assert j != 64;
    }
    if j: nat :| j < 64 && n == Power(j) {
      Powers(j, 64);
    }
  }

  /** The counter has 64 bits. */
  lemma {:induction false} Wraps()
    ensures WRAP == Power(64)
  {
    PowerSum(32, 32);
    PowerSum(16, 16);
    PowerSum(8, 8);
    assert Power(8) == 256;
  }

  lemma {:induction false} PowerSum(a: nat, b: nat)
    ensures Power(a + b) == Power(a) * Power(b)
  {
    if b > 0 {
      PowerSum(a, b - 1);
      assert Power(a) * (2 * Power(b - 1)) == 2 * (Power(a) * Power(b - 1));
    }
  }
}
