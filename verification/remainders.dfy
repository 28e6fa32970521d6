/** Remainders, and how often a given one comes up. */
module Remainders {

  /** How many of the `n` numbers from `a` on leave `remainder` when divided by `frequency`. */
  function Firings(a: nat, n: nat, frequency: nat, remainder: nat): nat
    requires remainder < frequency
  {
    if n == 0 then 0
    else Firings(a, n - 1, frequency, remainder) + if (a + n - 1) % frequency == remainder then 1 else 0
  }

  lemma QuotientUnique(q: nat, r: nat, q': nat, r': nat, f: nat)
    requires r < f && r' < f && q * f + r == q' * f + r'
    ensures q == q' && r == r'
  {
    if q < q' {
      Spread(q, q' - q, f);
    } else if q' < q {
      Spread(q', q - q', f);
    }
  }

  lemma Spread(q: nat, d: nat, f: nat)
    requires d >= 1
    ensures (q + d) * f >= q * f + f
    decreases d
  {
    if d == 1 {
      assert (q + 1) * f == q * f + f;
    } else {
      Spread(q, d - 1, f);
      assert (q + (d - 1) + 1) * f == (q + (d - 1)) * f + f;
    }
  }

  lemma RemainderIs(x: nat, f: nat, q: nat, r: nat)
    requires r < f && x == q * f + r
    ensures x / f == q && x % f == r
  {
    QuotientUnique(q, r, x / f, x % f, f);
  }

  lemma RemainderStep(x: nat, f: nat)
    requires f > 0
    ensures (x + 1) % f == if x % f == f - 1 then 0 else x % f + 1
  {
    var q, r := x / f, x % f;
    assert x == q * f + r;
    if r == f - 1 {
      assert (q + 1) * f == q * f + f;
      RemainderIs(x + 1, f, q + 1, 0);
    } else {
      RemainderIs(x + 1, f, q, r + 1);
    }
  }

  /** How far it is from `x` to the next of them. */
  function Wait(x: nat, frequency: nat, remainder: nat): nat
    requires remainder < frequency
  {
    if x % frequency <= remainder then remainder - x % frequency else remainder + frequency - x % frequency
  }

  lemma WaitStep(x: nat, f: nat, r: nat)
    requires r < f
    ensures if x % f == r then Wait(x, f, r) == 0 && Wait(x + 1, f, r) == f - 1
            else Wait(x, f, r) > 0 && Wait(x + 1, f, r) == Wait(x, f, r) - 1
  {
    RemainderStep(x, f);
    RemainderBelow(x, f);
  }

  lemma Times(k: nat, f: nat)
    ensures (k + 1) * f == k * f + f
  {
  }

  lemma {:induction false} FiringsBalance(a: nat, n: nat, f: nat, r: nat)
    requires r < f
    ensures Firings(a, n, f, r) * f + Wait(a, f, r) == n + Wait(a + n, f, r)
  {
    if n > 0 {
      FiringsBalance(a, n - 1, f, r);
      WaitStep(a + n - 1, f, r);
      var k := Firings(a, n - 1, f, r);
      hide Wait;
      Times(k, f);
    }
  }

  predicate FloorOrCeiling(k: nat, n: nat, f: nat)
    requires f > 0
  {
    k == n / f || (k == n / f + 1 && n % f != 0)
  }

  /** Among any `n` numbers in a row there are the whole part of n/F of them or, if F does not divide
      n, possibly one more. */
  lemma FiringsFloorOrCeiling(a: nat, n: nat, f: nat, r: nat)
    requires r < f
    ensures FloorOrCeiling(Firings(a, n, f, r), n, f)
  {
    FiringsBalance(a, n, f, r);
    var k := Firings(a, n, f, r);
    WaitBound(a, f, r);
    WaitBound(a + n, f, r);
    Bracketed(k, n, f);
  }

  lemma WaitBound(x: nat, f: nat, r: nat)
    requires r < f
    ensures Wait(x, f, r) < f
  {
    RemainderBelow(x, f);
  }

  lemma RemainderBelow(x: nat, f: nat)
    requires f > 0
    ensures x % f < f
  {
  }

  lemma Bracketed(k: nat, n: nat, f: nat)
    requires f > 0 && n < k * f + f && k * f < n + f
    ensures FloorOrCeiling(k, n, f)
  {
    if k * f <= n {
      RemainderIs(n, f, k, n - k * f);
    } else {
      assert (k - 1) * f == k * f - f;
      RemainderIs(n, f, k - 1, n - (k - 1) * f);
    }
  }
}
