/** How often a schedule row fires, the 32-bit pass counter and its wrapping included. */
module Rates {
  import opened Widths
  import opened Remainders
  import opened Schedule
  import opened Staleness

  /** In how many of the `n` seconds from second `a` on the row fires; seconds are counted without
      wrapping, the scheduler's passes modulo 2^32. */
  function RowFirings(r: Row, a: nat, n: nat): nat
  {
    if n == 0 then 0 else RowFirings(r, a, n - 1) + if Fires(r, (a + (n - 1)) % UINT32) then 1 else 0
  }

  predicate Live(r: Row) { r.state == Enabled && WellFormed(r) }

  // ------------------------------------------------------------ the exact count

  /** How often a row fires in the first `p` passes of a round of the pass counter. */
  function InRound(r: Row, p: nat): nat
    requires WellFormed(r)
  {
    (p + (r.frequency - 1 - r.remainder)) / r.frequency
  }

  /** How often it fires in the first `x` seconds of all. */
  function Since(r: Row, x: nat): nat
    requires WellFormed(r)
  {
    (x / UINT32) * InRound(r, UINT32) + InRound(r, x % UINT32)
  }

  lemma InRoundStep(r: Row, p: nat)
    requires WellFormed(r)
    ensures InRound(r, 0) == 0
    ensures InRound(r, p + 1) == InRound(r, p) + if p % r.frequency == r.remainder then 1 else 0
  {
    var f, d := r.frequency, r.frequency - 1 - r.remainder;
    RemainderIs(d, f, 0, d);
    var q, m := p / f, p % f;
    RemainderBelow(p, f);
    assert p == q * f + m;
    assert (q + 1) * f == q * f + f;
    if m + d < f {
      RemainderIs(p + d, f, q, m + d);
    } else {
      RemainderIs(p + d, f, q + 1, m + d - f);
    }
    if m + d + 1 < f {
      RemainderIs(p + 1 + d, f, q, m + d + 1);
    } else {
      RemainderIs(p + 1 + d, f, q + 1, m + d + 1 - f);
    }
  }

  lemma SinceStep(r: Row, x: nat)
    requires WellFormed(r)
    ensures Since(r, x + 1) == Since(r, x) + if (x % UINT32) % r.frequency == r.remainder then 1 else 0
  {
    var q, p := x / UINT32, x % UINT32;
    InRoundStep(r, p);
    hide InRound;
    if p + 1 == UINT32 {
      assert (x + 1) / UINT32 == q + 1 && (x + 1) % UINT32 == 0;
      assert (q + 1) * InRound(r, UINT32) == q * InRound(r, UINT32) + InRound(r, UINT32);
    } else {
      assert (x + 1) / UINT32 == q && (x + 1) % UINT32 == p + 1;
    }
  }

  /** In any window whatever, wrapping included, a live row fires exactly this often. */
  lemma {:induction false} CountIsExact(r: Row, a: nat, n: nat)
    requires Live(r)
    ensures RowFirings(r, a, n) == Since(r, a + n) - Since(r, a)
  {
    hide Since;
    if n > 0 {
      CountIsExact(r, a, n - 1);
      SinceStep(r, a + (n - 1));
    }
  }

  // ------------------------------------------------------------ floor or ceiling

  lemma {:induction false} CountWithinRound(r: Row, a: nat, b: nat, n: nat)
    requires Live(r) && b == a % UINT32 && b + n <= UINT32
    ensures RowFirings(r, a, n) == Firings(b, n, r.frequency, r.remainder)
    decreases n
  {
    if n > 0 {
      CountWithinRound(r, a, b, n - 1);
      SamePass(a, b, n - 1);
      hide RowFirings, Firings, Live;
      SameMore(r, a, n, b);
    }
  }

  lemma SameMore(r: Row, a: nat, n: nat, b: nat)
    requires Live(r) && n > 0 && (a + (n - 1)) % UINT32 == b + n - 1
    requires RowFirings(r, a, n - 1) == Firings(b, n - 1, r.frequency, r.remainder)
    ensures RowFirings(r, a, n) == Firings(b, n, r.frequency, r.remainder)
  {
    var pass := b + n - 1;
    assert Fires(r, pass) <==> pass % r.frequency == r.remainder;
  }

  lemma SamePass(a: nat, b: nat, k: nat)
    requires b == a % UINT32 && b + k < UINT32
    ensures (a + k) % UINT32 == b + k
  {
  }

  /** One more second adds to both counts alike if its pass leaves the same remainder. */
  lemma OneMore(r: Row, a: nat, n: nat, b: nat)
    requires Live(r) && n > 0 && ((a + (n - 1)) % UINT32) % r.frequency == (b + n - 1) % r.frequency
    requires RowFirings(r, a, n - 1) == Firings(b, n - 1, r.frequency, r.remainder)
    ensures RowFirings(r, a, n) == Firings(b, n, r.frequency, r.remainder)
  {
  }

  lemma DividingRemainder(x: nat, f: nat)
    requires f > 0 && UINT32 % f == 0
    ensures (x % UINT32) % f == x % f
  {
    var k, q, p := UINT32 / f, x / UINT32, x % UINT32;
    RemainderBelow(p, f);
    var j, m := p / f, p % f;
    assert UINT32 == k * f && p == j * f + m && x == q * UINT32 + p;
    assert q * (k * f) + j * f == (q * k + j) * f;
    RemainderIs(x, f, q * k + j, m);
  }

  lemma {:induction false} CountIfDividing(r: Row, a: nat, n: nat)
    requires Live(r) && UINT32 % r.frequency == 0
    ensures RowFirings(r, a, n) == Firings(a, n, r.frequency, r.remainder)
  {
    if n == 0 {
    } else {
      hide RowFirings, Firings;
      CountIfDividing(r, a, n - 1);
      DividingRemainder(a + (n - 1), r.frequency);
      OneMore(r, a, n, a);
    }
  }

  /** In any `n` seconds that do not straddle a wrap of the pass counter, and in any at all if the
      frequency divides 2^32, a live row fires floor(n/F) or ceil(n/F) times. */
  lemma RateIsExact(r: Row, a: nat, n: nat)
    requires Live(r) && (UINT32 % r.frequency == 0 || a % UINT32 + n <= UINT32)
    ensures FloorOrCeiling(RowFirings(r, a, n), n, r.frequency)
  {
    if UINT32 % r.frequency == 0 {
      CountIfDividing(r, a, n);
      FiringsFloorOrCeiling(a, n, r.frequency, r.remainder);
    } else {
      CountWithinRound(r, a, a % UINT32, n);
      FiringsFloorOrCeiling(a % UINT32, n, r.frequency, r.remainder);
    }
  }

  /** A window across the first wrap in which a row whose frequency does not divide 2^32 fires too
      often or too rarely. */
  function BadWindow(r: Row): (nat, nat)
    requires WellFormed(r) && r.frequency <= UINT32
  {
    var q, s := UINT32 / r.frequency, UINT32 % r.frequency;
    if r.remainder < s then (q * r.frequency + r.remainder, s + 1)
    else
      assert q >= 1 by { RemainderIs(UINT32, r.frequency, q, s); }
      ((q - 1) * r.frequency + r.remainder + 1, r.frequency + s - 1)
  }

  lemma InRoundIs(r: Row, q: nat, m: nat)
    requires WellFormed(r) && m <= r.frequency
    ensures InRound(r, q * r.frequency + m) == q + if m > r.remainder then 1 else 0
  {
    var f, d := r.frequency, r.frequency - 1 - r.remainder;
    assert (q + 1) * f == q * f + f;
    if m > r.remainder {
      RemainderIs(q * f + m + d, f, q + 1, m + d - f);
    } else {
      RemainderIs(q * f + m + d, f, q, m + d);
    }
  }

  lemma SinceInTwoRounds(r: Row, x: nat)
    requires WellFormed(r)
    ensures x < UINT32 ==> Since(r, x) == InRound(r, x)
    ensures UINT32 <= x < 2 * UINT32 ==> Since(r, x) == InRound(r, UINT32) + InRound(r, x - UINT32)
  {
    hide InRound;
    if x < UINT32 {
      assert x / UINT32 == 0 && x % UINT32 == x;
    } else if x < 2 * UINT32 {
      assert x / UINT32 == 1 && x % UINT32 == x - UINT32;
    }
  }

  lemma TwiceAcross(r: Row, q: nat, s: nat, a: nat)
    requires Live(r) && r.frequency < UINT16 && UINT32 == q * r.frequency + s
    requires r.remainder < s < r.frequency && a == q * r.frequency + r.remainder
    ensures RowFirings(r, a, s + 1) == 2
  {
    CountIsExact(r, a, s + 1);
    InRoundIs(r, q, s);
    InRoundIs(r, q, r.remainder);
    InRoundIs(r, 0, r.remainder + 1);
    hide InRound, Since, RowFirings;
    SinceInTwoRounds(r, a);
    SinceInTwoRounds(r, a + (s + 1));
  }

  lemma NeverAcross(r: Row, q: nat, s: nat, a: nat)
    requires Live(r) && r.frequency < UINT16 && UINT32 == q * r.frequency + s && q >= 1
    requires 0 < s <= r.remainder && a == (q - 1) * r.frequency + r.remainder + 1
    ensures RowFirings(r, a, r.frequency + s - 1) == 0
  {
    var n := r.frequency + s - 1;
    assert (q - 1) * r.frequency + r.frequency == q * r.frequency;
    CountIsExact(r, a, n);
    InRoundIs(r, q, s);
    InRoundIs(r, q - 1, r.remainder + 1);
    InRoundIs(r, 0, r.remainder);
    hide InRound, Since, RowFirings;
    SinceInTwoRounds(r, a);
    SinceInTwoRounds(r, a + n);
  }

  /** Just across the wrap the row fires twice within a period, or not at all for one or longer. */
  lemma BadWindowCount(r: Row)
    requires Live(r) && r.frequency < UINT16 && UINT32 % r.frequency != 0
    ensures var (a, n) := BadWindow(r);
      if r.remainder < UINT32 % r.frequency then n <= r.frequency && RowFirings(r, a, n) == 2
      else n >= r.frequency && RowFirings(r, a, n) == 0
  {
    var f, q, s := r.frequency, UINT32 / r.frequency, UINT32 % r.frequency;
    RemainderBelow(UINT32, f);
    assert UINT32 == q * f + s;
    var (a, n) := BadWindow(r);
    hide RowFirings;
    if r.remainder < s {
      TwiceAcross(r, q, s, a);
    } else {
      NeverAcross(r, q, s, a);
    }
  }

  /** A live row keeps to floor(n/F) or ceil(n/F) in every window if and only if its frequency, a
      16-bit number, divides 2^32. */
  lemma RateHoldsIffDividing(r: Row)
    requires Live(r) && r.frequency < UINT16
    ensures (forall a, n :: FloorOrCeiling(RowFirings(r, a, n), n, r.frequency)) <==> 0x1_0000_0000 % r.frequency == 0
  {
    if UINT32 % r.frequency == 0 {
      forall a, n ensures FloorOrCeiling(RowFirings(r, a, n), n, r.frequency) {
        RateIsExact(r, a, n);
      }
    } else {
      BadWindowCount(r);
      var (a, n) := BadWindow(r);
      hide RowFirings, BadWindow;
      NotFloorNorCeiling(RowFirings(r, a, n), n, r.frequency);
    }
  }

  lemma NotFloorNorCeiling(k: nat, n: nat, f: nat)
    requires f > 0 && ((n <= f && k == 2) || (n >= f && k == 0))
    ensures !FloorOrCeiling(k, n, f)
  {
    if n < f {
      RemainderIs(n, f, 0, n);
    } else if n == f {
      RemainderIs(n, f, 1, 0);
    } else {
      var q, m := (n - f) / f, (n - f) % f;
      RemainderBelow(n - f, f);
      assert (q + 1) * f == q * f + f;
      RemainderIs(n, f, q + 1, m);
    }
  }

  /** The power system's request, due every five seconds, misses its turn at the wrap: in the last
      second before it and the four after it no slot at all sends the request. */
  lemma PowerMissesATurn()
    ensures Live(RowAt(RowOf(EPS_HK))) && RowFirings(RowAt(RowOf(EPS_HK)), UINT32 - 1, 5) == 0
    ensures forall n: nat :: TOTAL_SLOTS * (UINT32 - 1) <= n < TOTAL_SLOTS * (UINT32 + 4) ==> !SentAt(Definition(), EPS_HK, n)
  {
    var r := RowAt(RowOf(EPS_HK));
    OnlyRow(EPS_HK, RowOf(EPS_HK));
    hide RowAt, RowFirings, SentAt, Definition, BadWindow;
    BadWindowCount(r);
    PowerWindow(r);
    forall n: nat | TOTAL_SLOTS * (UINT32 - 1) <= n < TOTAL_SLOTS * (UINT32 + 4) ensures !SentAt(Definition(), EPS_HK, n) {
      PowerSilent(n);
    }
  }

  lemma PowerWindow(r: Row)
    requires r == Send(5, 4, EPS_HK)
    ensures BadWindow(r) == (UINT32 - 1, 5) && UINT32 % 5 == 1
  {
  }

  lemma PowerSilent(n: nat)
    requires TOTAL_SLOTS * (UINT32 - 1) <= n < TOTAL_SLOTS * (UINT32 + 4)
    ensures !SentAt(Definition(), EPS_HK, n)
  {
    hide SentAt, Definition;
    SentExactly(EPS_HK, n);
    var u := n / TOTAL_SLOTS;
    assert UINT32 - 1 <= u < UINT32 + 4;
    assert u >= UINT32 ==> u % UINT32 == u - UINT32;
  }
}
