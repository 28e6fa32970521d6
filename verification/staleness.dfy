/** How old the data is that Limit Checker samples, in slots, for all time. */
module Staleness {
  import opened Schedule
  import opened Widths
  import opened Remainders

  const SC_WAKEUP: nat := 21
  const LC_SAMPLE: nat := 22
  const MGR_HK: nat := 35
  const GPS_DATA: nat := 51
  const SAMPLE_HK: nat := 55
  const EPS_HK: nat := 65

  /** The requests behind the watchpoints, the sample itself and the sequence processor's wakeup. */
  type Request = m: nat | m == SC_WAKEUP || m == LC_SAMPLE || m == MGR_HK || m == GPS_DATA || m == SAMPLE_HK || m == EPS_HK
    witness LC_SAMPLE

  /** The one row that sends each of them. */
  function RowOf(m: Request): nat
  {
    if m == SC_WAKEUP then 130 else if m == LC_SAMPLE then 255 else if m == MGR_HK then 125 else if m == GPS_DATA then 10
    else if m == SAMPLE_HK then 175 else 275
  }

  function SlotOf(m: Request): nat { RowOf(m) / ENTRIES_PER_SLOT }

  function Frequency(m: Request): nat
  {
    if m == MGR_HK then 10 else if m == SAMPLE_HK || m == EPS_HK then 5 else 1
  }

  function Remainder(m: Request): nat { if m == EPS_HK then 4 else 0 }

  lemma OnlyRow(m: Request, i: nat)
    ensures RowAt(i).state == Enabled && RowAt(i).message == m <==> i == RowOf(m)
    ensures RowAt(RowOf(m)) == Send(Frequency(m), Remainder(m), m)
  {
  }

  /** Whether the request has its turn in this second, counted without wrapping. */
  predicate Turn(m: Request, second: nat)
  {
    (second % UINT32) % Frequency(m) == Remainder(m)
  }

  lemma SentExactly(m: Request, n: nat)
    ensures SentAt(Definition(), m, n) <==> n % TOTAL_SLOTS == SlotOf(m) && Turn(m, n / TOTAL_SLOTS)
  {
    hide RowAt, SentAt, Definition;
    SentByRow(m, n);
    OnlyRow(m, RowOf(m));
    forall i: nat | Fires(RowAt(i), Pass(n)) && RowAt(i).message == m ensures i == RowOf(m) {
      OnlyRow(m, i);
    }
  }

  /** The last time, up to slot `now`, that message `m` was sent is slot `at`. */
  predicate Latest(m: nat, now: nat, at: int)
  {
    0 <= at <= now && SentAt(Definition(), m, at) && forall n :: at < n <= now ==> !SentAt(Definition(), m, n)
  }

  function SampleSlot(second: nat): nat { TOTAL_SLOTS * second + 51 }

  /** Every second, for all time, the sequence processor wakes once, in slot 26, and Limit Checker
      samples once, later, in slot 51. */
  lemma WakesThenSamples(n: nat)
    ensures TimesSent(Definition(), 21, n) == if n % 100 == 26 then 1 else 0
    ensures TimesSent(Definition(), 22, n) == if n % 100 == 51 then 1 else 0
  {
    SentOnce(SC_WAKEUP, n);
    SentOnce(LC_SAMPLE, n);
    hide TimesSent, SentAt, Definition;
    SentExactly(SC_WAKEUP, n);
    SentExactly(LC_SAMPLE, n);
  }

  /** A request is never sent twice in a slot. */
  lemma SentOnce(m: Request, n: nat)
    ensures TimesSent(Definition(), m, n) == if SentAt(Definition(), m, n) then 1 else 0
  {
    var t, slot := Definition(), n % TOTAL_SLOTS;
    hide RowAt, Definition;
    forall i: nat, j: nat | 5 * slot <= i < j < 5 * slot + 5 && j < |t| && Wants(t[i], m) ensures !Wants(t[j], m) {
      OnlyRow(m, i);
      OnlyRow(m, j);
    }
    OneRowSendsOnce(t, slot, Pass(n), ENTRIES_PER_SLOT, m);
  }

  /** The request had no turn after second `last`, up to second `v`. */
  predicate LastTurn(m: Request, v: nat, last: int)
  {
    0 <= last <= v && Turn(m, last) && forall w: nat :: last < w <= v ==> !Turn(m, w)
  }

  lemma LatestFromTurn(m: Request, now: nat, v: nat, last: int)
    requires LastTurn(m, v, last)
    requires TOTAL_SLOTS * v + SlotOf(m) <= now < TOTAL_SLOTS * (v + 1) + SlotOf(m)
    ensures Latest(m, now, TOTAL_SLOTS * last + SlotOf(m))
  {
    hide Turn, SentAt, Definition, SlotOf;
    SlotBound(m);
    var at := TOTAL_SLOTS * last + SlotOf(m);
    assert at % TOTAL_SLOTS == SlotOf(m) && at / TOTAL_SLOTS == last;
    SentExactly(m, at);
    forall n | at < n <= now ensures !SentAt(Definition(), m, n) {
      SentExactly(m, n);
      if n % TOTAL_SLOTS == SlotOf(m) {
        assert n == TOTAL_SLOTS * (n / TOTAL_SLOTS) + SlotOf(m);
        assert last < n / TOTAL_SLOTS <= v;
      }
    }
  }

  lemma SlotBound(m: Request)
    ensures SlotOf(m) < TOTAL_SLOTS
  {
  }

  /** For all time the GPS request behind a sample is exactly 49 slots old. */
  lemma GpsAge(u: nat)
    ensures Latest(GPS_DATA, SampleSlot(u), SampleSlot(u) - 49)
  {
    hide Latest;
    assert LastTurn(GPS_DATA, u, u);
    LatestFromTurn(GPS_DATA, SampleSlot(u), u, u);
  }

  lemma EarlierTurn(m: Request, u: nat, k: nat)
    requires k <= (u % UINT32) % Frequency(m)
    ensures k <= u && ((u - k) % UINT32) % Frequency(m) == (u % UINT32) % Frequency(m) - k
  {
    var p, f := u % UINT32, Frequency(m);
    hide Frequency;
    RemainderBelow(p, f);
    assert p == (p / f) * f + p % f && p <= u;
    PassBefore(u, k);
    RemainderIs(p - k, f, p / f, p % f - k);
  }

  lemma PassBefore(u: nat, k: nat)
    requires k <= u % UINT32
    ensures k <= u && (u - k) % UINT32 == u % UINT32 - k
  {
  }

  /** A row of remainder zero last had its turn as many seconds ago as the pass count leaves. */
  lemma ZeroTurn(m: Request, u: nat)
    requires Remainder(m) == 0
    ensures (u % UINT32) % Frequency(m) < Frequency(m)
    ensures LastTurn(m, u, u - (u % UINT32) % Frequency(m))
  {
    var gap := (u % UINT32) % Frequency(m);
    hide Frequency, Remainder;
    EarlierTurn(m, u, gap);
    forall w: nat | u - gap < w <= u ensures !Turn(m, w) {
      EarlierTurn(m, u, u - w);
    }
  }

  /** For all time the SAMPLE housekeeping request is at most 416 slots old. */
  lemma SampleHkAge(u: nat)
    ensures var gap := (u % UINT32) % 5;
      Latest(SAMPLE_HK, SampleSlot(u), SampleSlot(u) - (100 * gap + 16)) && 100 * gap + 16 <= 416
  {
    hide Latest, LastTurn;
    ZeroTurn(SAMPLE_HK, u);
    LatestFromTurn(SAMPLE_HK, SampleSlot(u), u, u - (u % UINT32) % 5);
  }

  /** For all time the manager's housekeeping request is at most 926 slots old. */
  lemma ManagerHkAge(u: nat)
    ensures var gap := (u % UINT32) % 10;
      Latest(MGR_HK, SampleSlot(u), SampleSlot(u) - (100 * gap + 26)) && 100 * gap + 26 <= 926
  {
    hide Latest, LastTurn;
    ZeroTurn(MGR_HK, u);
    LatestFromTurn(MGR_HK, SampleSlot(u), u, u - (u % UINT32) % 10);
  }

  /** Seconds since the power system's row last had its turn; its turn comes in second 4 of each
      five, and the pass counter wraps to 0 one second after a second 0 of five. */
  function PowerGap(v: nat): nat
    requires v >= 4
  {
    var p := v % UINT32;
    if p >= 4 then (p - 4) % 5 else p + 2
  }

  /** Within the gap only its far end is a turn. */
  lemma PowerTurnAt(v: nat, k: nat)
    requires v >= 4 && k <= PowerGap(v)
    ensures k <= v && (Turn(EPS_HK, v - k) <==> k == PowerGap(v))
  {
    var p := v % UINT32;
    if p >= 4 || k <= p {
      PassBefore(v, k);
    } else {
      assert (v - k) % UINT32 == UINT32 + p - k;
    }
  }

  lemma PowerTurn(v: nat)
    requires v >= 4
    ensures LastTurn(EPS_HK, v, v - PowerGap(v)) && PowerGap(v) <= 5
  {
    var gap := PowerGap(v);
    PowerTurnAt(v, gap);
    hide Turn;
    forall w: nat | v - gap < w <= v ensures !Turn(EPS_HK, w) {
      PowerTurnAt(v, v - w);
    }
  }

  lemma NoPowerYet(u: nat, n: nat)
    requires u < 5 && n <= SampleSlot(u)
    ensures !SentAt(Definition(), EPS_HK, n)
  {
    hide SentAt, Definition;
    SentExactly(EPS_HK, n);
    if n / TOTAL_SLOTS < 4 {
      assert !Turn(EPS_HK, n / TOTAL_SLOTS);
    } else {
      assert n % TOTAL_SLOTS <= 51;
    }
  }

  lemma PowerGapIs(u: nat)
    requires u >= 5
    ensures PowerGap(u - 1) == 5 <==> u % UINT32 == 4
  {
    if u % UINT32 == 0 {
      assert (u - 1) % UINT32 == UINT32 - 1;
    } else {
      assert (u - 1) % UINT32 == u % UINT32 - 1;
    }
  }

  /** After its first request the power system's housekeeping request is at most 496 slots old at
      every sample but one: once the 32-bit pass counter has wrapped, the sample of pass 4 finds it
      596 slots old. Before second 5 there has been no request at all. */
  lemma PowerHkAge(u: nat)
    ensures u < 5 ==> forall n: nat :: n <= SampleSlot(u) ==> !SentAt(Definition(), EPS_HK, n)
    ensures u >= 5 ==>
      var age := 100 * PowerGap(u - 1) + 96;
      && Latest(EPS_HK, SampleSlot(u), SampleSlot(u) - age)
      && (age <= 496 <==> u % UINT32 != 4) && (u % UINT32 == 4 ==> age == 596)
  {
    hide Latest, LastTurn, SentAt, Definition;
    if u < 5 {
      forall n: nat | n <= SampleSlot(u) ensures !SentAt(Definition(), EPS_HK, n) {
        NoPowerYet(u, n);
      }
    } else {
      PowerTurn(u - 1);
      PowerGapIs(u);
      LatestFromTurn(EPS_HK, SampleSlot(u), u - 1, u - 1 - PowerGap(u - 1));
    }
  }

  /** The bounds are reached: in second 9 of every ten. */
  lemma BoundsReached(u: nat)
    requires u % 10 == 9 && u < UINT32
    ensures Latest(SAMPLE_HK, SampleSlot(u), SampleSlot(u) - 416)
    ensures Latest(MGR_HK, SampleSlot(u), SampleSlot(u) - 926)
    ensures Latest(EPS_HK, SampleSlot(u), SampleSlot(u) - 496)
  {
    hide Latest, SampleSlot;
    SampleHkAge(u);
    ManagerHkAge(u);
    PowerHkAge(u);
    NinthSecond(u);
  }

  lemma NinthSecond(u: nat)
    requires u % 10 == 9 && u < UINT32
    ensures (u % UINT32) % 5 == 4 && (u % UINT32) % 10 == 9 && u >= 5 && PowerGap(u - 1) == 4
  {
    var q := u / 10;
    assert u == 5 * (2 * q + 1) + 4 && u - 1 - 4 == 5 * (2 * q) + 4;
  }
}
