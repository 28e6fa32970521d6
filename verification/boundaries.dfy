/** Where the protocol's guarantees end: two actionpoints that fire in the same sample, flown second
    by second. */
module Boundaries {
  import opened LcActionpoint
  import opened LcRegions
  import opened ScienceTables
  import opened PowerChain
  import opened SequenceRuns
  import opened Registers
  import opened StoredCommand
  import opened TimedRuns
  import Battery
  import Watchdogs

  predicate Pair(a: nat, b: nat) { IsTimed(a) && IsTimed(b) && a != b }

  /** The sequences of the pair still in flight `k` seconds after both were started. */
  function PairBegun(a: nat, b: nat, start: nat, k: nat): Begun { Ongoing(map[a := start, b := start], start + k) }

  predicate Writes(n: nat, reg: Register) { WriteAt(n, reg).At? && WriteAt(n, reg).index < Length(n) }

  /** The age at which a sequence writes a register. */
  function WriteAge(n: nat, reg: Register): nat { if Writes(n, reg) then Age(n, WriteAt(n, reg).index) else 0 }

  /** No register is written by both in the same second. */
  ghost predicate Staggered(a: nat, b: nat)
  {
    forall reg :: Writes(a, reg) && Writes(b, reg) ==> WriteAge(a, reg) != WriteAge(b, reg)
  }

  /** What the later of the commands of the first `k` seconds left in a register. */
  function Scheduled(s: State, a: nat, b: nat, reg: Register, k: nat): Value
  {
    Word(Writes(a, reg) && WriteAge(a, reg) < k, WriteAge(a, reg), Written(WriteAt(a, reg)),
         Writes(b, reg) && WriteAge(b, reg) < k, WriteAge(b, reg), Written(WriteAt(b, reg)), Read(s, reg))
  }

  predicate Ours(a: nat, b: nat, reg: Register) { Named(reg) && reg != Ap(a) && reg != Ap(b) }

  /** Where the pair stands `k` seconds after both fired in the sample of second `start`. */
  ghost predicate PairState(c: Craft, s0: State, a: nat, b: nat, start: nat, k: nat)
  {
    && OnSchedule(c, PairBegun(a, b, start, k), start + k)
    && !IsActive(c.s, a) && !IsActive(c.s, b)
    && forall reg :: Ours(a, b, reg) ==> Read(c.s, reg) == Scheduled(s0, a, b, reg, k)
  }

  // ------------------------------------------------------------ a second of the pair

  lemma InPairBegun(a: nat, b: nat, start: nat, k: nat, n: nat)
    requires Pair(a, b)
    ensures n in PairBegun(a, b, start, k) <==> (n == a || n == b) && k <= Total(n)
    ensures n in PairBegun(a, b, start, k) ==> PairBegun(a, b, start, k)[n] == start
  {
    hide SentBefore, Total, Length;
    if n == a || n == b {
      DoneWhenTotal(n, k);
    }
  }

  lemma PairGoesOn(a: nat, b: nat, start: nat, k: nat)
    requires Pair(a, b)
    ensures Ongoing(PairBegun(a, b, start, k), start + k + 1) == PairBegun(a, b, start, k + 1)
  {
    var begun, next := PairBegun(a, b, start, k), PairBegun(a, b, start, k + 1);
    hide PairBegun, SentBefore, Total, Length;
    forall n: nat
      ensures n in Ongoing(begun, start + k + 1) <==> n in next
      ensures n in next ==> n in begun && begun[n] == next[n]
    {
      PairGoesOnAt(a, b, start, k, n);
    }
  }

  lemma PairGoesOnAt(a: nat, b: nat, start: nat, k: nat, n: nat)
    requires Pair(a, b)
    ensures n in Ongoing(PairBegun(a, b, start, k), start + k + 1) <==> n in PairBegun(a, b, start, k + 1)
    ensures n in PairBegun(a, b, start, k + 1) ==>
      n in PairBegun(a, b, start, k) && PairBegun(a, b, start, k)[n] == PairBegun(a, b, start, k + 1)[n]
  {
    hide PairBegun, SentBefore, Total, Length;
    InPairBegun(a, b, start, k, n);
    InPairBegun(a, b, start, k + 1, n);
    if n == a || n == b {
      DoneWhenTotal(n, k + 1);
    }
  }

  /** One of the other timed sequences. */
  function Third(a: nat, b: nat): (n: nat)
    ensures IsTimed(n) && n != a && n != b
  {
    if a != 31 && b != 31 then 31 else if a != 32 && b != 32 then 32 else 34
  }

  lemma PairWrites(a: nat, b: nat, start: nat, k: nat, reg: Register, n: nat)
    requires Pair(a, b)
    ensures WritesNow(PairBegun(a, b, start, k), start + k, n, reg) <==> (n == a || n == b) && Writes(n, reg) && k == WriteAge(n, reg)
  {
    InPairBegun(a, b, start, k, n);
    if (n == a || n == b) && Writes(n, reg) && k == WriteAge(n, reg) && WriteAt(n, reg).index < Length(n) - 1 {
      AgeGrows(n, WriteAt(n, reg).index, Length(n) - 1);
    }
    hide PairBegun, WriteAt, Age;
  }

  lemma ScheduledStep(s: State, a: nat, b: nat, reg: Register, k: nat)
    requires Staggered(a, b)
    ensures Scheduled(s, a, b, reg, k + 1) ==
      if Writes(a, reg) && WriteAge(a, reg) == k then WriteAt(a, reg).v
      else if Writes(b, reg) && WriteAge(b, reg) == k then WriteAt(b, reg).v
      else Scheduled(s, a, b, reg, k)
  {
    hide WriteAt, Age, Length, WriteAge, Read;
  }

  /** A wakeup of the pair writes what the schedule says. */
  lemma PairWakes(c: Craft, a: nat, b: nat, start: nat, k: nat, reg: Register)
    requires Pair(a, b) && Staggered(a, b) && Named(reg) && start + k + 5 < MAX_TIME
    requires OnSchedule(c, PairBegun(a, b, start, k), start + k)
    ensures Sound(c) && OnSchedule(Wakes(c, start + k).c, PairBegun(a, b, start, k + 1), start + k + 1)
    ensures Read(Wakes(c, start + k).c.s, reg) ==
      if Writes(a, reg) && WriteAge(a, reg) == k then WriteAt(a, reg).v
      else if Writes(b, reg) && WriteAge(b, reg) == k then WriteAt(b, reg).v
      else Read(c.s, reg)
  {
    hide OnSchedule, PairBegun, Wakes, Read, WriteAt, WriteAge, Writes, WritesNow, Staggered, Sound, Fresh, Third, Total, Valid;
    var begun, now, idle := PairBegun(a, b, start, k), start + k, Third(a, b);
    ScheduleIsSound(c, begun, now);
    InPairBegun(a, b, start, k, idle);
    WakeKeepsSchedule(c, begun, now, idle);
    PairGoesOn(a, b, start, k);
    NotBoth(a, b, reg);
    var n := if Writes(a, reg) && WriteAge(a, reg) == k then a else b;
    forall m: nat | m != n ensures !WritesNow(begun, now, m, reg) {
      PairWrites(a, b, start, k, reg, m);
    }
    PairWrites(a, b, start, k, reg, n);
    WakeWrites(c, begun, now, idle, reg, n);
  }

  lemma NotBoth(a: nat, b: nat, reg: Register)
    requires Staggered(a, b)
    ensures Writes(a, reg) && Writes(b, reg) ==> WriteAge(a, reg) != WriteAge(b, reg)
  {
  }

  // ------------------------------------------------------------ samples of the pair

  predicate Arms(n: nat, ap: nat) { Writes(n, Ap(ap)) && WriteAt(n, Ap(ap)).v == ApIs(Active) }

  /** While the pair is in flight the telemetry makes no other actionpoint true that is ever armed; and
      one of the pair that the other arms again is true throughout and armed while still in flight. */
  predicate Steady(s: State, a: nat, b: nat, t: Telemetry)
  {
    && Measurable(t)
    && (forall ap: nat :: 25 <= ap <= 36 && ap != a && ap != b && TrueNow(ap, t) ==>
          !IsActive(s, ap) && !Arms(a, ap) && !Arms(b, ap))
    && (Arms(b, a) ==> 25 <= a <= 36 && TrueNow(a, t) && WriteAge(b, Ap(a)) < Total(a))
    && (Arms(a, b) ==> 25 <= b <= 36 && TrueNow(b, t) && WriteAge(a, Ap(b)) < Total(b))
  }

  lemma NeverArmed(s: State, a: nat, b: nat, ap: nat, k: nat)
    requires !IsActive(s, ap) && !Arms(a, ap) && !Arms(b, ap)
    ensures Scheduled(s, a, b, Ap(ap), k) != ApIs(Active)
  {
    ActiveIsRead(s, ap);
    hide Read, WriteAt, WriteAge;
  }

  /** Which actionpoints fire while the pair is in flight: at most one of the pair, armed again and
      rejected. */
  lemma SteadyFires(s: State, s0: State, a: nat, b: nat, k: nat, t: Telemetry, ap: nat)
    requires Pair(a, b) && Steady(s0, a, b, t) && 25 <= ap <= 36
    requires ap != a && ap != b ==> Read(s, Ap(ap)) == Scheduled(s0, a, b, Ap(ap), k + 1)
    requires ap == a || ap == b ==> (IsActive(s, ap) <==> Arms(if ap == a then b else a, ap) && WriteAge(if ap == a then b else a, Ap(ap)) == k)
    ensures IsActive(s, ap) && TrueNow(ap, t) ==> (ap == a || ap == b) && k < Total(ap)
    ensures ap == a || ap == b ==> (IsActive(s, ap) ==> TrueNow(ap, t))
  {
    ActiveIsRead(s, ap);
    if ap != a && ap != b && TrueNow(ap, t) {
      NeverArmed(s0, a, b, ap, k + 1);
    }
    hide TrueNow, Scheduled, WriteAge, WriteAt, Read;
  }

  /** What the wakeup leaves armed. */
  lemma WokenArmed(c: Craft, s0: State, a: nat, b: nat, start: nat, k: nat, ap: nat)
    requires Pair(a, b) && Staggered(a, b) && start + k + 5 < MAX_TIME && PairState(c, s0, a, b, start, k) && 25 <= ap <= 36
    ensures Sound(c)
    ensures var s := Wakes(c, start + k).c.s;
      && (ap != a && ap != b ==> Read(s, Ap(ap)) == Scheduled(s0, a, b, Ap(ap), k + 1))
      && (ap == a || ap == b ==> (IsActive(s, ap) <==> Arms(if ap == a then b else a, ap) && WriteAge(if ap == a then b else a, Ap(ap)) == k))
  {
    PairParts(c, s0, a, b, start, k, Ap(ap));
    hide OnSchedule, PairBegun, Wakes, Read, WriteAge, Staggered, PairState, Sound, Fresh, Scheduled, IsActive, WriteAt;
    PairWakes(c, a, b, start, k, Ap(ap));
    ScheduledStep(s0, a, b, Ap(ap), k);
    ActiveIsRead(c.s, ap);
    ActiveIsRead(Wakes(c, start + k).c.s, ap);
    NoSelfWrite(a);
    NoSelfWrite(b);
  }

  lemma NoSelfWrite(n: nat)
    requires IsTimed(n)
    ensures Writes(n, Ap(n)) ==> WriteAt(n, Ap(n)).v == ApIs(Disabled)
  {
  }

  lemma PairParts(c: Craft, s0: State, a: nat, b: nat, start: nat, k: nat, reg: Register)
    requires PairState(c, s0, a, b, start, k)
    ensures OnSchedule(c, PairBegun(a, b, start, k), start + k) && !IsActive(c.s, a) && !IsActive(c.s, b)
    ensures Ours(a, b, reg) ==> Read(c.s, reg) == Scheduled(s0, a, b, reg, k)
    ensures Sound(c) && Valid(c.s) && Flying(c.s)
  {
    ScheduleIsFlying(c, PairBegun(a, b, start, k), start + k);
  }

  predicate SteadyFired(s: State, a: nat, b: nat, k: nat, t: Telemetry)
    requires Measurable(t) && Pair(a, b)
  {
    (forall ap: nat :: 25 <= ap <= 36 && IsActive(s, ap) && TrueNow(ap, t) ==> (ap == a || ap == b) && k < Total(ap))
    && (IsActive(s, a) ==> TrueNow(a, t)) && (IsActive(s, b) ==> TrueNow(b, t))
  }

  /** A steady sample only drops the pair's own actionpoints to passive again. */
  lemma SteadySample(c: Craft, a: nat, b: nat, start: nat, k: nat, t: Telemetry)
    requires Pair(a, b) && Measurable(t) && start + k + 5 < MAX_TIME
    requires OnSchedule(c, PairBegun(a, b, start, k + 1), start + k + 1) && SteadyFired(c.s, a, b, k, t)
    ensures Sound(c)
    ensures var c' := Samples(c, t, start + k, 25).c;
      && OnSchedule(c', PairBegun(a, b, start, k + 1), start + k + 1) && !IsActive(c'.s, a) && !IsActive(c'.s, b)
      && forall reg :: Ours(a, b, reg) ==> Read(c'.s, reg) == Read(c.s, reg)
  {
    hide OnSchedule, PairBegun, Samples, TrueNow, Total, Starting, SampleRuns, Sound;
    ScheduleIsSound(c, PairBegun(a, b, start, k + 1), start + k + 1);
    SampleEffect(c, t, PairBegun(a, b, start, k + 1), start + k, 25);
    NothingStarts(c.s, a, b, start, k, t);
    var c' := Samples(c, t, start + k, 25).c;
    SteadyLeaves(c.s, a, b, k, t, c'.s);
  }

  lemma NothingStarts(s: State, a: nat, b: nat, start: nat, k: nat, t: Telemetry)
    requires Pair(a, b) && Measurable(t) && SteadyFired(s, a, b, k, t)
    ensures Starting(PairBegun(a, b, start, k + 1), s, t, start + k, 25) == PairBegun(a, b, start, k + 1)
  {
    hide PairBegun, TrueNow, Total;
    var begun := PairBegun(a, b, start, k + 1);
    forall n: nat | IsTimed(n) && Fires(s, t, n) ensures n in begun {
      InPairBegun(a, b, start, k + 1, n);
    }
  }

  lemma SteadyLeaves(s: State, a: nat, b: nat, k: nat, t: Telemetry, s': State)
    requires Pair(a, b) && Measurable(t) && SteadyFired(s, a, b, k, t) && SampledAps(s, t, 25, s')
    ensures !IsActive(s', a) && !IsActive(s', b)
    ensures forall reg :: Ours(a, b, reg) ==> Read(s', reg) == Read(s, reg)
  {
    hide TrueNow, Total;
    forall reg | Ours(a, b, reg) ensures Read(s', reg) == Read(s, reg) {
      if reg.Ap? && IsTimed(reg.ap) {
        assert !Fires(s, t, reg.ap);
      }
    }
  }

  /** A second of the pair. */
  lemma PairSecond(c: Craft, s0: State, a: nat, b: nat, start: nat, k: nat, t: Telemetry)
    requires Pair(a, b) && Staggered(a, b) && start + k + 5 < MAX_TIME && PairState(c, s0, a, b, start, k) && Steady(s0, a, b, t)
    ensures Sound(c) && PairState(Second(c, t, start + k).c, s0, a, b, start, k + 1)
  {
    hide OnSchedule, PairBegun, Wakes, Samples, Staggered, PairState, Sound, Fresh, Scheduled, IsActive, Read, Steady, TrueNow, Total, WriteAge, Ours, Arms, Flying, Valid;
    PairParts(c, s0, a, b, start, k, AdcsState);
    var woken := Wakes(c, start + k).c;
    PairWakes(c, a, b, start, k, AdcsState);
    SteadyMeasurable(s0, a, b, t);
    forall ap: nat | 25 <= ap <= 36
      ensures IsActive(woken.s, ap) && TrueNow(ap, t) ==> (ap == a || ap == b) && k < Total(ap)
      ensures ap == a || ap == b ==> (IsActive(woken.s, ap) ==> TrueNow(ap, t))
    {
      WokenArmed(c, s0, a, b, start, k, ap);
      SteadyFires(woken.s, s0, a, b, k, t, ap);
    }
    SteadySample(woken, a, b, start, k, t);
    var c' := Samples(woken, t, start + k, 25).c;
    forall reg | Ours(a, b, reg) ensures Read(c'.s, reg) == Scheduled(s0, a, b, reg, k + 1) {
      OursIsNamed(a, b, reg);
      PairParts(c, s0, a, b, start, k, reg);
      PairWakes(c, a, b, start, k, reg);
      ScheduledStep(s0, a, b, reg, k);
    }
    BuildPair(c', s0, a, b, start, k + 1);
  }

  lemma OursIsNamed(a: nat, b: nat, reg: Register)
    requires Ours(a, b, reg)
    ensures Named(reg)
  {
  }

  lemma SteadyMeasurable(s: State, a: nat, b: nat, t: Telemetry)
    requires Steady(s, a, b, t)
    ensures Measurable(t)
  {
  }

  lemma BuildPair(c: Craft, s0: State, a: nat, b: nat, start: nat, k: nat)
    requires OnSchedule(c, PairBegun(a, b, start, k), start + k) && !IsActive(c.s, a) && !IsActive(c.s, b)
    requires forall reg :: Ours(a, b, reg) ==> Read(c.s, reg) == Scheduled(s0, a, b, reg, k)
    ensures PairState(c, s0, a, b, start, k)
  {
  }

  // ------------------------------------------------------------ the sample that starts them

  /** In this sample exactly the pair is armed and true. */
  predicate BothFire(s: State, a: nat, b: nat, t: Telemetry)
  {
    Measurable(t) && forall ap: nat :: 25 <= ap <= 36 ==> (IsActive(s, ap) && TrueNow(ap, t) <==> ap == a || ap == b)
  }

  lemma IdleWake(c: Craft, start: nat, reg: Register)
    requires OnSchedule(c, map[], start) && start + 5 < MAX_TIME && Named(reg)
    ensures Sound(c) && OnSchedule(Wakes(c, start).c, map[], start + 1) && Read(Wakes(c, start).c.s, reg) == Read(c.s, reg)
  {
    hide OnSchedule, Wakes, Read, WriteAt, Sound, Fresh, Valid;
    ScheduleIsSound(c, map[], start);
    WakeKeepsSchedule(c, map[], start, 31);
    var none: Begun := map[];
    assert Ongoing(none, start + 1) == none;
    WakeWrites(c, none, start, 31, reg, 31);
  }

  lemma PairStarts(c: Craft, a: nat, b: nat, start: nat, t: Telemetry)
    requires Pair(a, b) && OnSchedule(c, map[], start) && start + 5 < MAX_TIME && BothFire(c.s, a, b, t)
    ensures Sound(c) && PairState(Second(c, t, start).c, c.s, a, b, start, 1)
  {
    hide OnSchedule, Wakes, Samples, Sound, Fresh, Valid, Scheduled, TrueNow, Flying, SampleRuns, Starting, Ours;
    IdleWake(c, start, AdcsState);
    var woken := Wakes(c, start).c;
    forall ap: nat | 25 <= ap <= 36 ensures IsActive(woken.s, ap) <==> IsActive(c.s, ap) {
      IdleWake(c, start, Ap(ap));
      ActiveIsRead(c.s, ap);
      ActiveIsRead(woken.s, ap);
    }
    hide Read;
    SampleEffect(woken, t, map[], start, 25);
    var c' := Samples(woken, t, start, 25).c;
    PairStarting(woken.s, a, b, start, t);
    PairFired(woken.s, a, b, t, c'.s);
    forall reg | Ours(a, b, reg) ensures Read(c'.s, reg) == Scheduled(c.s, a, b, reg, 1) {
      OursIsNamed(a, b, reg);
      IdleWake(c, start, reg);
      NothingScheduled(c.s, a, b, reg);
    }
    BuildPair(c', c.s, a, b, start, 1);
  }

  lemma NothingScheduled(s: State, a: nat, b: nat, reg: Register)
    ensures Scheduled(s, a, b, reg, 1) == Read(s, reg)
  {
    hide WriteAt, Read;
  }

  lemma PairStarting(s: State, a: nat, b: nat, start: nat, t: Telemetry)
    requires Pair(a, b) && BothFire(s, a, b, t)
    ensures Starting(map[], s, t, start, 25) == PairBegun(a, b, start, 1)
  {
    hide TrueNow, PairBegun;
    var begun := Starting(map[], s, t, start, 25);
    Totals(a);
    Totals(b);
    hide Total;
    forall n: nat
      ensures n in begun <==> n in PairBegun(a, b, start, 1)
      ensures n in begun ==> begun[n] == PairBegun(a, b, start, 1)[n]
    {
      InPairBegun(a, b, start, 1, n);
    }
  }

  lemma PairFired(s: State, a: nat, b: nat, t: Telemetry, s': State)
    requires Pair(a, b) && BothFire(s, a, b, t) && SampledAps(s, t, 25, s')
    ensures !IsActive(s', a) && !IsActive(s', b)
    ensures forall reg :: Ours(a, b, reg) ==> Read(s', reg) == Read(s, reg)
  {
    hide TrueNow;
    forall reg | Ours(a, b, reg) ensures Read(s', reg) == Read(s, reg) {
      if reg.Ap? && IsTimed(reg.ap) {
        assert !Fires(s, t, reg.ap);
      }
    }
  }

  // ------------------------------------------------------------ the flight of the pair

  predicate SteadyFlight(s: State, a: nat, b: nat, ts: seq<Telemetry>)
  {
    AllMeasurable(ts) && ts != [] && BothFire(s, a, b, ts[0]) && forall j :: 1 <= j < |ts| ==> Steady(s, a, b, ts[j])
  }

  lemma {:induction false} PairFlies(c: Craft, ts: seq<Telemetry>, start: nat, a: nat, b: nat, k: nat)
    requires Pair(a, b) && Staggered(a, b) && OnSchedule(c, map[], start) && SteadyFlight(c.s, a, b, ts)
    requires 1 <= k <= |ts| && start + |ts| + 5 < MAX_TIME
    ensures Sound(c) && PairState(Flight(c, ts, start, k).c, c.s, a, b, start, k)
  {
    hide OnSchedule, PairState, Second, Staggered, Steady, BothFire, Sound, SteadyFlight, Measurable, AllMeasurable, Fresh, Valid;
    ScheduleIsSound(c, map[], start);
    SteadyParts(c.s, a, b, ts, k - 1);
    FlightGoesOn(c, ts, start, k - 1);
    if k == 1 {
      PairStarts(c, a, b, start, ts[0]);
      assert Flight(c, ts, start, 0).c == c;
    } else {
      PairFlies(c, ts, start, a, b, k - 1);
      PairSecond(Flight(c, ts, start, k - 1).c, c.s, a, b, start, k - 1, ts[k - 1]);
    }
  }

  lemma SteadyParts(s: State, a: nat, b: nat, ts: seq<Telemetry>, j: nat)
    requires SteadyFlight(s, a, b, ts) && j < |ts|
    ensures AllMeasurable(ts) && Measurable(ts[j]) && BothFire(s, a, b, ts[0]) && (j >= 1 ==> Steady(s, a, b, ts[j]))
  {
  }

  /** Once both are done, every register except the pair's own two actionpoints holds what the later
      of their commands for it put there, or what it held when they fired; provided the two write no
      register in the same second, and the telemetry fires nothing else meanwhile. */
  lemma PairSettles(c: Craft, ts: seq<Telemetry>, start: nat, a: nat, b: nat, reg: Register)
    requires Pair(a, b) && Staggered(a, b) && OnSchedule(c, map[], start) && SteadyFlight(c.s, a, b, ts)
    requires |ts| > Total(a) && |ts| > Total(b) && start + |ts| + 5 < MAX_TIME && Ours(a, b, reg)
    ensures Sound(c)
    ensures var s := Flight(c, ts, start, |ts|).c.s;
      s.run == map[] && Read(s, reg) ==
      Word(Writes(a, reg), WriteAge(a, reg), Written(WriteAt(a, reg)),
           Writes(b, reg), WriteAge(b, reg), Written(WriteAt(b, reg)), Read(c.s, reg))
  {
    hide OnSchedule, PairState, Flight, Staggered, SteadyFlight, PairBegun, Read, WriteAt, Total, Sound, Fresh, Valid, Flying, Writes, WriteAge, Written, Ours;
    SteadyParts(c.s, a, b, ts, 0);
    PairFlies(c, ts, start, a, b, |ts|);
    var c', k := Flight(c, ts, start, |ts|).c, |ts|;
    PairParts(c', c.s, a, b, start, k, reg);
    WrittenInTime(a, reg);
    WrittenInTime(b, reg);
    PairDone(a, b, start, k);
    BegunKeys(c', PairBegun(a, b, start, k), start + k);
    assert c'.s.run.Keys == {};
  }

  lemma PairDone(a: nat, b: nat, start: nat, k: nat)
    requires Pair(a, b) && k > Total(a) && k > Total(b)
    ensures PairBegun(a, b, start, k) == map[]
  {
    hide PairBegun, Total;
    forall n ensures n !in PairBegun(a, b, start, k) {
      InPairBegun(a, b, start, k, n);
    }
  }

  lemma WrittenInTime(n: nat, reg: Register)
    requires IsTimed(n)
    ensures WriteAge(n, reg) <= Total(n)
  {
    if Writes(n, reg) && WriteAt(n, reg).index < Length(n) - 1 {
      AgeGrows(n, WriteAt(n, reg).index, Length(n) - 1);
    }
    hide WriteAt, Age;
  }

  // ------------------------------------------------------------ three pairs

  lemma TrueMeans(ap: nat, t: Telemetry)
    requires 25 <= ap <= 36 && Measurable(t)
    ensures TrueNow(ap, t) <==> Holds(ap, t)
  {
    EquationMeans(ap, t);
  }

  lemma WhatIsArmed(n: nat, ap: nat)
    requires n == 27 || n == 28 || n == 29 || n == 30 || n == 33
    ensures Arms(n, ap) <==>
      (n == 27 && ap == 28) || (n == 28 && (ap == 27 || 29 <= ap <= 32)) || (n == 29 && ap == 26)
      || (n == 30 && ap == 33) || (n == 33 && ap == 30)
  {
  }

  lemma LowPowerIsStaggered()
    ensures Staggered(27, 33) && Staggered(27, 30) && Staggered(29, 28)
  {
  }

  /** Science mode, outside every region or over AK, with the battery low. */
  predicate Failing(t: Telemetry, p: Position)
  {
    Measurable(t) && t.mode == SCIENCE_MODE && t.volts < 24240 && t.deviceStatus == 0 && PositionOf(t) == p
  }

  /** The instrument works over AK, watched by low power, the exit and the leave of AK alone. */
  predicate OverAk(s: State)
  {
    IsActive(s, 27) && IsActive(s, 33) && !IsActive(s, 26) && !IsActive(s, 28) && !IsActive(s, 30) && !IsActive(s, 34) && !IsActive(s, 35)
  }

  /** Low power in the very second in which AK is left always ends, 19 seconds and more later, with
      recharged and the enter of AK armed at once, which one firing at a time never allows. */
  lemma LowPowerWhileLeaving(c: Craft, ts: seq<Telemetry>, start: nat)
    requires OnSchedule(c, map[], start) && OverAk(c.s) && |ts| >= 19 && start + |ts| + 5 < MAX_TIME
    requires forall j :: 0 <= j < |ts| ==> Failing(ts[j], Outside)
    ensures Sound(c) && AllMeasurable(ts)
    ensures var s := Flight(c, ts, start, |ts|).c.s;
      s.run == map[] && IsActive(s, 28) && IsActive(s, 30) && !Watchdogs.Guarded(s)
  {
    hide OnSchedule, Flight, Staggered, PositionOf, TrueNow, Sound, IsActive;
    LowPowerIsStaggered();
    FailingFlight(c.s, ts, 33, Outside);
    Totals(27);
    Totals(33);
    PairSettles(c, ts, start, 27, 33, Ap(28));
    PairSettles(c, ts, start, 27, 33, Ap(30));
    var s := Flight(c, ts, start, |ts|).c.s;
    ActiveIsRead(s, 28);
    ActiveIsRead(s, 30);
    hide Read;
    BothArmed(s);
  }

  lemma BothArmed(s: State)
    requires IsActive(s, 28) && IsActive(s, 30)
    ensures !Watchdogs.Guarded(s)
  {
    assert 28 in Watchdogs.Armed(s) && 30 in Watchdogs.Armed(s);
  }

  lemma FailingFlight(s: State, ts: seq<Telemetry>, b: nat, p: Position)
    requires ts != [] && forall j :: 0 <= j < |ts| ==> Failing(ts[j], p)
    requires (b == 33 && p == Outside && OverAk(s)) || (b == 30 && p == Over(0) && BeforeAk(s))
    ensures SteadyFlight(s, 27, b, ts)
  {
    hide PositionOf, TrueNow, IsActive, WriteAt, Total;
    forall j | 0 <= j < |ts| ensures Measurable(ts[j]) && BothFire(s, 27, b, ts[j]) && Steady(s, 27, b, ts[j]) {
      var t := ts[j];
      assert Failing(t, p);
      forall ap: nat | 25 <= ap <= 36
        ensures TrueNow(ap, t) <==> ap == 26 || ap == 27 || ap == b || ap == 34 || ap == 35
        ensures Arms(27, ap) ==> ap == 28
        ensures Arms(b, ap) ==> ap == 30 || ap == 33
        ensures Arms(b, ap) ==> ap != b
      {
        TrueMeans(ap, t);
        WhatIsArmed(27, ap);
        WhatIsArmed(b, ap);
      }
      hide Arms, Failing;
    }
  }

  /** AK is about to be entered. */
  predicate BeforeAk(s: State)
  {
    IsActive(s, 27) && IsActive(s, 30) && !IsActive(s, 26) && !IsActive(s, 28) && !IsActive(s, 33) && !IsActive(s, 34) && !IsActive(s, 35)
  }

  lemma LowPowerAges()
    ensures forall reg: Register :: !reg.Ap? ==>
      Writes(27, reg) && WriteAt(27, reg).v == OffValue(reg) && WriteAge(27, reg) == (if DeviceRank(reg) < 2 then 8 else 12) + DeviceRank(reg)
    ensures forall reg: Register :: !reg.Ap? ==>
      Writes(30, reg) && WriteAt(30, reg).v == OnValue(reg)
      && WriteAge(30, reg) == if DeviceRank(reg) < 2 then 16 - DeviceRank(reg) else if DeviceRank(reg) == 2 then 9 else 7 - DeviceRank(reg)
  {
  }

  /** The later of low power and enter wins the instrument for the enter, the rest for low power. */
  lemma OvertakenValue(c: Craft, ts: seq<Telemetry>, start: nat, reg: Register)
    requires OnSchedule(c, map[], start) && BeforeAk(c.s) && |ts| >= 19 && start + |ts| + 5 < MAX_TIME
    requires (forall j :: 0 <= j < |ts| ==> Failing(ts[j], Over(0))) && !reg.Ap?
    ensures Sound(c) && AllMeasurable(ts)
    ensures Read(Flight(c, ts, start, |ts|).c.s, reg) == if DeviceRank(reg) < 2 then OnValue(reg) else OffValue(reg)
  {
    hide OnSchedule, Flight, Staggered, PositionOf, TrueNow, Sound, IsActive;
    LowPowerIsStaggered();
    FailingFlight(c.s, ts, 30, Over(0));
    Totals(27);
    Totals(30);
    LowPowerAges();
    PairSettles(c, ts, start, 27, 30, reg);
    hide Read, WriteAt, Writes, WriteAge;
  }

  /** The chain's premise is needed: low power in the very second in which AK is entered always ends
      with the instrument on while the spacecraft is sun-safe and its star tracker off. */
  lemma LowPowerWhileEntering(c: Craft, ts: seq<Telemetry>, start: nat)
    requires OnSchedule(c, map[], start) && BeforeAk(c.s) && |ts| >= 19 && start + |ts| + 5 < MAX_TIME
    requires forall j :: 0 <= j < |ts| ==> Failing(ts[j], Over(0))
    ensures Sound(c) && AllMeasurable(ts)
    ensures var hw := Flight(c, ts, start, |ts|).c.s.hw;
      hw == Hardware(true, true, SunSafe, false, false) && !Chain(hw)
  {
    hide OnSchedule, Flight, Failing, BeforeAk, Sound, AllMeasurable;
    OvertakenValue(c, ts, start, InstrumentAppState);
    OvertakenValue(c, ts, start, InstrumentSwitchState);
    OvertakenValue(c, ts, start, AdcsState);
    OvertakenValue(c, ts, start, TrackerAppState);
    OvertakenValue(c, ts, start, TrackerSwitchState);
  }

  /** Safe mode, outside every region, with the battery full. */
  predicate SafeAndFull(t: Telemetry)
  {
    Measurable(t) && t.mode == SAFE_MODE && t.volts > 24960 && PositionOf(t) == Outside
  }

  /** Recharging: recharged and the exit are armed, no region is. */
  predicate Recharging(s: State)
  {
    IsActive(s, 28) && IsActive(s, 29) && forall a :: 30 <= a <= 35 ==> !IsActive(s, a)
  }

  lemma SafeFlight(s: State, ts: seq<Telemetry>)
    requires ts != [] && (forall j :: 0 <= j < |ts| ==> SafeAndFull(ts[j])) && Recharging(s)
    ensures SteadyFlight(s, 29, 28, ts)
  {
    Totals(29);
    assert WriteAge(28, Ap(29)) == 9;
    hide PositionOf, TrueNow, IsActive, WriteAt, Total, WriteAge;
    forall j | 0 <= j < |ts| ensures Measurable(ts[j]) && BothFire(s, 29, 28, ts[j]) && Steady(s, 29, 28, ts[j]) {
      var t := ts[j];
      assert SafeAndFull(t);
      forall ap: nat | 25 <= ap <= 36
        ensures TrueNow(ap, t) <==> ap == 28 || ap == 29 || 33 <= ap <= 35
        ensures Arms(29, ap) ==> ap == 26
        ensures Arms(28, ap) ==> ap == 27 || 29 <= ap <= 32
      {
        TrueMeans(ap, t);
        WhatIsArmed(28, ap);
        WhatIsArmed(29, ap);
      }
      hide Arms, SafeAndFull;
    }
  }

  /** Safe mode commanded in the very second in which the battery is full always ends, 23 seconds and
      more later, with the entry armed and the three enters armed beside it. The exit, which the
      recharged sequence arms again meanwhile, fires once more and is rejected. */
  lemma ExitWhileRecharging(c: Craft, ts: seq<Telemetry>, start: nat)
    requires OnSchedule(c, map[], start) && Recharging(c.s) && |ts| >= 23 && start + |ts| + 5 < MAX_TIME
    requires forall j :: 0 <= j < |ts| ==> SafeAndFull(ts[j])
    ensures Sound(c) && AllMeasurable(ts)
    ensures var s := Flight(c, ts, start, |ts|).c.s;
      s.run == map[] && IsActive(s, 26) && IsActive(s, 30) && IsActive(s, 31) && IsActive(s, 32) && !Watchdogs.Guarded(s)
  {
    hide OnSchedule, Flight, Staggered, PositionOf, TrueNow, Sound, IsActive, SafeAndFull;
    LowPowerIsStaggered();
    SafeFlight(c.s, ts);
    Totals(28);
    Totals(29);
    PairSettles(c, ts, start, 29, 28, Ap(26));
    var s := Flight(c, ts, start, |ts|).c.s;
    ActiveIsRead(s, 26);
    forall a: nat | 30 <= a <= 32 ensures IsActive(s, a) {
      PairSettles(c, ts, start, 29, 28, Ap(a));
      ActiveIsRead(s, a);
      RearmedLate(a);
    }
    hide Read;
    EntryBesideEnter(s);
  }

  lemma RearmedLate(a: nat)
    requires 30 <= a <= 32
    ensures Writes(28, Ap(a)) && WriteAt(28, Ap(a)).v == ApIs(Active) && WriteAge(28, Ap(a)) > WriteAge(29, Ap(a))
  {
  }

  lemma EntryBesideEnter(s: State)
    requires IsActive(s, 26) && IsActive(s, 30)
    ensures !Watchdogs.Guarded(s)
  {
    assert 26 in Watchdogs.Armed(s) && 30 in Watchdogs.Armed(s);
  }

  // ------------------------------------------------------------ where the three are reached

  /** A completed entry, all sequences idle, is about to enter AK; ... */
  lemma EntryIsBeforeAk(s: State, start: nat)
    requires Valid(s) && Quiescent(s) && Watchdogs.EntryConfiguration(s)
    ensures BeforeAk(s) && OnSchedule(Craft(s, IdleTable(), Nothing), map[], start)
  {
    EntryArms(s);
    IdleOnSchedule(s, start);
    hide OnSchedule, IsActive, Quiescent, Watchdogs.EntryConfiguration;
  }

  lemma EntryArms(s: State)
    requires Quiescent(s) && Watchdogs.EntryConfiguration(s)
    ensures forall a: nat :: 26 <= a <= 36 ==> (IsActive(s, a) <==> a == 27 || 29 <= a <= 32 || a == 36)
  {
    forall a: nat | 26 <= a <= 36 ensures IsActive(s, a) <==> a == 27 || 29 <= a <= 32 || a == 36 {
      assert a in Numbers(25, 36);
    }
  }

  lemma RoundArms(s: State, n: nat, a: nat)
    requires Valid(s) && Quiescent(s) && 25 <= n <= 36 && n != 36 && IsActive(s, n) && 25 <= a <= 36
    ensures Legal(s, Round(n))
    ensures var s' := Final(s, Round(n));
      && Valid(s') && Quiescent(s')
      && (IsActive(s', a) <==> if Sets(n, a).Set? then Sets(n, a).state == Active else a != n && IsActive(s, a))
  {
    hide Legal, Final, Round, Sets;
    assert a in Numbers(25, 36);
    RoundEffect(s, n);
  }

  /** ... the enter sequence of AK, run to completion, has the instrument work over AK; ... */
  lemma OverAkIsReached(s: State, start: nat)
    requires Valid(s) && Quiescent(s) && Watchdogs.EntryConfiguration(s)
    ensures Legal(s, Round(30))
    ensures var s' := Final(s, Round(30)); OverAk(s') && OnSchedule(Craft(s', IdleTable(), Nothing), map[], start)
  {
    hide Legal, Final, Round, OnSchedule, IsActive, Quiescent, Valid, Watchdogs.EntryConfiguration;
    EntryArms(s);
    RoundArms(s, 30, 26);
    var s' := Final(s, Round(30));
    forall a: nat | 26 <= a <= 35 ensures IsActive(s', a) <==> a == 27 || a == 29 || 31 <= a <= 33 {
      RoundArms(s, 30, a);
    }
    IdleOnSchedule(s', start);
  }

  /** ... and low power, run to completion, has the battery recharge. */
  lemma RechargingIsReached(s: State, start: nat)
    requires Valid(s) && Quiescent(s) && Watchdogs.EntryConfiguration(s)
    ensures Legal(s, Round(27))
    ensures var s' := Final(s, Round(27)); Recharging(s') && OnSchedule(Craft(s', IdleTable(), Nothing), map[], start)
  {
    hide Legal, Final, Round, OnSchedule, IsActive, Quiescent, Valid, Watchdogs.EntryConfiguration;
    EntryArms(s);
    RoundArms(s, 27, 28);
    var s' := Final(s, Round(27));
    forall a: nat | 28 <= a <= 35 ensures IsActive(s', a) <==> a == 28 || a == 29 {
      RoundArms(s, 27, a);
    }
    IdleOnSchedule(s', start);
  }

  // ------------------------------------------------------------ without the clock

  /** A run that holds the recharged sequence still before its last commands: low power, recharged up
      to where it arms low power again, low power once more, and recharged. */
  function LossRun(): seq<Event>
  {
    Round(27) + ([Fire(28)] + (Execs(28, 8) + ([Fire(27)] + (Execs(27, 14) + [Fire(28)]))))
  }

  lemma FireIs(s: State, n: nat)
    requires Valid(s) && s.up && IsActive(s, n) && (n == 27 || n == 28) && n in s.enabled
    ensures Legal(s, [Fire(n)])
    ensures Final(s, [Fire(n)]) == s.(ap := s.ap[n := Passive], run := if n in s.run then s.run else s.run[n := 0])
  {
    assert Enabled(s, Fire(n));
    RunUnfolds(s, [Fire(n)]);
  }

  lemma CountedKeepsUp(s: State, n: nat, k: nat, m: nat)
    requires (n == 27 || n == 28) && k <= m <= Length(n)
    ensures Effect(s, n, k, m).up == s.up
    decreases m - k
  {
    if k < m {
      TimedCommands(n, k);
      ApplyOnRest(s, CommandAt(n, k));
      CountedKeepsUp(Apply(s, CommandAt(n, k)), n, k + 1, m);
    }
  }

  lemma LossFirstRuns(s: State, k: nat)
    requires Valid(s) && s.up && s.run == map[28 := 0] && k == 8
    ensures k <= Length(28) && Legal(s, Execs(28, k))
    ensures Final(s, Execs(28, k)) == Effect(s, 28, 0, k).(run := map[28 := k])
  {
    hide Effect, Legal, Final, Execs, Valid;
    AloneRuns(s, 28, k);
    assert MovedTo(s.run, 28, k) == map[28 := k];
  }

  /** Recharged has sent its first eight commands, and low power is armed again. */
  lemma LossFirst(s: State, s': State)
    requires s.up && InService(s) && s' == Effect(s, 28, 0, 8).(run := map[28 := 8])
    ensures s'.up && IsActive(s', 27) && !IsActive(s', 28) && s.enabled <= s'.enabled && CanSet(s', 28)
  {
    ServiceObeys(s, 27);
    ServiceObeys(s, 28);
    hide Effect, InService;
    CountedKeepsUp(s, 28, 0, 8);
    EffectPartOnAp(s, 28, 0, 8, 27);
    EffectPartOnAp(s, 28, 0, 8, 28);
  }

  lemma LossSecond(s: State)
    requires Valid(s) && s.up && s.run == map[28 := 8, 27 := 0] && CanSet(s, 28) && CanSet(s, 27) && !IsActive(s, 27)
    ensures Legal(s, Execs(27, 14))
    ensures var s' := Final(s, Execs(27, 14));
      s'.up && s'.run == map[28 := 8] && IsActive(s', 28) && !IsActive(s', 27) && s.enabled <= s'.enabled
  {
    hide Effect, Legal, Final, Execs, Valid;
    AloneRuns(s, 27, 14);
    CountedKeepsUp(s, 27, 0, 14);
    EffectPartOnAp(s, 27, 0, 14, 28);
    EffectPartOnAp(s, 27, 0, 14, 27);
    assert MovedTo(s.run, 27, 14) == map[28 := 8];
  }

  /** Without the time tags the battery watch can be lost, from any completed science entry: the one
      kind of step that loses it is reached. */
  lemma UntimedLoss(s: State)
    requires Valid(s) && Quiescent(s) && Watchdogs.EntryConfiguration(s)
    ensures Legal(s, LossRun()) && !Battery.BatteryWatched(Final(s, LossRun()))
  {
    EntryThenLowPower(s);
    hide Legal, Final, Execs, Round, Numbers, RoundLeaves, Quiescent, InService, Watchdogs.EntryConfiguration, Valid, Battery.BatteryWatched;
    var s1 := Final(s, Round(27));
    LossGoesOn(s1);
    RunsCompose(s, Round(27), LossTail());
  }

  function LossTail(): seq<Event> { [Fire(28)] + (Execs(28, 8) + ([Fire(27)] + (Execs(27, 14) + [Fire(28)]))) }

  lemma ServiceObeys(s: State, n: nat)
    requires InService(s) && 25 <= n <= 36
    ensures CanSet(s, n) && n in s.enabled
  {
    assert n in Numbers(25, 36);
  }

  lemma EntryThenLowPower(s: State)
    requires Valid(s) && Quiescent(s) && Watchdogs.EntryConfiguration(s)
    ensures Legal(s, Round(27))
    ensures var s1 := Final(s, Round(27)); Quiescent(s1) && IsActive(s1, 28) && !IsActive(s1, 27)
  {
    assert 27 in Numbers(25, 36) && 28 in Numbers(25, 36);
    RoundEffect(s, 27);
    hide Legal, Final, Round;
  }

  lemma LossGoesOn(s1: State)
    requires Valid(s1) && Quiescent(s1) && IsActive(s1, 28) && !IsActive(s1, 27)
    ensures Legal(s1, LossTail()) && !Battery.BatteryWatched(Final(s1, LossTail()))
  {
    ServiceObeys(s1, 27);
    ServiceObeys(s1, 28);
    assert s1.run == map[] && s1.up;
    hide Legal, Final, Execs, Quiescent, InService, Valid;
    FireIs(s1, 28);
    var s2 := Final(s1, [Fire(28)]);
    FiredInService(s1, s2);
    LossFirstRuns(s2, 8);
    var s3 := Final(s2, Execs(28, 8));
    LossFirst(s2, s3);
    LossEnds(s3);
    RunsCompose(s2, Execs(28, 8), [Fire(27)] + (Execs(27, 14) + [Fire(28)]));
    RunsCompose(s1, [Fire(28)], Execs(28, 8) + ([Fire(27)] + (Execs(27, 14) + [Fire(28)])));
  }

  lemma LossEnds(s3: State)
    requires Valid(s3) && s3.up && s3.run == map[28 := 8] && IsActive(s3, 27) && !IsActive(s3, 28) && CanSet(s3, 28)
    requires 27 in s3.enabled && 28 in s3.enabled
    ensures var es := [Fire(27)] + (Execs(27, 14) + [Fire(28)]); Legal(s3, es) && !Battery.BatteryWatched(Final(s3, es))
  {
    hide Legal, Final, Execs, Valid;
    FireIs(s3, 27);
    var s4 := Final(s3, [Fire(27)]);
    assert s4.run == map[28 := 8, 27 := 0];
    LossSecond(s4);
    var s5 := Final(s4, Execs(27, 14));
    FireIs(s5, 28);
    RunsCompose(s4, Execs(27, 14), [Fire(28)]);
    RunsCompose(s3, [Fire(27)], Execs(27, 14) + [Fire(28)]);
  }

  lemma FiredInService(s: State, s': State)
    requires Quiescent(s) && 28 in s.ap && s' == s.(ap := s.ap[28 := Passive], run := if 28 in s.run then s.run else s.run[28 := 0])
    ensures InService(s') && s'.up && s'.run == map[28 := 0]
  {
  }
}
