/** A power-down that sets in while a region is being entered: from which second on it no longer
    overtakes the enter sequence. */
module Overtaking {
  import opened LcRpn
  import opened LcActionpoint
  import opened LcRegions
  import opened ScienceTables
  import opened PowerChain
  import opened Registers
  import opened StoredCommand
  import opened TimedRuns
  import opened TimedRegions
  import opened Ties
  import opened RegionHops

  /** The two mode transitions that power everything down: low power and the exit. */
  predicate PowersDown(n: nat) { n == 27 || n == 29 }

  /** The age at which each begins its descent, and at which it ends it. */
  function FirstOff(n: nat): nat { if n == 27 then 8 else 11 }

  function LastOff(n: nat): nat { if n == 27 then 16 else 19 }

  /** Over region r, and the battery low in science mode, or safe mode commanded with it charged. */
  predicate Calls(n: nat, r: nat, t: Telemetry)
  {
    && Measurable(t) && PositionOf(t) == Over(r) && t.deviceStatus == 0
    && if n == 27 then t.mode == SCIENCE_MODE && t.volts < 24240 else t.mode == SAFE_MODE && t.volts >= 24240
  }

  /** Actionpoints that may be true meanwhile, but are not armed. */
  predicate Hushed(n: nat, r: nat, ap: nat)
  {
    ap == 30 + r || (33 <= ap <= 35 && ap != 33 + r) || ap == if n == 27 then 26 else 28
  }

  lemma CallsTrue(n: nat, r: nat, t: Telemetry, ap: nat)
    requires PowersDown(n) && r < 3 && Calls(n, r, t) && 25 <= ap <= 36
    ensures TrueNow(ap, t) ==> ap == n || Hushed(n, r, ap)
    ensures TrueNow(n, t)
  {
    EquationMeans(ap, t);
    EquationMeans(n, t);
    hide Evaluation, PositionOf;
  }

  /** Region r's enter sequence, alone in flight, is `d` seconds old when second `e + d` comes, and
      has left its rungs on; nothing else that may become true is armed. */
  ghost predicate Underway(c: Craft, r: nat, e: nat, d: nat)
  {
    && r < 3 && 1 <= d <= 17 && OnSchedule(c, map[30 + r := e], e + d) && Progress(c.s.hw, c.s.run)
    && !IsActive(c.s, 26) && !IsActive(c.s, 28) && !IsActive(c.s, 30 + r) && forall ap :: 33 <= ap <= 35 ==> !IsActive(c.s, ap)
  }

  /** What is in flight when second `e + k` comes, the power-down having begun in second `e + d`. */
  function Both(n: nat, r: nat, e: nat, d: nat, k: nat): Begun { Ongoing(map[30 + r := e, n := e + d], e + k) }

  ghost predicate Going(c: Craft, n: nat, r: nat, e: nat, d: nat, k: nat)
  {
    && OnSchedule(c, Both(n, r, e, d, k), e + k) && !IsActive(c.s, n)
    && forall ap: nat :: 25 <= ap <= 36 && Hushed(n, r, ap) ==> !IsActive(c.s, ap)
  }

  lemma InBoth(n: nat, r: nat, e: nat, d: nat, k: nat, m: nat)
    requires PowersDown(n) && r < 3
    ensures m in Both(n, r, e, d, k) <==> (m == 30 + r && k <= 18) || (m == n && k <= d + Total(n))
    ensures m in Both(n, r, e, d, k) ==> Both(n, r, e, d, k)[m] == if m == n then e + d else e
  {
    hide SentBefore, Total, Length;
    SequenceTotal(30 + r);
    DoneWhenTotal(30 + r, k);
    DoneWhenTotal(n, k - d);
  }

  lemma BothGoesOn(n: nat, r: nat, e: nat, d: nat, k: nat)
    requires PowersDown(n) && r < 3
    ensures Ongoing(Both(n, r, e, d, k), e + k + 1) == Both(n, r, e, d, k + 1)
  {
    hide Both, SentBefore, Total, Length, SameAt;
    var x, y := Ongoing(Both(n, r, e, d, k), e + k + 1), Both(n, r, e, d, k + 1);
    forall m: nat ensures SameAt(x, y, m) {
      BothGoesOnAt(n, r, e, d, k, m);
    }
    SameEverywhere(x, y);
  }

  lemma BothGoesOnAt(n: nat, r: nat, e: nat, d: nat, k: nat, m: nat)
    requires PowersDown(n) && r < 3
    ensures SameAt(Ongoing(Both(n, r, e, d, k), e + k + 1), Both(n, r, e, d, k + 1), m)
  {
    hide Both, SentBefore, Total, Length;
    InBoth(n, r, e, d, k, m);
    InBoth(n, r, e, d, k + 1, m);
    if m in Both(n, r, e, d, k) {
      SequenceTotal(m);
      DoneWhenTotal(m, e + k + 1 - Both(n, r, e, d, k)[m]);
    }
  }

  lemma SequenceTotal(m: nat)
    requires IsTimed(m)
    ensures 30 <= m <= 32 ==> Total(m) == 18
  {
    Totals(m);
  }

  // ------------------------------------------------------------ how it comes to that

  lemma {:induction false} OverPhases(ps: seq<Position>, r: nat, q: nat, k: nat)
    requires r < 3 && 1 <= k <= |ps| <= 17 && forall j :: 0 <= j < |ps| ==> ps[j] == Over(r)
    ensures PhaseAfter(q, ps, k) == if q == r then Entering(0) else EnterArmed
  {
    PhaseUnfolds(q, ps, k - 1);
    if k > 1 {
      OverPhases(ps, r, q, k - 1);
    }
  }

  lemma OverClear(ps: seq<Position>, r: nat)
    requires r < 3 && |ps| <= 17 && forall j :: 0 <= j < |ps| ==> ps[j] == Over(r)
    ensures ClearUntil(ps, |ps|)
  {
    forall j: nat | j < |ps| ensures Clear(PhasesAt(ps, j), j) {
      if j > 0 {
        OverPhases(ps, r, 0, j);
        OverPhases(ps, r, 1, j);
        OverPhases(ps, r, 2, j);
        hide PhaseAfter;
      }
    }
  }

  lemma OverBegun(ph: Phases, start: nat, r: nat)
    requires r < 3 && forall q: nat :: q < 3 ==> ph[q] == if q == r then Entering(0) else EnterArmed
    ensures BegunBy(ph, start) == map[30 + r := start]
  {
    var x, y := BegunBy(ph, start), map[30 + r := start];
    hide BegunBy;
    forall n: nat ensures SameAt(x, y, n) {
      OnlyRegionsBegun(ph, start, n);
    }
    SameEverywhere(x, y);
  }

  /** A quiet flight over region r, from any start, has its enter sequence under way. */
  lemma EnterIsUnderway(c: Craft, ts: seq<Telemetry>, start: nat, r: nat)
    requires AtStart(c, start) && Chain(c.s.hw) && AllQuiet(ts) && 1 <= |ts| <= 17 && start + |ts| + 5 < MAX_TIME
    requires r < 3 && forall j :: 0 <= j < |ts| ==> Positions(ts)[j] == Over(r)
    ensures Sound(c) && Underway(Flight(c, ts, start, |ts|).c, r, start, |ts|)
  {
    hide Flight, Positions, AllQuiet, AllMeasurable, OnSchedule, BegunBy, PhaseAfter, Runs, Separated, ClearUntil, Sound, Progress, Chain, IsActive;
    QuietAll(ts);
    var ps, d := Positions(ts), |ts|;
    FlightKeepsClock(c, ts, start, d);
    OverClear(ps, r);
    var w, ph := Flight(c, ts, start, d), PhasesAt(ps, d);
    RunsKeepProgress(c, start, w, Separated(ps, ENTER_TIME + LEAVE_TIME));
    forall q: nat | q < 3 ensures ph[q] == if q == r then Entering(0) else EnterArmed {
      OverPhases(ps, r, q, d);
    }
    OverBegun(ph, start, r);
  }

  lemma RunsKeepProgress(c: Craft, start: nat, w: Stretch, unmixed: bool)
    requires AtStart(c, start) && Chain(c.s.hw) && Runs(c.s, w, unmixed, true)
    ensures Progress(w.c.s.hw, w.c.s.run)
  {
    NothingBegun(c, start);
    hide ClockState, NeverCrossed, Chain;
    ChainHolds(c.s, w.es);
  }

  /** A second of it leaves the two power-downs as armed as they were. */
  lemma SecondLeavesArmed(c: Craft, t: Telemetry, ps: seq<Position>, start: nat, k: nat, n: nat)
    requires PowersDown(n) && k < |ps| && OnClock(c, ps, start, k) && start + k + 5 < MAX_TIME && Quiet(t)
    ensures Sound(c) && Measurable(t) && (IsActive(Second(c, t, start + k).c.s, n) <==> IsActive(c.s, n))
  {
    hide ClockState, OnSchedule, Wakes, Samples, Quiet, PhasesAt, WokenAll, Sound, Measurable, Read, BegunBy, IsActive, TrueNow, SampledAps, Starting, SampleRuns, Flying, Valid;
    var ph := PhasesAt(ps, k);
    ClockIsSchedule(c, ph, start, start + k);
    WakeKeepsClock(c, ph, start, k);
    QuietMeasurable(t);
    var woken := Wakes(c, start + k).c;
    WakeArms(c, ph, start, start + k, n);
    ActiveIsRead(c.s, n);
    ActiveIsRead(woken.s, n);
    SampleKeepsClock(woken, WokenAll(ph, k), start, k, t);
    SampledActive(woken.s, t, n, Samples(woken, t, start + k, 25).c.s);
    QuietFires(t, n);
  }

  lemma {:induction false} UnderwayStaysArmed(c: Craft, ts: seq<Telemetry>, start: nat, n: nat, k: nat)
    requires PowersDown(n) && AtStart(c, start) && AllQuiet(ts) && k <= |ts| && start + |ts| + 5 < MAX_TIME
    ensures AllMeasurable(ts) && Sound(c) && (IsActive(Flight(c, ts, start, k).c.s, n) <==> IsActive(c.s, n))
  {
    hide ClockState, Runs, Quiet, PositionOf, Sound, Second, Measurable, PhasesAt, IsActive;
    QuietAll(ts);
    FlightKeepsClock(c, ts, start, k);
    if k > 0 {
      UnderwayStaysArmed(c, ts, start, n, k - 1);
      FlightKeepsClock(c, ts, start, k - 1);
      SecondLeavesArmed(Flight(c, ts, start, k - 1).c, ts[k - 1], Positions(ts), start, k - 1, n);
    }
  }

  // ------------------------------------------------------------ writes

  lemma RungAges(n: nat, r: nat, reg: Register)
    requires PowersDown(n) && r < 3 && Outermost(reg)
    ensures var w := WriteAt(30 + r, reg); w.At? && w.index < Length(30 + r) && w.v == On(true) && Age(30 + r, w.index) == OnAge(reg)
    ensures var w := WriteAt(n, reg); w.At? && w.index < Length(n) && w.v == On(false) && Age(n, w.index) == OffAgeOf(n, reg)
  {
  }

  function OffAgeOf(n: nat, reg: Register): nat { if reg == InstrumentAppState then FirstOff(n) else LastOff(n) }

  lemma RungWrittenNow(n: nat, r: nat, e: nat, d: nat, k: nat, m: nat, reg: Register)
    requires PowersDown(n) && r < 3 && Outermost(reg)
    ensures WritesNow(Both(n, r, e, d, k), e + k, m, reg) <==>
      (m == 30 + r && k == OnAge(reg)) || (m == n && k == d + OffAgeOf(n, reg))
  {
    InBoth(n, r, e, d, k, m);
    RungAges(n, r, reg);
    Totals(n);
    hide Both, WriteAt, Age, Length, Total;
  }

  /** What the power-down and the enter sequence make of the hushed actionpoints: nothing arms them. */
  lemma HushedWrites(n: nat, r: nat, ap: nat, m: nat)
    requires PowersDown(n) && r < 3 && (ap == n || Hushed(n, r, ap)) && (m == n || m == 30 + r)
    ensures WriteAt(m, Ap(ap)).At? ==> m == n && WriteAt(m, Ap(ap)).v == ApIs(Disabled)
  {
  }

  lemma HushedNow(n: nat, r: nat, e: nat, d: nat, k: nat, m: nat, ap: nat)
    requires PowersDown(n) && r < 3 && (ap == n || Hushed(n, r, ap))
    ensures WritesNow(Both(n, r, e, d, k), e + k, m, Ap(ap)) ==> m == n && WriteAt(n, Ap(ap)).v == ApIs(Disabled)
  {
    InBoth(n, r, e, d, k, m);
    if m == n || m == 30 + r {
      HushedWrites(n, r, ap, m);
    }
    hide Both, WriteAt, Age;
  }

  // ------------------------------------------------------------ a wakeup

  lemma GoingParts(c: Craft, n: nat, r: nat, e: nat, d: nat, k: nat, ap: nat)
    requires Going(c, n, r, e, d, k)
    ensures OnSchedule(c, Both(n, r, e, d, k), e + k) && Sound(c) && Valid(c.s) && Flying(c.s)
    ensures 25 <= ap <= 36 && (ap == n || Hushed(n, r, ap)) ==> !IsActive(c.s, ap)
  {
    ScheduleIsFlying(c, Both(n, r, e, d, k), e + k);
  }

  lemma WakeStaysHushed(c: Craft, n: nat, r: nat, e: nat, d: nat, k: nat, ap: nat)
    requires PowersDown(n) && r < 3 && Going(c, n, r, e, d, k) && e + k + 5 < MAX_TIME
    requires 25 <= ap <= 36 && (ap == n || Hushed(n, r, ap))
    ensures Sound(c) && !IsActive(Wakes(c, e + k).c.s, ap)
  {
    hide Going, OnSchedule, Both, Wakes, Read, WriteAt, WritesNow, Hushed, Sound, Flying, Valid, IsActive, Total;
    GoingParts(c, n, r, e, d, k, ap);
    InBoth(n, r, e, d, k, 28);
    var begun, now := Both(n, r, e, d, k), e + k;
    forall m: nat | m != n ensures !WritesNow(begun, now, m, Ap(ap)) {
      HushedNow(n, r, e, d, k, m, ap);
    }
    HushedNow(n, r, e, d, k, n, ap);
    WakeWrites(c, begun, now, 28, Ap(ap), n);
    ActiveIsRead(c.s, ap);
    ActiveIsRead(Wakes(c, now).c.s, ap);
  }

  lemma BuildGoing(c: Craft, n: nat, r: nat, e: nat, d: nat, k: nat)
    requires OnSchedule(c, Both(n, r, e, d, k), e + k) && !IsActive(c.s, n)
    requires forall ap: nat :: 25 <= ap <= 36 && Hushed(n, r, ap) ==> !IsActive(c.s, ap)
    ensures Going(c, n, r, e, d, k)
  {
  }

  lemma WakeKeepsGoing(c: Craft, n: nat, r: nat, e: nat, d: nat, k: nat)
    requires PowersDown(n) && r < 3 && Going(c, n, r, e, d, k) && e + k + 5 < MAX_TIME
    ensures Sound(c) && Going(Wakes(c, e + k).c, n, r, e, d, k + 1)
  {
    hide Going, OnSchedule, Both, Wakes, Hushed, Sound, Flying, Valid, IsActive, Total, Fresh;
    GoingParts(c, n, r, e, d, k, n);
    InBoth(n, r, e, d, k, 28);
    WakeKeepsSchedule(c, Both(n, r, e, d, k), e + k, 28);
    BothGoesOn(n, r, e, d, k);
    WakeStaysHushed(c, n, r, e, d, k, n);
    var c' := Wakes(c, e + k).c;
    forall ap: nat | 25 <= ap <= 36 && Hushed(n, r, ap) ensures !IsActive(c'.s, ap) {
      WakeStaysHushed(c, n, r, e, d, k, ap);
    }
    BuildGoing(c', n, r, e, d, k + 1);
  }

  /** The wakeup and the top or bottom rung, unless both sequences move it. */
  lemma GoingWrites(c: Craft, n: nat, r: nat, e: nat, d: nat, k: nat, reg: Register)
    requires PowersDown(n) && r < 3 && Going(c, n, r, e, d, k) && e + k + 5 < MAX_TIME
    requires Outermost(reg) && !(k == OnAge(reg) && k == d + OffAgeOf(n, reg))
    ensures Sound(c)
    ensures Read(Wakes(c, e + k).c.s, reg) ==
      if k == OnAge(reg) then On(true) else if k == d + OffAgeOf(n, reg) then On(false) else Read(c.s, reg)
  {
    hide Going, OnSchedule, Both, Wakes, Read, WriteAt, WritesNow, Sound, Flying, Valid, OffAgeOf, OnAge, Total, Length, Age;
    GoingParts(c, n, r, e, d, k, n);
    InBoth(n, r, e, d, k, 28);
    var begun, now := Both(n, r, e, d, k), e + k;
    var x := if k == OnAge(reg) then 30 + r else n;
    forall m: nat | m != x ensures !WritesNow(begun, now, m, reg) {
      RungWrittenNow(n, r, e, d, k, m, reg);
    }
    RungWrittenNow(n, r, e, d, k, x, reg);
    RungAges(n, r, reg);
    WakeWrites(c, begun, now, 28, reg, x);
  }

  // ------------------------------------------------------------ a sample

  /** Nothing that is armed is true. */
  predicate Silent(s: State, t: Telemetry)
    requires Measurable(t)
  {
    forall ap: nat :: 25 <= ap <= 36 ==> !(IsActive(s, ap) && TrueNow(ap, t))
  }

  lemma SilentSample(c: Craft, t: Telemetry, begun: Begun, now: nat)
    requires OnSchedule(c, begun, now + 1) && now + 5 < MAX_TIME && Measurable(t) && Silent(c.s, t)
    ensures Sound(c) && Valid(c.s)
    ensures var w := Samples(c, t, now, 25);
      OnSchedule(w.c, begun, now + 1) && w.c.s.hw == c.s.hw && w.c.s.ap == c.s.ap && w.c.sel == c.sel && SampleRuns(c.s, w)
  {
    hide OnSchedule, Samples, TrueNow, SampleRuns, Sound, Starting, SampledAps, IsActive, Flying, Valid;
    ScheduleIsFlying(c, begun, now + 1);
    SampleEffect(c, t, begun, now, 25);
    SilentStarts(c.s, t, begun, now, Samples(c, t, now, 25).c.s);
  }

  lemma SilentStarts(s: State, t: Telemetry, begun: Begun, now: nat, s': State)
    requires Measurable(t) && Silent(s, t) && SampledAps(s, t, 25, s')
    ensures Starting(begun, s, t, now, 25) == begun && s'.ap == s.ap && s'.hw == s.hw
  {
    hide TrueNow;
    forall n: nat | IsTimed(n) ensures !Fires(s, t, n) {}
  }

  lemma GoingIsSilent(c: Craft, n: nat, r: nat, e: nat, d: nat, k: nat, t: Telemetry)
    requires PowersDown(n) && r < 3 && Going(c, n, r, e, d, k) && Calls(n, r, t)
    ensures Measurable(t) && Silent(c.s, t)
  {
    hide OnSchedule, Both, TrueNow, PositionOf;
    forall ap: nat | 25 <= ap <= 36 ensures !(IsActive(c.s, ap) && TrueNow(ap, t)) {
      CallsTrue(n, r, t, ap);
    }
  }

  /** A second of the power-down. */
  lemma SecondKeepsGoing(c: Craft, n: nat, r: nat, e: nat, d: nat, k: nat, t: Telemetry)
    requires PowersDown(n) && r < 3 && Going(c, n, r, e, d, k) && e + k + 5 < MAX_TIME && Calls(n, r, t)
    ensures Sound(c) && Measurable(t)
    ensures var c' := Second(c, t, e + k).c;
      Going(c', n, r, e, d, k + 1) && c'.s.hw == Wakes(c, e + k).c.s.hw && c'.sel == Wakes(c, e + k).c.sel
  {
    hide Going, OnSchedule, Both, Wakes, Samples, Sound, Flying, Valid, IsActive, Calls, Silent, Hushed, SampleRuns, Measurable;
    WakeKeepsGoing(c, n, r, e, d, k);
    var woken := Wakes(c, e + k).c;
    GoingIsSilent(woken, n, r, e, d, k + 1, t);
    GoingParts(woken, n, r, e, d, k + 1, n);
    SilentSample(woken, t, Both(n, r, e, d, k + 1), e + k);
    SameArmed(woken, n, r, e, d, k + 1, Second(c, t, e + k).c);
  }

  lemma SameArmed(c: Craft, n: nat, r: nat, e: nat, d: nat, k: nat, c': Craft)
    requires Going(c, n, r, e, d, k) && c'.s.ap == c.s.ap && OnSchedule(c', Both(n, r, e, d, k), e + k)
    ensures Going(c', n, r, e, d, k)
  {
    hide OnSchedule, Both;
  }

  // ------------------------------------------------------------ the second in which it begins

  /** Until it ends the enter sequence writes no actionpoint. */
  lemma UnderwayWakes(c: Craft, r: nat, e: nat, d: nat, a: nat)
    requires Underway(c, r, e, d) && e + d + 5 < MAX_TIME && 25 <= a <= 36
    ensures Sound(c) && OnSchedule(Wakes(c, e + d).c, map[30 + r := e], e + d + 1)
    ensures IsActive(Wakes(c, e + d).c.s, a) <==> IsActive(c.s, a)
  {
    hide OnSchedule, Wakes, Read, WriteAt, Sound, Fresh, Valid, IsActive, Total, Age, Progress, SentBefore;
    var begun: Begun := map[30 + r := e];
    ScheduleIsSound(c, begun, e + d);
    WakeKeepsSchedule(c, begun, e + d, 28);
    Totals(30 + r);
    DoneWhenTotal(30 + r, d + 1);
    assert Ongoing(begun, e + d + 1) == begun;
    EnterWritesLast(r, a);
    WakeWrites(c, begun, e + d, 28, Ap(a), 30 + r);
    ActiveIsRead(c.s, a);
    ActiveIsRead(Wakes(c, e + d).c.s, a);
  }

  lemma EnterWritesLast(r: nat, a: nat)
    requires r < 3
    ensures var w := WriteAt(30 + r, Ap(a)); w.At? ==> w.index < Length(30 + r) && Age(30 + r, w.index) == 18
  {
  }

  lemma CallStarts(s: State, n: nat, r: nat, e: nat, d: nat, t: Telemetry, s': State)
    requires PowersDown(n) && r < 3 && 1 <= d <= 17 && Calls(n, r, t) && Measurable(t) && IsActive(s, n)
    requires forall ap: nat :: 25 <= ap <= 36 && Hushed(n, r, ap) ==> !IsActive(s, ap)
    requires SampledAps(s, t, 25, s')
    ensures Calm(s, t) && Starting(map[30 + r := e], s, t, e + d, 25) == Both(n, r, e, d, d + 1)
    ensures !IsActive(s', n) && s'.hw == s.hw && forall ap: nat :: 25 <= ap <= 36 && Hushed(n, r, ap) ==> !IsActive(s', ap)
  {
    hide TrueNow, Calls, Both;
    forall ap: nat | 25 <= ap <= 36 ensures IsActive(s, ap) && TrueNow(ap, t) <==> ap == n {
      CallsTrue(n, r, t, ap);
    }
    var x, y := Starting(map[30 + r := e], s, t, e + d, 25), Both(n, r, e, d, d + 1);
    forall m: nat ensures SameAt(x, y, m) {
      InBoth(n, r, e, d, d + 1, m);
      LongerThanOne(n);
    }
    SameEverywhere(x, y);
  }

  lemma LongerThanOne(n: nat)
    requires PowersDown(n)
    ensures Total(n) >= 1
  {
    Totals(n);
  }

  lemma CallIsCalm(s: State, n: nat, r: nat, t: Telemetry)
    requires PowersDown(n) && r < 3 && Calls(n, r, t) && Measurable(t)
    requires forall ap: nat :: 25 <= ap <= 36 && Hushed(n, r, ap) ==> !IsActive(s, ap)
    ensures Calm(s, t)
  {
    hide TrueNow, Calls;
    CallsTrue(n, r, t, 25);
    CallsTrue(n, r, t, 26);
    CallsTrue(n, r, t, 36);
  }

  /** In the second the power-down begins its wakeup is the enter sequence's alone. */
  lemma PowerDownBegins(c: Craft, n: nat, r: nat, e: nat, d: nat, t: Telemetry)
    requires PowersDown(n) && Underway(c, r, e, d) && IsActive(c.s, n) && Calls(n, r, t) && e + d + 5 < MAX_TIME
    ensures Sound(c) && Measurable(t) && Going(Second(c, t, e + d).c, n, r, e, d, d + 1)
    ensures Valid(Wakes(c, e + d).c.s) && SampleRuns(Wakes(c, e + d).c.s, Samples(Wakes(c, e + d).c, t, e + d, 25))
  {
    hide OnSchedule, Both, Wakes, Samples, Sound, Flying, Valid, IsActive, Calls, SampleRuns, Measurable, SampledAps, Starting, Progress, Calm, TrueNow;
    CallMeasurable(n, r, t);
    UnderwayWakes(c, r, e, d, n);
    var woken := Wakes(c, e + d).c;
    forall ap: nat | 25 <= ap <= 36 && Hushed(n, r, ap) ensures !IsActive(woken.s, ap) {
      UnderwayWakes(c, r, e, d, ap);
    }
    ScheduleIsFlying(woken, map[30 + r := e], e + d + 1);
    CallIsCalm(woken.s, n, r, t);
    SampleEffect(woken, t, map[30 + r := e], e + d, 25);
    CallStarts(woken.s, n, r, e, d, t, Samples(woken, t, e + d, 25).c.s);
    BuildGoing(Second(c, t, e + d).c, n, r, e, d, d + 1);
  }

  lemma CallMeasurable(n: nat, r: nat, t: Telemetry)
    requires Calls(n, r, t)
    ensures Measurable(t)
  {
  }

  // ------------------------------------------------------------ the flight

  /** In every second of the flight the power-down is called for, over region r. */
  ghost predicate Called(c: Craft, ts: seq<Telemetry>, n: nat, r: nat, e: nat, d: nat)
  {
    && PowersDown(n) && Underway(c, r, e, d) && IsActive(c.s, n) && e + d + |ts| + 5 < MAX_TIME
    && forall j :: 0 <= j < |ts| ==> Calls(n, r, ts[j])
  }

  lemma CalledParts(c: Craft, ts: seq<Telemetry>, n: nat, r: nat, e: nat, d: nat, j: nat)
    requires Called(c, ts, n, r, e, d)
    ensures PowersDown(n) && r < 3 && 1 <= d <= 17 && Underway(c, r, e, d) && IsActive(c.s, n) && AllMeasurable(ts) && Sound(c)
    ensures e + d + |ts| + 5 < MAX_TIME && (j < |ts| ==> Calls(n, r, ts[j]))
  {
    ScheduleIsSound(c, map[30 + r := e], e + d);
    hide OnSchedule, Progress;
  }

  lemma {:induction false} GoesOn(c: Craft, ts: seq<Telemetry>, n: nat, r: nat, e: nat, d: nat, j: nat)
    requires Called(c, ts, n, r, e, d) && 1 <= j <= |ts|
    ensures AllMeasurable(ts) && Sound(c) && Going(Flight(c, ts, e + d, j).c, n, r, e, d, d + j)
  {
    hide Called, Underway, Going, Calls, Second, Sound, AllMeasurable, Flight, OnSchedule, IsActive, Measurable;
    var i := j - 1;
    CalledParts(c, ts, n, r, e, d, i);
    if i == 0 {
      GoesFirst(c, ts, n, r, e, d);
    } else {
      GoesOn(c, ts, n, r, e, d, i);
      FlightGoesOn(c, ts, e + d, i);
      SecondKeepsGoing(Flight(c, ts, e + d, i).c, n, r, e, d, d + i, ts[i]);
    }
  }

  lemma GoesFirst(c: Craft, ts: seq<Telemetry>, n: nat, r: nat, e: nat, d: nat)
    requires Called(c, ts, n, r, e, d) && ts != []
    ensures AllMeasurable(ts) && Sound(c) && Going(Flight(c, ts, e + d, 1).c, n, r, e, d, d + 1)
  {
    hide Called, Underway, Going, Calls, Second, Sound, AllMeasurable, Flight, OnSchedule, IsActive, Measurable, PowersDown;
    CalledParts(c, ts, n, r, e, d, 0);
    var t := ts[0];
    PowerDownGoes(c, n, r, e, d, t);
    FlightGoesOn(c, ts, e + d, 0);
    FlightBegins(c, ts, e + d);
  }

  lemma PowerDownGoes(c: Craft, n: nat, r: nat, e: nat, d: nat, t: Telemetry)
    requires PowersDown(n) && Underway(c, r, e, d) && IsActive(c.s, n) && Calls(n, r, t) && e + d + 5 < MAX_TIME
    ensures Sound(c) && Measurable(t) && Going(Second(c, t, e + d).c, n, r, e, d, d + 1)
  {
    hide Underway, Going, Calls, Second, Sound, OnSchedule, IsActive, Measurable, PowersDown, Wakes, Samples, SampleRuns, Valid;
    PowerDownBegins(c, n, r, e, d, t);
  }

  lemma FlightBegins(c: Craft, ts: seq<Telemetry>, start: nat)
    requires Sound(c) && AllMeasurable(ts)
    ensures Flight(c, ts, start, 0).c == c
  {
    hide Sound;
  }

  /** A second of the flight and the top or bottom rung, unless both sequences move it. */
  lemma GoingSecond(c: Craft, ts: seq<Telemetry>, n: nat, r: nat, e: nat, d: nat, j: nat, reg: Register)
    requires Called(c, ts, n, r, e, d) && 1 <= j < |ts| && Outermost(reg) && !(d + j == OnAge(reg) && j == OffAgeOf(n, reg))
    ensures AllMeasurable(ts) && Sound(c)
    ensures Read(Flight(c, ts, e + d, j + 1).c.s, reg) ==
      if d + j == OnAge(reg) then On(true)
      else if j == OffAgeOf(n, reg) then On(false)
      else Read(Flight(c, ts, e + d, j).c.s, reg)
  {
    hide Called, Underway, Going, Calls, Second, Sound, AllMeasurable, Measurable, Flight, Wakes, Read, OnAge, OffAgeOf, Outermost;
    CalledParts(c, ts, n, r, e, d, j);
    GoesOn(c, ts, n, r, e, d, j);
    FlightGoesOn(c, ts, e + d, j);
    var before, k := Flight(c, ts, e + d, j).c, d + j;
    SecondKeepsGoing(before, n, r, e, d, k, ts[j]);
    GoingWrites(before, n, r, e, d, k, reg);
    HardwareRead(Second(before, ts[j], e + k).c.s, Wakes(before, e + k).c.s, reg);
  }

  lemma {:induction false} GoingKeeps(c: Craft, ts: seq<Telemetry>, n: nat, r: nat, e: nat, d: nat, reg: Register, from: nat, j: nat)
    requires Called(c, ts, n, r, e, d) && 1 <= from <= j <= |ts|
    requires Outermost(reg) && OnAge(reg) < d + from && OffAgeOf(n, reg) < from
    ensures AllMeasurable(ts) && Sound(c)
    ensures Read(Flight(c, ts, e + d, j).c.s, reg) == Read(Flight(c, ts, e + d, from).c.s, reg)
    decreases j
  {
    hide Called, Sound, AllMeasurable, Flight, Read, OnAge, OffAgeOf, Outermost;
    CalledParts(c, ts, n, r, e, d, 0);
    if from < j {
      GoingKeeps(c, ts, n, r, e, d, reg, from, j - 1);
      GoingSecond(c, ts, n, r, e, d, j - 1, reg);
    }
  }

  // ------------------------------------------------------------ both in the same second

  /** The top rung is turned off and on in second 16: the enter sequence, the higher, goes last. */
  lemma TopIsTied(n: nat, r: nat, e: nat, d: nat)
    requires PowersDown(n) && r < 3 && d + FirstOff(n) == 16
    ensures Tied(Both(n, r, e, d, 16), e + 16, n, 30 + r)
    ensures WritesNow(Both(n, r, e, d, 16), e + 16, 30 + r, InstrumentAppState) && WriteAt(30 + r, InstrumentAppState).v == On(true)
  {
    hide Both, WriteAt, Age, Length, Total, SendsAt, SentBefore, FirstOff, WritesNow;
    RungAges(n, r, InstrumentAppState);
    RungWrittenNow(n, r, e, d, 16, 30 + r, InstrumentAppState);
    Totals(n);
    var begun, now := Both(n, r, e, d, 16), e + 16;
    WriteAges(n, InstrumentAppState, 16 - d);
    WriteAges(30 + r, InstrumentAppState, 16);
    InBoth(n, r, e, d, 16, n);
    InBoth(n, r, e, d, 16, 30 + r);
    forall x: nat | SendsNow(begun, now, x) ensures x == n || x == 30 + r {
      InBoth(n, r, e, d, 16, x);
    }
  }

  lemma TopSecond(c: Craft, ts: seq<Telemetry>, n: nat, r: nat, e: nat, d: nat)
    requires Called(c, ts, n, r, e, d) && d + FirstOff(n) == 16 && |ts| > FirstOff(n)
    ensures AllMeasurable(ts) && Sound(c)
    ensures Read(Flight(c, ts, e + d, FirstOff(n) + 1).c.s, InstrumentAppState) == On(true)
  {
    hide Called, Underway, Going, Calls, Second, Sound, AllMeasurable, Measurable, Flight, Wakes, Read, Both, Tied, OnSchedule, WriteAt, WritesNow, Valid, Flying, Total, Ongoing;
    var j := FirstOff(n);
    CalledParts(c, ts, n, r, e, d, j - 1);
    CalledParts(c, ts, n, r, e, d, j);
    GoesOn(c, ts, n, r, e, d, j - 1);
    GoesOn(c, ts, n, r, e, d, j);
    FlightGoesOn(c, ts, e + d, j - 1);
    FlightGoesOn(c, ts, e + d, j);
    var was, before := Flight(c, ts, e + d, j - 1).c, Flight(c, ts, e + d, j).c;
    TopIsTied(n, r, e, d);
    InBoth(n, r, e, d, 15, 28);
    InBoth(n, r, e, d, 16, 28);
    GoingParts(was, n, r, e, d, 15, n);
    GoingParts(before, n, r, e, d, 16, n);
    BothGoesOn(n, r, e, d, 15);
    TieIsSelected(was, Both(n, r, e, d, 15), e + 15, 28, n, 30 + r);
    SecondKeepsGoing(was, n, r, e, d, 15, ts[j - 1]);
    TieWrites(before, Both(n, r, e, d, 16), e + 16, 28, n, 30 + r, InstrumentAppState);
    SecondKeepsGoing(before, n, r, e, d, 16, ts[j]);
    HardwareRead(Second(before, ts[j], e + 16).c.s, Wakes(before, e + 16).c.s, InstrumentAppState);
  }

  /** A power-down too early has the enter sequence turn the instrument on again behind it. */
  lemma EarlyPowerDownBreaksChain(c: Craft, ts: seq<Telemetry>, n: nat, r: nat, e: nat, d: nat)
    requires Called(c, ts, n, r, e, d) && d + FirstOff(n) <= 16 && |ts| >= 20
    ensures AllMeasurable(ts) && Sound(c)
    ensures var hw := Flight(c, ts, e + d, |ts|).c.s.hw; hw.instrumentApp && !hw.trackerSwitch && !Chain(hw)
  {
    hide Called, Flight, Sound, Read, AllMeasurable, Chain;
    CalledParts(c, ts, n, r, e, d, 0);
    if d + FirstOff(n) == 16 {
      TopSecond(c, ts, n, r, e, d);
    } else {
      GoingSecond(c, ts, n, r, e, d, 16 - d, InstrumentAppState);
    }
    GoingKeeps(c, ts, n, r, e, d, InstrumentAppState, 17 - d, |ts|);
    GoingSecond(c, ts, n, r, e, d, LastOff(n), TrackerSwitchState);
    GoingKeeps(c, ts, n, r, e, d, TrackerSwitchState, LastOff(n) + 1, |ts|);
    var s := Flight(c, ts, e + d, |ts|).c.s;
    BrokenRungs(s);
    OutermostRead(s);
  }

  // ------------------------------------------------------------ late enough

  /** A second is a legal run, and crosses nothing if its wakeup is safe. */
  lemma SafeSecond(c: Craft, begun: Begun, now: nat, t: Telemetry, uncrossed: bool)
    requires OnSchedule(c, begun, now) && now + 5 < MAX_TIME && 28 !in begun && Measurable(t)
    requires Sound(c) && (uncrossed ==> SafeBetween(c.s, Wakes(c, now).c.s))
    requires Valid(Wakes(c, now).c.s) && SampleRuns(Wakes(c, now).c.s, Samples(Wakes(c, now).c, t, now, 25))
    ensures Runs(c.s, Second(c, t, now), false, uncrossed)
  {
    hide OnSchedule, Wakes, Samples, Sent, SentEvents, AfterSend, Legal, Final, NeverMixed, NeverCrossed, Flying, Valid, Sendable, Sound, Fresh, SafeBetween, Advanced, SendsNow, Uncrossed, Unmixed;
    ScheduleIsFlying(c, begun, now);
    WakeEffect(c, begun, now, 28);
    var woken := Wakes(c, now);
    if uncrossed {
      SendsNeverCross(c.s, Sent(c, now), woken.c.s);
    }
    AtEnd(c.s, woken.es);
    RunsTogether(c.s, woken, Samples(woken.c, t, now, 25), false, uncrossed);
  }

  /** While the power-down has not begun its descent, or the enter sequence has ended its climb ... */
  lemma LateIsSafe(c: Craft, n: nat, r: nat, e: nat, d: nat, k: nat, c': Craft)
    requires PowersDown(n) && r < 3 && d + FirstOff(n) > 16 && OnSchedule(c, Both(n, r, e, d, k), e + k)
    requires OnSchedule(c', Both(n, r, e, d, k + 1), e + k + 1)
    ensures SafeBetween(c.s, c'.s)
  {
    hide OnSchedule, Both, Climbed, Descended, Steps, SentBefore, Total, FirstOff;
    BegunKeys(c, Both(n, r, e, d, k), e + k);
    BothGoesOn(n, r, e, d, k);
    forall x, y | x in c.s.run && y in c.s.run && IsEnter(x) && IsPowerDown(y)
      ensures Climbed(c.s.run[x]) == 5 || Descended(y, PositionIn(c'.s, y)) == 0
    {
      InBoth(n, r, e, d, k, x);
      InBoth(n, r, e, d, k, y);
      PositionNow(c, Both(n, r, e, d, k), e + k, x);
      PositionAfter(c', Both(n, r, e, d, k), e + k + 1, y);
      ClimbAges(x, k);
      DownAges(y, k - d);
    }
  }

  lemma DownAges(n: nat, age: int)
    requires PowersDown(n)
    ensures age < FirstOff(n) ==> Descended(n, SentBefore(n, age + 1)) == 0
  {
    assert Age(n, if n == 27 then 7 else 10) == FirstOff(n);
    hide SentBefore, SentBeforeFrom, Age;
  }

  lemma GoingRuns(c: Craft, n: nat, r: nat, e: nat, d: nat, k: nat, t: Telemetry)
    requires PowersDown(n) && r < 3 && Going(c, n, r, e, d, k) && e + k + 5 < MAX_TIME && Calls(n, r, t)
    ensures Sound(c) && Measurable(t) && Runs(c.s, Second(c, t, e + k), false, d + FirstOff(n) > 16)
  {
    hide Going, OnSchedule, Both, Wakes, Samples, Sound, Flying, Valid, IsActive, Calls, Silent, Hushed, SampleRuns, Measurable, SafeBetween, Runs, FirstOff, Total;
    GoingParts(c, n, r, e, d, k, n);
    WakeKeepsGoing(c, n, r, e, d, k);
    var woken := Wakes(c, e + k).c;
    GoingIsSilent(woken, n, r, e, d, k + 1, t);
    GoingParts(woken, n, r, e, d, k + 1, n);
    SilentSample(woken, t, Both(n, r, e, d, k + 1), e + k);
    if d + FirstOff(n) > 16 {
      LateIsSafe(c, n, r, e, d, k, woken);
    }
    InBoth(n, r, e, d, k, 28);
    SafeSecond(c, Both(n, r, e, d, k), e + k, t, d + FirstOff(n) > 16);
  }

  lemma FirstSecond(c: Craft, n: nat, r: nat, e: nat, d: nat, t: Telemetry, uncrossed: bool)
    requires PowersDown(n) && Underway(c, r, e, d) && IsActive(c.s, n) && Calls(n, r, t) && e + d + 5 < MAX_TIME
    ensures Sound(c) && Measurable(t) && Runs(c.s, Second(c, t, e + d), false, uncrossed)
  {
    hide OnSchedule, Wakes, Samples, Sound, Flying, Valid, IsActive, Calls, SampleRuns, Measurable, Going, Runs, Progress;
    PowerDownBegins(c, n, r, e, d, t);
    BegunKeys(c, map[30 + r := e], e + d);
    assert SafeBetween(c.s, Wakes(c, e + d).c.s);
    SafeSecond(c, map[30 + r := e], e + d, t, uncrossed);
  }

  /** The flight is a legal run; a late power-down crosses nothing. */
  lemma {:induction false} PowerDownRuns(c: Craft, ts: seq<Telemetry>, n: nat, r: nat, e: nat, d: nat, j: nat)
    requires Called(c, ts, n, r, e, d) && 1 <= j <= |ts|
    ensures AllMeasurable(ts) && Sound(c) && Runs(c.s, Flight(c, ts, e + d, j), false, d + FirstOff(n) > 16)
  {
    hide Called, Underway, Going, Calls, Second, Sound, AllMeasurable, Measurable, Runs, FirstOff;
    CalledParts(c, ts, n, r, e, d, j - 1);
    var i, uncrossed := j - 1, d + FirstOff(n) > 16;
    FlightGoesOn(c, ts, e + d, i);
    var before := Flight(c, ts, e + d, i);
    var second := Second(before.c, ts[i], e + d + i);
    if i == 0 {
      FirstSecond(c, n, r, e, d, ts[0], uncrossed);
      assert before == Stretch([], c) && [] + second.es == second.es;
    } else {
      PowerDownRuns(c, ts, n, r, e, d, i);
      GoesOn(c, ts, n, r, e, d, i);
      GoingRuns(before.c, n, r, e, d, d + i, ts[i]);
      RunsTogether(c.s, before, second, false, uncrossed);
    }
  }

  lemma LatePowerDownKeepsChain(c: Craft, ts: seq<Telemetry>, n: nat, r: nat, e: nat, d: nat, m: nat)
    requires Called(c, ts, n, r, e, d) && d + FirstOff(n) > 16 && ts != []
    requires AllMeasurable(ts) && Sound(c) && m <= |Flight(c, ts, e + d, |ts|).es|
    ensures ChainAfter(c.s, Flight(c, ts, e + d, |ts|).es, m)
  {
    PowerDownRuns(c, ts, n, r, e, d, |ts|);
    hide Flight, OnSchedule, NeverCrossed, Chain;
    var es := Flight(c, ts, e + d, |ts|).es;
    PrefixOfRun(c.s, es, m);
    ChainHolds(c.s, es[..m]);
  }

  /** A power-down that sets in `d` seconds into an enter sequence, whatever the region and however
      long it is called for, keeps the chain after every event exactly when it begins its descent
      after the enter sequence has ended its climb: low power from the ninth second on, the exit from
      the sixth. */
  lemma PowerDownKeepsChainIff(c: Craft, ts: seq<Telemetry>, n: nat, r: nat, e: nat, d: nat)
    requires Called(c, ts, n, r, e, d) && |ts| >= 20
    ensures AllMeasurable(ts) && Sound(c)
    ensures var es := Flight(c, ts, e + d, |ts|).es;
      (forall m: nat :: m <= |es| ==> ChainAfter(c.s, es, m)) <==> d >= if n == 27 then 9 else 6
  {
    hide Called, Flight, Sound, AllMeasurable, ChainAfter, Chain, Runs, Legal, Final, Valid;
    CalledParts(c, ts, n, r, e, d, 0);
    var w := Flight(c, ts, e + d, |ts|);
    if d + FirstOff(n) <= 16 {
      EarlyPowerDownBreaksChain(c, ts, n, r, e, d);
      PowerDownRuns(c, ts, n, r, e, d, |ts|);
      RunsParts(c.s, w, false, d + FirstOff(n) > 16);
      EndOfRun(c.s, w);
    } else {
      forall m: nat | m <= |w.es| ensures ChainAfter(c.s, w.es, m) {
        LatePowerDownKeepsChain(c, ts, n, r, e, d, m);
      }
    }
  }
}
