/** A touch of one region, then another: for which gaps between them the power chain holds. */
module RegionHops {
  import opened LcRegions
  import opened ScienceTables
  import opened PowerChain
  import opened Registers
  import opened StoredCommand
  import opened TimedRuns
  import opened TimedRegions
  import RegionTokens
  import opened Ties

  /** A one-second touch of one region, then outside, then over another from second `gap` on. */
  predicate Hop(ps: seq<Position>, b: nat, a: nat, gap: nat)
  {
    && a < 3 && b < 3 && a != b && 0 < gap < |ps| && ps[0] == Over(b)
    && (forall j :: 0 < j < gap ==> ps[j] == Outside) && (forall j :: gap <= j < |ps| ==> ps[j] == Over(a))
  }

  /** The phase of region r `k` seconds into a hop: whatever the gap, the first region is left in
      second 18, when its enter sequence is done. */
  function HopPhase(b: nat, a: nat, gap: nat, r: nat, k: nat): Phase
  {
    if r == b then if k <= 18 then Entering(0) else if k <= 30 then Leaving(18, 0) else EnterArmed
    else if r == a && gap < k then if k <= gap + 18 then Entering(gap) else LeaveArmed(k - 1)
    else EnterArmed
  }

  lemma {:induction false} HopPhases(ps: seq<Position>, b: nat, a: nat, gap: nat, r: nat, k: nat)
    requires Hop(ps, b, a, gap) && r < 3 && 1 <= k <= |ps|
    ensures PhaseAfter(r, ps, k) == HopPhase(b, a, gap, r, k)
  {
    PhaseUnfolds(r, ps, k - 1);
    if k > 1 {
      HopPhases(ps, b, a, gap, r, k - 1);
    }
  }

  lemma HopParts(ps: seq<Position>, b: nat, a: nat, gap: nat)
    requires Hop(ps, b, a, gap)
    ensures a < 3 && b < 3 && a != b && 0 < gap < |ps|
  {
  }

  lemma HopSeparation(ps: seq<Position>, b: nat, a: nat, gap: nat)
    requires Hop(ps, b, a, gap)
    ensures Separated(ps, gap) && !Separated(ps, gap + 1)
  {
    assert ps[gap] == Over(a);
  }

  // ------------------------------------------------------------ thirty keep the families apart

  /** Twenty-nine seconds do not keep the two families of sequences apart: a one-second touch of one
      region and, 29 seconds later, another always puts the enter sequence of the second beside the
      leave sequence of the first. This is about the overlap alone; the chain still holds. */
  lemma {:induction false} ThirtyIsLeast(c: Craft, ts: seq<Telemetry>, start: nat, b: nat, a: nat)
    requires AtStart(c, start) && AllQuiet(ts) && |ts| == 30 && start + |ts| + 5 < MAX_TIME
    requires Hop(Positions(ts), b, a, 29)
    ensures Separated(Positions(ts), 29) && !Separated(Positions(ts), 30)
    ensures Sound(c)
    ensures var s := Flight(c, ts, start, 30).c.s; 30 + a in s.run && 33 + b in s.run && !Unmixed(s)
  {
    hide Flight, Positions, AllQuiet, ClockState, BegunBy, Hop, PhaseAfter, Runs, Separated, Unmixed, Sound;
    QuietAll(ts);
    var ps := Positions(ts);
    HopParts(ps, b, a, 29);
    FlightKeepsClock(c, ts, start, 30);
    HopSeparation(ps, b, a, 29);
    HopPhases(ps, b, a, 29, a, 30);
    HopPhases(ps, b, a, 29, b, 30);
    var c', ph := Flight(c, ts, start, 30).c, PhasesAt(ps, 30);
    assert ph[a] == PhaseAfter(a, ps, 30) && ph[b] == PhaseAfter(b, ps, 30);
    PhasesMix(c', ph, start, start + 30, b, a);
  }

  lemma PhasesMix(c: Craft, ph: Phases, start: nat, from: nat, b: nat, a: nat)
    requires ClockState(c, ph, start, from) && a < 3 && b < 3 && ph[a].Entering? && ph[b].Leaving?
    ensures 30 + a in c.s.run && 33 + b in c.s.run && !Unmixed(c.s)
  {
    BegunKeys(c, BegunBy(ph, start), from);
    hide ClockState, BegunBy;
    OnlyRegionsBegun(ph, start, 30 + a);
    OnlyRegionsBegun(ph, start, 33 + b);
    assert IsEnter(30 + a) && IsPowerDown(33 + b);
  }

  // ------------------------------------------------------------ what the hop writes when

  lemma HopBegun(ps: seq<Position>, b: nat, a: nat, gap: nat, k: nat, start: nat, n: nat)
    requires Hop(ps, b, a, gap) && 1 <= k <= |ps|
    ensures var begun := BegunBy(PhasesAt(ps, k), start);
      && (n in begun <==> (n == 30 + b && k <= 18) || (n == 33 + b && 18 < k <= 30) || (n == 30 + a && gap < k <= gap + 18))
      && (n in begun ==> begun[n] == start + if n == 30 + b then 0 else if n == 33 + b then 18 else gap)
  {
    var ph := PhasesAt(ps, k);
    HopPhases(ps, b, a, gap, 0, k);
    HopPhases(ps, b, a, gap, 1, k);
    HopPhases(ps, b, a, gap, 2, k);
    hide PhaseAfter, Hop, BegunBy;
    OnlyRegionsBegun(ph, start, n);
    HopParts(ps, b, a, gap);
  }

  /** The top and the bottom rung, and when the region sequences turn them on and off. */
  predicate Outermost(reg: Register) { reg == InstrumentAppState || reg == TrackerSwitchState }

  function OnAge(reg: Register): nat { if reg == InstrumentAppState then 16 else 3 }

  function OffAge(reg: Register): nat { if reg == InstrumentAppState then 2 else 10 }

  lemma RungWrites(n: nat, reg: Register)
    requires 30 <= n <= 35 && Outermost(reg)
    ensures var w := WriteAt(n, reg);
      w.At? && w.index < Length(n) && w.v == On(n <= 32) && Age(n, w.index) == if n <= 32 then OnAge(reg) else OffAge(reg)
  {
  }

  lemma HopWrites(ps: seq<Position>, b: nat, a: nat, gap: nat, k: nat, start: nat, n: nat, reg: Register)
    requires Hop(ps, b, a, gap) && 1 <= k <= |ps| && Outermost(reg)
    ensures WritesNow(BegunBy(PhasesAt(ps, k), start), start + k, n, reg) <==>
      (n == 30 + b && k == OnAge(reg)) || (n == 30 + a && k == gap + OnAge(reg)) || (n == 33 + b && k == 18 + OffAge(reg))
  {
    hide Hop, BegunBy, PhasesAt, WriteAt, Length, Age;
    HopParts(ps, b, a, gap);
    HopBegun(ps, b, a, gap, k, start, n);
    if 30 <= n <= 35 {
      RungWrites(n, reg);
    }
  }

  /** What the wakeup of second `k` makes of the top or bottom rung, unless both regions move it. */
  lemma HopWakes(c: Craft, ps: seq<Position>, start: nat, b: nat, a: nat, gap: nat, k: nat, reg: Register)
    requires Hop(ps, b, a, gap) && 1 <= k <= |ps| && OnClock(c, ps, start, k) && start + k + 5 < MAX_TIME
    requires Outermost(reg) && !(k == gap + OnAge(reg) && k == 18 + OffAge(reg))
    ensures Sound(c)
    ensures Read(Wakes(c, start + k).c.s, reg) ==
      if k == OnAge(reg) || k == gap + OnAge(reg) then On(true) else if k == 18 + OffAge(reg) then On(false) else Read(c.s, reg)
  {
    hide ClockState, OnSchedule, BegunBy, PhasesAt, Wakes, Read, Hop, WriteAt, WritesNow, Sound, Flying, Valid, Length, Age;
    HopParts(ps, b, a, gap);
    var ph := PhasesAt(ps, k);
    var begun, now := BegunBy(ph, start), start + k;
    ClockIsSchedule(c, ph, start, now);
    OnlyRegionsBegun(ph, start, 29);
    var n := if k == OnAge(reg) then 30 + b else if k == gap + OnAge(reg) then 30 + a else 33 + b;
    forall m: nat | m != n ensures !WritesNow(begun, now, m, reg) {
      HopWrites(ps, b, a, gap, k, start, m, reg);
    }
    HopWrites(ps, b, a, gap, k, start, n, reg);
    RungWrites(n, reg);
    WakeWrites(c, begun, now, 29, reg, n);
  }

  lemma SampleKeepsHardware(c: Craft, ph: Phases, start: nat, j: nat, t: Telemetry)
    requires ClockState(c, ph, start, start + j + 1) && start + j + 5 < MAX_TIME && Quiet(t)
    ensures Sound(c) && Measurable(t) && Samples(c, t, start + j, 25).c.s.hw == c.s.hw
  {
    hide ClockState, OnSchedule, Samples, Quiet, Starting, SampleRuns;
    QuietMeasurable(t);
    SampleKeepsClock(c, ph, start, j, t);
  }

  lemma HardwareRead(s: State, s': State, reg: Register)
    requires s.hw == s'.hw && Outermost(reg)
    ensures Read(s, reg) == Read(s', reg)
  {
  }

  /** A second leaves the rungs as its wakeup does. */
  lemma SecondReads(c: Craft, t: Telemetry, ps: seq<Position>, start: nat, k: nat, reg: Register)
    requires k < |ps| && OnClock(c, ps, start, k) && start + k + 5 < MAX_TIME && Quiet(t) && Outermost(reg)
    ensures Sound(c) && Measurable(t) && Read(Second(c, t, start + k).c.s, reg) == Read(Wakes(c, start + k).c.s, reg)
  {
    hide ClockState, Wakes, Samples, Quiet, PhasesAt, WokenAll, Sound, Measurable, Read;
    var ph := PhasesAt(ps, k);
    ClockIsSchedule(c, ph, start, start + k);
    WakeKeepsClock(c, ph, start, k);
    QuietMeasurable(t);
    SampleKeepsHardware(Wakes(c, start + k).c, WokenAll(ph, k), start, k, t);
    HardwareRead(Wakes(c, start + k).c.s, Second(c, t, start + k).c.s, reg);
  }

  ghost predicate HopFlight(c: Craft, ts: seq<Telemetry>, start: nat, b: nat, a: nat, gap: nat)
  {
    AtStart(c, start) && AllQuiet(ts) && start + |ts| + 5 < MAX_TIME && Hop(Positions(ts), b, a, gap)
  }

  /** Where the flight stands when second `k` comes, and what comes with it. */
  lemma HopAt(c: Craft, ts: seq<Telemetry>, start: nat, b: nat, a: nat, gap: nat, k: nat)
    requires HopFlight(c, ts, start, b, a, gap) && k < |ts|
    ensures AllMeasurable(ts) && Sound(c) && start + k + 5 < MAX_TIME && Hop(Positions(ts), b, a, gap)
    ensures Quiet(ts[k]) && PositionOf(ts[k]) == Positions(ts)[k]
    ensures var c' := Flight(c, ts, start, k).c;
      OnClock(c', Positions(ts), start, k) && Sound(c') && Flight(c, ts, start, k + 1).c == Second(c', ts[k], start + k).c
  {
    hide ClockState, Flight, Runs, Quiet, PositionOf, Sound, Hop, Second, Measurable, PhasesAt;
    QuietAll(ts);
    FlightKeepsClock(c, ts, start, k);
    var c' := Flight(c, ts, start, k).c;
    ClockIsSchedule(c', PhasesAt(Positions(ts), k), start, start + k);
    FlightGoesOn(c, ts, start, k);
  }

  /** A second of the hop and the top or bottom rung, unless both regions move it. */
  lemma HopSecond(c: Craft, ts: seq<Telemetry>, start: nat, b: nat, a: nat, gap: nat, k: nat, reg: Register)
    requires HopFlight(c, ts, start, b, a, gap) && 1 <= k < |ts|
    requires Outermost(reg) && !(k == gap + OnAge(reg) && k == 18 + OffAge(reg))
    ensures AllMeasurable(ts) && Sound(c)
    ensures Read(Flight(c, ts, start, k + 1).c.s, reg) ==
      if k == OnAge(reg) || k == gap + OnAge(reg) then On(true)
      else if k == 18 + OffAge(reg) then On(false)
      else Read(Flight(c, ts, start, k).c.s, reg)
  {
    hide ClockState, HopFlight, Flight, AtStart, OnClock, Quiet, PositionOf, Sound, Hop, Second, Measurable, Read, Wakes, OnAge, OffAge, AllMeasurable, Outermost;
    HopAt(c, ts, start, b, a, gap, k);
    var c', ps := Flight(c, ts, start, k).c, Positions(ts);
    HopWakes(c', ps, start, b, a, gap, k, reg);
    SecondReads(c', ts[k], ps, start, k, reg);
  }

  lemma HopSound(c: Craft, ts: seq<Telemetry>, start: nat, b: nat, a: nat, gap: nat)
    requires HopFlight(c, ts, start, b, a, gap)
    ensures AllMeasurable(ts) && Sound(c)
  {
    hide ClockState, Hop, Quiet;
    ClockIsSchedule(c, [EnterArmed, EnterArmed, EnterArmed], start, start);
  }

  lemma {:induction false} HopKeeps(c: Craft, ts: seq<Telemetry>, start: nat, b: nat, a: nat, gap: nat, reg: Register, from: nat, k: nat)
    requires HopFlight(c, ts, start, b, a, gap) && from <= k <= |ts|
    requires Outermost(reg) && OnAge(reg) + gap < from && 18 + OffAge(reg) < from
    ensures AllMeasurable(ts) && Sound(c)
    ensures Read(Flight(c, ts, start, k).c.s, reg) == Read(Flight(c, ts, start, from).c.s, reg)
    decreases k
  {
    hide HopFlight, Flight, Sound, Read, OnAge, OffAge, AllMeasurable, Outermost;
    HopSound(c, ts, start, b, a, gap);
    if from < k {
      var j := k - 1;
      HopKeeps(c, ts, start, b, a, gap, reg, from, j);
      HopSecond(c, ts, start, b, a, gap, j, reg);
    }
  }

  // ------------------------------------------------------------ both regions in the same second

  /** The two gaps and seconds in which the one region's enter sequence and the other's leave sequence
      each have a command for the same outermost rung. */
  predicate Tie(gap: nat, k: nat) { (gap == 25 && k == 28) || (gap == 4 && k == 20) }

  /** The commands the two sequences have sent by then. */
  function EnterSent(gap: nat): nat { if gap == 25 then 2 else 7 }

  function LeaveSent(gap: nat): nat { if gap == 25 then 5 else 1 }

  lemma TieTimes(b: nat, a: nat, gap: nat, k: nat)
    requires a < 3 && b < 3 && Tie(gap, k)
    ensures SendsAt(30 + a, k - gap) && SendsAt(33 + b, k - 18)
    ensures SentBefore(30 + a, k - gap) == EnterSent(gap) && SentBefore(33 + b, k - 18) == LeaveSent(gap)
  {
    SentBeforeIs(30 + a, k - gap, EnterSent(gap));
    SentBeforeIs(33 + b, k - 18, LeaveSent(gap));
  }

  /** A hop's phases while both sequences are under way. */
  predicate Hopping(ph: Phases, b: nat, a: nat, gap: nat)
  {
    a < 3 && b < 3 && a != b && ph[a] == Entering(gap) && ph[b] == Leaving(18, 0)
    && forall r: nat :: r < 3 && r != a && r != b ==> ph[r] == EnterArmed
  }

  lemma HopIsHopping(ps: seq<Position>, b: nat, a: nat, gap: nat, k: nat)
    requires Hop(ps, b, a, gap) && Tie(gap, k) && k <= |ps|
    ensures Hopping(PhasesAt(ps, k), b, a, gap) && Hopping(WokenAll(PhasesAt(ps, k - 1), k - 1), b, a, gap)
  {
    forall r: nat | r < 3
      ensures PhaseAfter(r, ps, k) == HopPhase(b, a, gap, r, k) && PhaseAfter(r, ps, k - 1) == HopPhase(b, a, gap, r, k - 1)
    {
      HopPhases(ps, b, a, gap, r, k);
      HopPhases(ps, b, a, gap, r, k - 1);
    }
    hide PhaseAfter;
  }

  lemma TwoBegun(ph: Phases, start: nat, b: nat, a: nat, gap: nat, n: nat)
    requires Hopping(ph, b, a, gap)
    ensures a < 3 && b < 3 && (n in BegunBy(ph, start) <==> n == 30 + a || n == 33 + b)
    ensures 30 + a in BegunBy(ph, start) && 33 + b in BegunBy(ph, start)
    ensures BegunBy(ph, start)[30 + a] == start + gap && BegunBy(ph, start)[33 + b] == start + 18
  {
    OnlyRegionsBegun(ph, start, n);
    OnlyRegionsBegun(ph, start, 30 + a);
    OnlyRegionsBegun(ph, start, 33 + b);
    hide BegunBy;
  }

  /** Both have a command in that second, and nobody else. */
  lemma HopIsTied(ph: Phases, start: nat, b: nat, a: nat, gap: nat, k: nat)
    requires Tie(gap, k) && Hopping(ph, b, a, gap)
    ensures a < 3 && b < 3 && Tied(BegunBy(ph, start), start + k, 30 + a, 33 + b)
  {
    hide Hopping, BegunBy, SendsAt;
    TwoBegun(ph, start, b, a, gap, 30 + a);
    TieTimes(b, a, gap, k);
    var begun, now := BegunBy(ph, start), start + k;
    forall x: nat | SendsNow(begun, now, x) ensures x == 30 + a || x == 33 + b {
      TwoBegun(ph, start, b, a, gap, x);
    }
  }

  /** After the second before, the selected command is not the leave sequence's. */
  lemma HopSelection(c: Craft, ph: Phases, start: nat, b: nat, a: nat, gap: nat, k: nat, t: Telemetry)
    requires Tie(gap, k + 1) && ClockState(c, ph, start, start + k) && start + k + 5 < MAX_TIME && Quiet(t)
    requires Hopping(WokenAll(ph, k), b, a, gap) && Measurable(t) && Sound(c)
    ensures var c' := Second(c, t, start + k).c; c'.sel.Chosen? ==> c'.sel.index != 32 + b
  {
    hide ClockState, BegunBy, WokenAll, Wakes, Samples, SampleRuns, Quiet, Sound, Measurable, Hopping, SampledAps, Starting, OnSchedule, Ongoing, Tied, Total;
    ClockIsSchedule(c, ph, start, start + k);
    OnlyRegionsBegun(ph, start, 29);
    forall n: nat | RegionTokens.IsRegion(n) && InFlight(ph, n) ensures k <= ph[RegionOf(n)].since + Total(n) {
      ClockSince(c, ph, start, k, n);
    }
    OngoingRegions(ph, start, k);
    HopIsTied(WokenAll(ph, k), start, b, a, gap, k + 1);
    TieIsSelected(c, BegunBy(ph, start), start + k, 29, 30 + a, 33 + b);
    WakeKeepsClock(c, ph, start, k);
    SampleKeepsClock(Wakes(c, start + k).c, WokenAll(ph, k), start, k, t);
  }

  /** So the enter sequence's command goes first: with a gap of 25 it switches the star tracker on just
      before the leave sequence switches it off, ... */
  lemma LongHopTied(c: Craft, ph: Phases, start: nat, b: nat, a: nat)
    requires ClockState(c, ph, start, start + 28) && start + 33 < MAX_TIME && Hopping(ph, b, a, 25)
    requires c.sel.Chosen? ==> c.sel.index != 32 + b
    ensures Sound(c) && Read(Wakes(c, start + 28).c.s, TrackerSwitchState) == On(false)
  {
    hide ClockState, OnSchedule, BegunBy, Flying, Valid, Wakes, Sound, Hopping, Fresh, Read, Tied, WriteAt, WritesNow;
    var begun := BegunBy(ph, start);
    ClockIsSchedule(c, ph, start, start + 28);
    HopIsTied(ph, start, b, a, 25, 28);
    TwoBegun(ph, start, b, a, 25, 29);
    LeaveSwitchesOff(begun, start, b);
    TieWrites(c, begun, start + 28, 29, 30 + a, 33 + b, TrackerSwitchState);
  }

  /** ... with a gap of 4 it ends its climb just before the descent. */
  lemma ShortHopTied(c: Craft, ph: Phases, start: nat, b: nat, a: nat)
    requires ClockState(c, ph, start, start + 20) && start + 25 < MAX_TIME && Hopping(ph, b, a, 4)
    requires c.sel.Chosen? ==> c.sel.index != 32 + b
    ensures Sound(c) && Runs(c.s, Wakes(c, start + 20), false, true)
  {
    hide ClockState, OnSchedule, BegunBy, Sent, AfterSend, Legal, Final, Flying, SendsNow, SentEvents, Valid, Wakes, Sound, Hopping, Fresh, Advanced, NeverCrossed, Sendable, Tied, SentBefore;
    var begun, now := BegunBy(ph, start), start + 20;
    ClockIsSchedule(c, ph, start, now);
    HopIsTied(ph, start, b, a, 4, 20);
    TwoBegun(ph, start, b, a, 4, 29);
    TieInOrder(c, begun, now, 29, 30 + a, 33 + b);
    WakeEffect(c, begun, now, 29);
    BegunKeys(c, begun, now);
    forall n: nat ensures n in c.s.run <==> n == 30 + a || n == 33 + b {
      TwoBegun(ph, start, b, a, 4, n);
    }
    PositionNow(c, begun, now, 30 + a);
    PositionNow(c, begun, now, 33 + b);
    TieTimes(b, a, 4, 20);
    InTurn(c.s, 30 + a, 33 + b);
  }

  lemma LeaveSwitchesOff(begun: Begun, start: nat, b: nat)
    requires b < 3 && 33 + b in begun && begun[33 + b] == start + 18
    ensures WritesNow(begun, start + 28, 33 + b, TrackerSwitchState) && WriteAt(33 + b, TrackerSwitchState).v == On(false)
  {
    RungWrites(33 + b, TrackerSwitchState);
    hide WriteAt, Age, Length;
  }

  /** The last climbing command before the first descending one crosses nothing. */
  lemma InTurn(s: State, m: nat, n: nat)
    requires 30 <= m <= 32 && 33 <= n <= 35 && Flying(s) && Sendable(s, [m - 1, n - 1])
    requires (forall x: nat :: x in s.run <==> x == m || x == n) && s.run[m] == 7 && s.run[n] == 1
    ensures Valid(s) && Legal(s, SentEvents([m - 1, n - 1])) && NeverCrossed(s, SentEvents([m - 1, n - 1]))
  {
    hide Flying, AfterSend, Next, Enabled, Valid, Sendable, Uncrossed;
    FlightIsValid(s);
    SendsAll(s, [m - 1, n - 1]);
    SendsOneKeepsFlight(s, m);
    var es, s1 := SentEvents([m - 1, n - 1]), Next(s, Exec(m));
    assert es[0] == Exec(m) && es[1..] == [Exec(n)] && [Exec(n)][1..] == [];
    FlightIsValid(s1);
    SendsOneKeepsFlight(s1, n);
    var s2 := Next(s1, Exec(n));
    FlightIsValid(s2);
    TurnUncrossed(s.run, m, n);
    TurnUncrossed(s1.run, m, n);
    TurnUncrossed(s2.run, m, n);
    assert NeverCrossed(s2, []) && NeverCrossed(s1, [Exec(n)]);
  }

  lemma TurnUncrossed(run: map<nat, nat>, m: nat, n: nat)
    requires 30 <= m <= 32 && 33 <= n <= 35 && (forall x: nat :: x in run ==> x == m || x == n)
    requires m in run && n in run ==> run[m] >= 8 || run[n] <= 1
    ensures Uncrossed(run)
  {
  }

  // ------------------------------------------------------------ which gaps keep the chain

  /** The second of the tie. */
  lemma HopTiedSecond(c: Craft, ts: seq<Telemetry>, start: nat, b: nat, a: nat, gap: nat, k: nat)
    requires HopFlight(c, ts, start, b, a, gap) && Tie(gap, k) && k < |ts|
    ensures AllMeasurable(ts) && Sound(c)
    ensures gap == 25 ==> Read(Flight(c, ts, start, k + 1).c.s, TrackerSwitchState) == On(false)
    ensures var before := Flight(c, ts, start, k);
      Sound(before.c) && (gap == 4 ==> Runs(before.c.s, Second(before.c, ts[k], start + k), false, true))
  {
    hide ClockState, HopFlight, Flight, AtStart, Quiet, PositionOf, Sound, Hop, Second, Measurable, Read, Wakes, AllMeasurable, Runs, PhasesAt, WokenAll, Hopping;
    HopAt(c, ts, start, b, a, gap, k - 1);
    HopAt(c, ts, start, b, a, gap, k);
    var was, c', ps := Flight(c, ts, start, k - 1).c, Flight(c, ts, start, k).c, Positions(ts);
    HopIsHopping(ps, b, a, gap, k);
    QuietMeasurable(ts[k - 1]);
    HopSelection(was, PhasesAt(ps, k - 1), start, b, a, gap, k - 1, ts[k - 1]);
    if gap == 25 {
      LongHopTied(c', PhasesAt(ps, k), start, b, a);
    } else {
      ShortHopTied(c', PhasesAt(ps, k), start, b, a);
    }
    SecondReads(c', ts[k], ps, start, k, TrackerSwitchState);
    if gap == 4 {
      SecondRunsOn(c', ts[k], ps, start, k, false, true);
    }
  }

  lemma HopClear(ps: seq<Position>, b: nat, a: nat, gap: nat, j: nat)
    requires Hop(ps, b, a, gap) && gap <= 4 && j < |ps| && !Tie(gap, j)
    ensures Clear(PhasesAt(ps, j), j)
  {
    if j > 0 {
      HopPhases(ps, b, a, gap, 0, j);
      HopPhases(ps, b, a, gap, 1, j);
      HopPhases(ps, b, a, gap, 2, j);
      hide PhaseAfter, Hop;
    }
  }

  /** With a gap of at most four the enter sequence has ended its climb when the descent begins. */
  lemma {:induction false} ShortHopRuns(c: Craft, ts: seq<Telemetry>, start: nat, b: nat, a: nat, gap: nat, k: nat)
    requires HopFlight(c, ts, start, b, a, gap) && gap <= 4 && k <= |ts|
    ensures AllMeasurable(ts) && Sound(c) && Runs(c.s, Flight(c, ts, start, k), false, true)
    decreases k
  {
    hide ClockState, Second, Quiet, PositionOf, Sound, Runs, PhasesAt, Hop, Clear, OnClock;
    QuietAll(ts);
    StartSound(c, start, Positions(ts), false, true);
    if k > 0 {
      var j := k - 1;
      ShortHopRuns(c, ts, start, b, a, gap, j);
      HopAt(c, ts, start, b, a, gap, j);
      var before := Flight(c, ts, start, j);
      var second := Second(before.c, ts[j], start + j);
      if Tie(gap, j) {
        HopTiedSecond(c, ts, start, b, a, gap, j);
      } else {
        HopClear(Positions(ts), b, a, gap, j);
        SecondRuns(before.c, ts[j], Positions(ts), start, j);
        RunsLess(before.c.s, second, Separated(Positions(ts), ENTER_TIME + LEAVE_TIME), true, false, true);
      }
      RunsTogether(c.s, before, second, false, true);
    }
  }

  lemma BrokenRungs(s: State)
    requires Read(s, InstrumentAppState) == On(true) && Read(s, TrackerSwitchState) == On(false)
    ensures !Chain(s.hw)
  {
    var hw := s.hw;
    assert Rung(hw, 5) && !Rung(hw, 1);
    assert Chain(hw) ==> (Rung(hw, 5) ==> Rung(hw, 4)) && (Rung(hw, 4) ==> Rung(hw, 3)) && (Rung(hw, 3) ==> Rung(hw, 2)) && (Rung(hw, 2) ==> Rung(hw, 1));
  }

  /** With a gap from 5 to 25 the enter sequence has the last word on the instrument and the leave
      sequence on the star tracker: the flight ends with the instrument enabled and the tracker off. */
  lemma HopBreaksChain(c: Craft, ts: seq<Telemetry>, start: nat, b: nat, a: nat, gap: nat)
    requires HopFlight(c, ts, start, b, a, gap) && 5 <= gap <= 25 && |ts| > gap + 16 && |ts| > 28
    ensures AllMeasurable(ts) && Sound(c)
    ensures var hw := Flight(c, ts, start, |ts|).c.s.hw; hw.instrumentApp && !hw.trackerSwitch && !Chain(hw)
  {
    hide HopFlight, Flight, Sound, Read, AllMeasurable, Chain;
    HopSecond(c, ts, start, b, a, gap, gap + 16, InstrumentAppState);
    HopKeeps(c, ts, start, b, a, gap, InstrumentAppState, gap + 17, |ts|);
    if gap == 25 {
      HopTiedSecond(c, ts, start, b, a, gap, 28);
    } else {
      HopSecond(c, ts, start, b, a, gap, 28, TrackerSwitchState);
    }
    HopKeeps(c, ts, start, b, a, gap, TrackerSwitchState, 29, |ts|);
    var s := Flight(c, ts, start, |ts|).c.s;
    BrokenRungs(s);
    OutermostRead(s);
  }

  lemma OutermostRead(s: State)
    ensures Read(s, InstrumentAppState) == On(s.hw.instrumentApp) && Read(s, TrackerSwitchState) == On(s.hw.trackerSwitch)
  {
  }

  ghost predicate ChainAfter(s: State, es: seq<Event>, m: nat)
    requires m <= |es|
  {
    Valid(s) && Legal(s, es[..m]) && Chain(Final(s, es[..m]).hw)
  }

  lemma ShortHopKeepsChain(c: Craft, ts: seq<Telemetry>, start: nat, b: nat, a: nat, gap: nat, m: nat)
    requires HopFlight(c, ts, start, b, a, gap) && gap <= 4 && Chain(c.s.hw)
    requires AllMeasurable(ts) && Sound(c) && m <= |Flight(c, ts, start, |ts|).es|
    ensures ChainAfter(c.s, Flight(c, ts, start, |ts|).es, m)
  {
    ShortHopRuns(c, ts, start, b, a, gap, |ts|);
    NothingBegun(c, start);
    hide Flight, ClockState, Hop;
    ChainHoldsThroughout(c.s, Flight(c, ts, start, |ts|).es, m);
  }

  lemma LongHopKeepsChain(c: Craft, ts: seq<Telemetry>, start: nat, b: nat, a: nat, gap: nat, m: nat)
    requires HopFlight(c, ts, start, b, a, gap) && gap >= 26 && Chain(c.s.hw)
    requires AllMeasurable(ts) && Sound(c) && m <= |Flight(c, ts, start, |ts|).es|
    ensures ChainAfter(c.s, Flight(c, ts, start, |ts|).es, m)
  {
    HopSeparation(Positions(ts), b, a, gap);
    hide Flight, ClockState, Hop;
    SeparatedFlightKeepsChain(c, ts, start, m);
  }

  /** The chain holds after every event of a hop exactly when the gap is at most 4 or at least 26
      seconds, for any two regions, from any start, and however long the flight goes on. */
  lemma HopKeepsChainIff(c: Craft, ts: seq<Telemetry>, start: nat, b: nat, a: nat, gap: nat)
    requires HopFlight(c, ts, start, b, a, gap) && Chain(c.s.hw) && |ts| > gap + 16 && |ts| > 28
    ensures AllMeasurable(ts) && Sound(c)
    ensures var es := Flight(c, ts, start, |ts|).es;
      (forall m: nat :: m <= |es| ==> ChainAfter(c.s, es, m)) <==> gap <= 4 || gap >= 26
  {
    hide Flight, ClockState, OnClock, Hop, Sound, HopFlight, Valid, Legal, Final, ChainAfter, Chain, Quiet, PositionOf;
    HopAt(c, ts, start, b, a, gap, 0);
    var w := Flight(c, ts, start, |ts|);
    if 5 <= gap <= 25 {
      HopBreaksChain(c, ts, start, b, a, gap);
      FlightEnds(c, ts, start, b, a, gap);
    } else {
      forall m: nat | m <= |w.es| ensures ChainAfter(c.s, w.es, m) {
        if gap <= 4 {
          ShortHopKeepsChain(c, ts, start, b, a, gap, m);
        } else {
          LongHopKeepsChain(c, ts, start, b, a, gap, m);
        }
      }
    }
  }

  lemma RunsParts(s: State, w: Stretch, unmixed: bool, uncrossed: bool)
    requires Runs(s, w, unmixed, uncrossed)
    ensures Valid(s) && Legal(s, w.es) && w.c.s == Final(s, w.es)
  {
  }

  lemma EndOfRun(s: State, w: Stretch)
    requires Valid(s) && Legal(s, w.es) && w.c.s == Final(s, w.es)
    ensures ChainAfter(s, w.es, |w.es|) <==> Chain(w.c.s.hw)
  {
    assert w.es[..|w.es|] == w.es;
  }

  lemma FlightEnds(c: Craft, ts: seq<Telemetry>, start: nat, b: nat, a: nat, gap: nat)
    requires HopFlight(c, ts, start, b, a, gap)
    ensures AllMeasurable(ts) && Sound(c)
    ensures var w := Flight(c, ts, start, |ts|); ChainAfter(c.s, w.es, |w.es|) <==> Chain(w.c.s.hw)
  {
    hide Flight, ClockState, Hop, Chain, Runs, Legal, Final, Valid, OnClock, AllQuiet, AllMeasurable, Sound, Separated, ClearUntil;
    QuietAll(ts);
    FlightKeepsClock(c, ts, start, |ts|);
    var w := Flight(c, ts, start, |ts|);
    RunsParts(c.s, w, Separated(Positions(ts), ENTER_TIME + LEAVE_TIME), ClearUntil(Positions(ts), |ts|));
    EndOfRun(c.s, w);
  }

  /** So twenty-six seconds are the least: positions 25 seconds apart do not keep the chain. */
  lemma TwentySixIsLeast(c: Craft, ts: seq<Telemetry>, start: nat, b: nat, a: nat)
    requires HopFlight(c, ts, start, b, a, 25) && |ts| > 41
    ensures Separated(Positions(ts), 25) && !Separated(Positions(ts), 26)
    ensures AllMeasurable(ts) && Sound(c) && !Chain(Flight(c, ts, start, |ts|).c.s.hw)
  {
    hide Flight, Sound, Hop, Separated, Chain, ClockState;
    HopSeparation(Positions(ts), b, a, 25);
    HopBreaksChain(c, ts, start, b, a, 25);
  }
}
