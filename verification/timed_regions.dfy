/** Science passes against the clock: when the regions' sequences run, whatever the positions. */
module TimedRegions {
  import opened LcRpn
  import opened LcActionpoint
  import opened LcRegions
  import opened ScienceTables
  import opened PowerChain
  import opened RegionTokens
  import opened Registers
  import opened StoredCommand
  import opened TimedRuns
  import SequenceRuns
  import Watchdogs

  // ------------------------------------------------------------ the region clock

  /** Where one region stands, and since which second. */
  datatype Phase =
    | EnterArmed
    | Entering(since: nat)
    | LeaveArmed(seen: nat)            // last second the spacecraft is known to have been inside
    | Leaving(since: nat, seen: nat)

  const ENTER_TIME: nat := 18
  const LEAVE_TIME: nat := 12

  function WokenPhase(ph: Phase, j: nat): Phase
  {
    if ph.Entering? && j == ph.since + ENTER_TIME then LeaveArmed(ph.since)
    else if ph.Leaving? && j == ph.since + LEAVE_TIME then EnterArmed
    else ph
  }

  function SampledPhase(ph: Phase, inside: bool, j: nat): Phase
  {
    match ph
    case EnterArmed => if inside then Entering(j) else ph
    case LeaveArmed(seen) => if inside then LeaveArmed(j) else Leaving(j, seen)
    case _ => ph
  }

  /** Region r's phase after `k` seconds, from its position alone. */
  function PhaseAfter(r: nat, ps: seq<Position>, k: nat): Phase
    requires k <= |ps|
  {
    if k == 0 then EnterArmed
    else SampledPhase(WokenPhase(PhaseAfter(r, ps, k - 1), k - 1), ps[k - 1] == Over(r), k - 1)
  }

  /** The phase accounts for when and where the spacecraft was inside the region. */
  predicate Accounts(ph: Phase, r: nat, ps: seq<Position>, k: nat)
    requires k <= |ps|
  {
    match ph
    case EnterArmed => true
    case Entering(since) => since < k <= since + ENTER_TIME && ps[since] == Over(r)
    case LeaveArmed(seen) => seen + 1 == k && ps[seen] == Over(r)
    case Leaving(since, seen) =>
      since < k <= since + LEAVE_TIME && seen < since <= seen + ENTER_TIME && ps[seen] == Over(r)
  }

  lemma {:induction false} PhaseAccounts(r: nat, ps: seq<Position>, k: nat)
    requires k <= |ps|
    ensures Accounts(PhaseAfter(r, ps, k), r, ps, k)
  {
    if k > 0 {
      PhaseAccounts(r, ps, k - 1);
    }
  }

  /** Positions over two different regions are at least `gap` seconds apart. */
  predicate Separated(ps: seq<Position>, gap: nat)
  {
    forall i, j :: 0 <= i < j < |ps| && ps[i].Over? && ps[j].Over? && ps[i] != ps[j] ==> j - i >= gap
  }

  /** With thirty seconds between regions, no region is being entered while another is being left. */
  lemma NoOverlap(a: nat, b: nat, ps: seq<Position>, k: nat)
    requires k <= |ps| && a != b && Separated(ps, ENTER_TIME + LEAVE_TIME)
    ensures !(PhaseAfter(a, ps, k).Entering? && PhaseAfter(b, ps, k).Leaving?)
  {
    PhaseAccounts(a, ps, k);
    PhaseAccounts(b, ps, k);
  }

  /** With twenty-six, a region being entered while another is being left was entered so late that
      its first power command comes after the other's last. */
  lemma EntersLate(a: nat, b: nat, ps: seq<Position>, k: nat)
    requires k <= |ps| && a != b && Separated(ps, 26)
    requires PhaseAfter(a, ps, k).Entering? && PhaseAfter(b, ps, k).Leaving?
    ensures PhaseAfter(a, ps, k).since >= PhaseAfter(b, ps, k).since + 8
  {
    PhaseAccounts(a, ps, k);
    PhaseAccounts(b, ps, k);
    hide PhaseAfter;
    var e, l := PhaseAfter(a, ps, k), PhaseAfter(b, ps, k);
    assert ps[e.since] == Over(a) && ps[l.seen] == Over(b);
  }

  // ------------------------------------------------------------ the clock and the schedule

  type Phases = ph: seq<Phase> | |ph| == 3 witness [EnterArmed, EnterArmed, EnterArmed]

  function RegionOf(n: nat): nat
    requires IsRegion(n)
  {
    if n <= 32 then n - 30 else n - 33
  }

  predicate InFlight(ph: Phases, n: nat)
    requires IsRegion(n)
  {
    if n <= 32 then ph[RegionOf(n)].Entering? else ph[RegionOf(n)].Leaving?
  }

  /** The region sequences in flight, seconds being counted from `start`. */
  function BegunBy(ph: Phases, start: nat): Begun
  {
    map n: nat | 30 <= n <= 35 && InFlight(ph, n) :: start + ph[RegionOf(n)].since
  }

  /** When second `from` comes the craft is on the schedule its regions' phases set, and armed
      accordingly; only region sequences are in flight. */
  ghost predicate ClockState(c: Craft, ph: Phases, start: nat, from: nat)
  {
    && OnSchedule(c, BegunBy(ph, start), from) && !IsActive(c.s, 26) && !IsActive(c.s, 28)
    && (forall n: nat :: IsRegion(n) ==> (IsActive(c.s, n) <==> ArmedBy(ph, n)))
  }

  function WokenAll(ph: Phases, j: nat): (w: Phases)
    ensures forall r: nat :: r < 3 ==> w[r] == WokenPhase(ph[r], j)
  {
    [WokenPhase(ph[0], j), WokenPhase(ph[1], j), WokenPhase(ph[2], j)]
  }

  function SampledAll(ph: Phases, p: Position, j: nat): (w: Phases)
    ensures forall r: nat :: r < 3 ==> w[r] == SampledPhase(ph[r], p == Over(r), j)
  {
    [SampledPhase(ph[0], p == Over(0), j), SampledPhase(ph[1], p == Over(1), j), SampledPhase(ph[2], p == Over(2), j)]
  }

  function PhasesAt(ps: seq<Position>, k: nat): Phases
    requires k <= |ps|
  {
    [PhaseAfter(0, ps, k), PhaseAfter(1, ps, k), PhaseAfter(2, ps, k)]
  }

  // ------------------------------------------------------------ the wakeup keeps the clock

  /** The actionpoint a region sequence arms with its last command. */
  function Partner(n: nat): nat
    requires IsRegion(n)
  {
    if n <= 32 then n + 3 else n - 3
  }

  lemma RegionWrites(n: nat, a: nat)
    requires IsRegion(n)
    ensures WriteAt(n, Ap(a)) == if a == Partner(n) then At(Length(n) - 1, ApIs(Active)) else Never
    ensures Total(n) == if n <= 32 then ENTER_TIME else LEAVE_TIME
  {
    Totals(n);
    RegionCommands(n, 0);
  }

  lemma OnlyRegionsBegun(ph: Phases, start: nat, n: nat)
    ensures n in BegunBy(ph, start) <==> IsRegion(n) && InFlight(ph, n)
    ensures n in BegunBy(ph, start) ==> BegunBy(ph, start)[n] == start + ph[RegionOf(n)].since
  {
  }

  lemma OtherWrites(ph: Phases, start: nat, now: nat, a: nat, m: nat)
    requires !IsRegion(a) || m != Partner(a)
    ensures !WritesNow(BegunBy(ph, start), now, m, Ap(a))
  {
    OnlyRegionsBegun(ph, start, m);
    if m in BegunBy(ph, start) {
      RegionWrites(m, a);
    }
  }

  /** A region sequence ends in its last second, and arms its partner in that second alone. */
  lemma WakeArms(c: Craft, ph: Phases, start: nat, now: nat, a: nat)
    requires OnSchedule(c, BegunBy(ph, start), now) && now + 5 < MAX_TIME && 25 <= a <= 36
    ensures Sound(c) && (Read(Wakes(c, now).c.s, Ap(a)) == if ArmedNow(ph, start, now, a) then ApIs(Active) else Read(c.s, Ap(a)))
  {
    ScheduleIsSound(c, BegunBy(ph, start), now);
    hide OnSchedule, Wakes, Read, WriteAt, Total, BegunBy, WritesNow;
    var n := if IsRegion(a) then Partner(a) else 30;
    assert IsRegion(a) ==> Partner(Partner(a)) == a;
    forall m: nat | m != n ensures !WritesNow(BegunBy(ph, start), now, m, Ap(a)) {
      OtherWrites(ph, start, now, a, m);
    }
    OnlyRegionsBegun(ph, start, 29);
    PartnerWrites(ph, start, now, a, n);
    WakeWrites(c, BegunBy(ph, start), now, 29, Ap(a), n);
  }

  /** The region sequence that arms `a` sends its last command in second `now`. */
  predicate ArmedNow(ph: Phases, start: nat, now: nat, a: nat)
  {
    IsRegion(a) && InFlight(ph, Partner(a)) && now == start + ph[RegionOf(Partner(a))].since + Total(Partner(a))
  }

  lemma PartnerWrites(ph: Phases, start: nat, now: nat, a: nat, n: nat)
    requires IsRegion(n) && (IsRegion(a) ==> n == Partner(a) && Partner(n) == a)
    ensures WritesNow(BegunBy(ph, start), now, n, Ap(a)) <==> ArmedNow(ph, start, now, a)
    ensures ArmedNow(ph, start, now, a) ==> WriteAt(n, Ap(a)).At? && WriteAt(n, Ap(a)).v == ApIs(Active)
  {
    RegionWrites(n, a);
    OnlyRegionsBegun(ph, start, n);
    TimedLength(n);
    hide WriteAt, BegunBy, Elapsed;
  }

  predicate SameAt(x: Begun, y: Begun, n: nat) { (n in x <==> n in y) && (n in y ==> x[n] == y[n]) }

  lemma SameEverywhere(x: Begun, y: Begun)
    requires forall n: nat :: SameAt(x, y, n)
    ensures x == y
  {
    forall n: nat ensures (n in x <==> n in y) && (n in y ==> x[n] == y[n]) {
      assert SameAt(x, y, n);
    }
  }

  lemma OngoingRegion(ph: Phases, start: nat, j: nat, n: nat)
    requires IsRegion(n) && InFlight(ph, n) ==> j <= ph[RegionOf(n)].since + Total(n)
    ensures SameAt(Ongoing(BegunBy(ph, start), start + j + 1), BegunBy(WokenAll(ph, j), start), n)
  {
    hide Total, BegunBy, WokenAll, SentBefore, Length;
    OnlyRegionsBegun(ph, start, n);
    OnlyRegionsBegun(WokenAll(ph, j), start, n);
    if IsRegion(n) {
      RegionWrites(n, 25);
      if InFlight(ph, n) {
        DoneWhenTotal(n, start + j + 1 - BegunBy(ph, start)[n]);
      }
    }
  }

  lemma OngoingRegions(ph: Phases, start: nat, j: nat)
    requires forall n: nat :: IsRegion(n) && InFlight(ph, n) ==> j <= ph[RegionOf(n)].since + Total(n)
    ensures Ongoing(BegunBy(ph, start), start + j + 1) == BegunBy(WokenAll(ph, j), start)
  {
    hide Total, BegunBy, WokenAll, Ongoing, SameAt;
    var x, y := Ongoing(BegunBy(ph, start), start + j + 1), BegunBy(WokenAll(ph, j), start);
    forall n: nat ensures SameAt(x, y, n) {
      OngoingRegion(ph, start, j, n);
    }
    SameEverywhere(x, y);
  }

  lemma ClockIsSchedule(c: Craft, ph: Phases, start: nat, from: nat)
    requires ClockState(c, ph, start, from)
    ensures OnSchedule(c, BegunBy(ph, start), from) && Flying(c.s) && Sound(c) && Valid(c.s)
  {
    ScheduleIsFlying(c, BegunBy(ph, start), from);
  }

  lemma ClockSince(c: Craft, ph: Phases, start: nat, j: nat, n: nat)
    requires ClockState(c, ph, start, start + j) && IsRegion(n) && InFlight(ph, n)
    ensures ph[RegionOf(n)].since < j <= ph[RegionOf(n)].since + Total(n)
  {
    hide OnSchedule, Total, BegunBy, SentBefore, Timely;
    var begun := BegunBy(ph, start);
    OnlyRegionsBegun(ph, start, n);
    BegunIsTimed(c, begun, start + j, n);
    ScheduleEntry(c, begun, start + j, n);
    TimelyBounds(c, n, begun[n], start + j);
    DoneWhenTotal(n, start + j - begun[n]);
  }

  lemma TimelyBounds(c: Craft, n: nat, begun: nat, from: nat)
    requires Timely(c, n, begun, from)
    ensures IsTimed(n) && SentBefore(n, from - begun) < Length(n)
  {
  }

  predicate ArmedBy(ph: Phases, n: nat)
    requires IsRegion(n)
  {
    if n <= 32 then ph[RegionOf(n)].EnterArmed? else ph[RegionOf(n)].LeaveArmed?
  }

  lemma ClockArmed(c: Craft, ph: Phases, start: nat, from: nat, n: nat)
    requires ClockState(c, ph, start, from)
    ensures IsRegion(n) ==> (IsActive(c.s, n) <==> ArmedBy(ph, n))
    ensures !IsActive(c.s, 26) && !IsActive(c.s, 28)
  {
    hide OnSchedule;
  }

  /** What the wakeup leaves armed. */
  lemma WakeKeepsArmed(c: Craft, ph: Phases, start: nat, j: nat, n: nat)
    requires ClockState(c, ph, start, start + j) && start + j + 5 < MAX_TIME && (IsRegion(n) || n == 26 || n == 28)
    ensures Sound(c)
    ensures IsActive(Wakes(c, start + j).c.s, n) <==> IsRegion(n) && ArmedBy(WokenAll(ph, j), n)
  {
    hide ClockState, OnSchedule, Wakes, Read, IsActive, Flying, WokenAll, ArmedBy, BegunBy, Valid, Total, Sound, Fresh, Partner;
    ClockIsSchedule(c, ph, start, start + j);
    ClockArmed(c, ph, start, start + j, n);
    WakeArms(c, ph, start, start + j, n);
    ActiveIsRead(c.s, n);
    ActiveIsRead(Wakes(c, start + j).c.s, n);
    if IsRegion(n) {
      PartnerPhase(ph, start, j, n);
    }
  }

  lemma PartnerPhase(ph: Phases, start: nat, j: nat, n: nat)
    requires IsRegion(n)
    ensures ArmedBy(WokenAll(ph, j), n) <==> ArmedBy(ph, n) || ArmedNow(ph, start, start + j, n)
  {
    RegionWrites(Partner(n), 25);
    hide Total, WriteAt, WokenAll;
  }

  /** The wakeup of second `start + j` takes every region to the phase its clock says. */
  lemma WakeKeepsClock(c: Craft, ph: Phases, start: nat, j: nat)
    requires ClockState(c, ph, start, start + j) && start + j + 5 < MAX_TIME
    ensures Sound(c) && ClockState(Wakes(c, start + j).c, WokenAll(ph, j), start, start + j + 1)
  {
    hide OnSchedule, Wakes, Total, IsActive, BegunBy, Flying, WokenAll, ArmedBy, Sound, Fresh, Valid, Ongoing;
    ClockIsSchedule(c, ph, start, start + j);
    OnlyRegionsBegun(ph, start, 29);
    WakeKeepsSchedule(c, BegunBy(ph, start), start + j, 29);
    WakeKeepsArmed(c, ph, start, j, 26);
    WakeKeepsArmed(c, ph, start, j, 28);
    forall n: nat | IsRegion(n)
      ensures InFlight(ph, n) ==> j <= ph[RegionOf(n)].since + Total(n)
      ensures IsActive(Wakes(c, start + j).c.s, n) <==> ArmedBy(WokenAll(ph, j), n)
    {
      WakeKeepsArmed(c, ph, start, j, n);
      if InFlight(ph, n) {
        ClockSince(c, ph, start, j, n);
      }
    }
    OngoingRegions(ph, start, j);
  }

  // ------------------------------------------------------------ the sample keeps the clock

  /** Science mode with a charged battery and a healthy instrument. */
  predicate Quiet(t: Telemetry)
  {
    Measurable(t) && t.mode == SCIENCE_MODE && t.volts >= 24240 && t.deviceStatus == 0
  }

  /** Then only region actionpoints can fire, apart from the entry and recharged. */
  lemma QuietFires(t: Telemetry, ap: nat)
    requires Quiet(t) && 25 <= ap <= 36
    ensures TrueNow(ap, t) ==> ap == 26 || ap == 28 || IsRegion(ap)
    ensures IsEnter(ap) ==> (TrueNow(ap, t) <==> PositionOf(t) == Over(ap - 30))
    ensures 33 <= ap <= 35 ==> (TrueNow(ap, t) <==> PositionOf(t) != Over(ap - 33))
  {
    EquationMeans(ap, t);
    hide Evaluation, PositionOf;
  }

  lemma QuietIsCalm(s: State, t: Telemetry)
    requires Quiet(t) && !IsActive(s, 26)
    ensures Calm(s, t)
  {
    QuietFires(t, 25);
    QuietFires(t, 36);
    hide TrueNow;
  }

  predicate ArmedAndThere(ph: Phases, n: nat, p: Position)
    requires IsRegion(n)
  {
    if n <= 32 then ph[RegionOf(n)].EnterArmed? && p == Over(RegionOf(n))
    else ph[RegionOf(n)].LeaveArmed? && p != Over(RegionOf(n))
  }

  /** Which timed actionpoints fire in a quiet sample. */
  lemma FiresIfArmed(c: Craft, ph: Phases, start: nat, j: nat, t: Telemetry, n: nat)
    requires Quiet(t) && ClockState(c, ph, start, start + j + 1) && IsTimed(n)
    ensures Fires(c.s, t, n) <==> IsRegion(n) && ArmedAndThere(ph, n, PositionOf(t))
  {
    QuietFires(t, n);
    hide OnSchedule, TrueNow, PositionOf, BegunBy;
  }

  lemma QuietStart(c: Craft, ph: Phases, start: nat, j: nat, t: Telemetry, n: nat)
    requires Quiet(t) && ClockState(c, ph, start, start + j + 1)
    ensures SameAt(Starting(BegunBy(ph, start), c.s, t, start + j, 25), BegunBy(SampledAll(ph, PositionOf(t), j), start), n)
  {
    hide ClockState, TrueNow, PositionOf, BegunBy, Fires, Quiet, SampledAll, Measurable;
    QuietMeasurable(t);
    if IsRegion(n) && InFlight(ph, n) {
      ClockSince(c, ph, start, j + 1, n);
    }
    OnlyRegionsBegun(ph, start, n);
    OnlyRegionsBegun(SampledAll(ph, PositionOf(t), j), start, n);
    if IsTimed(n) {
      FiresIfArmed(c, ph, start, j, t, n);
    }
  }

  lemma QuietStarts(c: Craft, ph: Phases, start: nat, j: nat, t: Telemetry)
    requires Quiet(t) && ClockState(c, ph, start, start + j + 1)
    ensures Starting(BegunBy(ph, start), c.s, t, start + j, 25) == BegunBy(SampledAll(ph, PositionOf(t), j), start)
  {
    hide ClockState, TrueNow, PositionOf, BegunBy, Fires, Quiet, Starting, SampledAll, Measurable, SameAt;
    QuietMeasurable(t);
    var x, y := Starting(BegunBy(ph, start), c.s, t, start + j, 25), BegunBy(SampledAll(ph, PositionOf(t), j), start);
    forall n: nat ensures SameAt(x, y, n) {
      QuietStart(c, ph, start, j, t, n);
    }
    SameEverywhere(x, y);
  }

  lemma SampleKeepsArmed(c: Craft, ph: Phases, start: nat, j: nat, t: Telemetry, s': State, n: nat)
    requires ClockState(c, ph, start, start + j + 1) && Quiet(t) && SampledAps(c.s, t, 25, s')
    ensures IsRegion(n) ==> (IsActive(s', n) <==> ArmedBy(SampledAll(ph, PositionOf(t), j), n))
    ensures n == 26 || n == 28 ==> !IsActive(s', n)
  {
    hide ClockState, TrueNow, PositionOf, Fires, Quiet, SampledAps, IsActive, SampledAll, Measurable;
    QuietMeasurable(t);
    SampledActive(c.s, t, n, s');
    ClockArmed(c, ph, start, start + j + 1, n);
    if IsTimed(n) {
      FiresIfArmed(c, ph, start, j, t, n);
    }
  }

  /** A quiet sample takes every region to the phase its position calls for. */
  lemma SampleKeepsClock(c: Craft, ph: Phases, start: nat, j: nat, t: Telemetry)
    requires ClockState(c, ph, start, start + j + 1) && start + j + 5 < MAX_TIME && Quiet(t)
    ensures Sound(c) && Valid(c.s) && ClockState(Samples(c, t, start + j, 25).c, SampledAll(ph, PositionOf(t), j), start, start + j + 1)
    ensures SampleKeeps(c, t, BegunBy(ph, start), start + j, 25, Samples(c, t, start + j, 25))
  {
    hide OnSchedule, PositionOf, BegunBy, TrueNow, Samples, Flying, Calm, Quiet, IsActive, Starting, SampledAps, SampleRuns, SampledAll, ArmedBy, Sound, Valid, Fresh, Measurable;
    ClockIsSchedule(c, ph, start, start + j + 1);
    ClockArmed(c, ph, start, start + j + 1, 26);
    QuietIsCalm(c.s, t);
    QuietMeasurable(t);
    SampleEffect(c, t, BegunBy(ph, start), start + j, 25);
    QuietStarts(c, ph, start, j, t);
    var c' := Samples(c, t, start + j, 25).c;
    SampleKeepsArmed(c, ph, start, j, t, c'.s, 26);
    SampleKeepsArmed(c, ph, start, j, t, c'.s, 28);
    forall n: nat | IsRegion(n) ensures IsActive(c'.s, n) <==> ArmedBy(SampledAll(ph, PositionOf(t), j), n) {
      SampleKeepsArmed(c, ph, start, j, t, c'.s, n);
    }
  }

  lemma QuietMeasurable(t: Telemetry)
    requires Quiet(t)
    ensures Measurable(t)
  {
  }

  lemma QuietAll(ts: seq<Telemetry>)
    requires AllQuiet(ts)
    ensures AllMeasurable(ts) && forall j :: 0 <= j < |ts| ==> Quiet(ts[j])
  {
  }

  // ------------------------------------------------------------ whole flights

  function Positions(ts: seq<Telemetry>): (ps: seq<Position>)
    requires AllMeasurable(ts)
    ensures |ps| == |ts| && forall j :: 0 <= j < |ts| ==> ps[j] == PositionOf(ts[j])
  {
    seq(|ts|, j requires 0 <= j < |ts| => PositionOf(ts[j]))
  }

  predicate AllQuiet(ts: seq<Telemetry>)
  {
    AllMeasurable(ts) && forall j :: 0 <= j < |ts| ==> Quiet(ts[j])
  }

  /** Science has been entered and nothing is in flight: the three enter actionpoints are armed. */
  ghost predicate AtStart(c: Craft, start: nat)
  {
    ClockState(c, [EnterArmed, EnterArmed, EnterArmed], start, start)
  }

  /** After `k` seconds every region is in the phase its positions call for. */
  ghost predicate OnClock(c: Craft, ps: seq<Position>, start: nat, k: nat)
    requires k <= |ps|
  {
    ClockState(c, PhasesAt(ps, k), start, start + k)
  }

  lemma PhaseUnfolds(r: nat, ps: seq<Position>, k: nat)
    requires k < |ps|
    ensures PhaseAfter(r, ps, k + 1) == SampledPhase(WokenPhase(PhaseAfter(r, ps, k), k), ps[k] == Over(r), k)
  {
  }

  lemma PhasesUnfold(ps: seq<Position>, k: nat)
    requires k < |ps|
    ensures PhasesAt(ps, k + 1) == SampledAll(WokenAll(PhasesAt(ps, k), k), ps[k], k)
  {
    PhaseUnfolds(0, ps, k);
    PhaseUnfolds(1, ps, k);
    PhaseUnfolds(2, ps, k);
    hide PhaseAfter, WokenPhase, SampledPhase;
  }

  /** A second of a flight. */
  lemma SecondKeepsClock(c: Craft, t: Telemetry, ps: seq<Position>, start: nat, k: nat)
    requires k < |ps| && OnClock(c, ps, start, k) && start + k + 5 < MAX_TIME && Quiet(t) && PositionOf(t) == ps[k]
    ensures Sound(c) && OnClock(Second(c, t, start + k).c, ps, start, k + 1)
  {
    hide ClockState, Wakes, Samples, PositionOf, Quiet, Sound, PhasesAt, WokenAll, SampledAll, SampleKeeps, Measurable;
    QuietMeasurable(t);
    var ph := PhasesAt(ps, k);
    ClockIsSchedule(c, ph, start, start + k);
    WakeKeepsClock(c, ph, start, k);
    SampleKeepsClock(Wakes(c, start + k).c, WokenAll(ph, k), start, k, t);
    PhasesUnfold(ps, k);
  }

  /** A stretch is a legal run to where it ends, mixing nothing and crossing nothing if told so. */
  ghost predicate Runs(s: State, w: Stretch, unmixed: bool, uncrossed: bool)
  {
    Valid(s) && Legal(s, w.es) && w.c.s == Final(s, w.es)
    && (unmixed ==> NeverMixed(s, w.es)) && (uncrossed ==> NeverCrossed(s, w.es))
  }

  lemma RunsTogether(s: State, a: Stretch, b: Stretch, unmixed: bool, uncrossed: bool)
    requires Runs(s, a, unmixed, uncrossed) && Runs(a.c.s, b, unmixed, uncrossed)
    ensures Runs(s, Stretch(a.es + b.es, b.c), unmixed, uncrossed)
  {
    hide Valid, Legal, Final, NeverMixed, NeverCrossed;
    RunsJoin(s, a.es, b.es);
  }

  predicate Mixes(ph: Phases)
  {
    exists a: nat, b: nat :: a < 3 && b < 3 && ph[a].Entering? && ph[b].Leaving?
  }

  /** An enter sequence turns its first rung on at the age of 3 seconds, and its last one at 16. */
  predicate ClimbsAt(ph: Phase, j: nat) { ph.Entering? && ph.since + 3 <= j <= ph.since + 16 }

  /** A leave sequence turns its first rung off at the age of 2 seconds, and its last one at 10. */
  predicate DescendsAt(ph: Phase, j: nat) { ph.Leaving? && ph.since + 2 <= j <= ph.since + 10 }

  /** In second `j` no region is on its way up while another is on its way down. */
  predicate Clear(ph: Phases, j: nat)
  {
    forall a: nat, b: nat :: a < 3 && b < 3 ==> !(ClimbsAt(ph[a], j) && DescendsAt(ph[b], j))
  }

  /** So it is in each of the first `k` seconds. */
  predicate ClearUntil(ps: seq<Position>, k: nat)
    requires k <= |ps|
  {
    forall j: nat :: j < k ==> Clear(PhasesAt(ps, j), j)
  }

  lemma SeparatedPhases(ps: seq<Position>, k: nat)
    requires k <= |ps|
    ensures Separated(ps, ENTER_TIME + LEAVE_TIME) ==> !Mixes(PhasesAt(ps, k))
    ensures Separated(ps, 26) ==> Clear(PhasesAt(ps, k), k)
  {
    var ph := PhasesAt(ps, k);
    hide PhaseAfter, Separated;
    forall a: nat, b: nat | a < 3 && b < 3 && ph[a].Entering? && ph[b].Leaving?
      ensures !Separated(ps, ENTER_TIME + LEAVE_TIME)
      ensures Separated(ps, 26) ==> ph[a].since >= ph[b].since + 8
    {
      assert ph[a] == PhaseAfter(a, ps, k) && ph[b] == PhaseAfter(b, ps, k);
      if Separated(ps, 26) {
        EntersLate(a, b, ps, k);
      }
      if Separated(ps, ENTER_TIME + LEAVE_TIME) {
        NoOverlap(a, b, ps, k);
        assert false;
      }
    }
  }

  lemma ClockUnmixed(c: Craft, ph: Phases, start: nat, from: nat)
    requires ClockState(c, ph, start, from) && !Mixes(ph)
    ensures Unmixed(c.s)
  {
    BegunKeys(c, BegunBy(ph, start), from);
    hide ClockState, BegunBy;
    forall m, n | m in c.s.run && n in c.s.run && IsEnter(m) ensures !IsPowerDown(n) {
      OnlyRegionsBegun(ph, start, m);
      OnlyRegionsBegun(ph, start, n);
      assert ph[RegionOf(m)].Entering?;
      assert !ph[RegionOf(n)].Leaving?;
    }
  }

  /** In the wakeup of such a second every enter sequence has all its power commands before it or
      behind it, or every leave sequence has. */
  lemma ClearIsSafe(c: Craft, ph: Phases, start: nat, j: nat, c': Craft, m: nat, n: nat)
    requires OnSchedule(c, BegunBy(ph, start), start + j)
    requires OnSchedule(c', Ongoing(BegunBy(ph, start), start + j + 1), start + j + 1)
    requires Clear(ph, j) && m in c.s.run && n in c.s.run && IsEnter(m) && IsPowerDown(n)
    ensures Climbed(PositionIn(c'.s, m)) == 0 || Climbed(c.s.run[m]) == 5
         || Descended(n, c.s.run[n]) == Steps(n) || Descended(n, PositionIn(c'.s, n)) == 0
  {
    hide OnSchedule, BegunBy, Ongoing, Climbed, Descended, Steps, Clear;
    var begun := BegunBy(ph, start);
    BegunKeys(c, begun, start + j);
    OnlyRegionsBegun(ph, start, m);
    OnlyRegionsBegun(ph, start, n);
    PositionAfter(c', begun, start + j + 1, m);
    PositionNow(c, begun, start + j, m);
    PositionAfter(c', begun, start + j + 1, n);
    PositionNow(c, begun, start + j, n);
    ClearBegun(ph, j, m, n);
    ClimbAges(m, start + j - begun[m]);
    DescentAges(n, start + j - begun[n]);
  }

  lemma ClearBegun(ph: Phases, j: nat, m: nat, n: nat)
    requires Clear(ph, j) && IsEnter(m) && 33 <= n <= 35 && InFlight(ph, m) && InFlight(ph, n)
    ensures var e, l := ph[RegionOf(m)].since, ph[RegionOf(n)].since; j < e + 3 || j > e + 16 || j < l + 2 || j > l + 10
  {
    assert !(ClimbsAt(ph[RegionOf(m)], j) && DescendsAt(ph[RegionOf(n)], j));
  }

  lemma PositionNow(c: Craft, begun: Begun, from: nat, n: nat)
    requires OnSchedule(c, begun, from) && n in begun
    ensures IsTimed(n) && n in c.s.run && c.s.run[n] == SentBefore(n, from - begun[n])
  {
    assert Timely(c, n, begun[n], from);
  }

  lemma PositionAfter(c: Craft, begun: Begun, from: nat, n: nat)
    requires OnSchedule(c, Ongoing(begun, from), from) && n in begun
    ensures PositionIn(c.s, n) == SentBefore(n, from - begun[n])
  {
    BegunKeys(c, Ongoing(begun, from), from);
    if n in Ongoing(begun, from) {
      PositionNow(c, Ongoing(begun, from), from, n);
    }
  }

  /** Until it is 3 seconds old an enter sequence sends no power command, and after 16 none ... */
  lemma ClimbAges(m: nat, age: int)
    requires IsEnter(m)
    ensures age < 3 ==> Climbed(SentBefore(m, age + 1)) == 0
    ensures age > 16 ==> Climbed(SentBefore(m, age)) == 5
  {
    assert Age(m, 2) == 3 && forall k :: k < 8 ==> Age(m, k) <= 16;
    hide SentBefore, SentBeforeFrom, Age;
  }

  /** ... and a leave sequence none until it is 2 seconds old, nor after 10. */
  lemma DescentAges(n: nat, age: int)
    requires 33 <= n <= 35
    ensures age < 2 ==> Descended(n, SentBefore(n, age + 1)) == 0
    ensures age > 10 ==> Descended(n, SentBefore(n, age)) == Steps(n)
  {
    assert Age(n, 1) == 2 && forall k :: k < 6 ==> Age(n, k) <= 10;
    hide SentBefore, SentBeforeFrom, Age;
  }

  lemma {:induction false} AtEnd(s: State, es: seq<Event>)
    requires Valid(s) && Legal(s, es)
    ensures NeverMixed(s, es) ==> Unmixed(Final(s, es))
    ensures NeverCrossed(s, es) ==> Uncrossed(Final(s, es).run)
    decreases |es|
  {
    hide Unmixed, Uncrossed, Next, Enabled, Valid;
    if es != [] {
      AtEnd(Next(s, es[0]), es[1..]);
    }
  }

  /** A wakeup mixes nothing that its phases do not, and crosses nothing in a clear second. */
  lemma WakeRuns(c: Craft, ph: Phases, start: nat, j: nat)
    requires ClockState(c, ph, start, start + j) && start + j + 5 < MAX_TIME
    ensures Sound(c) && Runs(c.s, Wakes(c, start + j), !Mixes(ph), Clear(ph, j))
  {
    hide ClockState, OnSchedule, Wakes, Sent, Clear, Mixes, BegunBy, Legal, Final, NeverMixed, NeverCrossed, Flying, Valid, Sendable, AfterSend, Sound, Fresh;
    ClockIsSchedule(c, ph, start, start + j);
    var begun, now := BegunBy(ph, start), start + j;
    OnlyRegionsBegun(ph, start, 29);
    WakeEffect(c, begun, now, 29);
    var w := Wakes(c, now);
    if !Mixes(ph) {
      ClockUnmixed(c, ph, start, now);
      SendsNeverMix(c.s, Sent(c, now));
    }
    if Clear(ph, j) {
      WakeKeepsSchedule(c, begun, now, 29);
      forall m, n | m in c.s.run && n in c.s.run && IsEnter(m) && IsPowerDown(n)
        ensures Climbed(PositionIn(w.c.s, m)) == 0 || Climbed(c.s.run[m]) == 5
             || Descended(n, c.s.run[n]) == Steps(n) || Descended(n, PositionIn(w.c.s, n)) == 0
      {
        ClearIsSafe(c, ph, start, j, w.c, m, n);
      }
      SendsNeverCross(c.s, Sent(c, now), w.c.s);
    }
  }

  /** A second runs as its wakeup does: the sample after it only starts sequences. */
  lemma SecondRunsOn(c: Craft, t: Telemetry, ps: seq<Position>, start: nat, k: nat, unmixed: bool, uncrossed: bool)
    requires k < |ps| && OnClock(c, ps, start, k) && start + k + 5 < MAX_TIME && Quiet(t) && PositionOf(t) == ps[k]
    requires Sound(c) && Runs(c.s, Wakes(c, start + k), unmixed, uncrossed)
    requires unmixed ==> !Mixes(PhasesAt(ps, k + 1))
    ensures Runs(c.s, Second(c, t, start + k), unmixed, uncrossed)
  {
    hide ClockState, Wakes, Samples, PositionOf, Quiet, Sound, PhasesAt, WokenAll, SampledAll, Measurable, Legal, Final,
      NeverMixed, NeverCrossed, Valid, Mixes, SampleLeaves, Unmixed, Uncrossed, Flying;
    QuietMeasurable(t);
    var ph, now := PhasesAt(ps, k), start + k;
    WakeKeepsClock(c, ph, start, k);
    var woken := Wakes(c, now);
    AtEnd(c.s, woken.es);
    SampleKeepsClock(woken.c, WokenAll(ph, k), start, k, t);
    PhasesUnfold(ps, k);
    var sampled := Samples(woken.c, t, now, 25);
    if unmixed {
      ClockUnmixed(sampled.c, PhasesAt(ps, k + 1), start, now + 1);
    }
    RunsTogether(c.s, woken, sampled, unmixed, uncrossed);
  }

  lemma SecondRuns(c: Craft, t: Telemetry, ps: seq<Position>, start: nat, k: nat)
    requires k < |ps| && OnClock(c, ps, start, k) && start + k + 5 < MAX_TIME && Quiet(t) && PositionOf(t) == ps[k]
    ensures Sound(c)
    ensures Runs(c.s, Second(c, t, start + k), Separated(ps, ENTER_TIME + LEAVE_TIME), Clear(PhasesAt(ps, k), k))
  {
    hide ClockState, Wakes, Second, PositionOf, Quiet, Sound, PhasesAt, Runs, Mixes, Clear, Separated;
    var ph := PhasesAt(ps, k);
    var unmixed, uncrossed := Separated(ps, ENTER_TIME + LEAVE_TIME), Clear(ph, k);
    SeparatedPhases(ps, k);
    SeparatedPhases(ps, k + 1);
    ClockIsSchedule(c, ph, start, start + k);
    WakeRuns(c, ph, start, k);
    RunsLess(c.s, Wakes(c, start + k), !Mixes(ph), uncrossed, unmixed, uncrossed);
    SecondRunsOn(c, t, ps, start, k, unmixed, uncrossed);
  }

  lemma RunsLess(s: State, w: Stretch, unmixed: bool, uncrossed: bool, unmixed': bool, uncrossed': bool)
    requires Runs(s, w, unmixed, uncrossed) && (unmixed' ==> unmixed) && (uncrossed' ==> uncrossed)
    ensures Runs(s, w, unmixed', uncrossed')
  {
  }

  /** A flight of any length is a legal run that keeps every region on its clock. With thirty seconds
      between regions it never mixes an enter with a leave sequence; if its seconds are clear it
      never has one halfway up while another is halfway down. */
  lemma {:induction false} FlightKeepsClock(c: Craft, ts: seq<Telemetry>, start: nat, k: nat)
    requires AtStart(c, start) && AllQuiet(ts) && k <= |ts| && start + |ts| + 5 < MAX_TIME
    ensures Sound(c) && OnClock(Flight(c, ts, start, k).c, Positions(ts), start, k)
    ensures Runs(c.s, Flight(c, ts, start, k), Separated(Positions(ts), ENTER_TIME + LEAVE_TIME), ClearUntil(Positions(ts), k))
  {
    hide Second, ClockState, Separated, PositionOf, Quiet, Sound, Runs, PhasesAt, Clear;
    var ps := Positions(ts);
    var unmixed, uncrossed := Separated(ps, ENTER_TIME + LEAVE_TIME), ClearUntil(ps, k);
    StartSound(c, start, ps, unmixed, uncrossed);
    if k > 0 {
      FlightKeepsClock(c, ts, start, k - 1);
      var before := Flight(c, ts, start, k - 1);
      var second := Second(before.c, ts[k - 1], start + (k - 1));
      SecondKeepsClock(before.c, ts[k - 1], ps, start, k - 1);
      SecondRuns(before.c, ts[k - 1], ps, start, k - 1);
      RunsLess(c.s, before, unmixed, ClearUntil(ps, k - 1), unmixed, uncrossed);
      RunsLess(before.c.s, second, unmixed, Clear(PhasesAt(ps, k - 1), k - 1), unmixed, uncrossed);
      RunsTogether(c.s, before, second, unmixed, uncrossed);
    }
  }

  lemma StartSound(c: Craft, start: nat, ps: seq<Position>, unmixed: bool, uncrossed: bool)
    requires AtStart(c, start)
    ensures Sound(c) && OnClock(c, ps, start, 0) && Runs(c.s, Stretch([], c), unmixed, uncrossed)
  {
    hide OnSchedule;
    var ph: Phases := [EnterArmed, EnterArmed, EnterArmed];
    assert PhasesAt(ps, 0) == ph;
    ClockIsSchedule(c, ph, start, start);
    BegunKeys(c, BegunBy(ph, start), start);
    forall n ensures n !in c.s.run {
      if n in c.s.run {
        OnlyRegionsBegun(ph, start, n);
      }
    }
    EmptyRun(c.s);
  }

  /** The power chain holds after every single event of a flight with no second in which one region
      is on its way up while another is on its way down. */
  lemma ClearFlightKeepsChain(c: Craft, ts: seq<Telemetry>, start: nat, m: nat)
    requires AtStart(c, start) && Chain(c.s.hw) && AllQuiet(ts) && start + |ts| + 5 < MAX_TIME
    requires ClearUntil(Positions(ts), |ts|)
    requires Sound(c) && m <= |Flight(c, ts, start, |ts|).es|
    ensures var es := Flight(c, ts, start, |ts|).es;
      Valid(c.s) && Legal(c.s, es[..m]) && Chain(Final(c.s, es[..m]).hw)
  {
    FlightKeepsClock(c, ts, start, |ts|);
    NothingBegun(c, start);
    hide Flight, Positions, ClockState, OnSchedule, ClearUntil;
    ChainHoldsThroughout(c.s, Flight(c, ts, start, |ts|).es, m);
  }

  /** When positions over different regions are at least twenty-six seconds apart, the power chain
      holds after every single event of the flight, with no other premise. */
  lemma SeparatedFlightKeepsChain(c: Craft, ts: seq<Telemetry>, start: nat, m: nat)
    requires AtStart(c, start) && Chain(c.s.hw) && AllQuiet(ts) && start + |ts| + 5 < MAX_TIME
    requires Separated(Positions(ts), 26)
    requires Sound(c) && m <= |Flight(c, ts, start, |ts|).es|
    ensures var es := Flight(c, ts, start, |ts|).es;
      Valid(c.s) && Legal(c.s, es[..m]) && Chain(Final(c.s, es[..m]).hw)
  {
    hide Flight, ClockState, OnSchedule, Sound, Legal, Final, Separated, PhasesAt, Clear, AllQuiet, AllMeasurable;
    QuietAll(ts);
    var ps := Positions(ts);
    forall j: nat | j < |ts| ensures Clear(PhasesAt(ps, j), j) {
      SeparatedPhases(ps, j);
    }
    ClearFlightKeepsChain(c, ts, start, m);
  }

  lemma NothingBegun(c: Craft, start: nat)
    requires AtStart(c, start)
    ensures c.s.run == map[]
  {
    var ph: Phases := [EnterArmed, EnterArmed, EnterArmed];
    BegunKeys(c, BegunBy(ph, start), start);
    hide ClockState;
    forall n ensures n !in c.s.run {
      if n in c.s.run {
        OnlyRegionsBegun(ph, start, n);
      }
    }
  }

  // ------------------------------------------------------------ where flights start

  lemma EntryFacts(s: State)
    requires SequenceRuns.Quiescent(s) && Watchdogs.EntryConfiguration(s)
    ensures forall n: nat :: 25 <= n <= 36 ==> n in s.enabled && CanSet(s, n)
    ensures forall n: nat :: 26 <= n <= 36 ==> (IsActive(s, n) <==> n == 27 || 29 <= n <= 32 || n == 36)
    ensures Numbers(30, 35) <= s.enabled
  {
    forall n: nat | 25 <= n <= 36
      ensures n in s.enabled && CanSet(s, n) && (n > 25 ==> (IsActive(s, n) <==> n == 27 || 29 <= n <= 32 || n == 36))
    {
      assert n in Numbers(25, 36) && n in s.ap;
    }
  }

  /** Every craft whose science entry has run to completion, with all sequences idle, can start ... */
  lemma EntryIsStart(s: State, start: nat)
    requires Valid(s) && SequenceRuns.Quiescent(s) && Watchdogs.EntryConfiguration(s)
    ensures AtStart(Craft(s, IdleTable(), Nothing), start)
  {
    EntryFacts(s);
    IdleOnSchedule(s, start);
    var ph: Phases := [EnterArmed, EnterArmed, EnterArmed];
    hide OnSchedule, IsActive, Watchdogs.EntryConfiguration, SequenceRuns.Quiescent;
    assert BegunBy(ph, start) == map[];
  }

  /** ... and there every region holds its one token, at its enter actionpoint. */
  lemma EntryHoldsTokens(s: State, r: nat)
    requires SequenceRuns.Quiescent(s) && Watchdogs.EntryConfiguration(s) && r < 3
    ensures OneTokenEach(s) && InPass(s, r) == 0
  {
    EntryFacts(s);
    hide IsActive, CanSet, Watchdogs.EntryConfiguration, SequenceRuns.InService, Numbers;
    assert RegionsReady(s);
    forall q: nat | q < 3 ensures Tokens(s, q) == 1 {
      assert IsActive(s, 30 + q) && !IsActive(s, 33 + q);
    }
    assert Tokens(s, 0) == 1 && Tokens(s, 1) == 1 && Tokens(s, 2) == 1;
    assert !IsActive(s, 33 + r);
  }
}
