/** The battery watch against the clock: with the time tags it is never lost, whatever the battery
    and the position do. */
module TimedBattery {
  import opened LcRpn
  import opened LcActionpoint
  import opened LcRegions
  import opened ScienceTables
  import opened Battery
  import opened Registers
  import opened StoredCommand
  import opened TimedRuns
  import SequenceRuns
  import Watchdogs

  /** Where the battery watch stands: low power armed or running, recharged armed or running up to
      the command that arms low power again. */
  datatype Watch = LowArmed | LowRunning(since: nat) | FullArmed | FullRunning(since: nat)

  predicate WatchState(s: State, begun: Begun, from: nat, w: Watch)
  {
    && (IsActive(s, 27) <==> w.LowArmed?) && (IsActive(s, 28) <==> w.FullArmed?)
    && (27 in begun <==> w.LowRunning?)
    && match w
       case LowArmed => 28 in begun ==> begun[28] + 8 < from
       case LowRunning(since) => begun[27] == since && (28 in begun ==> begun[28] + 8 <= since)
       case FullArmed => 28 !in begun
       case FullRunning(since) => 28 in begun && begun[28] == since && from <= since + 8
  }

  /** On schedule, the exit armed and idle, the entry not armed. */
  ghost predicate BatteryClock(c: Craft, begun: Begun, from: nat, w: Watch)
  {
    OnSchedule(c, begun, from) && 29 !in begun && IsActive(c.s, 29) && !IsActive(c.s, 26) && WatchState(c.s, begun, from, w)
  }

  // ------------------------------------------------------------ the wakeup

  function WokenWatch(w: Watch, now: nat): Watch
  {
    if w.LowRunning? && now == w.since + 18 then FullArmed
    else if w.FullRunning? && now == w.since + 8 then LowArmed
    else w
  }

  lemma BatteryWrites(n: nat)
    requires IsTimed(n) && n != 29
    ensures WriteAt(n, Ap(26)) == Never
    ensures WriteAt(n, Ap(27)) == if n == 28 then At(7, ApIs(Active)) else Never
    ensures WriteAt(n, Ap(28)) == if n == 27 then At(13, ApIs(Active)) else if n == 28 then At(1, ApIs(Disabled)) else Never
    ensures WriteAt(n, Ap(29)) == if n == 28 then At(8, ApIs(Active)) else Never
    ensures Age(27, 13) == 18 && Age(28, 7) == 8 && Age(28, 1) == 2 && Length(27) == 14 && Length(28) == 12
  {
  }

  lemma WritesInBegun(c: Craft, begun: Begun, from: nat, n: nat, a: nat, now: nat)
    requires OnSchedule(c, begun, from) && 29 !in begun && 26 <= a <= 29 && WritesNow(begun, now, n, Ap(a))
    ensures (n == 28 && 28 in begun && ((a == 27 && now == begun[28] + 8) || (a == 28 && now == begun[28] + 2) || a == 29))
         || (n == 27 && 27 in begun && a == 28 && now == begun[27] + 18)
  {
    BegunIsTimed(c, begun, from, n);
    BatteryWrites(n);
    hide OnSchedule, WriteAt;
  }

  /** The wakeup changes the armed state of 26 to 29 only as the battery sequences say. */
  lemma WakeArms(c: Craft, begun: Begun, now: nat, w: Watch, a: nat)
    requires BatteryClock(c, begun, now, w) && now + 5 < MAX_TIME && 26 <= a <= 29
    ensures Sound(c)
    ensures IsActive(Wakes(c, now).c.s, a) <==>
      if a == 27 && 28 in begun && now == begun[28] + 8 then true
      else if a == 28 && 27 in begun && now == begun[27] + 18 then true
      else if a == 28 && 28 in begun && now == begun[28] + 2 then false
      else IsActive(c.s, a)
  {
    ScheduleIsSound(c, begun, now);
    hide OnSchedule, Wakes, Read, WriteAt, WritesNow, Sound, Fresh, Valid;
    var n := if a == 28 && 27 in begun && now == begun[27] + 18 then 27 else 28;
    forall m: nat | m != n ensures !WritesNow(begun, now, m, Ap(a)) {
      if WritesNow(begun, now, m, Ap(a)) {
        WritesInBegun(c, begun, now, m, a, now);
      }
    }
    if WritesNow(begun, now, n, Ap(a)) {
      WritesInBegun(c, begun, now, n, a, now);
    }
    BatteryWrites(27);
    BatteryWrites(28);
    DoesWrite(begun, now);
    WakeWrites(c, begun, now, 29, Ap(a), n);
    ActiveIsRead(c.s, a);
    ActiveIsRead(Wakes(c, now).c.s, a);
  }

  lemma DoesWrite(begun: Begun, now: nat)
    ensures 28 in begun && now == begun[28] + 8 ==> WritesNow(begun, now, 28, Ap(27))
    ensures 28 in begun && now == begun[28] + 2 ==> WritesNow(begun, now, 28, Ap(28))
    ensures 27 in begun && now == begun[27] + 18 ==> WritesNow(begun, now, 27, Ap(28))
  {
    BatteryWrites(27);
    BatteryWrites(28);
  }

  lemma OngoingIs(c: Craft, begun: Begun, now: nat, n: nat)
    requires OnSchedule(c, begun, now)
    ensures n in Ongoing(begun, now + 1) <==> n in begun && IsTimed(n) && now + 1 <= begun[n] + Total(n)
    ensures n in Ongoing(begun, now + 1) ==> Ongoing(begun, now + 1)[n] == begun[n]
    ensures n in begun ==> IsTimed(n) && begun[n] < now <= begun[n] + Total(n)
  {
    if n in begun {
      BegunIsTimed(c, begun, now, n);
      ScheduleEntry(c, begun, now, n);
      DoneWhenTotal(n, now + 1 - begun[n]);
      DoneWhenTotal(n, now - begun[n]);
      hide OnSchedule, Total, SentBefore;
    }
  }

  /** The wakeup keeps the battery watch. */
  lemma WakeKeepsWatch(c: Craft, begun: Begun, now: nat, w: Watch)
    requires BatteryClock(c, begun, now, w) && now + 5 < MAX_TIME
    ensures Sound(c) && BatteryClock(Wakes(c, now).c, Ongoing(begun, now + 1), now + 1, WokenWatch(w, now))
  {
    hide OnSchedule, Wakes, Total, Sound, Fresh, Valid, Ongoing, IsActive, WatchState;
    ScheduleIsSound(c, begun, now);
    WakeKeepsSchedule(c, begun, now, 29);
    WakeArms(c, begun, now, w, 26);
    WakeArms(c, begun, now, w, 29);
    OngoingIs(c, begun, now, 29);
    WakeKeepsState(c, begun, now, w);
  }

  lemma WakeKeepsState(c: Craft, begun: Begun, now: nat, w: Watch)
    requires BatteryClock(c, begun, now, w) && now + 5 < MAX_TIME
    ensures Sound(c) && WatchState(Wakes(c, now).c.s, Ongoing(begun, now + 1), now + 1, WokenWatch(w, now))
  {
    hide OnSchedule, Wakes, Total, Sound, Fresh, Valid, Ongoing, IsActive;
    ScheduleIsSound(c, begun, now);
    WakeArms(c, begun, now, w, 27);
    WakeArms(c, begun, now, w, 28);
    OngoingIs(c, begun, now, 27);
    OngoingIs(c, begun, now, 28);
    Totals(27);
    Totals(28);
  }

  // ------------------------------------------------------------ the sample

  /** Science mode with a healthy instrument; the battery and the position may be anything. */
  predicate Ordinary(t: Telemetry) { Measurable(t) && t.mode == SCIENCE_MODE && t.deviceStatus == 0 }

  function SampledWatch(w: Watch, t: Telemetry, now: nat): Watch
  {
    if w.LowArmed? && t.volts < 24240 then LowRunning(now)
    else if w.FullArmed? && t.volts > 24960 then FullRunning(now)
    else w
  }

  lemma OrdinaryTruths(t: Telemetry)
    requires Ordinary(t)
    ensures !TrueNow(25, t) && !TrueNow(29, t) && !TrueNow(36, t)
    ensures (TrueNow(27, t) <==> t.volts < 24240) && (TrueNow(28, t) <==> t.volts > 24960)
  {
    EquationMeans(25, t);
    EquationMeans(27, t);
    EquationMeans(28, t);
    EquationMeans(29, t);
    EquationMeans(36, t);
    hide Evaluation;
  }

  lemma StartingIs(begun: Begun, s: State, t: Telemetry, now: nat, n: nat)
    requires Measurable(t)
    ensures n in Starting(begun, s, t, now, 25) <==> n in begun || (IsTimed(n) && Fires(s, t, n))
    ensures n in Starting(begun, s, t, now, 25) ==> Starting(begun, s, t, now, 25)[n] == if n in begun then begun[n] else now
  {
    hide Fires;
  }

  /** What an ordinary sample does to the actionpoints 26 to 29 and to the sequences in flight. */
  lemma BatteryFirings(s: State, begun: Begun, t: Telemetry, now: nat, s': State)
    requires Ordinary(t) && SampledAps(s, t, 25, s')
    ensures IsActive(s', 26) == IsActive(s, 26) && IsActive(s', 29) == IsActive(s, 29)
    ensures IsActive(s', 27) == (IsActive(s, 27) && t.volts >= 24240)
    ensures IsActive(s', 28) == (IsActive(s, 28) && t.volts <= 24960)
    ensures var after := Starting(begun, s, t, now, 25);
      && (29 in after <==> 29 in begun)
      && (27 in after <==> 27 in begun || (IsActive(s, 27) && t.volts < 24240))
      && (28 in after <==> 28 in begun || (IsActive(s, 28) && t.volts > 24960))
      && (27 in after ==> after[27] == if 27 in begun then begun[27] else now)
      && (28 in after ==> after[28] == if 28 in begun then begun[28] else now)
  {
    hide TrueNow, Starting, SampledAps;
    OrdinaryTruths(t);
    SampledActive(s, t, 26, s');
    SampledActive(s, t, 27, s');
    SampledActive(s, t, 28, s');
    SampledActive(s, t, 29, s');
    StartingIs(begun, s, t, now, 27);
    StartingIs(begun, s, t, now, 28);
    StartingIs(begun, s, t, now, 29);
  }

  lemma OrdinaryIsCalm(s: State, t: Telemetry)
    requires Ordinary(t) && !IsActive(s, 26)
    ensures Measurable(t) && Calm(s, t)
  {
    hide TrueNow;
    OrdinaryTruths(t);
  }

  lemma WatchAfterSample(s: State, begun: Begun, t: Telemetry, now: nat, w: Watch, s': State)
    requires Ordinary(t) && SampledAps(s, t, 25, s') && WatchState(s, begun, now + 1, w)
    requires 29 !in begun && IsActive(s, 29) && !IsActive(s, 26)
    ensures 29 !in Starting(begun, s, t, now, 25) && IsActive(s', 29) && !IsActive(s', 26)
    ensures WatchState(s', Starting(begun, s, t, now, 25), now + 1, SampledWatch(w, t, now))
  {
    hide IsActive, Starting, SampledAps;
    BatteryFirings(s, begun, t, now, s');
  }

  /** The sample keeps the battery watch: recharged never finds its own sequence in flight. */
  lemma SampleKeepsWatch(c: Craft, begun: Begun, now: nat, w: Watch, t: Telemetry)
    requires BatteryClock(c, begun, now + 1, w) && now + 5 < MAX_TIME && Ordinary(t)
    ensures Sound(c)
    ensures BatteryClock(Samples(c, t, now, 25).c, Starting(begun, c.s, t, now, 25), now + 1, SampledWatch(w, t, now))
  {
    hide OnSchedule, Samples, Starting, SampleRuns, SampledAps, Sound, Fresh, Valid, IsActive, Ordinary, WatchState, Calm;
    ScheduleIsSound(c, begun, now + 1);
    OrdinaryIsCalm(c.s, t);
    SampleEffect(c, t, begun, now, 25);
    WatchAfterSample(c.s, begun, t, now, w, Samples(c, t, now, 25).c.s);
  }

  // ------------------------------------------------------------ whole flights

  predicate AllOrdinary(ts: seq<Telemetry>)
  {
    AllMeasurable(ts) && forall j :: 0 <= j < |ts| ==> Ordinary(ts[j])
  }

  ghost predicate OnWatch(c: Craft, from: nat)
  {
    exists begun: Begun, w: Watch :: BatteryClock(c, begun, from, w)
  }

  lemma SecondKeepsWatch(c: Craft, t: Telemetry, now: nat)
    requires OnWatch(c, now) && now + 5 < MAX_TIME && Ordinary(t)
    ensures Sound(c) && OnWatch(Second(c, t, now).c, now + 1)
  {
    hide BatteryClock, Wakes, Samples, Ongoing, Starting, Sound;
    var begun: Begun, w: Watch :| BatteryClock(c, begun, now, w);
    WakeKeepsWatch(c, begun, now, w);
    var woken := Wakes(c, now).c;
    SampleKeepsWatch(woken, Ongoing(begun, now + 1), now, WokenWatch(w, now), t);
  }

  lemma {:induction false} FlightKeepsWatch(c: Craft, ts: seq<Telemetry>, start: nat, k: nat)
    requires OnWatch(c, start) && AllOrdinary(ts) && k <= |ts| && start + |ts| + 5 < MAX_TIME
    ensures Sound(c) && OnWatch(Flight(c, ts, start, k).c, start + k)
  {
    hide BatteryClock, OnWatch, Second, Ordinary, Sound;
    WatchIsSound(c, start);
    if k > 0 {
      FlightKeepsWatch(c, ts, start, k - 1);
      FlightGoesOn(c, ts, start, k - 1);
      SecondKeepsWatch(Flight(c, ts, start, k - 1).c, ts[k - 1], start + (k - 1));
    }
  }

  lemma WatchIsSound(c: Craft, from: nat)
    requires OnWatch(c, from)
    ensures Sound(c)
  {
    var begun: Begun, w: Watch :| BatteryClock(c, begun, from, w);
    hide OnSchedule, WatchState;
    ScheduleIsSound(c, begun, from);
  }

  lemma OnWatchIsWatched(c: Craft, from: nat)
    requires OnWatch(c, from)
    ensures BatteryWatched(c.s) && ExitWatched(c.s) && (IsActive(c.s, 28) ==> 28 !in c.s.run)
  {
    var begun: Begun, w: Watch :| BatteryClock(c, begun, from, w);
    BegunKeys(c, begun, from);
    if 28 in begun {
      ScheduleEntry(c, begun, from, 28);
      if from <= begun[28] + 8 {
        EarlyRecharge(from - begun[28]);
      }
    }
    hide OnSchedule, IsActive, SentBefore;
  }

  lemma EarlyRecharge(age: int)
    requires age <= 8
    ensures SentBefore(28, age) <= 7
  {
    assert Age(28, 7) == 8;
    hide SentBefore, SentBeforeFrom, Age;
  }

  /** In every flight from a completed science entry, whatever the battery voltage and the position
      do, the battery and the exit are watched at the end of every second, and recharged is never
      armed while its sequence is in flight: the time tags see to it that no recharge request is
      rejected. */
  lemma FlightKeepsBatteryWatched(s: State, ts: seq<Telemetry>, start: nat, k: nat)
    requires Valid(s) && SequenceRuns.Quiescent(s) && Watchdogs.EntryConfiguration(s)
    requires AllOrdinary(ts) && k <= |ts| && start + |ts| + 5 < MAX_TIME
    ensures var c := Craft(s, IdleTable(), Nothing);
      Sound(c) && var q := Flight(c, ts, start, k).c.s;
      BatteryWatched(q) && ExitWatched(q) && (IsActive(q, 28) ==> 28 !in q.run)
  {
    hide OnWatch, Flight, SequenceRuns.Quiescent, Watchdogs.EntryConfiguration, IdleTable, Ordinary, Valid, BatteryWatched;
    var c := Craft(s, IdleTable(), Nothing);
    EntryIsWatched(s, start);
    FlightKeepsWatch(c, ts, start, k);
    OnWatchIsWatched(Flight(c, ts, start, k).c, start + k);
  }

  lemma EntryIsWatched(s: State, start: nat)
    requires Valid(s) && SequenceRuns.Quiescent(s) && Watchdogs.EntryConfiguration(s)
    ensures OnWatch(Craft(s, IdleTable(), Nothing), start)
  {
    hide OnSchedule, SequenceRuns.Quiescent, Watchdogs.EntryConfiguration, IdleTable, IsActive, Valid;
    IdleOnSchedule(s, start);
    EntryArmed(s);
    var none: Begun := map[];
    assert BatteryClock(Craft(s, IdleTable(), Nothing), none, start, LowArmed);
  }

  lemma EntryArmed(s: State)
    requires SequenceRuns.Quiescent(s) && Watchdogs.EntryConfiguration(s)
    ensures IsActive(s, 27) && IsActive(s, 29) && !IsActive(s, 26) && !IsActive(s, 28)
  {
    forall n: nat | 26 <= n <= 29 ensures n in s.ap {
      assert n in Numbers(25, 36);
    }
  }
}
