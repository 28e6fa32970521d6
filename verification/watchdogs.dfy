/** What the science session guarantees between firings, and where its boundaries lie. */
module Watchdogs {
  import opened LcActionpoint
  import opened ScienceTables
  import opened PowerChain
  import opened SequenceRuns

  predicate InstrumentOn(hw: Hardware) { hw.instrumentApp || hw.instrumentSwitch }

  predicate AllDisabled(s: State, first: nat, last: nat)
  {
    forall a :: first <= a <= last && a in s.ap ==> s.ap[a] == Disabled
  }

  function Armed(s: State): set<nat> { set a | a in s.ap && s.ap[a] == Active }

  predicate LeaveArmed(armed: set<nat>) { 33 in armed || 34 in armed || 35 in armed }
  predicate RegionArmed(armed: set<nat>) { 30 in armed || 31 in armed || 32 in armed || LeaveArmed(armed) }

  /** The watchdogs stand: an instrument that is on is watched for leaving its region, for low
      power and for the exit; recharging and safe mode find it off with every region disarmed. */
  predicate Stand(on: bool, armed: set<nat>)
  {
    && (on ==> LeaveArmed(armed))
    && (RegionArmed(armed) ==> 27 in armed)
    && (27 in armed || 28 in armed ==> 29 in armed)
    && (28 in armed ==> !on && !RegionArmed(armed))
    && (26 in armed ==> !on && !RegionArmed(armed) && 28 !in armed && 29 !in armed)
  }

  predicate Guarded(s: State) { Stand(InstrumentOn(s.hw), Armed(s)) }

  predicate Disarmed(s: State)
  {
    (IsActive(s, 28) ==> AllDisabled(s, 30, 35)) && (IsActive(s, 26) ==> AllDisabled(s, 27, 36))
  }

  lemma ArmedAfter(s: State, n: nat, s': State, a: nat)
    requires Quiescent(s) && 25 <= n <= 36 && RoundLeaves(s, n, s') && 25 <= a <= 36
    ensures a in s.ap && a in s'.ap && s'.ap[a] == LeftBy(s, n, a)
    ensures a in Armed(s') <==> ArmedBy(n, a, Armed(s))
  {
    assert a in Numbers(25, 36);
  }

  /** Whether a round of actionpoint `n` leaves `a` active. */
  predicate ArmedBy(n: nat, a: nat, armed: set<nat>)
  {
    if Sets(n, a).Set? then Sets(n, a).state == Active else a != n && a in armed
  }

  lemma RoundKeepsStanding(n: nat, on: bool, armed: set<nat>, on': bool, armed': set<nat>)
    requires 25 <= n <= 35 && n in armed && Stand(on, armed)
    requires forall a :: 26 <= a <= 35 ==> (a in armed' <==> ArmedBy(n, a, armed))
    requires on' == if IsEnter(n) then true else if IsPowerDown(n) then false else on
    ensures Stand(on', armed')
  {
    if n >= 30 {
      assert n == 30 || n == 31 || n == 32 || n == 33 || n == 34 || n == 35;
    } else {
      assert n == 25 || n == 26 || n == 27 || n == 28 || n == 29;
    }
  }

  lemma RoundKeepsGuarded(s: State, n: nat, s': State)
    requires Quiescent(s) && Guarded(s) && 25 <= n <= 35 && IsActive(s, n) && RoundLeaves(s, n, s')
    ensures Guarded(s')
  {
    forall a | 26 <= a <= 35 ensures a in Armed(s') <==> ArmedBy(n, a, Armed(s)) {
      ArmedAfter(s, n, s', a);
    }
    RoundKeepsStanding(n, InstrumentOn(s.hw), Armed(s), InstrumentOn(s'.hw), Armed(s'));
  }

  lemma RoundKeepsDisarmed(s: State, n: nat, s': State)
    requires Quiescent(s) && Guarded(s) && Disarmed(s) && 25 <= n <= 35 && IsActive(s, n) && RoundLeaves(s, n, s')
    ensures Disarmed(s')
  {
    ArmedAfter(s, n, s', 26);
    ArmedAfter(s, n, s', 28);
    forall a | 27 <= a <= 36 && ((28 in Armed(s') && 30 <= a <= 35) || 26 in Armed(s'))
      ensures s'.ap[a] == Disabled
    {
      ArmedAfter(s, n, s', a);
    }
  }

  /** The reported science status says whether the instrument is on: on over AK, CONUS or HI. */
  predicate Truthful(s: State) { InstrumentOn(s.hw) <==> 2 <= s.status <= 4 }

  lemma RoundKeepsTruthful(s: State, n: nat, s': State)
    requires Quiescent(s) && Guarded(s) && Truthful(s) && 25 <= n <= 35 && IsActive(s, n) && RoundLeaves(s, n, s')
    ensures Truthful(s')
  {
    assert n in Armed(s);
  }

  function AfterRound(s: State, n: nat): (s': State)
    requires Valid(s)
    ensures Valid(s')
  {
    if Legal(s, Round(n)) then Final(s, Round(n)) else s
  }

  /** A session in which actionpoints fire one at a time, each sequence completing before the next. */
  predicate Session(s: State, ns: seq<nat>)
    requires Valid(s)
    decreases |ns|
  {
    ns == [] ||
    (Quiescent(s) && 25 <= ns[0] <= 36 && IsActive(s, ns[0]) &&
     Session(AfterRound(s, ns[0]), ns[1..]))
  }

  function SessionEnd(s: State, ns: seq<nat>): State
    requires Valid(s) && Session(s, ns)
    decreases |ns|
  {
    if ns == [] then s else SessionEnd(AfterRound(s, ns[0]), ns[1..])
  }

  /** Throughout every such session the watchdogs stand in every quiescent state. */
  lemma {:induction false} WatchdogsStand(s: State, ns: seq<nat>)
    requires Valid(s) && Session(s, ns) && Quiescent(s) && Guarded(s) && Disarmed(s) && Truthful(s)
    ensures var q := SessionEnd(s, ns); q.up ==> Quiescent(q) && Guarded(q) && Disarmed(q) && Truthful(q)
    decreases |ns|
  {
    if ns != [] {
      hide Guarded, Disarmed, Truthful, Round, RoundLeaves, Next, Quiescent;
      QuiescentIsUp(s);
      RoundEffect(s, ns[0]);
      var s1 := AfterRound(s, ns[0]);
      if ns[0] == 36 {
        if ns[1..] != [] {
          RestartEnds(s);
          assert false;
        } else {
          RestartEnds(s);
        }
      } else {
        LeavesQuiescent(s, ns[0], s1);
        RoundKeepsGuarded(s, ns[0], s1);
        RoundKeepsDisarmed(s, ns[0], s1);
        RoundKeepsTruthful(s, ns[0], s1);
        WatchdogsStand(s1, ns[1..]);
      }
    }
  }

  lemma LeavesQuiescent(s: State, n: nat, s': State)
    requires Quiescent(s) && n != 36 && RoundLeaves(s, n, s')
    ensures Quiescent(s')
  {
  }

  lemma QuiescentIsUp(s: State)
    requires Quiescent(s)
    ensures s.up
  {
  }

  lemma RestartEffect(s1: State)
    ensures !Effect(s1, 36, 0, 3).up
  {
    var s2 := Apply(Apply(s1, CommandAt(36, 0)), CommandAt(36, 1));
    assert Effect(s1, 36, 0, 3) == Effect(s2, 36, 2, 3) == Effect(Apply(s2, RestartProcessor), 36, 3, 3);
  }

  lemma RestartEnds(s: State)
    requires Valid(s) && Quiescent(s) && IsActive(s, 36)
    ensures Legal(s, Round(36)) && !Final(s, Round(36)).up && !Quiescent(Final(s, Round(36)))
  {
    hide Next, Effect, Enabled;
    FireStarts(s, 36);
    var s1 := Next(s, Fire(36));
    AloneRuns(s1, 36, 3);
    assert Round(36)[0] == Fire(36) && Round(36)[1..] == Execs(36, 3);
    RunUnfolds(s, Round(36));
    RestartEffect(s1);
  }

  lemma BootEnables(s: State)
    requires CanSet(s, 25)
    ensures Numbers(3, 64) <= Effect(s, 1, 0, 12).enabled && s.enabled <= Effect(s, 1, 0, 12).enabled
  {
    var s2 := Apply(Apply(s, CommandAt(1, 0)), CommandAt(1, 1));
    var s3 := Apply(s2, EnableRtsGroup(3, 64));
    assert Effect(s, 1, 0, 12) == Effect(Apply(s, CommandAt(1, 0)), 1, 1, 12) == Effect(s2, 1, 2, 12) == Effect(s3, 1, 3, 12);
    hide Effect;
    EffectOnAp(s3, 1, 3, 25);
  }

  /** The boot sequence, started with the tables loaded and nothing else in flight, arms the two
      mode transitions and nothing else. Its own commands leave the hardware alone; the safe-mode
      sequence it starts, which later commands sun-safe, is not part of this model. */
  lemma BootRuns(s: State)
    requires Valid(s) && Loaded(s)
    ensures Legal(s, Execs(1, 12))
    ensures var s' := Final(s, Execs(1, 12)); Booted(s') && s'.hw == s.hw
  {
    hide Effect, Next, Legal, Final, Execs, CommandAt, Sets;
    AloneRuns(s, 1, 12);
    assert MovedTo(s.run, 1, 12) == map[];
    EffectOnUp(s, 1, 0);
    EffectOnHardware(s, 1, 0);
    EffectOnStatus(s, 1, 0);
    assert CanSet(s, 25) by { assert 25 in Numbers(25, 36); }
    BootEnables(s);
    BootArms(s);
  }

  lemma BootArms(s: State)
    requires Loaded(s)
    ensures var s2 := Effect(s, 1, 0, 12);
      s2.ap.Keys == s.ap.Keys && forall a :: a in s.ap ==> s2.ap[a] == if a <= 26 then Active else Disabled
  {
    hide Effect, CommandAt;
    var s2 := Effect(s, 1, 0, 12);
    assert 25 in Numbers(25, 36) && 25 in s.ap;
    EffectOnAp(s, 1, 0, 25);
    forall a | a in s.ap ensures s2.ap[a] == if a <= 26 then Active else Disabled {
      EffectOnAp(s, 1, 0, a);
    }
  }

  lemma BootIsQuiescent(s: State)
    requires Booted(s)
    ensures Quiescent(s)
  {
    assert Numbers(25, 36) <= Numbers(3, 64);
  }

  lemma BootIsGuarded(s: State)
    requires Booted(s) && !InstrumentOn(s.hw)
    ensures Guarded(s) && Disarmed(s)
  {
    assert forall a :: 27 <= a ==> !IsActive(s, a);
  }

  /** From boot with the instrument off: whenever the instrument is on between firings, low power
      (27), the exit (29) and at least one leave (33 to 35) are armed; whenever recharged (28) is
      armed the instrument is off and every region actionpoint is disabled; and the reported science
      status is that of a region exactly while the instrument is on. */
  lemma WatchdogsArmed(s: State, ns: seq<nat>)
    requires Valid(s) && Session(s, ns) && Booted(s) && !InstrumentOn(s.hw) && SessionEnd(s, ns).up
    ensures var q := SessionEnd(s, ns);
      && (InstrumentOn(q.hw) ==> IsActive(q, 27) && IsActive(q, 29) && LeaveArmed(Armed(q)))
      && (IsActive(q, 28) ==> !InstrumentOn(q.hw) && AllDisabled(q, 30, 35))
      && (InstrumentOn(q.hw) <==> 2 <= q.status <= 4)
  {
    BootIsQuiescent(s);
    BootIsGuarded(s);
    WatchdogsStand(s, ns);
  }

  // ------------------------------------------------------------ the exit is a full reset

  /** The actionpoints as a science entry leaves them. */
  predicate EntryConfiguration(s: State)
  {
    s.ap.Keys == Numbers(25, 36) &&
    forall a :: a in s.ap && a > 25 ==>
      s.ap[a] == if a == 26 then Passive else if a in {27, 29, 30, 31, 32, 36} then Active else Disabled
  }

  /** Every science actionpoint disarmed, the entry armed. */
  predicate ExitConfiguration(s: State)
  {
    s.ap.Keys == Numbers(25, 36) &&
    forall a :: a in s.ap && a > 25 ==> s.ap[a] == if a == 26 then Active else Disabled
  }

  lemma EntryEffect(s: State)
    requires Valid(s) && Quiescent(s) && ExitConfiguration(s)
    ensures Legal(s, Round(26))
    ensures var s' := Final(s, Round(26)); EntryConfiguration(s') && s'.hw == s.hw && s'.run == map[]
  {
    RoundEffect(s, 26);
    var s' := Final(s, Round(26));
    forall a | a in s.ap ensures a in s'.ap && s'.ap[a] == LeftBy(s, 26, a) {}
  }

  lemma ExitEffect(s: State)
    requires Valid(s) && s.up && s.run == map[29 := 0] && InService(s)
    ensures Legal(s, Execs(29, 18))
    ensures var s' := Final(s, Execs(29, 18)); Quiescent(s') && ExitConfiguration(s') && s'.hw == ALL_OFF
  {
    hide Effect, Quiescent, ExitConfiguration, InService, Next, Legal, Final, Execs;
    AloneRuns(s, 29, 18);
    assert MovedTo(s.run, 29, 18) == map[];
    ExitSequenceLeaves(s);
  }

  lemma ExitSequenceLeaves(s: State)
    requires s.up && InService(s)
    ensures var s' := Effect(s, 29, 0, 18).(run := map[]);
            Quiescent(s') && ExitConfiguration(s') && s'.hw == ALL_OFF
  {
    hide Effect, CommandAt, Apply;
    var s2 := Effect(s, 29, 0, 18);
    EffectOnUp(s, 29, 0);
    EffectOnHardware(s, 29, 0);
    assert 25 in s.ap;
    forall a | a in s.ap
      ensures s.enabled <= s2.enabled && s2.ap.Keys == s.ap.Keys
      ensures s2.ap[a] == if Sets(29, a).Set? then Sets(29, a).state else s.ap[a]
    {
      EffectOnAp(s, 29, 0, a);
    }
  }

  /** Whatever state a session is in, an exit that runs with nothing else in flight, followed by
      the next science entry, gives exactly the actionpoints of the first entry after boot, and
      the instrument, star tracker and attitude control of a boot with everything off. */
  lemma ExitThenEntryIsFirstEntry(s: State, b: State)
    requires Valid(s) && s.up && s.run == map[29 := 0] && InService(s)
    requires Valid(b) && Booted(b)
    ensures Legal(s, Execs(29, 18) + Round(26)) && Legal(b, Round(26))
    ensures var again, first := Final(s, Execs(29, 18) + Round(26)), Final(b, Round(26));
      && again.run == first.run == map[]
      && (forall a :: 26 <= a <= 36 ==> a in again.ap && a in first.ap && again.ap[a] == first.ap[a])
      && again.hw == ALL_OFF && (again.hw == first.hw <==> b.hw == ALL_OFF)
  {
    hide Next, Round, Execs, Effect;
    ExitEffect(s);
    EntryEffect(Final(s, Execs(29, 18)));
    RunsCompose(s, Execs(29, 18), Round(26));
    BootIsQuiescent(b);
    EntryEffect(b);
  }
}
