/** A sequence running with nothing else in flight, and what it leaves behind. */
module SequenceRuns {
  import opened LcRpn
  import opened LcActionpoint
  import opened LcRegions
  import opened ScienceTables
  import opened PowerChain

  /** The one command of a sequence for an actionpoint, if there is one. */
  datatype Setting = Untouched | Set(index: nat, state: ApState)

  // ------------------------------------------------------------ a sequence running alone

  /** Sequence `n` sending `count` commands with nothing in between. */
  function Execs(n: nat, count: nat): seq<Event> { seq(count, _ => Exec(n)) }

  /** The commands of sequence `n` from index `k` up to `m`, applied one after the other. */
  function Effect(s: State, n: nat, k: nat, m: nat): State
    requires k <= m <= Length(n)
    decreases m - k
  {
    if k == m then s else Effect(Apply(s, CommandAt(n, k)), n, k + 1, m)
  }

  function MovedTo(run: map<nat, nat>, n: nat, m: nat): map<nat, nat>
  {
    if m == Length(n) then run - {n} else run[n := m]
  }

  lemma ApplyKeepsPositions(s: State, cmd: Command, run: map<nat, nat>)
    ensures Apply(s, cmd).run == s.run && (cmd != RestartProcessor ==> Apply(s, cmd).up == s.up)
    ensures Apply(s.(run := run), cmd) == Apply(s, cmd).(run := run)
  {
  }

  lemma {:induction false} EffectIgnoresPositions(s: State, n: nat, k: nat, m: nat, run: map<nat, nat>)
    requires k <= m <= Length(n)
    ensures Effect(s.(run := run), n, k, m) == Effect(s, n, k, m).(run := run)
    decreases m - k
  {
    if k < m {
      ApplyKeepsPositions(s, CommandAt(n, k), run);
      EffectIgnoresPositions(Apply(s, CommandAt(n, k)), n, k + 1, m, run);
    }
  }

  lemma RestartOnlyLast(n: nat, k: nat)
    requires k < Length(n) && CommandAt(n, k) == RestartProcessor
    ensures k + 1 == Length(n)
  {
  }

  lemma OneExec(s: State, n: nat)
    requires Valid(s) && s.up && n in s.run
    ensures Enabled(s, Exec(n))
    ensures Next(s, Exec(n)) == Apply(s, CommandAt(n, s.run[n])).(run := MovedTo(s.run, n, s.run[n] + 1))
    ensures s.run[n] + 1 < Length(n) ==> Next(s, Exec(n)).up
  {
    hide Apply, CommandAt;
    ApplyKeepsPositions(s, CommandAt(n, s.run[n]), s.run);
    if CommandAt(n, s.run[n]) == RestartProcessor {
      RestartOnlyLast(n, s.run[n]);
    }
  }

  lemma RunUnfolds(s: State, es: seq<Event>)
    requires Valid(s) && es != [] && Enabled(s, es[0]) && Legal(Next(s, es[0]), es[1..])
    ensures Legal(s, es) && Final(s, es) == Final(Next(s, es[0]), es[1..])
  {
  }

  lemma ExecsUnfold(n: nat, count: nat)
    requires count > 0
    ensures Execs(n, count) != [] && Execs(n, count)[0] == Exec(n) && Execs(n, count)[1..] == Execs(n, count - 1)
  {
  }

  /** Sending commands in a row is a legal run with exactly that effect, whatever else is in flight. */
  lemma {:induction false} AloneRuns(s: State, n: nat, m: nat)
    requires Valid(s) && s.up && n in s.run && s.run[n] < m <= Length(n)
    ensures Legal(s, Execs(n, m - s.run[n]))
    ensures Final(s, Execs(n, m - s.run[n])) == Effect(s, n, s.run[n], m).(run := MovedTo(s.run, n, m))
    decreases m - s.run[n]
  {
    hide Apply, CommandAt, Next, Enabled, Execs, Valid;
    var k := s.run[n];
    var es := Execs(n, m - k);
    ExecsUnfold(n, m - k);
    OneExec(s, n);
    var s1 := Next(s, Exec(n));
    EffectIgnoresPositions(Apply(s, CommandAt(n, k)), n, k + 1, m, s1.run);
    if k + 1 < m {
      AloneRuns(s1, n, m);
      assert MovedTo(s1.run, n, m) == MovedTo(s.run, n, m);
    } else {
      NothingLeft(n);
    }
    RunUnfolds(s, es);
  }

  lemma NothingLeft(n: nat)
    ensures Execs(n, 0) == []
  {
  }

  // ------------------------------------------------------------ what a whole sequence leaves

  /** Where sequence `n` commands actionpoint `a`, and to what: no table does it twice. */
  function Sets(n: nat, a: nat): Setting
  {
    if n == 1 then if a == 26 then Set(7, Active) else if a == 25 then Set(10, Active) else Untouched
    else if n == 25 then if a == 25 then Set(0, Disabled) else Untouched
    else if n == 26 then
      if a == 27 then Set(6, Active) else if 29 <= a <= 32 then Set(a - 22, Active)
      else if a == 36 then Set(11, Active) else Untouched
    else if n == 27 then
      if 30 <= a <= 35 then Set(a - 29, Disabled) else if a == 28 then Set(13, Active) else Untouched
    else if n == 28 then
      if a == 28 then Set(1, Disabled) else if a == 27 then Set(7, Active)
      else if 29 <= a <= 32 then Set(a - 21, Active) else Untouched
    else if n == 29 then
      if 27 <= a <= 35 then Set(a - 26, Disabled) else if a == 26 then Set(16, Active)
      else if a == 36 then Set(17, Disabled) else Untouched
    else if 30 <= n <= 32 then if a == n + 3 then Set(9, Active) else Untouched
    else if 33 <= n <= 35 then if a == n - 3 then Set(7, Active) else Untouched
    else Untouched
  }

  lemma SetsExactly(n: nat, a: nat, k: nat)
    requires k < Length(n)
    ensures var cmd := CommandAt(n, k);
      cmd.SetApState? && cmd.ap == a <==> Sets(n, a).Set? && Sets(n, a) == Set(k, if cmd.SetApState? then cmd.state else Active)
    ensures var cmd := CommandAt(n, k); Sets(n, a).Set? && Sets(n, a).index == k ==> cmd.SetApState? && cmd.ap == a
    ensures Sets(n, a).Set? ==> Sets(n, a).index < Length(n) && Sets(n, a).state in {Active, Disabled}
  {
  }

  lemma ApplyOnAp(s: State, cmd: Command, a: nat)
    ensures var s' := Apply(s, cmd); s.enabled <= s'.enabled && s'.ap.Keys == s.ap.Keys
    ensures a in s.ap ==> Apply(s, cmd).ap[a] == if cmd.SetApState? && cmd.ap == a && CanSet(s, a) then cmd.state else s.ap[a]
  {
  }

  /** The commands up to `m` leave each actionpoint where the sequence's one command for it says, if
      that is among them, or as it was. */
  lemma {:induction false} EffectPartOnAp(s: State, n: nat, k: nat, m: nat, a: nat)
    requires k <= m <= Length(n) && CanSet(s, a)
    ensures var s' := Effect(s, n, k, m); s.enabled <= s'.enabled && s'.ap.Keys == s.ap.Keys
    ensures Effect(s, n, k, m).ap[a] ==
            if Sets(n, a).Set? && k <= Sets(n, a).index < m then Sets(n, a).state else s.ap[a]
    decreases m - k
  {
    hide CommandAt, Sets, Apply;
    if k < m {
      SetsExactly(n, a, k);
      ApplyOnAp(s, CommandAt(n, k), a);
      EffectPartOnAp(Apply(s, CommandAt(n, k)), n, k + 1, m, a);
    }
  }

  /** A whole sequence leaves each actionpoint where its one command for it says, or as it was. */
  lemma EffectOnAp(s: State, n: nat, k: nat, a: nat)
    requires k <= Length(n) && CanSet(s, a)
    ensures var s' := Effect(s, n, k, Length(n)); s.enabled <= s'.enabled && s'.ap.Keys == s.ap.Keys
    ensures Effect(s, n, k, Length(n)).ap[a] ==
            if Sets(n, a).Set? && k <= Sets(n, a).index then Sets(n, a).state else s.ap[a]
  {
    EffectPartOnAp(s, n, k, Length(n), a);
    hide Effect, Sets;
    if k < Length(n) {
      SetsExactly(n, a, k);
    } else {
      NothingSet(n, a);
    }
  }

  lemma NothingSet(n: nat, a: nat)
    ensures Sets(n, a).Set? ==> Sets(n, a).index < Length(n)
  {
  }

  const ALL_OFF: Hardware := Hardware(false, false, SunSafe, false, false)
  const ALL_ON: Hardware := Hardware(true, true, Inertial, true, true)

  lemma ApplyOnRest(s: State, cmd: Command)
    ensures Apply(s, cmd).hw == Commanded(s.hw, cmd)
    ensures Apply(s, cmd).up == (s.up && cmd != RestartProcessor)
    ensures Apply(s, cmd).status == if cmd.UpdateScienceStatus? && cmd.status <= EXITED_SCIENCE_MODE then cmd.status else s.status
  {
  }

  /** The hardware a whole sequence leaves: an enter sequence turns everything on, a power-down
      sequence everything off, except that the processor restart reaches only the instrument. */
  function HardwareLeft(n: nat, hw: Hardware): Hardware
  {
    if IsEnter(n) then ALL_ON
    else if n == 36 then hw.(instrumentApp := false, instrumentSwitch := false)
    else if IsPowerDown(n) then ALL_OFF
    else hw
  }

  /** The hardware left by the commands from `k` on, the earlier ones having done their share. */
  lemma {:induction false} EffectOnHardware(s: State, n: nat, k: nat)
    requires k <= Length(n)
    requires IsEnter(n) ==> forall i :: 1 <= i <= Climbed(k) ==> Rung(s.hw, i)
    requires IsPowerDown(n) ==> forall i :: 6 - Descended(n, k) <= i <= 5 ==> !Rung(s.hw, i)
    requires IsPowerDown(n) && Descended(n, k) >= 3 ==> s.hw.adcs == SunSafe
    ensures Effect(s, n, k, Length(n)).hw == HardwareLeft(n, s.hw)
    decreases Length(n) - k
  {
    if k < Length(n) {
      var cmd := CommandAt(n, k);
      ApplyOnRest(s, cmd);
      CommandShares(s.hw, n, k);
      hide CommandAt, Apply, Commanded, Rung, Climbed, Descended, HardwareLeft;
      EffectOnHardware(Apply(s, cmd), n, k + 1);
    } else {
      SharesDone(s.hw, n);
    }
  }

  /** One command does its share, and leaves what the whole sequence would leave. */
  lemma CommandShares(hw: Hardware, n: nat, k: nat)
    requires k < Length(n)
    requires IsEnter(n) ==> forall i :: 1 <= i <= Climbed(k) ==> Rung(hw, i)
    requires IsPowerDown(n) ==> forall i :: 6 - Descended(n, k) <= i <= 5 ==> !Rung(hw, i)
    requires IsPowerDown(n) && Descended(n, k) >= 3 ==> hw.adcs == SunSafe
    ensures var hw' := Commanded(hw, CommandAt(n, k));
      && (IsEnter(n) ==> forall i :: 1 <= i <= Climbed(k + 1) ==> Rung(hw', i))
      && (IsPowerDown(n) ==> forall i :: 6 - Descended(n, k + 1) <= i <= 5 ==> !Rung(hw', i))
      && (IsPowerDown(n) && Descended(n, k + 1) >= 3 ==> hw'.adcs == SunSafe)
      && HardwareLeft(n, hw') == HardwareLeft(n, hw)
  {
    var cmd := CommandAt(n, k);
    if IsEnter(n) { EnterClimbs(n, k); } else if IsPowerDown(n) { PowerDownDescends(n, k); } else { OthersLeavePower(n, k); }
    assert IsPowerDown(n) && cmd.SetAdcsMode? ==> cmd.adcs == SunSafe;
    hide CommandAt;
    forall i | 1 <= i <= 5 ensures Rung(Commanded(hw, cmd), i) == if Target(cmd).0 == i then Target(cmd).1 else Rung(hw, i) {
      CommandSetsTarget(hw, cmd, i);
    }
  }

  lemma SharesDone(hw: Hardware, n: nat)
    requires IsEnter(n) ==> forall i :: 1 <= i <= Climbed(Length(n)) ==> Rung(hw, i)
    requires IsPowerDown(n) ==> forall i :: 6 - Descended(n, Length(n)) <= i <= 5 ==> !Rung(hw, i)
    requires IsPowerDown(n) && Descended(n, Length(n)) >= 3 ==> hw.adcs == SunSafe
    ensures HardwareLeft(n, hw) == hw
  {
    assert Climbed(Length(n)) == 5 || !IsEnter(n);
    assert Descended(n, Length(n)) == Steps(n) || !IsPowerDown(n);
    assert IsEnter(n) ==> Rung(hw, 1) && Rung(hw, 2) && Rung(hw, 3) && Rung(hw, 4) && Rung(hw, 5);
    assert IsPowerDown(n) ==> !Rung(hw, 4) && !Rung(hw, 5);
    assert IsPowerDown(n) && n != 36 ==> !Rung(hw, 1) && !Rung(hw, 2) && !Rung(hw, 3);
  }

  /** The one science status a sequence reports, if any. */
  datatype Note = Silent | Notes(index: nat, status: nat)

  function StatusNoted(n: nat): Note
  {
    if n == 1 then Notes(11, 0)
    else if n == 26 then Notes(12, 1)
    else if n == 27 then Notes(0, 8)
    else if n == 28 then Notes(0, 9)
    else if n == 29 then Notes(0, 10)
    else if 30 <= n <= 35 then Notes(0, n - 28)
    else Silent
  }

  lemma NotesExactly(n: nat, k: nat)
    requires k < Length(n)
    ensures var cmd := CommandAt(n, k);
      cmd.UpdateScienceStatus? <==> StatusNoted(n) == Notes(k, if cmd.UpdateScienceStatus? then cmd.status else 0)
    ensures StatusNoted(n).Notes? ==> StatusNoted(n).index < Length(n) && StatusNoted(n).status <= EXITED_SCIENCE_MODE
  {
  }

  lemma {:induction false} EffectOnStatus(s: State, n: nat, k: nat)
    requires k <= Length(n)
    ensures Effect(s, n, k, Length(n)).status ==
            if StatusNoted(n).Notes? && k <= StatusNoted(n).index < Length(n) then StatusNoted(n).status else s.status
    decreases Length(n) - k
  {
    if k < Length(n) {
      hide CommandAt, StatusNoted;
      NotesExactly(n, k);
      ApplyOnRest(s, CommandAt(n, k));
      EffectOnStatus(Apply(s, CommandAt(n, k)), n, k + 1);
    }
  }

  lemma ModesExactly(n: nat, k: nat)
    requires k < Length(n)
    ensures CommandAt(n, k).SetSpacecraftMode? <==> n == 25 && k == 1
    ensures n == 25 && k == 1 ==> CommandAt(n, k) == SetSpacecraftMode(3)
    ensures CommandAt(n, k) == IncrementPassCount <==> 30 <= n <= 32 && k == 1
  {
  }

  lemma ApplyOnMode(s: State, cmd: Command)
    ensures Apply(s, cmd).mode == if cmd.SetSpacecraftMode? && 1 <= cmd.mode <= 4 then cmd.mode else s.mode
    ensures Apply(s, cmd).passes == if cmd == IncrementPassCount then (s.passes + 1) % 0x1_0000 else s.passes
  {
  }

  /** Only the reboot into science commands a spacecraft mode, and it commands the one the entry
      waits for; only an enter sequence counts a pass, and it counts one. */
  lemma {:induction false} EffectOnMode(s: State, n: nat, k: nat)
    requires k <= Length(n)
    ensures var s' := Effect(s, n, k, Length(n));
      && s'.mode == (if n == 25 && k <= 1 then 3 else s.mode)
      && s'.passes == (if 30 <= n <= 32 && k <= 1 then (s.passes + 1) % 0x1_0000 else s.passes)
    decreases Length(n) - k
  {
    if k < Length(n) {
      hide CommandAt, Apply;
      ModesExactly(n, k);
      ApplyOnMode(s, CommandAt(n, k));
      EffectOnMode(Apply(s, CommandAt(n, k)), n, k + 1);
    }
  }

  lemma EffectOnUp(s: State, n: nat, k: nat)
    requires k <= Length(n)
    ensures n != 36 ==> Effect(s, n, k, Length(n)).up == s.up
    decreases Length(n) - k
  {
    if k < Length(n) {
      ApplyOnRest(s, CommandAt(n, k));
      EffectOnUp(Apply(s, CommandAt(n, k)), n, k + 1);
    }
  }

  // ------------------------------------------------------------ one actionpoint at a time

  /** An actionpoint fires and its sequence runs to completion. */
  function Round(n: nat): seq<Event> { [Fire(n)] + Execs(n, Length(n)) }

  /** Every science actionpoint obeys commands, every science sequence is enabled. */
  predicate InService(s: State)
  {
    s.ap.Keys == Numbers(25, 36) && Numbers(25, 36) <= s.enabled &&
    forall a :: a in s.ap ==> s.ap[a] in {Active, Passive, Disabled}
  }

  predicate Quiescent(s: State) { s.up && s.run == map[] && InService(s) }

  /** Where a round of actionpoint `n` leaves actionpoint `a`. */
  function LeftBy(s: State, n: nat, a: nat): ApState
    requires a in s.ap
  {
    if Sets(n, a).Set? then Sets(n, a).state else if a == n then Passive else s.ap[a]
  }

  /** What a fired sequence, running to completion with nothing else in flight, leaves. */
  predicate RoundLeaves(s: State, n: nat, s': State)
    requires s.ap.Keys == Numbers(25, 36)
  {
    && s'.run == map[] && InService(s') && (n != 36 ==> s'.up)
    && (forall a :: a in s.ap ==> s'.ap[a] == LeftBy(s, n, a))
    && s'.status == (if StatusNoted(n).Notes? then StatusNoted(n).status else s.status)
    && s'.hw == HardwareLeft(n, s.hw)
    && s'.mode == (if n == 25 then 3 else s.mode)
    && s'.passes == (if 30 <= n <= 32 then (s.passes + 1) % 0x1_0000 else s.passes)
  }

  lemma SequenceLeavesAp(s: State, n: nat, s1: State, a: nat)
    requires Quiescent(s) && 25 <= n <= 36 && a in s.ap && s1.ap == s.ap[n := Passive] && n in s.ap
    ensures var s2 := Effect(s1, n, 0, Length(n));
      s1.enabled <= s2.enabled && s2.ap.Keys == s1.ap.Keys &&
      s2.ap[a] == LeftBy(s, n, a) && s2.ap[a] in {Active, Passive, Disabled}
  {
    hide Effect, Sets;
    EffectOnAp(s1, n, 0, a);
    SetsExactly(n, a, 0);
  }

  lemma SequenceLeaves(s: State, n: nat, s1: State)
    requires Quiescent(s) && 25 <= n <= 36 && IsActive(s, n)
    requires s1 == s.(ap := s.ap[n := Passive], run := map[n := 0])
    ensures RoundLeaves(s, n, Effect(s1, n, 0, Length(n)).(run := map[]))
  {
    hide Effect, LeftBy, CommandAt, Sets, Apply;
    var s2 := Effect(s1, n, 0, Length(n));
    EffectOnUp(s1, n, 0);
    EffectOnStatus(s1, n, 0);
    NotesExactly(n, 0);
    EffectOnHardware(s1, n, 0);
    EffectOnMode(s1, n, 0);
    assert s1.ap.Keys == s.ap.Keys;
    SequenceLeavesAp(s, n, s1, 25);
    forall a | a in s.ap ensures s2.ap[a] == LeftBy(s, n, a) && s2.ap[a] in {Active, Passive, Disabled} {
      SequenceLeavesAp(s, n, s1, a);
    }
  }

  lemma FireStarts(s: State, n: nat)
    requires Valid(s) && Quiescent(s) && 25 <= n <= 36 && IsActive(s, n)
    ensures Enabled(s, Fire(n)) && Next(s, Fire(n)) == s.(ap := s.ap[n := Passive], run := map[n := 0])
  {
  }

  lemma RoundEffect(s: State, n: nat)
    requires Valid(s) && Quiescent(s) && 25 <= n <= 36 && IsActive(s, n)
    ensures Legal(s, Round(n)) && RoundLeaves(s, n, Final(s, Round(n)))
  {
    hide Next, Enabled, RoundLeaves, Effect, CommandAt;
    FireStarts(s, n);
    var s1 := Next(s, Fire(n));
    AloneRuns(s1, n, Length(n));
    assert Round(n)[0] == Fire(n) && Round(n)[1..] == Execs(n, Length(n));
    RunUnfolds(s, Round(n));
    assert MovedTo(s1.run, n, Length(n)) == map[];
    SequenceLeaves(s, n, s1);
  }

  /** The reboot into science, run to completion, leaves the spacecraft in the mode that the entry's
      equation watches for. */
  lemma RebootAwaitsEntry(s: State, t: Telemetry)
    requires Valid(s) && Quiescent(s) && IsActive(s, 25) && |t.enabled| == 3
    ensures Legal(s, Round(25))
    ensures t.mode == Final(s, Round(25)).mode ==> Evaluation(Equation(26), Measured(t)) == Fail
  {
    hide Legal, Final, Round, Quiescent, Evaluation, Equation, Measured;
    assert s.ap.Keys == Numbers(25, 36) by { QuiescentAps(s); }
    RoundEffect(s, 25);
    EquationMeans(26, t);
  }

  lemma QuiescentAps(s: State)
    requires Quiescent(s)
    ensures s.ap.Keys == Numbers(25, 36)
  {
  }

  // ------------------------------------------------------------ resets and enables

  /** Each statistics reset is for an actionpoint the same sequence arms later, and every actionpoint
      armed was reset just so, except the one that watches the instrument. */
  lemma ArmedAfterReset(n: nat, k: nat)
    requires k < Length(n)
    ensures var cmd := CommandAt(n, k);
      && (cmd.ResetApStats? ==> exists m :: k < m < Length(n) && CommandAt(n, m) == SetApState(cmd.ap, Active))
      && (cmd.SetApState? && cmd.state == Active && cmd.ap != 36 ==>
            exists m :: 0 <= m < k && CommandAt(n, m) == ResetApStats(cmd.ap))
  {
    var cmd := CommandAt(n, k);
    if cmd.ResetApStats? {
      assert Sets(n, cmd.ap).Set? && k < Sets(n, cmd.ap).index < Length(n)
        && CommandAt(n, Sets(n, cmd.ap).index) == SetApState(cmd.ap, Active);
    }
    if cmd.SetApState? && cmd.state == Active && cmd.ap != 36 {
      var m := if n == 1 || n == 29 || n == 27 || n >= 30 then k - 1 else if n == 26 then (if cmd.ap == 27 then 1 else cmd.ap - 27) else if cmd.ap == 27 then 2 else cmd.ap - 26;
      assert 0 <= m < k && CommandAt(n, m) == ResetApStats(cmd.ap);
    }
  }

  /** The attitude is commanded exactly after the inertial mode, and the instrument is switched on next. */
  lemma PointedBeforeUse(n: nat, k: nat)
    requires k < Length(n)
    ensures CommandAt(n, k) == SetInertialQuaternion <==> k > 0 && CommandAt(n, k - 1) == SetAdcsMode(Inertial)
    ensures CommandAt(n, k) == SetInertialQuaternion ==> k + 1 < Length(n) && CommandAt(n, k + 1) == EpsSwitch(0, true)
    ensures CommandAt(n, k) == EpsSwitch(0, true) ==> k > 0 && CommandAt(n, k - 1) == SetInertialQuaternion
  {
  }

  /** The boot sequence enables each sequence it arms the actionpoint of, two commands before. */
  lemma BootEnablesWhatItArms(k: nat)
    requires k < 12
    ensures var cmd := CommandAt(1, k);
      && (cmd.SetApState? ==> k >= 2 && cmd.state == Active && CommandAt(1, k - 2) == EnableRtsGroup(cmd.ap, cmd.ap))
      && (cmd.EnableRtsGroup? && cmd.last < 64 ==> k + 2 < 12 && CommandAt(1, k + 2) == SetApState(cmd.first, Active))
      && (cmd.SetApState? <==> k == 7 || k == 10)
  {
  }

  /** Entering science enables the sequences it arms, whatever was enabled before. */
  lemma EntryEnables(s: State)
    ensures Numbers(27, 32) + s.enabled <= Effect(s, 26, 0, 1).enabled
  {
    assert Effect(s, 26, 0, 1) == Effect(Apply(s, CommandAt(26, 0)), 26, 1, 1);
  }
}
