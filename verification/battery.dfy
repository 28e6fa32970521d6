/** The battery watch: low power and recharged take turns, and neither the battery watch nor the
    exit watch is ever lost, in every interleaving of the sequences. */
module Battery {
  import opened LcActionpoint
  import opened ScienceTables

  function One(b: bool): nat { if b then 1 else 0 }

  /** The commands that touch actionpoints 27, 28 and 29: which sequence, at which index. */
  lemma BatteryCommands(n: nat, k: nat)
    requires k < Length(n)
    ensures var cmd := CommandAt(n, k);
      && (cmd == SetApState(27, Active) <==> (n == 26 && k == 6) || (n == 28 && k == 7))
      && (cmd == SetApState(28, Active) <==> n == 27 && k == 13)
      && (cmd == SetApState(29, Active) <==> (n == 26 && k == 7) || (n == 28 && k == 8))
      && (cmd == SetApState(27, Disabled) <==> n == 29 && k == 1)
      && (cmd == SetApState(28, Disabled) <==> (n == 28 && k == 1) || (n == 29 && k == 2))
      && (cmd == SetApState(29, Disabled) <==> n == 29 && k == 3)
      && (cmd.SetApState? ==> cmd.state in {Active, Disabled})
      && (cmd == RestartProcessor ==> n == 36)
    ensures Length(27) == 14 && Length(26) > 7 && Length(28) > 8
  {
  }

  // ------------------------------------------------------------ counting

  /** Chances that recharged can still fire before low power fires again. */
  function RechargeChances(s: State): nat
  {
    One(IsActive(s, 28)) + One(27 in s.run)
  }

  /** Chances that low power can still fire before recharged or a science entry fires again. */
  function LowPowerChances(s: State): nat
  {
    One(IsActive(s, 27)) + One(26 in s.run && s.run[26] <= 6) + One(28 in s.run && s.run[28] <= 7)
  }

  lemma StepCounts(s: State, e: Event)
    requires Valid(s) && Enabled(s, e)
    ensures RechargeChances(Next(s, e)) + One(e == Fire(28)) <= RechargeChances(s) + One(e == Fire(27))
    ensures LowPowerChances(Next(s, e)) + One(e == Fire(27))
         <= LowPowerChances(s) + One(e == Fire(28)) + One(e == Fire(26))
  {
    if e.Exec? {
      BatteryCommands(e.n, s.run[e.n]);
      var cmd, last := CommandAt(e.n, s.run[e.n]), s.run[e.n] + 1 == Length(e.n);
      ExecutedOnAp(s, e.n, cmd, last, 27);
      ExecutedOnAp(s, e.n, cmd, last, 28);
    }
  }

  /** Over every interleaving: what fires is paid for by what fired before. */
  lemma {:induction false} RunCounts(s: State, es: seq<Event>)
    requires Valid(s) && Legal(s, es)
    ensures RechargeChances(Final(s, es)) + Count(es, Fire(28)) <= RechargeChances(s) + Count(es, Fire(27))
    ensures LowPowerChances(Final(s, es)) + Count(es, Fire(27))
         <= LowPowerChances(s) + Count(es, Fire(28)) + Count(es, Fire(26))
    decreases |es|
  {
    if es != [] {
      StepCounts(s, es[0]);
      RunCounts(Next(s, es[0]), es[1..]);
    }
  }

  /** From boot: recharges <= low powers <= recharges + science entries. Every prefix of a legal
      run is legal, so within one science session the two strictly alternate. */
  lemma BatteryAlternates(s: State, es: seq<Event>)
    requires Valid(s) && Booted(s) && Legal(s, es)
    ensures Count(es, Fire(28)) <= Count(es, Fire(27)) <= Count(es, Fire(28)) + Count(es, Fire(26))
  {
    RunCounts(s, es);
  }

  // ------------------------------------------------------------ watches are not lost

  /** The battery is being watched, or a sequence in flight is about to watch it again. */
  predicate BatteryWatched(s: State)
  {
    IsActive(s, 27) || 27 in s.run || IsActive(s, 28) || (28 in s.run && s.run[28] <= 7)
  }

  predicate ExitWatched(s: State) { IsActive(s, 29) }

  /** The science actionpoints can be armed: usable, their sequences enabled. */
  predicate Usable(s: State)
  {
    CanSet(s, 27) && CanSet(s, 28) && CanSet(s, 29) && {27, 28, 29} <= s.enabled
  }

  /** Exactly one kind of step loses the battery watch: recharged fires while its sequence is
      executing its last commands, so that the request is rejected with nothing left to re-arm. */
  predicate LosesWatch(s: State, e: Event)
  {
    e == Fire(28) && 28 in s.run && s.run[28] > 7 && !IsActive(s, 27) && 27 !in s.run
  }

  lemma StepKeepsWatchIff(s: State, e: Event)
    requires Valid(s) && Enabled(s, e) && Usable(s) && 29 !in s.run && e != Fire(29)
    requires BatteryWatched(s) && ExitWatched(s)
    ensures var s' := Next(s, e); Usable(s') && 29 !in s'.run && ExitWatched(s')
    ensures BatteryWatched(Next(s, e)) <==> !LosesWatch(s, e)
  {
    if e.Exec? {
      BatteryCommands(e.n, s.run[e.n]);
      var cmd, last := CommandAt(e.n, s.run[e.n]), s.run[e.n] + 1 == Length(e.n);
      ExecutedOnAp(s, e.n, cmd, last, 27);
      ExecutedOnAp(s, e.n, cmd, last, 28);
      ExecutedOnAp(s, e.n, cmd, last, 29);
    }
  }

  /** Every recharge request along the run finds its sequence idle. */
  predicate RechargesAccepted(s: State, es: seq<Event>)
    requires Valid(s) && Legal(s, es)
    decreases |es|
  {
    es == [] || ((es[0] == Fire(28) ==> 28 !in s.run) && RechargesAccepted(Next(s, es[0]), es[1..]))
  }

  /** As long as the exit itself does not fire, no interleaving of the sequences, from any science
      state, loses the exit watch; nor the battery watch, if no recharge request is rejected. */
  lemma {:induction false} WatchesNeverLost(s: State, es: seq<Event>)
    requires Valid(s) && Legal(s, es) && Usable(s) && 29 !in s.run && Count(es, Fire(29)) == 0
    requires BatteryWatched(s) && ExitWatched(s) && RechargesAccepted(s, es)
    ensures BatteryWatched(Final(s, es)) && ExitWatched(Final(s, es))
    decreases |es|
  {
    if es != [] {
      StepKeepsWatchIff(s, es[0]);
      WatchesNeverLost(Next(s, es[0]), es[1..]);
    }
  }
}
