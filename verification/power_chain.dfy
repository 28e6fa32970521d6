/** The nested power chain: what may be on only while something else is on. */
module PowerChain {
  import opened ScienceTables

  /** The five things an enter sequence turns on, from first to last. */
  predicate Rung(hw: Hardware, i: int)
  {
    if i == 1 then hw.trackerSwitch
    else if i == 2 then hw.trackerApp
    else if i == 3 then hw.adcs == Inertial
    else if i == 4 then hw.instrumentSwitch
    else i == 5 && hw.instrumentApp
  }

  predicate Chain(hw: Hardware)
  {
    && (hw.instrumentApp ==> hw.instrumentSwitch)
    && (hw.instrumentSwitch ==> hw.adcs == Inertial)
    && (hw.adcs == Inertial ==> hw.trackerApp)
    && (hw.trackerApp ==> hw.trackerSwitch)
  }

  predicate IsEnter(n: nat) { 30 <= n <= 32 }
  predicate IsPowerDown(n: nat) { n == 27 || n == 29 || 33 <= n <= 36 }

  /** No enter sequence is in flight together with a power-down sequence. */
  predicate Unmixed(s: State)
  {
    forall m, n :: m in s.run && n in s.run ==> !(IsEnter(m) && IsPowerDown(n))
  }

  /** Every state the run goes through is unmixed. */
  predicate NeverMixed(s: State, es: seq<Event>)
    requires Valid(s) && Legal(s, es)
    decreases |es|
  {
    Unmixed(s) && (es == [] || NeverMixed(Next(s, es[0]), es[1..]))
  }

  // ------------------------------------------------------------ one command, exactly

  /** What a command does to the rungs: climb one, descend one, or neither. */
  function Target(cmd: Command): (int, bool)
  {
    match cmd
    case EpsSwitch(number, on) =>
      if number == 1 then (1, on) else if number == 0 then (4, on) else (0, on)
    case TrackerApp(on) => (2, on)
    case SetAdcsMode(m) => (3, m == Inertial)
    case InstrumentApp(on) => (5, on)
    case _ => (0, false)
  }

  /** From a configuration that keeps the chain, a command keeps it if and only if what it turns
      on rests on something on, and what it turns off carries nothing on. */
  lemma CommandKeepsChainIff(hw: Hardware, cmd: Command)
    requires Chain(hw)
    ensures var (i, on) := Target(cmd);
            Chain(Commanded(hw, cmd)) <==>
            (i == 0 || (if on then i == 1 || Rung(hw, i - 1) else i == 5 || !Rung(hw, i + 1)))
  {
  }

  // ------------------------------------------------------------ whole runs

  /** How many rungs an enter sequence has turned on after its first `k` commands. */
  function Climbed(k: nat): int
  {
    if k <= 2 then 0 else if k <= 5 then k - 2 else if k == 6 then 3 else if k == 7 then 4 else 5
  }

  /** How many rungs, from the top, power-down sequence `n` has turned off after `k` commands. */
  function Descended(n: nat, k: nat): int
  {
    var first := if n == 27 then 7 else if n == 29 then 10 else if n == 36 then 0 else 1;
    if k <= first then 0 else if k - first >= Steps(n) then Steps(n) else k - first
  }

  function Steps(n: nat): int { if n == 36 then 2 else 5 }

  /** The enter sequence has turned some rungs on and will turn on more. */
  predicate Climbing(n: nat, k: nat) { IsEnter(n) && 0 < Climbed(k) < 5 }

  /** The power-down sequence has turned some rungs off and will turn off more. */
  predicate Descending(n: nat, k: nat) { IsPowerDown(n) && 0 < Descended(n, k) < Steps(n) }

  /** No sequence is halfway up while another is halfway down. */
  predicate Uncrossed(run: map<nat, nat>)
  {
    forall m, n :: m in run && n in run ==> !(Climbing(m, run[m]) && Descending(n, run[n]))
  }

  /** Every state the run goes through is uncrossed. */
  predicate NeverCrossed(s: State, es: seq<Event>)
    requires Valid(s) && Legal(s, es)
    decreases |es|
  {
    Uncrossed(s.run) && (es == [] || NeverCrossed(Next(s, es[0]), es[1..]))
  }

  lemma {:induction false} UnmixedNeverCrosses(s: State, es: seq<Event>)
    requires Valid(s) && Legal(s, es) && NeverMixed(s, es)
    ensures NeverCrossed(s, es)
    decreases |es|
  {
    hide Next, Enabled, Valid, Climbed, Descended;
    if es != [] {
      UnmixedNeverCrosses(Next(s, es[0]), es[1..]);
    }
  }

  predicate Progress(hw: Hardware, run: map<nat, nat>)
  {
    && Chain(hw)
    && (forall n :: n in run && Climbing(n, run[n]) ==> Rung(hw, Climbed(run[n])))
    && (forall n :: n in run && Descending(n, run[n]) ==> !Rung(hw, 6 - Descended(n, run[n])))
  }

  predicate ClimbsOrRests(k: nat, t: (int, bool))
  {
    t == if Climbed(k + 1) == Climbed(k) then (0, false) else (Climbed(k) + 1, true)
  }

  predicate DescendsOrRests(n: nat, k: nat, t: (int, bool))
  {
    t == if Descended(n, k + 1) == Descended(n, k) then (0, false) else (5 - Descended(n, k), false)
  }

  /** The command at index `k` of an enter sequence is the one that turns on the next rung. */
  lemma EnterClimbs(n: nat, k: nat)
    requires IsEnter(n) && k < Length(n)
    ensures ClimbsOrRests(k, Target(CommandAt(n, k)))
  {
  }

  lemma PowerDownDescends(n: nat, k: nat)
    requires IsPowerDown(n) && k < Length(n)
    ensures DescendsOrRests(n, k, Target(CommandAt(n, k)))
  {
  }

  lemma OthersLeavePower(n: nat, k: nat)
    requires !IsEnter(n) && !IsPowerDown(n) && k < Length(n)
    ensures Target(CommandAt(n, k)) == (0, false)
  {
  }

  lemma CommandSetsTarget(hw: Hardware, cmd: Command, j: int)
    requires 1 <= j <= 5
    ensures Rung(Commanded(hw, cmd), j) == if Target(cmd).0 == j then Target(cmd).1 else Rung(hw, j)
  {
  }

  /** The effect of one executed command on hardware and positions, whatever the table. */
  lemma CommandKeepsProgress(hw: Hardware, run: map<nat, nat>, n: nat, cmd: Command, run': map<nat, nat>)
    requires Progress(hw, run) && n in run && Uncrossed(run) && Uncrossed(run')
    requires IsEnter(n) ==> ClimbsOrRests(run[n], Target(cmd)) && (n in run' || Climbed(run[n] + 1) == Climbed(run[n]))
    requires IsPowerDown(n) ==> DescendsOrRests(n, run[n], Target(cmd)) && (n in run' || Descended(n, run[n] + 1) == Descended(n, run[n]))
    requires !IsEnter(n) && !IsPowerDown(n) ==> Target(cmd).0 == 0
    requires run' == run - {n} || run' == run[n := run[n] + 1]
    ensures Progress(Commanded(hw, cmd), run')
  {
    var hw' := Commanded(hw, cmd);
    CommandKeepsChainIff(hw, cmd);
    assert Chain(hw');
    forall m | m in run' && Climbing(m, run'[m]) ensures Rung(hw', Climbed(run'[m])) {
      CommandSetsTarget(hw, cmd, Climbed(run'[m]));
    }
    forall m | m in run' && Descending(m, run'[m]) ensures !Rung(hw', 6 - Descended(m, run'[m])) {
      CommandSetsTarget(hw, cmd, 6 - Descended(m, run'[m]));
    }
  }

  lemma ExecutedOnHardware(s: State, n: nat, cmd: Command, last: bool)
    requires n in s.run
    ensures Executed(s, n, cmd, last).hw == Commanded(s.hw, cmd)
    ensures Executed(s, n, cmd, last).run == if last then s.run - {n} else s.run[n := s.run[n] + 1]
  {
  }

  lemma ExecKeepsProgress(s: State, n: nat, cmd: Command, last: bool)
    requires n in s.run && s.run[n] < Length(n) && cmd == CommandAt(n, s.run[n]) && last == (s.run[n] + 1 == Length(n))
    requires Uncrossed(s.run) && Uncrossed(Executed(s, n, cmd, last).run) && Progress(s.hw, s.run)
    ensures Progress(Executed(s, n, cmd, last).hw, Executed(s, n, cmd, last).run)
  {
    ExecutedOnHardware(s, n, cmd, last);
    if IsEnter(n) {
      EnterClimbs(n, s.run[n]);
    } else if IsPowerDown(n) {
      PowerDownDescends(n, s.run[n]);
    } else {
      OthersLeavePower(n, s.run[n]);
    }
    if last {
      LastCommandRests(n, s.run[n]);
    }
    CommandKeepsProgress(s.hw, s.run, n, cmd, Executed(s, n, cmd, last).run);
  }

  /** The last command of a power sequence leaves the power alone. */
  lemma LastCommandRests(n: nat, k: nat)
    requires k + 1 == Length(n)
    ensures IsEnter(n) ==> Climbed(k + 1) == Climbed(k)
    ensures IsPowerDown(n) ==> Descended(n, k + 1) == Descended(n, k)
  {
  }

  /** One step between uncrossed states keeps the chain and every sequence's share of it. */
  lemma StepKeepsProgress(s: State, e: Event)
    requires Valid(s) && Enabled(s, e) && Progress(s.hw, s.run) && Uncrossed(s.run) && Uncrossed(Next(s, e).run)
    ensures Progress(Next(s, e).hw, Next(s, e).run)
  {
    if e.Exec? {
      ExecKeepsProgress(s, e.n, CommandAt(e.n, s.run[e.n]), s.run[e.n] + 1 == Length(e.n));
    }
  }

  /** Over any interleaving in which no sequence is halfway up while another is halfway down, however
      many are in flight, every command boundary keeps the power chain. */
  lemma {:induction false} ChainHolds(s: State, es: seq<Event>)
    requires Valid(s) && Legal(s, es) && NeverCrossed(s, es) && Progress(s.hw, s.run)
    ensures Chain(Final(s, es).hw) && Progress(Final(s, es).hw, Final(s, es).run)
    decreases |es|
  {
    if es != [] {
      StepKeepsProgress(s, es[0]);
      ChainHolds(Next(s, es[0]), es[1..]);
    }
  }

  lemma {:induction false} PrefixOfRun(s: State, es: seq<Event>, k: nat)
    requires Valid(s) && Legal(s, es) && k <= |es|
    ensures Legal(s, es[..k])
    ensures NeverCrossed(s, es) ==> NeverCrossed(s, es[..k])
    decreases |es|
  {
    hide Next, Enabled, Valid, Uncrossed;
    if k > 0 {
      assert es[..k][0] == es[0] && es[..k][1..] == es[1..][..k - 1];
      PrefixOfRun(Next(s, es[0]), es[1..], k - 1);
    }
  }

  /** ... at every point of the run, from a state with the chain and no power sequence in flight. */
  lemma ChainHoldsThroughout(s: State, es: seq<Event>, k: nat)
    requires Valid(s) && Legal(s, es) && NeverCrossed(s, es) && k <= |es|
    requires Chain(s.hw) && forall n :: n in s.run ==> !IsEnter(n) && !IsPowerDown(n)
    ensures Legal(s, es[..k]) && Chain(Final(s, es[..k]).hw)
  {
    PrefixOfRun(s, es, k);
    ChainHolds(s, es[..k]);
  }

  /** In particular if no enter sequence is ever in flight together with a power-down sequence. */
  lemma UnmixedKeepsChain(s: State, es: seq<Event>, k: nat)
    requires Valid(s) && Legal(s, es) && NeverMixed(s, es) && k <= |es|
    requires Chain(s.hw) && forall n :: n in s.run ==> !IsEnter(n) && !IsPowerDown(n)
    ensures Legal(s, es[..k]) && Chain(Final(s, es[..k]).hw)
  {
    UnmixedNeverCrosses(s, es);
    ChainHoldsThroughout(s, es, k);
  }
}
