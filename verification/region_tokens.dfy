/** Each region's enter and leave sequences pass one token around; the passes are accounted for. */
module RegionTokens {
  import opened LcActionpoint
  import opened ScienceTables
  import opened Battery
  import opened Widths

  /** Where region r's token is: enter armed, entering, leave armed, or leaving. */
  function Tokens(s: State, r: nat): nat
  {
    One(IsActive(s, 30 + r)) + One(30 + r in s.run) + One(IsActive(s, 33 + r)) + One(33 + r in s.run)
  }

  predicate IsRegion(n: nat) { 30 <= n <= 35 }

  predicate RegionsOnly(es: seq<Event>) { forall i :: 0 <= i < |es| ==> IsRegion(es[i].n) }

  /** The six region actionpoints obey commands and their sequences are enabled; only region
      sequences are in flight. */
  predicate RegionsReady(s: State)
  {
    && (forall n :: n in s.run ==> IsRegion(n))
    && Numbers(30, 35) <= s.enabled
    && CanSet(s, 30) && CanSet(s, 31) && CanSet(s, 32) && CanSet(s, 33) && CanSet(s, 34) && CanSet(s, 35)
  }

  predicate OneTokenEach(s: State)
  {
    RegionsReady(s) && Tokens(s, 0) == 1 && Tokens(s, 1) == 1 && Tokens(s, 2) == 1
  }

  /** The only actionpoint a region sequence touches is its opposite, with its last command. */
  lemma RegionCommands(n: nat, k: nat)
    requires IsRegion(n) && k < Length(n)
    ensures var cmd := CommandAt(n, k);
      && (cmd.SetApState? <==> k + 1 == Length(n))
      && (cmd.SetApState? ==> cmd == SetApState(if n <= 32 then n + 3 else n - 3, Active))
      && (cmd == IncrementPassCount <==> n <= 32 && k == 1)
      && cmd != RestartProcessor && !cmd.EnableRtsGroup?
    ensures Length(n) == if n <= 32 then 10 else 8
  {
  }

  lemma ExecutedRest(s: State, n: nat, cmd: Command, last: bool)
    requires n in s.run
    ensures var s' := Executed(s, n, cmd, last);
      && s'.run == (if last then s.run - {n} else s.run[n := s.run[n] + 1])
      && s'.passes == (if cmd == IncrementPassCount then (s.passes + 1) % UINT16 else s.passes)
      && s.enabled <= s'.enabled
  {
  }

  lemma ExecKeepsTokens(s: State, n: nat, cmd: Command, last: bool, r: nat)
    requires RegionsReady(s) && n in s.run && r < 3
    requires cmd.SetApState? <==> last
    requires cmd.SetApState? ==> cmd == SetApState(if n <= 32 then n + 3 else n - 3, Active)
    requires cmd != RestartProcessor && Tokens(s, r) == 1
    ensures RegionsReady(Executed(s, n, cmd, last)) && Tokens(Executed(s, n, cmd, last), r) == 1
    ensures InPass(Executed(s, n, cmd, last), r) == InPass(s, r)
  {
    hide Executed, Numbers;
    ExecutedRest(s, n, cmd, last);
    ExecutedOnAp(s, n, cmd, last, 30 + r);
    ExecutedOnAp(s, n, cmd, last, 33 + r);
    forall m | IsRegion(m) ensures CanSet(Executed(s, n, cmd, last), m) {
      ExecutedOnAp(s, n, cmd, last, m);
    }
  }

  lemma FireKeepsTokens(s: State, n: nat, r: nat)
    requires Valid(s) && Enabled(s, Fire(n)) && RegionsReady(s) && IsRegion(n) && r < 3
    requires Tokens(s, r) == 1
    ensures var s' := Next(s, Fire(n));
      && RegionsReady(s') && Tokens(s', r) == 1
      && (InPass(s, r) == if n == 33 + r then 1 else if n == 30 + r then 0 else InPass(s, r))
      && (InPass(s', r) == if n == 30 + r then 1 else if n == 33 + r then 0 else InPass(s, r))
  {
    FiredState(s, n);
    hide Next, Length, Numbers;
  }

  lemma FiredState(s: State, n: nat)
    requires Valid(s) && Enabled(s, Fire(n)) && RegionsReady(s) && IsRegion(n)
    ensures Next(s, Fire(n)) == s.(ap := s.ap[n := Passive], run := if n in s.run then s.run else s.run[n := 0])
  {
    RegionCommands(n, 0);
    assert n in Numbers(30, 35);
  }

  /** One while the region's pass is under way: entering, or waiting to leave. */
  function InPass(s: State, r: nat): nat
  {
    One(30 + r in s.run || IsActive(s, 33 + r))
  }

  lemma StepKeepsTokens(s: State, e: Event, r: nat)
    requires Valid(s) && Enabled(s, e) && OneTokenEach(s) && IsRegion(e.n) && r < 3
    ensures OneTokenEach(Next(s, e))
    ensures InPass(Next(s, e), r) + One(e == Fire(33 + r)) == InPass(s, r) + One(e == Fire(30 + r))
  {
    forall q | 0 <= q < 3
      ensures Tokens(Next(s, e), q) == 1 && RegionsReady(Next(s, e))
      ensures InPass(Next(s, e), q) + One(e == Fire(33 + q)) == InPass(s, q) + One(e == Fire(30 + q))
    {
      match e
      case Fire(n) => FireKeepsTokens(s, n, q);
      case Exec(n) =>
        RegionCommands(n, s.run[n]);
        ExecKeepsTokens(s, n, CommandAt(n, s.run[n]), s.run[n] + 1 == Length(n), q);
    }
    assert Tokens(Next(s, e), 0) == 1 && Tokens(Next(s, e), 1) == 1 && Tokens(Next(s, e), 2) == 1;
  }

  /** In every interleaving of the region sequences each region keeps exactly one token, and its
      enter firings exceed its leave firings by exactly the pass under way. */
  lemma {:induction false} TokensConserved(s: State, es: seq<Event>, r: nat)
    requires Valid(s) && Legal(s, es) && RegionsOnly(es) && OneTokenEach(s) && r < 3
    ensures OneTokenEach(Final(s, es))
    ensures Count(es, Fire(30 + r)) + InPass(s, r) == Count(es, Fire(33 + r)) + InPass(Final(s, es), r)
    decreases |es|
  {
    if es != [] {
      StepKeepsTokens(s, es[0], r);
      TokensConserved(Next(s, es[0]), es[1..], r);
    }
  }

  /** Enter and leave of one region are never in flight together, and no start request of a
      region sequence is ever rejected. */
  lemma EnterLeaveExclusive(s: State, es: seq<Event>, r: nat)
    requires Valid(s) && Legal(s, es) && RegionsOnly(es) && OneTokenEach(s) && r < 3
    ensures !(30 + r in Final(s, es).run && 33 + r in Final(s, es).run)
    ensures forall n :: n in {30 + r, 33 + r} && Enabled(Final(s, es), Fire(n)) ==>
              n !in Final(s, es).run && n in Next(Final(s, es), Fire(n)).run
  {
    TokensConserved(s, es, r);
    RegionCommands(30 + r, 0);
    RegionCommands(33 + r, 0);
  }

  // ------------------------------------------------------------ pass counter

  /** An enter sequence that has not counted its pass yet. */
  function Uncounted(s: State, r: nat): nat
  {
    One(30 + r in s.run && s.run[30 + r] <= 1)
  }

  function AllUncounted(s: State): nat { Uncounted(s, 0) + Uncounted(s, 1) + Uncounted(s, 2) }

  function EnterFirings(es: seq<Event>): nat { Count(es, Fire(30)) + Count(es, Fire(31)) + Count(es, Fire(32)) }

  function IsEnterFiring(e: Event): nat { One(e == Fire(30)) + One(e == Fire(31)) + One(e == Fire(32)) }

  /** Passes counted, plus passes about to be counted. */
  function Owed(s: State): nat { s.passes + AllUncounted(s) }

  lemma ExecOwes(s: State, n: nat, cmd: Command, last: bool)
    requires n in s.run && s.passes < UINT16 && IsRegion(n) && RegionsReady(s)
    requires cmd == IncrementPassCount <==> n <= 32 && s.run[n] == 1
    requires last ==> s.run[n] > 1
    ensures Executed(s, n, cmd, last).passes < UINT16
    ensures Owed(Executed(s, n, cmd, last)) % UINT16 == Owed(s) % UINT16
  {
    hide Executed, RegionsReady, AllUncounted;
    ExecutedRest(s, n, cmd, last);
    UncountedAfter(s, n, cmd, last);
    var s' := Executed(s, n, cmd, last);
    if cmd == IncrementPassCount {
      SameRemainder(s'.passes, s.passes + 1, AllUncounted(s'));
    }
  }

  lemma UncountedAfter(s: State, n: nat, cmd: Command, last: bool)
    requires n in s.run && IsRegion(n)
    requires cmd == IncrementPassCount <==> n <= 32 && s.run[n] == 1
    requires last ==> s.run[n] > 1
    ensures AllUncounted(s) == AllUncounted(Executed(s, n, cmd, last)) + if cmd == IncrementPassCount then 1 else 0
  {
    hide Executed;
    ExecutedRest(s, n, cmd, last);
  }

  lemma FireOwes(s: State, n: nat)
    requires Valid(s) && Enabled(s, Fire(n)) && OneTokenEach(s) && IsRegion(n)
    ensures Next(s, Fire(n)).passes == s.passes
    ensures Owed(Next(s, Fire(n))) == Owed(s) + IsEnterFiring(Fire(n))
  {
    RegionCommands(n, 0);
    assert n !in s.run;
    assert Next(s, Fire(n)).run == s.run[n := 0];
  }

  lemma FiringOnly(e: Event)
    requires e.Exec?
    ensures IsEnterFiring(e) == 0
  {
  }

  lemma TokensReady(s: State)
    requires OneTokenEach(s)
    ensures RegionsReady(s)
  {
  }

  lemma StepOwes(s: State, e: Event)
    requires Valid(s) && Enabled(s, e) && OneTokenEach(s) && IsRegion(e.n) && s.passes < UINT16
    ensures Next(s, e).passes < UINT16 && OneTokenEach(Next(s, e))
    ensures Owed(Next(s, e)) % UINT16 == (Owed(s) + IsEnterFiring(e)) % UINT16
  {
    hide OneTokenEach, Owed, IsEnterFiring;
    StepKeepsTokens(s, e, 0);
    match e
    case Fire(n) => FireOwes(s, n);
    case Exec(n) =>
      FiringOnly(e);
      RegionCommands(n, s.run[n]);
      TokensReady(s);
      ExecOwes(s, n, CommandAt(n, s.run[n]), s.run[n] + 1 == Length(n));
  }

  /** The science pass counter, a 16-bit unsigned integer, counts every pass begun exactly once:
      it differs from the enter firings only by the enter sequences yet to send their increment. */
  lemma {:induction false} PassesCounted(s: State, es: seq<Event>)
    requires Valid(s) && Legal(s, es) && RegionsOnly(es) && OneTokenEach(s) && s.passes < UINT16
    ensures Owed(Final(s, es)) % 0x1_0000 == (Owed(s) + EnterFirings(es)) % 0x1_0000
    decreases |es|
  {
    hide Next, Enabled, OneTokenEach, Owed, IsEnterFiring;
    if es != [] {
      var s1 := Next(s, es[0]);
      StepOwes(s, es[0]);
      PassesCounted(s1, es[1..]);
      SameRemainder(Owed(s1), Owed(s) + IsEnterFiring(es[0]), EnterFirings(es[1..]));
      FirstEnterFiring(es);
    }
  }

  lemma FirstEnterFiring(es: seq<Event>)
    requires es != []
    ensures EnterFirings(es) == IsEnterFiring(es[0]) + EnterFirings(es[1..])
  {
  }

  lemma SameRemainder(a: nat, b: nat, c: nat)
    requires a % UINT16 == b % UINT16
    ensures (a + c) % UINT16 == (b + c) % UINT16
  {
  }
}
