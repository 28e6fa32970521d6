/** What the sequences write, one actionpoint or device at a time, and which of two sequences has
    the last word. */
module Registers {
  import opened LcActionpoint
  import opened ScienceTables
  import opened SequenceRuns

  /** The parts of the state that commands set. */
  datatype Register = Ap(ap: nat) | InstrumentAppState | InstrumentSwitchState | AdcsState | TrackerAppState | TrackerSwitchState

  datatype Value = ApIs(state: ApState) | On(on: bool) | Mode(adcs: AdcsMode) | Absent

  function Read(s: State, reg: Register): Value
  {
    match reg
    case Ap(a) => if a in s.ap then ApIs(s.ap[a]) else Absent
    case InstrumentAppState => On(s.hw.instrumentApp)
    case InstrumentSwitchState => On(s.hw.instrumentSwitch)
    case AdcsState => Mode(s.hw.adcs)
    case TrackerAppState => On(s.hw.trackerApp)
    case TrackerSwitchState => On(s.hw.trackerSwitch)
  }

  lemma ActiveIsRead(s: State, a: nat)
    ensures IsActive(s, a) <==> Read(s, Ap(a)) == ApIs(Active)
  {
  }

  datatype Write = Keep | Put(v: Value)

  function CommandWrites(cmd: Command, reg: Register): Write
  {
    match cmd
    case SetApState(a, st) => if reg == Ap(a) then Put(ApIs(st)) else Keep
    case InstrumentApp(on) => if reg == InstrumentAppState then Put(On(on)) else Keep
    case TrackerApp(on) => if reg == TrackerAppState then Put(On(on)) else Keep
    case EpsSwitch(number, on) =>
      if (number == 0 && reg == InstrumentSwitchState) || (number == 1 && reg == TrackerSwitchState)
      then Put(On(on)) else Keep
    case SetAdcsMode(m) => if reg == AdcsState then Put(Mode(m)) else Keep
    case _ => Keep
  }

  /** Hardware obeys always, an actionpoint while Limit Checker accepts commands for it. */
  predicate Obeys(s: State, reg: Register) { reg.Ap? ==> CanSet(s, reg.ap) }

  lemma ApplyWrites(s: State, cmd: Command, reg: Register)
    requires Obeys(s, reg)
    ensures var w := CommandWrites(cmd, reg); Read(Apply(s, cmd), reg) == if w.Put? then w.v else Read(s, reg)
    ensures cmd.SetApState? ==> cmd.state == Active || cmd.state == Disabled ==> Obeys(Apply(s, cmd), reg)
    ensures !cmd.SetApState? ==> Obeys(Apply(s, cmd), reg)
  {
  }

  /** Where a sequence writes a register, and what: no table does it twice. */
  datatype Place = Never | At(index: nat, v: Value)

  /** The five devices from the first a power-down sequence switches off to the last. */
  function DeviceRank(reg: Register): nat
  {
    match reg
    case InstrumentAppState => 0
    case InstrumentSwitchState => 1
    case AdcsState => 2
    case TrackerAppState => 3
    case _ => 4
  }

  function OffValue(reg: Register): Value { if reg == AdcsState then Mode(SunSafe) else On(false) }
  function OnValue(reg: Register): Value { if reg == AdcsState then Mode(Inertial) else On(true) }

  function WriteAt(n: nat, reg: Register): Place
  {
    if reg.Ap? then
      var setting := Sets(n, reg.ap);
      if setting.Set? then At(setting.index, ApIs(setting.state)) else Never
    else
      var d := DeviceRank(reg);
      if 30 <= n <= 32 then At(if d == 4 then 2 else if d == 3 then 3 else if d == 2 then 4 else 7 - d, OnValue(reg))
      else if 33 <= n <= 35 then At(1 + d, OffValue(reg))
      else if n == 27 then At(7 + d, OffValue(reg))
      else if n == 29 then At(10 + d, OffValue(reg))
      else if n == 36 && d <= 1 then At(d, OffValue(reg))
      else Never
  }

  lemma WritesApExactly(n: nat, a: nat, k: nat)
    requires k < Length(n)
    ensures CommandWrites(CommandAt(n, k), Ap(a)) ==
            if WriteAt(n, Ap(a)).At? && WriteAt(n, Ap(a)).index == k then Put(WriteAt(n, Ap(a)).v) else Keep
    ensures WriteAt(n, Ap(a)).At? ==> WriteAt(n, Ap(a)).index < Length(n)
  {
    SetsExactly(n, a, k);
    hide CommandAt, Sets;
  }

  lemma WritesExactly(n: nat, reg: Register, k: nat)
    requires k < Length(n)
    ensures CommandWrites(CommandAt(n, k), reg) ==
            if WriteAt(n, reg).At? && WriteAt(n, reg).index == k then Put(WriteAt(n, reg).v) else Keep
    ensures WriteAt(n, reg).At? ==> WriteAt(n, reg).index < Length(n)
  {
    if reg.Ap? {
      WritesApExactly(n, reg.ap, k);
    }
  }

  lemma TableStates(n: nat, k: nat)
    requires k < Length(n)
    ensures var cmd := CommandAt(n, k); cmd.SetApState? ==> cmd.state == Active || cmd.state == Disabled
  {
  }

  /** The write the next command of an executing sequence makes. */
  function NextWrite(s: State, n: nat, reg: Register): Write
  {
    if n in s.run && s.run[n] < Length(n) then CommandWrites(CommandAt(n, s.run[n]), reg) else Keep
  }

  lemma ExecWrites(s: State, n: nat, reg: Register)
    requires Valid(s) && Enabled(s, Exec(n)) && Obeys(s, reg)
    ensures var s', w := Next(s, Exec(n)), NextWrite(s, n, reg);
      Obeys(s', reg) && Read(s', reg) == (if w.Put? then w.v else Read(s, reg)) && s'.run == MovedTo(s.run, n, s.run[n] + 1)
  {
    OneExec(s, n);
    TableStates(n, s.run[n]);
    ApplyWrites(s, CommandAt(n, s.run[n]), reg);
    hide CommandAt, Apply, CommandWrites;
  }

  // ------------------------------------------------------------ two sequences, interleaved

  /** The index of the `k`th occurrence of `e`, counting from zero; the length if there are fewer. */
  function Nth(es: seq<Event>, e: Event, k: nat): (i: nat)
    ensures i <= |es|
  {
    if es == [] then 0
    else if es[0] == e then if k == 0 then 0 else 1 + Nth(es[1..], e, k - 1)
    else 1 + Nth(es[1..], e, k)
  }

  predicate OnlyThese(es: seq<Event>, a: nat, b: nat)
  {
    forall i :: 0 <= i < |es| ==> es[i] == Exec(a) || es[i] == Exec(b)
  }

  /** How many commands a sequence has sent: all of them once it no longer executes. */
  function SentBy(s: State, n: nat): nat { if n in s.run then s.run[n] else Length(n) }

  /** Where, in the rest of the run, sequence `n` writes the register; the length if it is past. */
  function WritePoint(s: State, es: seq<Event>, n: nat, reg: Register): nat
  {
    var w := WriteAt(n, reg);
    if w.At? && SentBy(s, n) <= w.index < Length(n) then Nth(es, Exec(n), w.index - SentBy(s, n)) else |es|
  }

  predicate StillWrites(s: State, n: nat, reg: Register)
  {
    var w := WriteAt(n, reg);
    w.At? && SentBy(s, n) <= w.index < Length(n)
  }

  /** Of two writes still to come, the later one stays; without any the register keeps its value. */
  function Word(a: bool, pa: nat, va: Value, b: bool, pb: nat, vb: Value, before: Value): Value
  {
    if a && (b ==> pb < pa) then va else if b then vb else before
  }

  function Written(w: Place): Value { if w.At? then w.v else Absent }

  /** What is left in a register: the write of whichever sequence writes it later in the run. */
  function LastWord(s: State, es: seq<Event>, a: nat, b: nat, reg: Register): Value
  {
    Word(StillWrites(s, a, reg), WritePoint(s, es, a, reg), Written(WriteAt(a, reg)),
         StillWrites(s, b, reg), WritePoint(s, es, b, reg), Written(WriteAt(b, reg)), Read(s, reg))
  }

  predicate Both(s: State, a: nat, b: nat) { a != b && forall n :: n in s.run ==> n == a || n == b }

  lemma NthAfter(es: seq<Event>, e: Event, k: nat)
    requires es != []
    ensures Nth(es, e, k) == if es[0] == e && k == 0 then 0 else 1 + Nth(es[1..], e, if es[0] == e then k - 1 else k)
  {
  }

  predicate Sends(s: State, es: seq<Event>, n: nat, s': State)
  {
    n in s.run && s.run[n] < Length(n) && s'.run == MovedTo(s.run, n, s.run[n] + 1) && es != [] && es[0] == Exec(n)
  }

  lemma MoverPoint(s: State, es: seq<Event>, n: nat, reg: Register, s': State)
    requires Sends(s, es, n, s')
    requires var w := NextWrite(s, n, reg); Read(s', reg) == if w.Put? then w.v else Read(s, reg)
    ensures if StillWrites(s, n, reg) && !StillWrites(s', n, reg)
            then WritePoint(s, es, n, reg) == 0 && Read(s', reg) == Written(WriteAt(n, reg))
            else StillWrites(s', n, reg) == StillWrites(s, n, reg) && Read(s', reg) == Read(s, reg)
    ensures StillWrites(s', n, reg) ==> WritePoint(s, es, n, reg) == 1 + WritePoint(s', es[1..], n, reg)
  {
    var k := s.run[n];
    WritesExactly(n, reg, k);
    assert SentBy(s', n) == k + 1;
    var w := WriteAt(n, reg);
    if StillWrites(s, n, reg) {
      NthAfter(es, Exec(n), w.index - k);
    }
    hide WriteAt, CommandAt, CommandWrites, Nth, Read;
  }

  lemma OtherPoint(s: State, es: seq<Event>, n: nat, m: nat, reg: Register, s': State)
    requires Sends(s, es, n, s') && n != m
    ensures StillWrites(s', m, reg) == StillWrites(s, m, reg)
    ensures StillWrites(s, m, reg) ==> WritePoint(s, es, m, reg) == 1 + WritePoint(s', es[1..], m, reg)
  {
    hide WriteAt, CommandAt, Length;
    assert SentBy(s', m) == SentBy(s, m);
    if StillWrites(s, m, reg) {
      NthAfter(es, Exec(m), WriteAt(m, reg).index - SentBy(s, m));
    }
  }

  /** One command of sequence `n`, the other being `m`: the last word is still the same. */
  lemma WordKept(s: State, es: seq<Event>, n: nat, m: nat, reg: Register, s': State)
    requires Sends(s, es, n, s') && n != m
    requires var w := NextWrite(s, n, reg); Read(s', reg) == if w.Put? then w.v else Read(s, reg)
    ensures LastWord(s', es[1..], n, m, reg) == LastWord(s, es, n, m, reg)
    ensures LastWord(s', es[1..], m, n, reg) == LastWord(s, es, m, n, reg)
  {
    MoverPoint(s, es, n, reg, s');
    OtherPoint(s, es, n, m, reg, s');
    hide StillWrites, WritePoint, WriteAt, Written, Read, Sends, NextWrite;
  }

  /** For every interleaving of two sequences, from wherever they stand to the end of both, each
      actionpoint and device ends as the later of their commands for it says. */
  lemma {:induction false} InterleavingSettles(s: State, es: seq<Event>, a: nat, b: nat, reg: Register)
    requires Valid(s) && Legal(s, es) && Both(s, a, b) && OnlyThese(es, a, b) && Obeys(s, reg)
    requires Final(s, es).run == map[]
    ensures Read(Final(s, es), reg) == LastWord(s, es, a, b, reg)
    decreases |es|
  {
    if es == [] {
      NothingLeftToWrite(s, a, reg);
      NothingLeftToWrite(s, b, reg);
    } else {
      var n := es[0].n;
      var m := if n == a then b else a;
      assert es[0] == Exec(a) || es[0] == Exec(b);
      ExecWrites(s, n, reg);
      var s' := Next(s, es[0]);
      hide Next, Enabled, Read, Obeys, LastWord, NextWrite;
      RestOfBoth(s, n, m, s');
      InterleavingSettles(s', es[1..], a, b, reg);
      WordKept(s, es, n, m, reg, s');
    }
  }

  lemma NothingLeftToWrite(s: State, n: nat, reg: Register)
    requires n !in s.run
    ensures !StillWrites(s, n, reg)
  {
  }

  lemma RestOfBoth(s: State, n: nat, m: nat, s': State)
    requires n in s.run && Both(s, n, m) && s'.run == MovedTo(s.run, n, s.run[n] + 1)
    ensures Both(s', n, m) && Both(s', m, n) && n != m
  {
  }
}
