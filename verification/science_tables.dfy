/** The command sequences of science mode, command by command, and what one command does. */
module ScienceTables {
  import opened LcActionpoint
  import opened Widths

  datatype AdcsMode = PassiveMode | Bdot | SunSafe | Inertial

  datatype Command =
    | UpdateScienceStatus(status: nat)
    | SetSpacecraftMode(mode: nat)
    | IncrementPassCount
    | InstrumentApp(on: bool)
    | TrackerApp(on: bool)
    | EpsSwitch(number: nat, on: bool)
    | SetAdcsMode(adcs: AdcsMode)
    | SetInertialQuaternion
    | ResetApStats(ap: nat)
    | SetApState(ap: nat, state: ApState)
    | EnableRtsGroup(first: nat, last: nat)
    | RestartProcessor
    | Unmodelled  // a command to an application outside the science protocol

  /** A table entry: seconds after the previous command of the same sequence, and the command. */
  datatype TableEntry = After(tag: nat, cmd: Command)

  const INSTRUMENT_SWITCH: nat := 0
  const TRACKER_SWITCH: nat := 1

  const SCIENCE_OFF: nat := 0
  const SCIENCE_INITIALIZED: nat := 1
  const NO_SCIENCE_LOW_POWER: nat := 8
  const NO_SCIENCE_RECHARGED: nat := 9
  const EXITED_SCIENCE_MODE: nat := 10

  // The three regions' sequences differ only in the status they note and the actionpoint they arm.

  function EnterSequence(r: nat, k: nat): TableEntry
  {
    match k
    case 0 => After(1, UpdateScienceStatus(2 + r))
    case 1 => After(1, IncrementPassCount)
    case 2 => After(1, EpsSwitch(TRACKER_SWITCH, true))
    case 3 => After(1, TrackerApp(true))
    case 4 => After(5, SetAdcsMode(Inertial))
    case 5 => After(5, SetInertialQuaternion)
    case 6 => After(1, EpsSwitch(INSTRUMENT_SWITCH, true))
    case 7 => After(1, InstrumentApp(true))
    case 8 => After(1, ResetApStats(33 + r))
    case _ => After(1, SetApState(33 + r, Active))
  }

  function LeaveSequence(r: nat, k: nat): TableEntry
  {
    match k
    case 0 => After(1, UpdateScienceStatus(5 + r))
    case 1 => After(1, InstrumentApp(false))
    case 2 => After(1, EpsSwitch(INSTRUMENT_SWITCH, false))
    case 3 => After(5, SetAdcsMode(SunSafe))
    case 4 => After(1, TrackerApp(false))
    case 5 => After(1, EpsSwitch(TRACKER_SWITCH, false))
    case 6 => After(1, ResetApStats(30 + r))
    case _ => After(1, SetApState(30 + r, Active))
  }

  function Boot(k: nat): TableEntry
  {
    match k
    case 0 => After(1, Unmodelled)
    case 1 => After(1, Unmodelled)
    case 2 => After(1, EnableRtsGroup(3, 64))
    case 3 => After(1, Unmodelled)
    case 4 => After(1, Unmodelled)
    case 5 => After(0, EnableRtsGroup(26, 26))
    case 6 => After(1, ResetApStats(26))
    case 7 => After(1, SetApState(26, Active))
    case 8 => After(0, EnableRtsGroup(25, 25))
    case 9 => After(1, ResetApStats(25))
    case 10 => After(1, SetApState(25, Active))
    case _ => After(1, UpdateScienceStatus(SCIENCE_OFF))
  }

  function RebootToScience(k: nat): TableEntry
  {
    match k
    case 0 => After(1, SetApState(25, Disabled))
    case _ => After(0, SetSpacecraftMode(3))
  }

  function EnterScience(k: nat): TableEntry
  {
    match k
    case 0 => After(1, EnableRtsGroup(27, 32))
    case 1 => After(1, ResetApStats(27))
    case 2 => After(1, ResetApStats(29))
    case 3 => After(1, ResetApStats(30))
    case 4 => After(1, ResetApStats(31))
    case 5 => After(1, ResetApStats(32))
    case 6 => After(1, SetApState(27, Active))
    case 7 => After(1, SetApState(29, Active))
    case 8 => After(1, SetApState(30, Active))
    case 9 => After(1, SetApState(31, Active))
    case 10 => After(1, SetApState(32, Active))
    case 11 => After(1, SetApState(36, Active))
    case _ => After(1, UpdateScienceStatus(SCIENCE_INITIALIZED))
  }

  function LowPower(k: nat): TableEntry
  {
    match k
    case 0 => After(1, UpdateScienceStatus(NO_SCIENCE_LOW_POWER))
    case 1 => After(1, SetApState(30, Disabled))
    case 2 => After(1, SetApState(31, Disabled))
    case 3 => After(1, SetApState(32, Disabled))
    case 4 => After(1, SetApState(33, Disabled))
    case 5 => After(1, SetApState(34, Disabled))
    case 6 => After(1, SetApState(35, Disabled))
    case 7 => After(1, InstrumentApp(false))
    case 8 => After(1, EpsSwitch(INSTRUMENT_SWITCH, false))
    case 9 => After(5, SetAdcsMode(SunSafe))
    case 10 => After(1, TrackerApp(false))
    case 11 => After(1, EpsSwitch(TRACKER_SWITCH, false))
    case 12 => After(1, ResetApStats(28))
    case _ => After(1, SetApState(28, Active))
  }

  function Recharged(k: nat): TableEntry
  {
    match k
    case 0 => After(1, UpdateScienceStatus(NO_SCIENCE_RECHARGED))
    case 1 => After(1, SetApState(28, Disabled))
    case 2 => After(1, ResetApStats(27))
    case 3 => After(1, ResetApStats(29))
    case 4 => After(1, ResetApStats(30))
    case 5 => After(1, ResetApStats(31))
    case 6 => After(1, ResetApStats(32))
    case 7 => After(1, SetApState(27, Active))
    case 8 => After(1, SetApState(29, Active))
    case 9 => After(1, SetApState(30, Active))
    case 10 => After(1, SetApState(31, Active))
    case _ => After(1, SetApState(32, Active))
  }

  function ExitScience(k: nat): TableEntry
  {
    match k
    case 0 => After(1, UpdateScienceStatus(EXITED_SCIENCE_MODE))
    case 1 => After(1, SetApState(27, Disabled))
    case 2 => After(1, SetApState(28, Disabled))
    case 3 => After(1, SetApState(29, Disabled))
    case 4 => After(1, SetApState(30, Disabled))
    case 5 => After(1, SetApState(31, Disabled))
    case 6 => After(1, SetApState(32, Disabled))
    case 7 => After(1, SetApState(33, Disabled))
    case 8 => After(1, SetApState(34, Disabled))
    case 9 => After(1, SetApState(35, Disabled))
    case 10 => After(1, InstrumentApp(false))
    case 11 => After(1, EpsSwitch(INSTRUMENT_SWITCH, false))
    case 12 => After(5, SetAdcsMode(SunSafe))
    case 13 => After(1, TrackerApp(false))
    case 14 => After(1, EpsSwitch(TRACKER_SWITCH, false))
    case 15 => After(1, ResetApStats(26))
    case 16 => After(1, SetApState(26, Active))
    case _ => After(1, SetApState(36, Disabled))
  }

  function InstrumentFailure(k: nat): TableEntry
  {
    match k
    case 0 => After(1, InstrumentApp(false))
    case 1 => After(1, EpsSwitch(INSTRUMENT_SWITCH, false))
    case _ => After(1, RestartProcessor)
  }

  /** How many commands the table of sequence `n` holds; zero when the protocol has no such table. */
  function Length(n: nat): nat
  {
    if n == 1 then 12
    else if n == 25 then 2
    else if n == 26 then 13
    else if n == 27 then 14
    else if n == 28 then 12
    else if n == 29 then 18
    else if 30 <= n <= 32 then 10
    else if 33 <= n <= 35 then 8
    else if n == 36 then 3
    else 0
  }

  /** Command `k` of sequence `n`, counting from zero. */
  function EntryAt(n: nat, k: nat): TableEntry
    requires k < Length(n)
  {
    if n == 1 then Boot(k)
    else if n == 25 then RebootToScience(k)
    else if n == 26 then EnterScience(k)
    else if n == 27 then LowPower(k)
    else if n == 28 then Recharged(k)
    else if n == 29 then ExitScience(k)
    else if n <= 32 then EnterSequence(n - 30, k)
    else if n <= 35 then LeaveSequence(n - 33, k)
    else InstrumentFailure(k)
  }

  function CommandAt(n: nat, k: nat): Command
    requires k < Length(n)
  {
    EntryAt(n, k).cmd
  }

  // ------------------------------------------------------------ state

  /** The commanded configuration of the instrument, the star tracker and the attitude control. */
  datatype Hardware = Hardware(instrumentApp: bool, instrumentSwitch: bool, adcs: AdcsMode,
                               trackerApp: bool, trackerSwitch: bool)

  /** `ap` holds the states of the usable actionpoints; `run` maps each executing sequence to
      the index of its next command; `enabled` are the sequences Stored Command may start;
      `up` is false once a restart has been commanded. */
  datatype State = State(ap: map<nat, ApState>, run: map<nat, nat>, enabled: set<nat>, hw: Hardware,
                         status: nat, mode: nat, passes: nat, up: bool)

  const NUMBER_OF_RTS: nat := 64

  /** The numbers from `first` to `last`. */
  function Numbers(first: nat, last: nat): (ns: set<nat>)
    ensures forall i :: i in ns <==> first <= i <= last
    decreases last + 1 - first
  {
    if first > last then {} else {first} + Numbers(first + 1, last)
  }

  function Switched(hw: Hardware, number: nat, on: bool): Hardware
  {
    if number == INSTRUMENT_SWITCH then hw.(instrumentSwitch := on)
    else if number == TRACKER_SWITCH then hw.(trackerSwitch := on)
    else hw
  }

  function Commanded(hw: Hardware, cmd: Command): Hardware
  {
    match cmd
    case InstrumentApp(on) => hw.(instrumentApp := on)
    case TrackerApp(on) => hw.(trackerApp := on)
    case EpsSwitch(number, on) => Switched(hw, number, on)
    case SetAdcsMode(m) => hw.(adcs := m)
    case _ => hw
  }

  function Apply(s: State, cmd: Command): State
  {
    match cmd
    case UpdateScienceStatus(v) => if v <= EXITED_SCIENCE_MODE then s.(status := v) else s
    case SetSpacecraftMode(m) => if 1 <= m <= 4 then s.(mode := m) else s
    case IncrementPassCount => s.(passes := (s.passes + 1) % UINT16)
    case SetApState(n, st) =>
      if CanSet(s, n) then s.(ap := s.ap[n := st]) else s
    case EnableRtsGroup(first, last) =>
      if 0 < first <= last <= NUMBER_OF_RTS then s.(enabled := s.enabled + Numbers(first, last)) else s
    case RestartProcessor => s.(up := false)
    case _ => s.(hw := Commanded(s.hw, cmd))
  }

  // ------------------------------------------------------------ steps

  datatype Event = Fire(n: nat) | Exec(n: nat)

  predicate Running(s: State, n: nat) { n in s.run }

  /** Whether Limit Checker obeys a state command for this actionpoint. */
  predicate CanSet(s: State, a: nat) { a in s.ap && s.ap[a] != PermOff && s.ap[a] != NotUsed }

  predicate IsActive(s: State, n: nat) { n in s.ap && s.ap[n] == Active }

  /** Every executing sequence has a command left. */
  predicate Valid(s: State)
  {
    forall n :: n in s.run ==> s.run[n] < Length(n)
  }

  predicate Enabled(s: State, e: Event)
  {
    s.up &&
    match e
    case Fire(n) => 25 <= n <= 36 && IsActive(s, n)
    case Exec(n) => Running(s, n)
  }

  /** A start request is rejected for a disabled sequence and for one already executing. */
  function Started(s: State, n: nat): State
  {
    if n in s.enabled && n !in s.run && Length(n) > 0 then s.(run := s.run[n := 0]) else s
  }

  /** Sequence `n` has sent `cmd`, which may be its last. */
  function Executed(s: State, n: nat, cmd: Command, last: bool): State
    requires n in s.run
  {
    Apply(s, cmd).(run := if last then s.run - {n} else s.run[n := s.run[n] + 1])
  }

  /** An actionpoint whose equation is true drops to passive and asks for its sequence. A
      sequence executes its next command, and ends with its last one. */
  function Next(s: State, e: Event): (s': State)
    requires Valid(s) && Enabled(s, e)
    ensures Valid(s')
  {
    match e
    case Fire(n) => Started(s.(ap := s.ap[n := Passive]), n)
    case Exec(n) => Executed(s, n, CommandAt(n, s.run[n]), s.run[n] + 1 == Length(n))
  }

  /** A fired actionpoint's request starts its sequence, at its first command, exactly when that is
      enabled and not already executing; whatever else is in flight stays where it is. */
  lemma StartRequest(s: State, n: nat)
    requires Valid(s) && Enabled(s, Fire(n))
    ensures var s' := Next(s, Fire(n));
      && (n in s'.run && n !in s.run <==> n in s.enabled && n !in s.run) && (n !in s.run && n in s'.run ==> s'.run[n] == 0)
      && (forall m :: m in s.run ==> m in s'.run && s'.run[m] == s.run[m]) && (forall m :: m in s'.run ==> m in s.run || m == n)
      && !IsActive(s', n) && s'.hw == s.hw && s'.enabled == s.enabled
  {
  }

  /** What one sent command does to an actionpoint; nothing but a state command touches it. */
  lemma ExecutedOnAp(s: State, n: nat, cmd: Command, last: bool, a: nat)
    requires n in s.run
    ensures var s' := Executed(s, n, cmd, last);
      && (a in s'.ap <==> a in s.ap) && s.enabled <= s'.enabled
      && (a in s.ap ==>
            s'.ap[a] == if cmd.SetApState? && cmd.ap == a && s.ap[a] != PermOff && s.ap[a] != NotUsed then cmd.state else s.ap[a])
  {
  }

  /** What one sent command does to the set of enabled sequences and to the processor. */
  lemma ExecutedOnRest(s: State, n: nat, cmd: Command, last: bool, m: nat)
    requires n in s.run
    ensures var s' := Executed(s, n, cmd, last);
      && (m in s'.enabled <==>
            m in s.enabled || (cmd.EnableRtsGroup? && 1 <= cmd.first <= m <= cmd.last <= 64))
      && (s'.up <==> s.up && cmd != RestartProcessor)
      && (s'.status == if cmd.UpdateScienceStatus? && cmd.status <= 10 then cmd.status else s.status)
  {
  }

  // ------------------------------------------------------------ runs

  /** A series of events that can happen one after the other from `s`. */
  predicate Legal(s: State, es: seq<Event>)
    requires Valid(s)
    decreases |es|
  {
    es == [] || (Enabled(s, es[0]) && Legal(Next(s, es[0]), es[1..]))
  }

  /** A restart ends every run. */
  lemma NothingAfterRestart(s: State, es: seq<Event>)
    requires Valid(s) && Legal(s, es) && !s.up
    ensures es == []
  {
  }

  function Final(s: State, es: seq<Event>): (s': State)
    requires Valid(s) && Legal(s, es)
    ensures Valid(s')
    decreases |es|
  {
    if es == [] then s else Final(Next(s, es[0]), es[1..])
  }

  function Count(es: seq<Event>, e: Event): nat
  {
    if es == [] then 0 else (if es[0] == e then 1 else 0) + Count(es[1..], e)
  }

  /** A legal run continued by a legal run is legal, and ends where the second one does. */
  lemma {:induction false} RunsCompose(s: State, es: seq<Event>, fs: seq<Event>)
    requires Valid(s) && Legal(s, es) && Legal(Final(s, es), fs)
    ensures Legal(s, es + fs) && Final(s, es + fs) == Final(Final(s, es), fs)
    decreases |es|
  {
    if es == [] {
      assert es + fs == fs;
    } else {
      assert (es + fs)[0] == es[0] && (es + fs)[1..] == es[1..] + fs;
      var s1 := Next(s, es[0]);
      RunsCompose(s1, es[1..], fs);
    }
  }

  /** Only the mode transitions 25 and 26 are in state `transitions`; 27 to 36 are disabled. */
  predicate ScienceDisarmed(s: State, transitions: ApState)
  {
    s.ap.Keys == Numbers(25, 36) &&
    forall n :: n in s.ap ==> s.ap[n] == if n <= 26 then transitions else Disabled
  }

  /** The tables are loaded and the boot sequence has just been started. */
  predicate Loaded(s: State) { s.up && s.run == map[1 := 0] && ScienceDisarmed(s, Passive) }

  /** What the boot sequence leaves: actionpoints 25 and 26 armed, nothing executing. */
  predicate Booted(s: State)
  {
    s.up && s.run == map[] && Numbers(3, 64) <= s.enabled && ScienceDisarmed(s, Active) && s.status == SCIENCE_OFF
  }
}
