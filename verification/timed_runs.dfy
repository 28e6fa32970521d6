/** The flight second by second: Stored Command wakes up, then Limit Checker samples the telemetry.
    Every sequence in flight sends each command exactly when its time tags say. */
module TimedRuns {
  import opened LcRpn
  import opened LcActionpoint
  import opened LcRegions
  import opened ScienceTables
  import opened PowerChain
  import opened SequenceRuns
  import opened Registers
  import opened StoredCommand

  datatype Craft = Craft(s: State, table: Table, sel: Selection)

  /** What happened in some stretch of time, and what it left. */
  datatype Stretch = Stretch(es: seq<Event>, c: Craft)

  ghost predicate Sound(c: Craft)
  {
    Valid(c.s) && Fresh(c.table, c.sel)
  }

  function After(s: State, es: seq<Event>): (s': State)
    requires Valid(s)
    ensures Valid(s')
  {
    if Legal(s, es) then Final(s, es) else s
  }

  function SentEvents(sent: seq<nat>): seq<Event> { seq(|sent|, i requires 0 <= i < |sent| => Exec(sent[i] + 1)) }

  lemma {:induction false} WakeIsFresh(t: Table, sel: Selection, count: nat, now: nat)
    requires Fresh(t, sel) && count < MAX_CMDS_PER_SEC
    ensures var w := Wake(t, sel, count, now); Fresh(w.table, w.sel)
    decreases MAX_CMDS_PER_SEC - count, if StoredCommand.Sends(t, sel, now) then 0 else 1
  {
    hide Select, Processed, FirstFrom;
    var log := if StoredCommand.Sends(t, sel, now) then [sel.index] else [];
    var t1 := Processed(t, sel, now);
    if GoesOn(t1, now, count + |log|) {
      WakeIsFresh(t1, Select(t1), count + |log|, now);
    }
  }

  /** The wakeup of second `now`. */
  ghost function Wakes(c: Craft, now: nat): (w: Stretch)
    requires Sound(c)
    ensures Sound(w.c)
  {
    WakeIsFresh(c.table, c.sel, 0, now);
    var w := Wake(c.table, c.sel, 0, now);
    Stretch(SentEvents(w.sent), Craft(After(c.s, SentEvents(w.sent)), w.table, w.sel))
  }

  predicate Measurable(t: Telemetry) { |t.enabled| == 3 }
  predicate AllMeasurable(ts: seq<Telemetry>) { forall j :: 0 <= j < |ts| ==> |ts[j].enabled| == 3 }

  predicate TrueNow(ap: nat, t: Telemetry)
    requires 25 <= ap <= 36 && Measurable(t)
  {
    Evaluation(Equation(ap), Measured(t)) == Fail
  }

  lemma StartKeepsFresh(t: Table, sel: Selection, n: nat, now: nat)
    requires Fresh(t, sel)
    ensures Fresh(StartedTable(t, n, now), sel)
  {
  }

  /** The sample of second `now`, from actionpoint `ap` on, in ascending order. */
  ghost function Samples(c: Craft, t: Telemetry, now: nat, ap: nat): (w: Stretch)
    requires Sound(c) && Measurable(t) && 25 <= ap <= 37
    ensures Sound(w.c)
    decreases 37 - ap
  {
    if ap == 37 then Stretch([], c)
    else if Enabled(c.s, Fire(ap)) && TrueNow(ap, t) then
      StartKeepsFresh(c.table, c.sel, ap, now);
      var rest := Samples(Craft(Next(c.s, Fire(ap)), StartedTable(c.table, ap, now), c.sel), t, now, ap + 1);
      rest.(es := [Fire(ap)] + rest.es)
    else Samples(c, t, now, ap + 1)
  }

  /** One second: the wakeup, then the sample. */
  ghost function Second(c: Craft, t: Telemetry, now: nat): (w: Stretch)
    requires Sound(c) && Measurable(t)
    ensures Sound(w.c)
  {
    var a := Wakes(c, now);
    var b := Samples(a.c, t, now, 25);
    Stretch(a.es + b.es, b.c)
  }

  /** The first `k` seconds, the telemetry of second `start + j` being `ts[j]`. */
  ghost function Flight(c: Craft, ts: seq<Telemetry>, start: nat, k: nat): (w: Stretch)
    requires Sound(c) && k <= |ts| && AllMeasurable(ts)
    ensures Sound(w.c)
  {
    if k == 0 then Stretch([], c)
    else
      var before := Flight(c, ts, start, k - 1);
      var last := Second(before.c, ts[k - 1], start + (k - 1));
      Stretch(before.es + last.es, last.c)
  }

  lemma FlightGoesOn(c: Craft, ts: seq<Telemetry>, start: nat, k: nat)
    requires Sound(c) && AllMeasurable(ts) && k < |ts|
    ensures Measurable(ts[k]) && Flight(c, ts, start, k + 1).c == Second(Flight(c, ts, start, k).c, ts[k], start + k).c
  {
  }

  // ------------------------------------------------------------ time tags

  /** The sequences whose commands all lie at least a second apart and concern the protocol alone. */
  predicate IsTimed(n: nat) { 27 <= n <= 35 }

  lemma TimedCommands(n: nat, k: nat)
    requires IsTimed(n) && k < Length(n)
    ensures 1 <= EntryAt(n, k).tag <= 5
    ensures CommandAt(n, k) != RestartProcessor && !CommandAt(n, k).EnableRtsGroup?
  {
  }

  /** Seconds from a sequence's start to its command `k`. */
  function Elapsed(n: nat, k: nat): nat
    requires k < Length(n)
  {
    EntryAt(n, k).tag + if k == 0 then 0 else Elapsed(n, k - 1)
  }

  /** The same, as the tags add up: one second each but for the waits before and after the attitude
      control is commanded. */
  function Age(n: nat, k: nat): nat
  {
    if n == 27 then if k < 9 then k + 1 else k + 5
    else if n == 28 then k + 1
    else if n == 29 then if k < 12 then k + 1 else k + 5
    else if n <= 32 then if k < 4 then k + 1 else if k == 4 then 9 else k + 9
    else if k < 3 then k + 1 else k + 5
  }

  lemma TagIs(n: nat, k: nat)
    requires IsTimed(n) && k < Length(n)
    ensures EntryAt(n, k).tag == Age(n, k) - if k == 0 then 0 else Age(n, k - 1)
  {
  }

  lemma {:induction false} ElapsedIs(n: nat, k: nat)
    requires IsTimed(n) && k < Length(n)
    ensures Elapsed(n, k) == Age(n, k)
  {
    TagIs(n, k);
    if k > 0 {
      ElapsedIs(n, k - 1);
    }
  }

  /** The same for the sequences the timed flights leave out: one second each, but for a restart of
      the count at each of the two enables of the boot sequence and at the mode command. */
  lemma {:induction false} OtherElapsedIs(n: nat, k: nat)
    requires (n == 1 || n == 25 || n == 26 || n == 36) && k < Length(n)
    ensures Elapsed(n, k) ==
      if n == 1 then (if k < 5 then k + 1 else if k < 8 then k else k - 1)
      else if n == 25 then 1
      else k + 1
  {
    if k > 0 {
      OtherElapsedIs(n, k - 1);
    }
  }

  lemma AgeGrows(n: nat, k: nat, m: nat)
    requires IsTimed(n) && k < m < Length(n)
    ensures Age(n, k) < Age(n, m)
  {
  }

  /** How long a sequence takes. */
  function Total(n: nat): nat
    requires Length(n) > 0
  {
    Age(n, Length(n) - 1)
  }

  /** How many of its commands a sequence has sent in the seconds before it is `age` seconds old. */
  function SentBefore(n: nat, age: int): (k: nat)
    ensures k <= Length(n)
    ensures k < Length(n) ==> age <= Age(n, k)
    ensures forall j :: 0 <= j < k ==> Age(n, j) < age
  {
    SentBeforeFrom(n, age, 0)
  }

  function SentBeforeFrom(n: nat, age: int, k: nat): (m: nat)
    requires k <= Length(n) && forall j :: 0 <= j < k ==> Age(n, j) < age
    ensures k <= m <= Length(n)
    ensures m < Length(n) ==> age <= Age(n, m)
    ensures forall j :: 0 <= j < m ==> Age(n, j) < age
    decreases Length(n) - k
  {
    if k < Length(n) && Age(n, k) < age then SentBeforeFrom(n, age, k + 1) else k
  }

  /** A command falls in the second the sequence is `age` seconds old. */
  predicate SendsAt(n: nat, age: int)
  {
    var k := SentBefore(n, age); k < Length(n) && Age(n, k) == age
  }

  lemma SentBeforeIs(n: nat, age: int, k: nat)
    requires IsTimed(n) && k <= Length(n)
    requires (k > 0 ==> Age(n, k - 1) < age) && (k < Length(n) ==> age <= Age(n, k))
    ensures SentBefore(n, age) == k
  {
    hide Age, Length, SentBefore, SentBeforeFrom;
    var m := SentBefore(n, age);
    if m < k - 1 {
      AgeGrows(n, m, k - 1);
    }
  }

  lemma SentBeforeStep(n: nat, age: int)
    requires IsTimed(n)
    ensures SentBefore(n, age + 1) == SentBefore(n, age) + if SendsAt(n, age) then 1 else 0
  {
    var k := SentBefore(n, age);
    if SendsAt(n, age) && k + 1 < Length(n) {
      AgeGrows(n, k, k + 1);
    }
    hide Age, Length;
    SentBeforeIs(n, age + 1, if SendsAt(n, age) then k + 1 else k);
  }

  /** A sequence is done exactly when older than it takes. */
  lemma DoneWhenTotal(n: nat, age: int)
    requires IsTimed(n)
    ensures SentBefore(n, age) < Length(n) <==> age <= Total(n)
  {
    var k := SentBefore(n, age);
    hide Age, SentBefore, SentBeforeFrom;
    if k < Length(n) - 1 {
      AgeGrows(n, k, Length(n) - 1);
    }
  }

  lemma Totals(n: nat)
    requires IsTimed(n)
    ensures Total(n) == if n == 28 || n >= 33 then 12 else if n == 29 then 22 else 18
  {
  }

  /** The tags of a low power or enter sequence sum to 18, those of the exit to 22, those of a
      recharged or leave sequence to 12. */
  lemma ElapsedSums(n: nat)
    requires IsTimed(n)
    ensures Elapsed(n, Length(n) - 1) == if n == 28 || n >= 33 then 12 else if n == 29 then 22 else 18
  {
    ElapsedIs(n, Length(n) - 1);
  }

  // ------------------------------------------------------------ a wakeup, command by command

  /** The science actionpoints obey commands, their sequences are enabled, and only timed sequences
      are in flight. */
  predicate Flying(s: State)
  {
    && Valid(s) && s.up && (forall n :: n in s.run ==> IsTimed(n))
    && (forall a: nat :: 25 <= a <= 36 ==> CanSet(s, a) && a in s.enabled)
  }

  predicate Named(reg: Register) { reg.Ap? ==> 25 <= reg.ap <= 36 }

  predicate Ends(s: State, n: nat) { n in s.run && s.run[n] + 1 == Length(n) }

  /** `s'` is `s` after each sequence in `sent` (by table entry) has sent one command. */
  ghost predicate AfterSend(s: State, sent: seq<nat>, s': State)
  {
    && Flying(s') && s'.enabled == s.enabled
    && (forall n: nat :: n > 0 ==> (n in s'.run <==> n in s.run && !(n - 1 in sent && Ends(s, n))))
    && (forall n: nat :: n > 0 && n in s'.run ==> s'.run[n] == if n - 1 in sent then s.run[n] + 1 else s.run[n])
  }

  lemma TimedApply(s: State, cmd: Command)
    requires cmd != RestartProcessor && !cmd.EnableRtsGroup?
    requires cmd.SetApState? ==> cmd.state == Active || cmd.state == Disabled
    ensures var s' := Apply(s, cmd); s'.up == s.up && s'.enabled == s.enabled && forall a :: CanSet(s, a) ==> CanSet(s', a)
  {
  }

  lemma SendsOneKeepsFlight(s: State, n: nat)
    requires Flying(s) && n in s.run
    ensures Enabled(s, Exec(n))
    ensures var s' := Next(s, Exec(n)); Flying(s') && s'.enabled == s.enabled && s'.run == MovedTo(s.run, n, s.run[n] + 1)
  {
    OneExec(s, n);
    var cmd := CommandAt(n, s.run[n]);
    TimedCommands(n, s.run[n]);
    TableStates(n, s.run[n]);
    TimedApply(s, cmd);
    hide CommandAt, Apply, Next;
    forall a: nat | 25 <= a <= 36 ensures CanSet(Next(s, Exec(n)), a) {
      assert CanSet(s, a);
    }
  }

  lemma SendsOne(s: State, n: nat)
    requires Flying(s) && n in s.run
    ensures Enabled(s, Exec(n)) && AfterSend(s, [n - 1], Next(s, Exec(n)))
  {
    SendsOneKeepsFlight(s, n);
    hide Flying, Next, Enabled, Length;
  }

  lemma SendsCompose(s: State, x: nat, s1: State, rest: seq<nat>, s': State)
    requires AfterSend(s, [x], s1) && AfterSend(s1, rest, s') && x !in rest
    ensures AfterSend(s, [x] + rest, s')
  {
    hide Flying;
    var sent := [x] + rest;
    forall y ensures y in sent <==> y == x || y in rest {}
    forall n: nat | n > 0
      ensures n in s'.run <==> n in s.run && !(n - 1 in sent && Ends(s, n))
      ensures n in s'.run ==> s'.run[n] == if n - 1 in sent then s.run[n] + 1 else s.run[n]
    {
      assert n - 1 in [x] <==> n - 1 == x;
      assert n in s1.run <==> n in s.run && !(n - 1 == x && Ends(s, n));
    }
  }

  lemma SendsNone(s: State)
    requires Flying(s)
    ensures AfterSend(s, [], s)
  {
  }

  predicate Sendable(s: State, sent: seq<nat>)
  {
    Distinct(sent) && forall i :: 0 <= i < |sent| ==> sent[i] + 1 in s.run
  }

  lemma StillSendable(s: State, sent: seq<nat>, s1: State)
    requires Sendable(s, sent) && sent != [] && AfterSend(s, [sent[0]], s1)
    ensures Sendable(s1, sent[1..]) && sent[0] !in sent[1..]
  {
    var rest := sent[1..];
    forall i | 0 <= i < |rest| ensures rest[i] != sent[0] && rest[i] + 1 in s1.run {
      assert rest[i] == sent[i + 1];
      var n := rest[i] + 1;
      assert n in s1.run <==> n in s.run && !(n - 1 in [sent[0]] && Ends(s, n));
    }
  }

  lemma FlightIsValid(s: State)
    requires Flying(s)
    ensures Valid(s) && forall n :: n in s.run ==> n > 0
  {
  }

  lemma SendKeepsFlight(s: State, sent: seq<nat>, s': State)
    requires AfterSend(s, sent, s')
    ensures Flying(s')
  {
  }

  /** The commands of one wakeup form a legal stretch with the effect of each of them. */
  lemma {:induction false} SendsAll(s: State, sent: seq<nat>)
    requires Flying(s) && Sendable(s, sent)
    ensures Legal(s, SentEvents(sent)) && AfterSend(s, sent, Final(s, SentEvents(sent)))
    decreases |sent|
  {
    hide Flying, AfterSend, Next, Enabled;
    if sent == [] {
      SendsNone(s);
    } else {
      var es, x := SentEvents(sent), sent[0];
      FlightIsValid(s);
      SendsOne(s, x + 1);
      var s1 := Next(s, es[0]);
      SendKeepsFlight(s, [x], s1);
      assert es[1..] == SentEvents(sent[1..]);
      StillSendable(s, sent, s1);
      SendsAll(s1, sent[1..]);
      SendsCompose(s, x, s1, sent[1..], Final(s1, es[1..]));
      assert sent == [x] + sent[1..];
    }
  }

  lemma FlyingObeys(s: State, reg: Register)
    requires Flying(s) && Named(reg)
    ensures Obeys(s, reg)
  {
  }

  lemma SameNextWrite(s: State, x: nat, s1: State, n: nat, reg: Register)
    requires AfterSend(s, [x], s1) && n != x + 1 && n > 0
    ensures NextWrite(s1, n, reg) == NextWrite(s, n, reg)
  {
    hide CommandAt, CommandWrites, Flying;
    assert n - 1 !in [x];
  }

  predicate OthersKeep(s: State, sent: seq<nat>, reg: Register, x: nat)
  {
    forall i :: 0 <= i < |sent| && sent[i] != x ==> NextWrite(s, sent[i] + 1, reg).Keep?
  }

  lemma RestKeeps(s: State, sent: seq<nat>, s1: State, reg: Register, x: nat)
    requires sent != [] && AfterSend(s, [sent[0]], s1) && OthersKeep(s, sent, reg, x) && Sendable(s, sent)
    ensures OthersKeep(s1, sent[1..], reg, x)
    ensures x != sent[0] ==> NextWrite(s1, x + 1, reg) == NextWrite(s, x + 1, reg)
    ensures x == sent[0] ==> x !in sent[1..]
    ensures x in sent <==> x == sent[0] || x in sent[1..]
  {
    hide NextWrite, AfterSend;
    var y, rest := sent[0], sent[1..];
    forall i | 0 <= i < |rest| && rest[i] != x ensures NextWrite(s1, rest[i] + 1, reg).Keep? {
      assert rest[i] == sent[i + 1];
      SameNextWrite(s, y, s1, rest[i] + 1, reg);
    }
    if x != y {
      SameNextWrite(s, y, s1, x + 1, reg);
    }
    assert sent == [y] + rest;
  }

  lemma OneWrites(s: State, y: nat, reg: Register)
    requires Flying(s) && y + 1 in s.run && Named(reg)
    ensures Enabled(s, Exec(y + 1)) && Valid(s)
    ensures var w := NextWrite(s, y + 1, reg); Read(Next(s, Exec(y + 1)), reg) == if w.Put? then w.v else Read(s, reg)
  {
    SendsOneKeepsFlight(s, y + 1);
    FlyingObeys(s, reg);
    ExecWrites(s, y + 1, reg);
  }

  /** If no two of the commands of a wakeup write a register, it holds what the one that does puts
      there, or what it held before. */
  lemma {:induction false} SendsWrite(s: State, sent: seq<nat>, reg: Register, x: nat)
    requires Flying(s) && Sendable(s, sent) && Named(reg) && OthersKeep(s, sent, reg, x)
    ensures Valid(s) && Legal(s, SentEvents(sent))
    ensures var w := NextWrite(s, x + 1, reg);
      Read(Final(s, SentEvents(sent)), reg) == if x in sent && w.Put? then w.v else Read(s, reg)
    decreases |sent|
  {
    hide Flying, AfterSend, Next, Enabled, NextWrite, Read, Named, Valid;
    FlightIsValid(s);
    SendsAll(s, sent);
    if sent != [] {
      var es, y := SentEvents(sent), sent[0];
      SendsOne(s, y + 1);
      OneWrites(s, y, reg);
      var s1, rest := Next(s, es[0]), sent[1..];
      SendKeepsFlight(s, [y], s1);
      assert es[1..] == SentEvents(rest);
      StillSendable(s, sent, s1);
      RestKeeps(s, sent, s1, reg, x);
      SendsWrite(s1, rest, reg, x);
      assert y != x ==> NextWrite(s, sent[0] + 1, reg).Keep?;
    }
  }

  // ------------------------------------------------------------ on schedule

  /** The second in which each sequence in flight was started. */
  type Begun = map<nat, nat>

  /** The information table's entry for sequence `n`. */
  function EntryOf(t: Table, n: nat): Info
    requires 0 < n <= NUMBER_OF_RTS
  {
    t[n - 1]
  }

  /** Sequence `n` stands where its age says, in the State and in the information table alike. */
  predicate Timely(c: Craft, n: nat, begun: nat, from: nat)
  {
    && IsTimed(n) && begun < from && n in c.s.run && c.s.run[n] == SentBefore(n, from - begun) < Length(n)
    && var info := EntryOf(c.table, n);
       info.status == EXECUTING && info.next == c.s.run[n] && info.time == begun + Age(n, info.next)
  }

  /** When second `from` comes, the sequences in flight are exactly those of `begun`, each having
      sent the commands of the seconds before. */
  ghost predicate OnSchedule(c: Craft, begun: Begun, from: nat)
  {
    && Sound(c) && Flying(c.s) && TableSound(c.table)
    && c.s.run.Keys == begun.Keys
    && (forall n: nat :: 0 < n <= NUMBER_OF_RTS && EntryOf(c.table, n).status == EXECUTING ==> n in begun)
    && (forall n: nat :: IsTimed(n) ==> !EntryOf(c.table, n).disabled)
    && (forall n: nat :: n in begun ==> Timely(c, n, begun[n], from))
  }

  /** The sequences that still have commands left when second `from` comes. */
  function Ongoing(begun: Begun, from: nat): Begun
  {
    map n | n in begun && SentBefore(n, from - begun[n]) < Length(n) :: begun[n]
  }

  /** A command of sequence `n` falls in second `now`. */
  predicate SendsNow(begun: Begun, now: nat, n: nat) { n in begun && SendsAt(n, now - begun[n]) }

  lemma ScheduleEntry(c: Craft, begun: Begun, from: nat, n: nat)
    requires OnSchedule(c, begun, from) && 0 < n <= NUMBER_OF_RTS
    ensures n in begun ==> Timely(c, n, begun[n], from) && n in c.s.run
    ensures n !in begun ==> n !in c.s.run && c.table[n - 1].status != EXECUTING
  {
  }

  lemma TimelyDue(c: Craft, n: nat, begun: nat, now: nat)
    requires Timely(c, n, begun, now) && now + 5 < MAX_TIME
    ensures Due(c.table[n - 1], now) <==> SendsAt(n, now - begun)
  {
    hide Age, SentBefore, Length;
  }

  lemma NotDueAgain(info: Info, n: nat, now: nat)
    requires IsTimed(n) && now + 5 < MAX_TIME
    ensures !Due(Advanced(info, n, now), now)
  {
    if info.next + 1 < Length(n) {
      TimedCommands(n, info.next + 1);
      hide EntryAt, Length;
    }
  }

  lemma DueIsSending(c: Craft, begun: Begun, now: nat, i: nat)
    requires OnSchedule(c, begun, now) && i < NUMBER_OF_RTS && now + 5 < MAX_TIME
    ensures Due(c.table[i], now) <==> SendsNow(begun, now, i + 1)
    ensures Due(c.table[i], now) ==> IsTimed(i + 1) && !Due(Advanced(c.table[i], i + 1, now), now)
  {
    var n := i + 1;
    ScheduleEntry(c, begun, now, n);
    if n in begun {
      BegunIsTimed(c, begun, now, n);
    }
    hide OnSchedule, Advanced, SendsAt, Timely, SentBefore;
    if n in begun {
      TimelyDue(c, n, begun[n], now);
      NotDueAgain(c.table[i], n, now);
    }
  }

  lemma {:induction false} SubsetSize(a: set<nat>, b: set<nat>)
    requires a <= b
    ensures |a| <= |b|
  {
    if x :| x in a {
      SubsetSize(a - {x}, b - {x});
    }
  }

  lemma DueEntry(c: Craft, begun: Begun, now: nat, idle: nat, i: nat)
    requires OnSchedule(c, begun, now) && now + 5 < MAX_TIME && idle !in begun
    ensures i in DueSet(c.table, now) <==> i < NUMBER_OF_RTS && SendsNow(begun, now, i + 1)
    ensures i in DueSet(c.table, now) ==> IsTimed(i + 1) && i + 1 != idle && !Due(Advanced(c.table[i], i + 1, now), now)
  {
    if i < NUMBER_OF_RTS {
      DueIsSending(c, begun, now, i);
    }
    hide OnSchedule, Advanced, SendsAt, Due;
  }

  lemma EightOfNine(due: set<nat>, idle: nat)
    requires IsTimed(idle) && forall i :: i in due ==> IsTimed(i + 1) && i + 1 != idle
    ensures |due| <= MAX_CMDS_PER_SEC
  {
    var all := {26, 27, 28, 29, 30, 31, 32, 33, 34};
    assert |all - {idle - 1}| == 8;
    SubsetSize(due, all - {idle - 1});
  }

  /** Every due command's successor lies in a later second; with one of the nine sequences idle at
      most eight are due. */
  lemma WakeIsOrdinary(c: Craft, begun: Begun, now: nat, idle: nat)
    requires OnSchedule(c, begun, now) && now + 5 < MAX_TIME && IsTimed(idle) && idle !in begun
    ensures NoneImmediate(c.table, now) && |DueSet(c.table, now)| <= MAX_CMDS_PER_SEC
  {
    hide OnSchedule, Advanced, Due, SendsNow, DueSet;
    forall i: nat | i in DueSet(c.table, now)
      ensures IsTimed(i + 1) && i + 1 != idle && i < NUMBER_OF_RTS && !Due(Advanced(c.table[i], i + 1, now), now)
    {
      DueEntry(c, begun, now, idle, i);
    }
    EightOfNine(DueSet(c.table, now), idle);
  }

  /** The commands a wakeup sends, by table entry, in order. */
  ghost function Sent(c: Craft, now: nat): seq<nat>
    requires Sound(c)
  {
    Wake(c.table, c.sel, 0, now).sent
  }

  /** The wakeup sends exactly the commands that fall in its second, each once, and moves their
      sequences on. */
  lemma WakeTable(c: Craft, begun: Begun, now: nat, idle: nat)
    requires OnSchedule(c, begun, now) && now + 5 < MAX_TIME && IsTimed(idle) && idle !in begun
    ensures var w := Wake(c.table, c.sel, 0, now);
      && w.sel == Select(w.table) && Distinct(w.sent)
      && (forall i: nat :: i in w.sent <==> i < NUMBER_OF_RTS && SendsNow(begun, now, i + 1))
      && forall i: nat :: i < NUMBER_OF_RTS ==>
           w.table[i] == if SendsNow(begun, now, i + 1) then Advanced(c.table[i], i + 1, now) else c.table[i]
  {
    hide Wake, Select, Advanced, NoneImmediate, DueSet, SendsNow, OnSchedule, Fresh, Distinct;
    WakeIsOrdinary(c, begun, now, idle);
    ScheduleIsSound(c, begun, now);
    AllDueSent(c.table, c.sel, now);
    var w := Wake(c.table, c.sel, 0, now);
    forall i: nat
      ensures i in w.sent <==> i < NUMBER_OF_RTS && SendsNow(begun, now, i + 1)
      ensures i < NUMBER_OF_RTS ==>
        w.table[i] == if SendsNow(begun, now, i + 1) then Advanced(c.table[i], i + 1, now) else c.table[i]
    {
      DueEntry(c, begun, now, idle, i);
    }
  }

  lemma ScheduleIsSound(c: Craft, begun: Begun, from: nat)
    requires OnSchedule(c, begun, from)
    ensures Sound(c) && Fresh(c.table, c.sel) && Valid(c.s)
  {
  }

  /** What the wakeup does, in terms of the schedule. */
  lemma WakeEffect(c: Craft, begun: Begun, now: nat, idle: nat)
    requires OnSchedule(c, begun, now) && now + 5 < MAX_TIME && IsTimed(idle) && idle !in begun
    ensures Sendable(c.s, Sent(c, now)) && forall n: nat :: n > 0 ==> (n - 1 in Sent(c, now) <==> SendsNow(begun, now, n))
    ensures var w := Wakes(c, now);
      && w.es == SentEvents(Sent(c, now)) && w.c.sel == Select(w.c.table)
      && Legal(c.s, w.es) && w.c.s == Final(c.s, w.es) && AfterSend(c.s, Sent(c, now), w.c.s)
      && forall i: nat :: i < NUMBER_OF_RTS ==>
           w.c.table[i] == if SendsNow(begun, now, i + 1) then Advanced(c.table[i], i + 1, now) else c.table[i]
  {
    hide Wake, Select, AfterSend, Advanced, Flying, Legal, Final, SendsNow, OnSchedule, Sound, Fresh, Distinct, SentEvents, Valid;
    ScheduleIsFlying(c, begun, now);
    ScheduleIsSound(c, begun, now);
    WakeTable(c, begun, now, idle);
    var sent := Sent(c, now);
    forall n: nat | n > 0
      ensures n - 1 in sent <==> SendsNow(begun, now, n)
      ensures n - 1 in sent ==> n in c.s.run
    {
      SendsNowIsEntry(c, begun, now, n);
    }
    forall i | 0 <= i < |sent| ensures sent[i] + 1 in c.s.run {
      assert sent[i] + 1 - 1 in sent;
    }
    SendsAll(c.s, sent);
  }

  lemma SendsNowIsEntry(c: Craft, begun: Begun, now: nat, n: nat)
    requires OnSchedule(c, begun, now)
    ensures SendsNow(begun, now, n) ==> 0 < n <= NUMBER_OF_RTS && n in c.s.run && EntryOf(c.table, n).status == EXECUTING
  {
    hide Flying, Sound, TableSound, SendsAt;
    if n in begun {
      assert Timely(c, n, begun[n], now);
    }
  }

  /** One sequence through a wakeup: on schedule a second later, or done. */
  lemma TimelyStep(c: Craft, n: nat, begun: nat, now: nat, sent: seq<nat>, c': Craft)
    requires Timely(c, n, begun, now) && now + 5 < MAX_TIME && AfterSend(c.s, sent, c'.s)
    requires n - 1 in sent <==> SendsAt(n, now - begun)
    requires c'.table[n - 1] == if SendsAt(n, now - begun) then Advanced(c.table[n - 1], n, now) else c.table[n - 1]
    ensures if SentBefore(n, now + 1 - begun) < Length(n) then Timely(c', n, begun, now + 1)
            else n !in c'.s.run && c'.table[n - 1].status != EXECUTING
  {
    SentBeforeStep(n, now - begun);
    SentPosition(c.s, sent, c'.s, n);
    hide AfterSend, SentBefore;
    if SendsAt(n, now - begun) {
      SendingStep(c, n, begun, now, c');
    }
  }

  lemma SentPosition(s: State, sent: seq<nat>, s': State, n: nat)
    requires AfterSend(s, sent, s') && n in s.run && n > 0
    ensures n in s'.run <==> !(n - 1 in sent && s.run[n] + 1 == Length(n))
    ensures n in s'.run ==> s'.run[n] == if n - 1 in sent then s.run[n] + 1 else s.run[n]
  {
    hide Flying;
  }

  lemma SendingStep(c: Craft, n: nat, begun: nat, now: nat, c': Craft)
    requires Timely(c, n, begun, now) && now + 5 < MAX_TIME && SendsAt(n, now - begun)
    requires SentBefore(n, now + 1 - begun) == SentBefore(n, now - begun) + 1
    requires c'.table[n - 1] == Advanced(c.table[n - 1], n, now)
    requires n in c'.s.run <==> c.s.run[n] + 1 != Length(n)
    requires n in c'.s.run ==> c'.s.run[n] == c.s.run[n] + 1
    ensures if SentBefore(n, now + 1 - begun) < Length(n) then Timely(c', n, begun, now + 1)
            else n !in c'.s.run && c'.table[n - 1].status != EXECUTING
  {
    var k, info := c.s.run[n], c.table[n - 1];
    AdvancedIs(info, n, now);
    if k + 1 < Length(n) {
      TagIs(n, k + 1);
    }
    hide SentBefore, Age, EntryAt, Length, CommandAt, Advanced;
  }

  lemma AdvancedIs(info: Info, n: nat, now: nat)
    requires IsTimed(n) && now + 5 < MAX_TIME
    ensures if info.next + 1 < Length(n)
            then Advanced(info, n, now) == info.(next := info.next + 1, time := now + EntryAt(n, info.next + 1).tag)
            else Advanced(info, n, now).status == LOADED
  {
    if info.next + 1 < Length(n) {
      TimedCommands(n, info.next + 1);
      SoonIs(now, EntryAt(n, info.next + 1).tag);
    }
    hide EntryAt, Length, AbsTime;
  }

  lemma SoonIs(now: nat, tag: nat)
    requires now + 5 < MAX_TIME && tag <= 5
    ensures AbsTime(now, tag) == now + tag
  {
  }

  lemma WakeKeepsTable(c: Craft, begun: Begun, now: nat, c': Craft)
    requires OnSchedule(c, begun, now) && now + 5 < MAX_TIME
    requires forall i: nat :: i < NUMBER_OF_RTS ==>
      c'.table[i] == if SendsNow(begun, now, i + 1) then Advanced(c.table[i], i + 1, now) else c.table[i]
    ensures TableSound(c'.table)
    ensures forall n: nat :: IsTimed(n) ==> !c'.table[n - 1].disabled
    ensures forall i: nat :: i < NUMBER_OF_RTS && c'.table[i].status == EXECUTING ==> c.table[i].status == EXECUTING
  {
    hide OnSchedule, SendsNow, Advanced, Length;
    ScheduleIsTable(c, begun, now);
    forall i: nat | i < NUMBER_OF_RTS
      ensures c'.table[i].status == EMPTY <==> Length(i + 1) == 0
      ensures c'.table[i].status == EXECUTING ==> c'.table[i].next < Length(i + 1) && c.table[i].status == EXECUTING
      ensures c'.table[i].time <= MAX_TIME && c'.table[i].disabled == c.table[i].disabled
    {
      if SendsNow(begun, now, i + 1) {
        SendsNowIsEntry(c, begun, now, i + 1);
        AdvancedEntry(c.table[i], i + 1, now);
      }
    }
  }

  lemma ScheduleIsTable(c: Craft, begun: Begun, from: nat)
    requires OnSchedule(c, begun, from)
    ensures TableSound(c.table) && forall n: nat :: IsTimed(n) ==> !c.table[n - 1].disabled
  {
    hide Sound, Flying, Timely, TableSound;
    forall n: nat | IsTimed(n) ensures !c.table[n - 1].disabled {
      assert !EntryOf(c.table, n).disabled;
    }
  }

  lemma AdvancedEntry(info: Info, n: nat, now: nat)
    requires info.status == EXECUTING && info.next < Length(n)
    ensures var next := Advanced(info, n, now);
      next.status != EMPTY && (next.status == EXECUTING ==> next.next < Length(n)) && next.time <= MAX_TIME && next.disabled == info.disabled
  {
    hide EntryAt;
  }

  /** The wakeup keeps the schedule. */
  lemma WakeKeepsSchedule(c: Craft, begun: Begun, now: nat, idle: nat)
    requires OnSchedule(c, begun, now) && now + 5 < MAX_TIME && IsTimed(idle) && idle !in begun
    ensures OnSchedule(Wakes(c, now).c, Ongoing(begun, now + 1), now + 1)
  {
    hide Wakes, Sent, AfterSend, Advanced, OnSchedule, Timely, SentBefore, SendsAt, Legal, Final;
    WakeEffect(c, begun, now, idle);
    ScheduleIsSound(c, begun, now);
    var sent, c' := Sent(c, now), Wakes(c, now).c;
    WakeKeepsTable(c, begun, now, c');
    forall n: nat
      ensures n in begun && n in Ongoing(begun, now + 1) ==> Timely(c', n, begun[n], now + 1)
      ensures n !in Ongoing(begun, now + 1) && n > 0 ==> n !in c'.s.run && (n <= NUMBER_OF_RTS ==> c'.table[n - 1].status != EXECUTING)
    {
      WakeKeepsEntry(c, begun, now, sent, c', n);
    }
    ScheduleFrom(c', Ongoing(begun, now + 1), now + 1, c.s, sent);
  }

  lemma WakeKeepsEntry(c: Craft, begun: Begun, now: nat, sent: seq<nat>, c': Craft, n: nat)
    requires OnSchedule(c, begun, now) && now + 5 < MAX_TIME && AfterSend(c.s, sent, c'.s)
    requires n > 0 ==> (n - 1 in sent <==> SendsNow(begun, now, n))
    requires 0 < n <= NUMBER_OF_RTS ==>
      c'.table[n - 1] == if SendsNow(begun, now, n) then Advanced(c.table[n - 1], n, now) else c.table[n - 1]
    ensures n in Ongoing(begun, now + 1) ==> Timely(c', n, begun[n], now + 1)
    ensures n !in Ongoing(begun, now + 1) && n > 0 ==> n !in c'.s.run && (n <= NUMBER_OF_RTS ==> c'.table[n - 1].status != EXECUTING)
  {
    hide OnSchedule, Timely, SentBefore, SendsAt, Advanced, Flying;
    BegunKeys(c, begun, now);
    if n in begun {
      BegunIsTimed(c, begun, now, n);
      ScheduleEntry(c, begun, now, n);
      hide AfterSend;
      TimelyStep(c, n, begun[n], now, sent, c');
    } else if 0 < n <= NUMBER_OF_RTS {
      ScheduleEntry(c, begun, now, n);
    }
  }

  lemma BegunKeys(c: Craft, begun: Begun, from: nat)
    requires OnSchedule(c, begun, from)
    ensures c.s.run.Keys == begun.Keys
  {
  }

  lemma BegunIsTimed(c: Craft, begun: Begun, from: nat, n: nat)
    requires OnSchedule(c, begun, from) && n in begun
    ensures IsTimed(n) && begun[n] < from
  {
    assert Timely(c, n, begun[n], from);
  }

  lemma ScheduleFrom(c: Craft, begun: Begun, from: nat, was: State, sent: seq<nat>)
    requires Sound(c) && AfterSend(was, sent, c.s) && TableSound(c.table)
    requires forall n: nat :: IsTimed(n) ==> !c.table[n - 1].disabled
    requires forall n: nat :: n in begun ==> Timely(c, n, begun[n], from)
    requires forall n: nat :: n !in begun && n > 0 ==> n !in c.s.run && (n <= NUMBER_OF_RTS ==> c.table[n - 1].status != EXECUTING)
    ensures OnSchedule(c, begun, from)
  {
    hide SentBefore, Age;
    forall n: nat ensures n in c.s.run <==> n in begun {
      assert n in begun ==> Timely(c, n, begun[n], from);
    }
    assert forall i: nat :: i < NUMBER_OF_RTS && c.table[i].status == EXECUTING ==> i + 1 in begun by {
      forall i: nat | i < NUMBER_OF_RTS && c.table[i].status == EXECUTING ensures i + 1 in begun {
        assert c.table[i + 1 - 1].status == EXECUTING;
      }
    }
  }

  // ------------------------------------------------------------ what a wakeup writes

  /** Sequence `n` writes the register in second `now`. */
  predicate WritesNow(begun: Begun, now: nat, n: nat, reg: Register)
  {
    var w := WriteAt(n, reg);
    n in begun && w.At? && w.index < Length(n) && now == begun[n] + Age(n, w.index)
  }

  lemma WriteIsNext(c: Craft, begun: Begun, now: nat, n: nat, reg: Register)
    requires OnSchedule(c, begun, now) && n in begun
    ensures SendsNow(begun, now, n) ==>
      NextWrite(c.s, n, reg) == if WritesNow(begun, now, n, reg) then Put(WriteAt(n, reg).v) else Keep
    ensures WritesNow(begun, now, n, reg) ==> SendsNow(begun, now, n)
  {
    BegunIsTimed(c, begun, now, n);
    ScheduleEntry(c, begun, now, n);
    WritesExactly(n, reg, c.s.run[n]);
    if WriteAt(n, reg).At? {
      WriteAges(n, reg, now - begun[n]);
    }
    hide OnSchedule, SentBefore, WriteAt, CommandAt, CommandWrites, Age, Length;
  }

  /** A sequence writes a register at one age only. */
  lemma WriteAges(n: nat, reg: Register, age: int)
    requires IsTimed(n) && WriteAt(n, reg).At? && WriteAt(n, reg).index < Length(n)
    ensures SentBefore(n, age) == WriteAt(n, reg).index && SendsAt(n, age) <==> Age(n, WriteAt(n, reg).index) == age
  {
    var k := WriteAt(n, reg).index;
    hide WriteAt;
    if Age(n, k) == age {
      if k > 0 {
        AgeGrows(n, k - 1, k);
      }
      SentBeforeIs(n, age, k);
    }
  }

  /** If no other sequence writes a register in this second, it holds what `n` writes, if it does. */
  lemma WakeWrites(c: Craft, begun: Begun, now: nat, idle: nat, reg: Register, n: nat)
    requires OnSchedule(c, begun, now) && now + 5 < MAX_TIME && IsTimed(idle) && idle !in begun && Named(reg) && n > 0
    requires forall m: nat :: m != n ==> !WritesNow(begun, now, m, reg)
    ensures Read(Wakes(c, now).c.s, reg) == if WritesNow(begun, now, n, reg) then WriteAt(n, reg).v else Read(c.s, reg)
  {
    hide Wakes, OnSchedule, WritesNow, SendsNow, NextWrite, WriteAt, Read, Named, Flying, AfterSend, Sent, Sendable, OthersKeep, Legal, Valid, Advanced, Select;
    WakeEffect(c, begun, now, idle);
    ScheduleIsFlying(c, begun, now);
    var sent := Sent(c, now);
    OthersKeepNow(c, begun, now, sent, reg, n);
    if n in begun {
      WriteIsNext(c, begun, now, n, reg);
    } else {
      NoWriteNow(begun, now, n, reg);
    }
    SendsWrite(c.s, sent, reg, n - 1);
  }

  lemma OthersKeepNow(c: Craft, begun: Begun, now: nat, sent: seq<nat>, reg: Register, n: nat)
    requires OnSchedule(c, begun, now) && n > 0 && forall m: nat :: m != n ==> !WritesNow(begun, now, m, reg)
    requires forall m: nat :: m > 0 ==> (m - 1 in sent <==> SendsNow(begun, now, m))
    ensures OthersKeep(c.s, sent, reg, n - 1)
  {
    hide OnSchedule, WritesNow, SendsNow, NextWrite, WriteAt;
    forall i | 0 <= i < |sent| && sent[i] != n - 1 ensures NextWrite(c.s, sent[i] + 1, reg).Keep? {
      var m := sent[i] + 1;
      assert m - 1 in sent;
      SendsNowInBegun(begun, now, m);
      WriteIsNext(c, begun, now, m, reg);
    }
  }

  lemma NoWriteNow(begun: Begun, now: nat, n: nat, reg: Register)
    requires n !in begun
    ensures !WritesNow(begun, now, n, reg) && !SendsNow(begun, now, n)
  {
  }

  lemma SendsNowInBegun(begun: Begun, now: nat, n: nat)
    requires SendsNow(begun, now, n)
    ensures n in begun
  {
  }

  lemma ScheduleIsFlying(c: Craft, begun: Begun, from: nat)
    requires OnSchedule(c, begun, from)
    ensures Flying(c.s) && Sound(c) && Valid(c.s)
  {
  }

  // ------------------------------------------------------------ a sample

  predicate Fires(s: State, t: Telemetry, n: nat)
    requires Measurable(t) && IsTimed(n)
  {
    IsActive(s, n) && TrueNow(n, t)
  }

  /** None of the three actionpoints whose sequences are not timed is about to fire. */
  predicate Calm(s: State, t: Telemetry)
    requires Measurable(t)
  {
    !(IsActive(s, 25) && TrueNow(25, t)) && !(IsActive(s, 26) && TrueNow(26, t)) && !(IsActive(s, 36) && TrueNow(36, t))
  }

  /** The sequences in flight after the actionpoints from `ap` on have been sampled in second `now`. */
  function Starting(begun: Begun, s: State, t: Telemetry, now: nat, ap: nat): Begun
    requires Measurable(t)
  {
    (map n: nat | 27 <= n <= 35 && ap <= n && Fires(s, t, n) :: now) + begun
  }

  /** A sample drops the actionpoints that fire to passive, and changes nothing else of the state. */
  predicate SampledAps(s: State, t: Telemetry, ap: nat, s': State)
    requires Measurable(t)
  {
    s'.ap.Keys == s.ap.Keys && s'.hw == s.hw &&
    forall a :: a in s.ap ==> s'.ap[a] == if IsTimed(a) && ap <= a && Fires(s, t, a) then Passive else s.ap[a]
  }

  lemma SampledActive(s: State, t: Telemetry, a: nat, s': State)
    requires Measurable(t) && SampledAps(s, t, 25, s')
    ensures IsActive(s', a) <==> IsActive(s, a) && !(IsTimed(a) && Fires(s, t, a))
  {
    hide TrueNow;
  }

  function FiredCraft(c: Craft, n: nat, now: nat): Craft
    requires Valid(c.s) && Enabled(c.s, Fire(n))
  {
    Craft(Next(c.s, Fire(n)), StartedTable(c.table, n, now), c.sel)
  }

  lemma TimedLength(n: nat)
    requires IsTimed(n)
    ensures Length(n) > 0 && EntryAt(n, 0).tag == 1
  {
  }

  lemma FiresOnState(s: State, n: nat)
    requires Flying(s) && IsTimed(n) && IsActive(s, n)
    ensures Enabled(s, Fire(n))
    ensures var s' := Next(s, Fire(n));
      Flying(s') && s' == s.(ap := s.ap[n := Passive], run := if n in s.run then s.run else s.run[n := 0])
  {
    TimedLength(n);
    assert CanSet(s, n) && n in s.enabled;
    hide Length;
    var s' := Next(s, Fire(n));
    forall a: nat | 25 <= a <= 36 ensures CanSet(s', a) && a in s'.enabled {
      assert CanSet(s, a);
    }
  }

  /** An armed and true actionpoint starts its sequence on schedule, or finds it in flight. */
  lemma FireKeepsSchedule(c: Craft, begun: Begun, n: nat, now: nat)
    requires OnSchedule(c, begun, now + 1) && now + 5 < MAX_TIME && IsTimed(n) && IsActive(c.s, n)
    ensures Enabled(c.s, Fire(n)) && Valid(c.s) && Sound(FiredCraft(c, n, now))
    ensures OnSchedule(FiredCraft(c, n, now), if n in begun then begun else begun[n := now], now + 1)
    ensures forall i: nat :: i < NUMBER_OF_RTS && i + 1 in begun ==> FiredCraft(c, n, now).table[i] == c.table[i]
  {
    FiresOnState(c.s, n);
    TimedLength(n);
    StartKeepsFresh(c.table, c.sel, n, now);
    var c' := FiredCraft(c, n, now);
    FireOnTable(c, begun, n, now, c');
    hide OnSchedule, Next, Enabled, Flying, StartedTable, Timely, TableSound, Length;
    FiredOnSchedule(c, begun, n, now, c');
  }

  lemma FiredOnSchedule(c: Craft, begun: Begun, n: nat, now: nat, c': Craft)
    requires OnSchedule(c, begun, now + 1) && now + 5 < MAX_TIME && IsTimed(n) && Sound(c') && Flying(c'.s)
    requires c'.s.run == (if n in c.s.run then c.s.run else c.s.run[n := 0])
    requires if n in begun then c'.table == c.table else c'.table == c.table[n - 1 := Info(EXECUTING, false, 0, now + 1)]
    requires TableSound(c'.table)
    requires forall m: nat :: IsTimed(m) ==> !c'.table[m - 1].disabled
    requires forall i: nat :: i < NUMBER_OF_RTS && c'.table[i].status == EXECUTING ==> i + 1 in begun || i + 1 == n
    ensures OnSchedule(c', if n in begun then begun else begun[n := now], now + 1)
  {
    BegunKeys(c, begun, now + 1);
    hide OnSchedule, Flying, TableSound, Sound;
    if n in begun {
      RejectedOnSchedule(c, begun, now + 1, c');
    } else {
      StartedOnSchedule(c, begun, n, now, c');
    }
  }

  lemma StartedOnSchedule(c: Craft, begun: Begun, n: nat, now: nat, c': Craft)
    requires OnSchedule(c, begun, now + 1) && now + 5 < MAX_TIME && IsTimed(n) && Sound(c') && Flying(c'.s)
    requires n !in begun && c.s.run.Keys == begun.Keys
    requires c'.s.run == c.s.run[n := 0] && c'.table == c.table[n - 1 := Info(EXECUTING, false, 0, now + 1)]
    requires TableSound(c'.table)
    requires forall m: nat :: IsTimed(m) ==> !c'.table[m - 1].disabled
    requires forall i: nat :: i < NUMBER_OF_RTS && c'.table[i].status == EXECUTING ==> i + 1 in begun || i + 1 == n
    ensures OnSchedule(c', begun[n := now], now + 1)
  {
    hide OnSchedule, Flying, TableSound, Sound, Timely;
    StartIsTimely(c', n, now);
    var begun' := begun[n := now];
    forall m: nat | m in begun' ensures Timely(c', m, begun'[m], now + 1) {
      if m != n {
        OthersMove(c, begun, n, now, c', m);
      }
    }
    BuildSchedule(c', begun', now + 1);
  }

  lemma RejectedOnSchedule(c: Craft, begun: Begun, from: nat, c': Craft)
    requires OnSchedule(c, begun, from) && Sound(c') && Flying(c'.s) && c'.s.run == c.s.run && c'.table == c.table
    ensures OnSchedule(c', begun, from)
  {
    hide Flying, TableSound, Sound, SentBefore, Age, Length;
    forall m: nat | m in begun ensures Timely(c', m, begun[m], from) {
      assert Timely(c, m, begun[m], from);
    }
  }

  lemma OthersMove(c: Craft, begun: Begun, n: nat, now: nat, c': Craft, m: nat)
    requires OnSchedule(c, begun, now + 1) && m in begun && m != n && IsTimed(n)
    requires c'.s.run == c.s.run[n := 0] && c'.table == c.table[n - 1 := Info(EXECUTING, false, 0, now + 1)]
    ensures Timely(c', m, begun[m], now + 1)
  {
    assert Timely(c, m, begun[m], now + 1);
    hide OnSchedule, SentBefore, Age, Length;
  }

  lemma StartIsTimely(c: Craft, n: nat, now: nat)
    requires IsTimed(n) && n in c.s.run && c.s.run[n] == 0 && now + 5 < MAX_TIME
    requires c.table[n - 1].status == EXECUTING && c.table[n - 1].next == 0 && c.table[n - 1].time == now + 1
    ensures Timely(c, n, now, now + 1)
  {
    TimedLength(n);
    SentBeforeIs(n, 1, 0);
  }

  lemma FireOnTable(c: Craft, begun: Begun, n: nat, now: nat, c': Craft)
    requires OnSchedule(c, begun, now + 1) && IsTimed(n) && Length(n) > 0 && EntryAt(n, 0).tag == 1
    requires c'.table == StartedTable(c.table, n, now) && now + 5 < MAX_TIME
    ensures if n in begun then c'.table == c.table else c'.table == c.table[n - 1 := Info(EXECUTING, false, 0, now + 1)]
    ensures forall i: nat :: i < NUMBER_OF_RTS && i != n - 1 ==> c'.table[i] == c.table[i]
    ensures TableSound(c'.table)
    ensures forall m: nat :: IsTimed(m) ==> !c'.table[m - 1].disabled
    ensures forall i: nat :: i < NUMBER_OF_RTS && c'.table[i].status == EXECUTING ==> i + 1 in begun || i + 1 == n
  {
    hide Flying, Sound, Timely, Length;
    SoonIs(now, 1);
    ScheduleEntry(c, begun, now + 1, n);
  }

  lemma BuildSchedule(c: Craft, begun: Begun, from: nat)
    requires Sound(c) && Flying(c.s) && TableSound(c.table) && c.s.run.Keys == begun.Keys
    requires forall i: nat :: i < NUMBER_OF_RTS && c.table[i].status == EXECUTING ==> i + 1 in begun
    requires forall n: nat :: IsTimed(n) ==> !c.table[n - 1].disabled
    requires forall n: nat :: n in begun ==> Timely(c, n, begun[n], from)
    ensures OnSchedule(c, begun, from)
  {
  }

  lemma StartingComposes(begun: Begun, s: State, t: Telemetry, now: nat, n: nat, s1: State)
    requires Measurable(t) && IsTimed(n) && Fires(s, t, n) && s1.ap == s.ap[n := Passive]
    ensures Starting(if n in begun then begun else begun[n := now], s1, t, now, n + 1) == Starting(begun, s, t, now, n)
  {
    hide TrueNow;
    forall m: nat | IsTimed(m) && n < m ensures Fires(s1, t, m) <==> Fires(s, t, m) {}
  }

  lemma StartingSkips(begun: Begun, s: State, t: Telemetry, now: nat, ap: nat)
    requires Measurable(t) && (IsTimed(ap) ==> !Fires(s, t, ap))
    ensures Starting(begun, s, t, now, ap + 1) == Starting(begun, s, t, now, ap)
  {
    hide Fires;
  }

  lemma SampledComposes(s: State, t: Telemetry, n: nat, s1: State, s': State)
    requires Measurable(t) && IsTimed(n) && Fires(s, t, n) && s1.ap == s.ap[n := Passive] && s1.hw == s.hw
    requires SampledAps(s1, t, n + 1, s')
    ensures SampledAps(s, t, n, s')
  {
    hide TrueNow;
    assert n in s.ap;
    forall m: nat | IsTimed(m) && n < m ensures Fires(s1, t, m) <==> Fires(s, t, m) {}
  }

  lemma SampledSkips(s: State, t: Telemetry, ap: nat, s': State)
    requires Measurable(t) && (IsTimed(ap) ==> !Fires(s, t, ap)) && SampledAps(s, t, ap + 1, s')
    ensures SampledAps(s, t, ap, s')
  {
    hide Fires;
  }

  lemma StillCalm(s: State, t: Telemetry, n: nat, s1: State)
    requires Measurable(t) && Calm(s, t) && IsTimed(n) && s1.ap == s.ap[n := Passive]
    ensures Calm(s1, t)
  {
    hide TrueNow;
  }

  lemma StartingUncrossed(run: map<nat, nat>, n: nat)
    requires Uncrossed(run)
    ensures Uncrossed(run[n := 0])
  {
  }

  lemma StartingUnmixed(s: State, n: nat, s1: State)
    requires Unmixed(s1) && forall m :: m in s.run ==> m in s1.run
    ensures Unmixed(s)
  {
  }

  /** The stretch is a legal run that crosses or mixes nothing by itself. */
  ghost predicate SampleRuns(s: State, w: Stretch)
    requires Valid(s)
  {
    && Legal(s, w.es) && w.c.s == Final(s, w.es) && (forall m :: m in s.run ==> m in w.c.s.run)
    && (Uncrossed(s.run) ==> NeverCrossed(s, w.es)) && (Unmixed(w.c.s) ==> NeverMixed(s, w.es))
  }

  /** What a sample leaves. */
  ghost predicate SampleLeaves(c: Craft, t: Telemetry, begun: Begun, now: nat, ap: nat, c': Craft)
    requires Measurable(t)
  {
    && OnSchedule(c', Starting(begun, c.s, t, now, ap), now + 1) && SampledAps(c.s, t, ap, c'.s)
    && c'.sel == c.sel && (forall i: nat :: i < NUMBER_OF_RTS && i + 1 in begun ==> c'.table[i] == c.table[i])
  }

  ghost predicate SampleKeeps(c: Craft, t: Telemetry, begun: Begun, now: nat, ap: nat, w: Stretch)
    requires Measurable(t) && Valid(c.s)
  {
    SampleRuns(c.s, w) && SampleLeaves(c, t, begun, now, ap, w.c)
  }

  lemma SampleEnds(c: Craft, t: Telemetry, begun: Begun, now: nat)
    requires Measurable(t) && OnSchedule(c, begun, now + 1)
    ensures Valid(c.s) && SampleKeeps(c, t, begun, now, 37, Stretch([], c))
  {
    assert Starting(begun, c.s, t, now, 37) == begun;
  }

  lemma FireRuns(s: State, n: nat, rest: Stretch)
    requires Valid(s) && Enabled(s, Fire(n))
    requires Next(s, Fire(n)).run == (if n in s.run then s.run else s.run[n := 0]) && SampleRuns(Next(s, Fire(n)), rest)
    ensures SampleRuns(s, rest.(es := [Fire(n)] + rest.es))
  {
    var es, s1 := [Fire(n)] + rest.es, Next(s, Fire(n));
    assert es[0] == Fire(n) && es[1..] == rest.es;
    RunUnfolds(s, es);
    if Uncrossed(s.run) {
      StartingUncrossed(s.run, n);
    }
    if Unmixed(rest.c.s) {
      StartingUnmixed(s, n, rest.c.s);
    }
    hide Next, Enabled, Uncrossed, Unmixed;
  }

  lemma FireLeaves(c: Craft, t: Telemetry, begun: Begun, now: nat, n: nat, c1: Craft, c': Craft)
    requires IsTimed(n) && Measurable(t) && Fires(c.s, t, n) && c1.sel == c.sel
    requires c1.s.ap == c.s.ap[n := Passive] && c1.s.hw == c.s.hw
    requires forall i: nat :: i < NUMBER_OF_RTS && i + 1 in begun ==> c1.table[i] == c.table[i]
    requires SampleLeaves(c1, t, if n in begun then begun else begun[n := now], now, n + 1, c')
    ensures SampleLeaves(c, t, begun, now, n, c')
  {
    StartingComposes(begun, c.s, t, now, n, c1.s);
    SampledComposes(c.s, t, n, c1.s, c'.s);
    hide OnSchedule, Starting, SampledAps, Fires;
  }

  lemma SampleFires(c: Craft, t: Telemetry, begun: Begun, now: nat, n: nat, rest: Stretch)
    requires OnSchedule(c, begun, now + 1) && now + 5 < MAX_TIME && IsTimed(n) && Measurable(t) && Fires(c.s, t, n)
    requires Enabled(c.s, Fire(n)) && Valid(c.s) && Flying(c.s)
    requires SampleKeeps(FiredCraft(c, n, now), t, if n in begun then begun else begun[n := now], now, n + 1, rest)
    ensures SampleKeeps(c, t, begun, now, n, rest.(es := [Fire(n)] + rest.es))
  {
    FireKeepsSchedule(c, begun, n, now);
    FiresOnState(c.s, n);
    hide OnSchedule, Flying, Enabled, StartedTable, SampleRuns, SampleLeaves, Next;
    FireRuns(c.s, n, rest);
    FireLeaves(c, t, begun, now, n, FiredCraft(c, n, now), rest.c);
  }

  lemma SampleSkips(c: Craft, t: Telemetry, begun: Begun, now: nat, ap: nat, rest: Stretch)
    requires Measurable(t) && Valid(c.s) && (IsTimed(ap) ==> !Fires(c.s, t, ap)) && SampleKeeps(c, t, begun, now, ap + 1, rest)
    ensures SampleKeeps(c, t, begun, now, ap, rest)
  {
    hide Starting, SampledAps, OnSchedule, SampleRuns, Fires, Valid, Measurable;
    StartingSkips(begun, c.s, t, now, ap);
    SampledSkips(c.s, t, ap, rest.c.s);
  }

  /** A calm sample fires exactly the timed actionpoints that are armed and true, each starting its
      sequence unless that is in flight already. */
  lemma {:induction false} SampleEffect(c: Craft, t: Telemetry, begun: Begun, now: nat, ap: nat)
    requires OnSchedule(c, begun, now + 1) && now + 5 < MAX_TIME && Measurable(t) && Calm(c.s, t) && 25 <= ap <= 37
    ensures Sound(c) && SampleKeeps(c, t, begun, now, ap, Samples(c, t, now, ap))
    decreases 37 - ap
  {
    hide OnSchedule, SampleKeeps, TrueNow, Calm, Flying, Fires, StartedTable, Fresh, Enabled, Next;
    ScheduleIsFlying(c, begun, now + 1);
    if ap == 37 {
      SampleEnds(c, t, begun, now);
    } else {
      CalmFires(c.s, t, ap);
      if Enabled(c.s, Fire(ap)) && TrueNow(ap, t) {
        FireKeepsSchedule(c, begun, ap, now);
        FiresOnStateAp(c, ap, now);
        var c1 := FiredCraft(c, ap, now);
        StillCalm(c.s, t, ap, c1.s);
        SampleEffect(c1, t, if ap in begun then begun else begun[ap := now], now, ap + 1);
        SampleFires(c, t, begun, now, ap, Samples(c1, t, now, ap + 1));
      } else {
        SampleEffect(c, t, begun, now, ap + 1);
        SampleSkips(c, t, begun, now, ap, Samples(c, t, now, ap + 1));
      }
    }
  }

  lemma CalmFires(s: State, t: Telemetry, ap: nat)
    requires Measurable(t) && Calm(s, t) && 25 <= ap <= 36 && Flying(s)
    ensures Enabled(s, Fire(ap)) && TrueNow(ap, t) ==> IsTimed(ap) && Fires(s, t, ap) && IsActive(s, ap)
    ensures !(Enabled(s, Fire(ap)) && TrueNow(ap, t)) ==> (IsTimed(ap) ==> !Fires(s, t, ap))
  {
    hide TrueNow;
  }

  lemma FiresOnStateAp(c: Craft, n: nat, now: nat)
    requires Flying(c.s) && IsTimed(n) && IsActive(c.s, n)
    ensures Enabled(c.s, Fire(n)) && FiredCraft(c, n, now).s.ap == c.s.ap[n := Passive]
  {
    FiresOnState(c.s, n);
  }

  // ------------------------------------------------------------ crossing and mixing in a wakeup

  function PositionIn(s: State, n: nat): nat { if n in s.run then s.run[n] else Length(n) }

  /** Between two states of the same sequences no sequence can have been halfway up while another
      was halfway down. */
  predicate SafeBetween(s: State, s': State)
  {
    forall m, n :: m in s.run && n in s.run && IsEnter(m) && IsPowerDown(n) ==>
      Climbed(PositionIn(s', m)) == 0 || Climbed(s.run[m]) == 5
      || Descended(n, s.run[n]) == Steps(n) || Descended(n, PositionIn(s', n)) == 0
  }

  predicate Advances(s: State, s': State)
  {
    forall n :: n in s.run ==> s.run[n] <= PositionIn(s', n)
  }

  lemma ProgressGrows(n: nat, k: nat, m: nat)
    requires k <= m
    ensures Climbed(k) <= Climbed(m) && Descended(n, k) <= Descended(n, m)
    ensures 0 <= Climbed(k) && Climbed(m) <= 5 && 0 <= Descended(n, k) && Descended(n, m) <= Steps(n)
  {
  }

  lemma SafeIsUncrossed(s: State, s': State)
    requires SafeBetween(s, s') && Advances(s, s')
    ensures Uncrossed(s.run)
  {
    hide Climbed, Descended, Length;
    forall m, n | m in s.run && n in s.run && Climbing(m, s.run[m]) && Descending(n, s.run[n]) ensures false {
      ProgressGrows(n, s.run[m], PositionIn(s', m));
      ProgressGrows(n, s.run[n], PositionIn(s', n));
    }
  }

  lemma SafeLater(s: State, x: nat, s1: State, s': State)
    requires SafeBetween(s, s') && AfterSend(s, [x], s1) && Flying(s)
    ensures SafeBetween(s1, s')
  {
    hide Climbed, Descended, Length, Steps;
    forall m, n | m in s1.run && n in s1.run && IsEnter(m) && IsPowerDown(n)
      ensures Climbed(PositionIn(s', m)) == 0 || Climbed(s1.run[m]) == 5
           || Descended(n, s1.run[n]) == Steps(n) || Descended(n, PositionIn(s', n)) == 0
    {
      assert m in s.run && n in s.run && s.run[m] <= s1.run[m] && s.run[n] <= s1.run[n];
      ProgressGrows(n, s.run[m], s1.run[m]);
      ProgressGrows(n, s.run[n], s1.run[n]);
    }
  }

  lemma SendAdvances(s: State, sent: seq<nat>, s': State)
    requires Flying(s) && AfterSend(s, sent, s')
    ensures Advances(s, s')
  {
    forall n | n in s.run ensures s.run[n] <= PositionIn(s', n) {
      assert n > 0;
    }
  }

  /** A wakeup crosses nothing if each enter sequence begins its climb only after it, or has
      finished it, or each power-down sequence likewise. */
  lemma {:induction false} SendsNeverCross(s: State, sent: seq<nat>, s': State)
    requires Flying(s) && Valid(s) && Sendable(s, sent) && Legal(s, SentEvents(sent)) && s' == Final(s, SentEvents(sent))
    requires SafeBetween(s, s')
    ensures NeverCrossed(s, SentEvents(sent))
    decreases |sent|
  {
    hide Flying, AfterSend, Next, Enabled, SafeBetween, Advances, Uncrossed;
    SendsAll(s, sent);
    SendAdvances(s, sent, s');
    SafeIsUncrossed(s, s');
    if sent != [] {
      var es, x := SentEvents(sent), sent[0];
      SendsOne(s, x + 1);
      var s1 := Next(s, es[0]);
      SendKeepsFlight(s, [x], s1);
      assert es[1..] == SentEvents(sent[1..]);
      StillSendable(s, sent, s1);
      SafeLater(s, x, s1, s');
      SendsNeverCross(s1, sent[1..], s');
    }
  }

  lemma SendKeepsUnmixed(s: State, x: nat, s1: State)
    requires AfterSend(s, [x], s1) && Unmixed(s) && Flying(s1)
    ensures Unmixed(s1)
  {
    forall m, n | m in s1.run && n in s1.run ensures !(IsEnter(m) && IsPowerDown(n)) {
      assert m in s.run && n in s.run;
    }
  }

  /** A wakeup mixes nothing that was not mixed before. */
  lemma {:induction false} SendsNeverMix(s: State, sent: seq<nat>)
    requires Flying(s) && Valid(s) && Sendable(s, sent) && Legal(s, SentEvents(sent)) && Unmixed(s)
    ensures NeverMixed(s, SentEvents(sent))
    decreases |sent|
  {
    hide Flying, AfterSend, Next, Enabled, Unmixed;
    if sent != [] {
      var es, x := SentEvents(sent), sent[0];
      SendsOne(s, x + 1);
      var s1 := Next(s, es[0]);
      SendKeepsFlight(s, [x], s1);
      SendKeepsUnmixed(s, x, s1);
      assert es[1..] == SentEvents(sent[1..]);
      StillSendable(s, sent, s1);
      SendsNeverMix(s1, sent[1..]);
    }
  }

  lemma {:induction false} RunsJoin(s: State, es: seq<Event>, fs: seq<Event>)
    requires Valid(s) && Legal(s, es) && Legal(Final(s, es), fs)
    ensures Legal(s, es + fs) && Final(s, es + fs) == Final(Final(s, es), fs)
    ensures NeverMixed(s, es) && NeverMixed(Final(s, es), fs) ==> NeverMixed(s, es + fs)
    ensures NeverCrossed(s, es) && NeverCrossed(Final(s, es), fs) ==> NeverCrossed(s, es + fs)
    decreases |es|
  {
    hide Unmixed, Next, Enabled, Valid, Uncrossed;
    if es == [] {
      assert es + fs == fs;
    } else {
      assert (es + fs)[0] == es[0] && (es + fs)[1..] == es[1..] + fs;
      RunsJoin(Next(s, es[0]), es[1..], fs);
    }
  }

  lemma EmptyRun(s: State)
    requires Valid(s)
    ensures Legal(s, []) && Final(s, []) == s
    ensures (Unmixed(s) ==> NeverMixed(s, [])) && (Uncrossed(s.run) ==> NeverCrossed(s, []))
  {
  }

  // ------------------------------------------------------------ nothing in flight

  /** A sequence table with every sequence of the tables loaded, enabled and idle. */
  function IdleTable(): (t: Table)
    ensures forall i :: 0 <= i < NUMBER_OF_RTS ==>
      t[i] == Info(if Length(i + 1) == 0 then EMPTY else LOADED, false, 0, MAX_TIME)
  {
    seq(NUMBER_OF_RTS, i requires 0 <= i < NUMBER_OF_RTS =>
      Info(if Length(i + 1) == 0 then EMPTY else LOADED, false, 0, MAX_TIME))
  }

  lemma QuiescentFlies(s: State)
    requires Valid(s) && Quiescent(s)
    ensures Flying(s)
  {
    forall a: nat | 25 <= a <= 36 ensures CanSet(s, a) && a in s.enabled {
      assert a in Numbers(25, 36);
    }
  }

  /** Between sequences the craft is on the empty schedule. */
  lemma IdleOnSchedule(s: State, from: nat)
    requires Valid(s) && Quiescent(s)
    ensures OnSchedule(Craft(s, IdleTable(), Nothing), map[], from)
  {
    QuiescentFlies(s);
    hide Flying, IdleTable, Length;
  }
}
