/** Two sequences with a command each in the same second: who goes first, and whose word stands. */
module Ties {
  import opened ScienceTables
  import opened Registers
  import opened StoredCommand
  import opened TimedRuns

  /** Sequences `m` and `n`, and no others, have a command in second `now`. */
  ghost predicate Tied(begun: Begun, now: nat, m: nat, n: nat)
  {
    0 < m < n && SendsNow(begun, now, m) && SendsNow(begun, now, n) && forall x: nat :: SendsNow(begun, now, x) ==> x == m || x == n
  }

  lemma SendingEntry(c: Craft, begun: Begun, now: nat, n: nat)
    requires OnSchedule(c, begun, now) && SendsNow(begun, now, n)
    ensures 0 < n <= NUMBER_OF_RTS && n in c.s.run && c.table[n - 1].status == EXECUTING && c.table[n - 1].time == now
  {
    BegunIsTimed(c, begun, now, n);
    ScheduleEntry(c, begun, now, n);
    hide OnSchedule, SentBefore, Age, Length;
  }

  /** After the wakeup before a tie, the higher sequence's command is not the selected one ... */
  lemma TieIsSelected(c: Craft, begun: Begun, now: nat, idle: nat, m: nat, n: nat)
    requires OnSchedule(c, begun, now) && now + 5 < MAX_TIME && IsTimed(idle) && idle !in begun
    requires Tied(Ongoing(begun, now + 1), now + 1, m, n)
    ensures Sound(c)
    ensures var sel := Wakes(c, now).c.sel; sel.Chosen? ==> sel.index != n - 1
  {
    hide OnSchedule, Wakes, Select, Sound, Sent, AfterSend, Legal, Final, SendsNow, Sendable, Advanced, Flying, Fresh, Valid, Ongoing;
    ScheduleIsSound(c, begun, now);
    WakeEffect(c, begun, now, idle);
    WakeKeepsSchedule(c, begun, now, idle);
    var c' := Wakes(c, now).c;
    SendingEntry(c', Ongoing(begun, now + 1), now + 1, m);
    SendingEntry(c', Ongoing(begun, now + 1), now + 1, n);
    LowerIsSelected(c'.table, m - 1, n - 1);
  }

  /** ... and unless it is, the wakeup sends the lower sequence's command first. */
  lemma TieInOrder(c: Craft, begun: Begun, now: nat, idle: nat, m: nat, n: nat)
    requires OnSchedule(c, begun, now) && now + 5 < MAX_TIME && IsTimed(idle) && idle !in begun
    requires Tied(begun, now, m, n) && (c.sel.Chosen? ==> c.sel.index != n - 1)
    ensures Sound(c) && Sent(c, now) == [m - 1, n - 1]
  {
    hide OnSchedule, Select, Sent, NoneImmediate, Wake, Fresh, DueSet, Flying, Valid, Due, SendsNow;
    ScheduleIsSound(c, begun, now);
    SendingEntry(c, begun, now, m);
    SendingEntry(c, begun, now, n);
    WakeIsOrdinary(c, begun, now, idle);
    var due := DueSet(c.table, now);
    forall i: nat ensures i in due <==> i == m - 1 || i == n - 1 {
      DueEntry(c, begun, now, idle, i);
    }
    TwoInOrder(c.table, c.sel, now, m - 1, n - 1);
    SentIs(c, now, [m - 1, n - 1]);
  }

  lemma SentIs(c: Craft, now: nat, sent: seq<nat>)
    requires Sound(c) && Wake(c.table, c.sel, 0, now).sent == sent
    ensures Sent(c, now) == sent
  {
  }

  lemma SecondWord(s: State, x: nat, y: nat, reg: Register)
    requires Flying(s) && Sendable(s, [x, y]) && Named(reg)
    ensures Valid(s) && Legal(s, SentEvents([x, y]))
    ensures NextWrite(s, y + 1, reg).Put? ==> Read(Final(s, SentEvents([x, y])), reg) == NextWrite(s, y + 1, reg).v
  {
    hide Flying, AfterSend, Next, Enabled, NextWrite, Read, Named, Valid;
    FlightIsValid(s);
    SendsAll(s, [x, y]);
    SendsOne(s, x + 1);
    var es, s1 := SentEvents([x, y]), Next(s, Exec(x + 1));
    SendKeepsFlight(s, [x], s1);
    assert es[0] == Exec(x + 1) && es[1..] == SentEvents([y]) && [x, y][1..] == [y] && [x, y][0] == x;
    StillSendable(s, [x, y], s1);
    SameNextWrite(s, x, s1, y + 1, reg);
    SendsWrite(s1, [y], reg, y);
  }

  /** A register both write in the tie holds what the higher sequence wrote. */
  lemma TieWrites(c: Craft, begun: Begun, now: nat, idle: nat, m: nat, n: nat, reg: Register)
    requires OnSchedule(c, begun, now) && now + 5 < MAX_TIME && IsTimed(idle) && idle !in begun
    requires Tied(begun, now, m, n) && (c.sel.Chosen? ==> c.sel.index != n - 1) && Named(reg) && WritesNow(begun, now, n, reg)
    ensures Sound(c) && Read(Wakes(c, now).c.s, reg) == WriteAt(n, reg).v
  {
    hide OnSchedule, Wakes, Sent, AfterSend, Legal, Final, Flying, SendsNow, NextWrite, SentEvents, Valid, Sound, Fresh, Advanced, Read, WriteAt, WritesNow, Sendable, Named;
    ScheduleIsFlying(c, begun, now);
    TieInOrder(c, begun, now, idle, m, n);
    WakeEffect(c, begun, now, idle);
    SecondWord(c.s, m - 1, n - 1, reg);
    TiedBegun(begun, now, m, n);
    WriteIsNext(c, begun, now, n, reg);
  }

  lemma TiedBegun(begun: Begun, now: nat, m: nat, n: nat)
    requires Tied(begun, now, m, n)
    ensures m in begun && n in begun
  {
  }
}
