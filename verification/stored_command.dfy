/** The Stored Command processor: starting sequences, choosing the next command, and the one
    wakeup a second that sends what is due. */
module StoredCommand {
  import opened ScienceTables
  import opened Widths

  datatype RtsStatus = EMPTY | LOADED | EXECUTING

  /** An entry of the sequence information table; `next` indexes the sequence's commands. */
  datatype Info = Info(status: RtsStatus, disabled: bool, next: nat, time: nat)

  /** Entry `i` belongs to sequence `i + 1`. */
  type Table = t: seq<Info> | |t| == NUMBER_OF_RTS witness seq(NUMBER_OF_RTS, _ => Info(EMPTY, true, 0, 0))

  /** What the processor has decided to run next: the entry and the time it then had. */
  datatype Selection = Nothing | Chosen(index: nat, time: nat)

  const MAX_TIME: nat := UINT32 - 1
  const MAX_CMDS_PER_SEC: nat := 8

  /** Seconds are a 32-bit unsigned integer. */
  function AbsTime(now: nat, tag: nat): nat { (now + tag) % UINT32 }

  // ------------------------------------------------------------ the table

  predicate TableSound(t: Table)
  {
    forall i :: 0 <= i < |t| ==>
      && (t[i].status == EMPTY <==> Length(i + 1) == 0)
      && (t[i].status == EXECUTING ==> t[i].next < Length(i + 1))
      && t[i].time <= MAX_TIME
  }

  /** A start request for entry `i`, which a disabled, empty or executing sequence rejects. */
  function StartedInfo(info: Info, n: nat, now: nat): Info
    requires Length(n) > 0
  {
    if !info.disabled && info.status == LOADED
    then Info(EXECUTING, false, 0, AbsTime(now, EntryAt(n, 0).tag))
    else info
  }

  function StartedTable(t: Table, n: nat, now: nat): Table
  {
    if 0 < n <= NUMBER_OF_RTS && Length(n) > 0 then t[n - 1 := StartedInfo(t[n - 1], n, now)] else t
  }

  /** Sequence `n` after sending its next command: on to the following one, or finished. */
  function Advanced(info: Info, n: nat, now: nat): Info
  {
    if info.next + 1 < Length(n)
    then info.(next := info.next + 1, time := AbsTime(now, EntryAt(n, info.next + 1).tag))
    else info.(status := LOADED, time := MAX_TIME)
  }

  /** A command is due once its time has come; one timed at the very last second never is. */
  predicate Due(info: Info, now: nat)
  {
    info.status == EXECUTING && info.time <= now && info.time < MAX_TIME
  }

  function DueSet(t: Table, now: nat): set<nat> { set i: nat | i < NUMBER_OF_RTS && Due(t[i], now) }

  // ------------------------------------------------------------ choosing

  /** Earlier, or as early and of lower number. */
  predicate Before(t: Table, i: nat, j: nat)
    requires i < |t| && j < |t|
  {
    t[i].time < t[j].time || (t[i].time == t[j].time && i <= j)
  }

  /** Entry `i` is executing and comes before every other executing entry from `low` on. */
  predicate FirstFrom(t: Table, i: nat, low: nat)
  {
    low <= i < |t| && t[i].status == EXECUTING &&
    forall j :: low <= j < |t| && t[j].status == EXECUTING ==> Before(t, i, j)
  }

  predicate NoneFrom(t: Table, low: nat)
  {
    forall j :: low <= j < |t| ==> t[j].status != EXECUTING
  }

  /** The selection the table calls for. */
  ghost function Select(t: Table): (sel: Selection)
    ensures Fresh(t, sel) && (sel.Chosen? ==> FirstFrom(t, sel.index, 0))
    ensures sel == Nothing ==> forall i: nat :: FirstFrom(t, i, 0) ==> t[i].time >= MAX_TIME
  {
    if exists i: nat :: FirstFrom(t, i, 0) && t[i].time < MAX_TIME
    then var i: nat :| FirstFrom(t, i, 0) && t[i].time < MAX_TIME; Chosen(i, t[i].time)
    else Nothing
  }

  lemma FirstIsUnique(t: Table, i: nat, j: nat)
    requires FirstFrom(t, i, 0) && FirstFrom(t, j, 0)
    ensures i == j
  {
  }

  lemma {:induction false} SomeFirst(t: Table, low: nat)
    requires low <= |t| && !NoneFrom(t, low)
    ensures exists i :: FirstFrom(t, i, low)
    decreases |t| - low
  {
    if NoneFrom(t, low + 1) {
      assert FirstFrom(t, low, low);
    } else {
      SomeFirst(t, low + 1);
      var i :| FirstFrom(t, i, low + 1);
      assert FirstFrom(t, i, low) || FirstFrom(t, low, low);
    }
  }

  /** The selection is due exactly when some command is, and it is then one of them. */
  lemma SelectionIsDue(t: Table, now: nat)
    ensures var sel := Select(t);
      && (DueSet(t, now) != {} <==> sel.Chosen? && sel.time <= now)
      && (DueSet(t, now) != {} ==> sel.index in DueSet(t, now) && forall j :: j in DueSet(t, now) ==> Before(t, sel.index, j))
  {
    if j :| j in DueSet(t, now) {
      assert !NoneFrom(t, 0);
      SomeFirst(t, 0);
      var i :| FirstFrom(t, i, 0);
      assert Before(t, i, j);
    }
    if Select(t).Chosen? && Select(t).time <= now {
      assert Select(t).index in DueSet(t, now);
    }
  }

  // ------------------------------------------------------------ one wakeup

  /** The selection is still what the table says about its entry. */
  predicate Fresh(t: Table, sel: Selection)
  {
    sel.Chosen? ==>
      sel.index < |t| && sel.time < MAX_TIME && t[sel.index].status == EXECUTING && t[sel.index].time == sel.time
  }

  predicate Sends(t: Table, sel: Selection, now: nat)
    requires Fresh(t, sel)
  {
    sel.Chosen? && sel.time <= now && t[sel.index].status == EXECUTING
  }

  /** What a wakeup leaves: the entries whose commands were sent, in order, the table, and the
      selection kept for the next wakeup. */
  datatype Wakeup = Wakeup(sent: seq<nat>, table: Table, sel: Selection)

  function Processed(t: Table, sel: Selection, now: nat): Table
    requires Fresh(t, sel)
  {
    if Sends(t, sel, now) then t[sel.index := Advanced(t[sel.index], sel.index + 1, now)] else t
  }

  /** Sending the selected command moves its sequence to the next one, a tag's time from now, or ends
      it with its last one; no other entry changes. */
  lemma ProcessedExactly(t: Table, sel: Selection, now: nat, i: nat)
    requires Fresh(t, sel) && TableSound(t) && i < NUMBER_OF_RTS
    ensures Processed(t, sel, now)[i] ==
      if !(sel.Chosen? && sel.time <= now && sel.index == i) then t[i]
      else if t[i].next + 1 == Length(i + 1) then Info(LOADED, t[i].disabled, t[i].next, 0xFFFF_FFFF)
      else Info(EXECUTING, t[i].disabled, t[i].next + 1, (now + EntryAt(i + 1, t[i].next + 1).tag) % 0x1_0000_0000)
  {
    hide EntryAt, Length;
  }

  ghost predicate GoesOn(t: Table, now: nat, count: nat)
  {
    Select(t).Chosen? && Select(t).time <= now && count < MAX_CMDS_PER_SEC
  }

  /** The wakeup: first whatever was selected before, then the most urgent command again and
      again, until none is due or the second's allowance is used up. */
  ghost function Wake(t: Table, sel: Selection, count: nat, now: nat): (w: Wakeup)
    requires Fresh(t, sel) && count < MAX_CMDS_PER_SEC
    decreases MAX_CMDS_PER_SEC - count, if Sends(t, sel, now) then 0 else 1
  {
    var log := if Sends(t, sel, now) then [sel.index] else [];
    var t1 := Processed(t, sel, now);
    if GoesOn(t1, now, count + |log|) then
      var rest := Wake(t1, Select(t1), count + |log|, now);
      rest.(sent := log + rest.sent)
    else
      Wakeup(log, t1, Select(t1))
  }

  class Processor {
    var table: array<Info>
    var rtsNumber: nat
    var nextCmdTime: nat
    var nextIsRts: bool
    var currentTime: nat

    ghost predicate Valid()
      reads this, table
    {
      && table.Length == NUMBER_OF_RTS && TableSound(table[..])
      && (nextIsRts ==> 0 < rtsNumber) && Fresh(table[..], Selected())
    }

    ghost function Contents(): Table
      reads this, table
      requires table.Length == NUMBER_OF_RTS
    {
      table[..]
    }

    ghost function Selected(): Selection
      reads this
      requires nextIsRts ==> 0 < rtsNumber
    {
      if nextIsRts then Chosen(rtsNumber - 1, nextCmdTime) else Nothing
    }

    method StartRts(n: nat)
      requires Valid()
      modifies table
      ensures Valid() && Contents() == StartedTable(old(Contents()), n, currentTime)
      ensures forall i: nat :: i < NUMBER_OF_RTS ==>
        Contents()[i] ==
          var was := old(Contents())[i];
          if i + 1 == n && !was.disabled && was.status == LOADED
          then Info(EXECUTING, false, 0, (currentTime + EntryAt(n, 0).tag) % 0x1_0000_0000) else was
    {
      if 0 < n <= NUMBER_OF_RTS {
        var i := n - 1;
        if !table[i].disabled {
          if table[i].status == LOADED {
            table[i] := table[i].(status := EXECUTING, next := 0, time := AbsTime(currentTime, EntryAt(n, 0).tag));
          }
        }
      }
      assert Contents() == StartedTable(old(Contents()), n, currentTime);
    }

    /** Scan the table backwards, so that the lowest number wins among the earliest. */
    method GetNextRtsTime()
      requires table.Length == NUMBER_OF_RTS && TableSound(Contents())
      modifies this`rtsNumber, this`nextCmdTime
      ensures rtsNumber == 0 ==> NoneFrom(Contents(), 0) && nextCmdTime == MAX_TIME
      ensures rtsNumber > 0 ==> FirstFrom(Contents(), rtsNumber - 1, 0) && nextCmdTime == Contents()[rtsNumber - 1].time
    {
      ghost var t := Contents();
      var nextRts: int := -1;
      var nextTime := MAX_TIME;
      var i := NUMBER_OF_RTS - 1;
      while i >= 0
        invariant -1 <= i < NUMBER_OF_RTS
        invariant nextRts == -1 ==> NoneFrom(t, i + 1) && nextTime == MAX_TIME
        invariant nextRts != -1 ==> 0 <= nextRts && FirstFrom(t, nextRts, i + 1) && nextTime == t[nextRts].time
      {
        if table[i].status == EXECUTING {
          if table[i].time <= nextTime {
            nextTime := table[i].time;
            nextRts := i;
          }
        }
        i := i - 1;
      }
      if nextRts == -1 {
        rtsNumber := 0;
        nextCmdTime := MAX_TIME;
      } else {
        rtsNumber := nextRts + 1;
        nextCmdTime := nextTime;
      }
    }

    /** No absolute-time sequence is executing, so its next time is the maximum. */
    method UpdateNextTime()
      requires table.Length == NUMBER_OF_RTS && TableSound(Contents())
      modifies this`rtsNumber, this`nextCmdTime, this`nextIsRts
      ensures Valid() && Selected() == Select(Contents())
    {
      GetNextRtsTime();
      nextIsRts := false;
      if rtsNumber > 0 {
        if nextCmdTime < MAX_TIME {
          nextIsRts := true;
          FirstIsUnique(Contents(), rtsNumber - 1, Select(Contents()).index);
        } else {
          OnlyFirst(Contents(), rtsNumber - 1);
        }
      }
    }

    method ProcessRtpCommand() returns (sent: bool)
      requires Valid()
      modifies table
      ensures TableSound(Contents())
      ensures old(Fresh(Contents(), Selected())) && sent == old(Sends(Contents(), Selected(), currentTime))
      ensures Contents() == old(Processed(Contents(), Selected(), currentTime))
    {
      sent := false;
      if nextIsRts && nextCmdTime <= currentTime && table[rtsNumber - 1].status == EXECUTING {
        var i := rtsNumber - 1;
        sent := true;
        var next := table[i].next + 1;
        if next < Length(i + 1) {
          table[i] := table[i].(next := next, time := AbsTime(currentTime, EntryAt(i + 1, next).tag));
        } else {
          table[i] := table[i].(status := LOADED, time := MAX_TIME);
        }
      }
      assert Contents() == old(Processed(Contents(), Selected(), currentTime));
    }

    /** The one-second wakeup; `sent` lists the table entries whose commands were sent. */
    method OneHzWakeup() returns (sent: seq<nat>)
      requires Valid()
      modifies this`rtsNumber, this`nextCmdTime, this`nextIsRts, table
      ensures Valid()
      ensures Wakeup(sent, Contents(), Selected()) == old(Wake(Contents(), Selected(), 0, currentTime))
    {
      hide Wake, Processed, TableSound, Select;
      ghost var w := Wake(Contents(), Selected(), 0, currentTime);
      sent := [];
      var another := true;
      assert w == Joined([], w);
      while another
        invariant Valid()
        invariant another ==> |sent| < MAX_CMDS_PER_SEC
        invariant w == Joined(sent, if another then Wake(Contents(), Selected(), |sent|, currentTime) else Wakeup([], Contents(), Selected()))
        invariant another && sent != [] ==> Sends(Contents(), Selected(), currentTime)
        decreases another, MAX_CMDS_PER_SEC - |sent|, if Sends(Contents(), Selected(), currentTime) then 0 else 1
      {
        WakeUnfolds(sent, Contents(), Selected(), currentTime);
        var index := rtsNumber;
        var one := ProcessRtpCommand();
        if one {
          sent := sent + [index - 1];
        }
        UpdateNextTime();
        SelectionIsDue(Contents(), currentTime);
        if !nextIsRts || nextCmdTime > currentTime {
          another := false;
        } else {
          another := |sent| < MAX_CMDS_PER_SEC;
        }
      }
    }
  }

  ghost function Joined(sent: seq<nat>, rest: Wakeup): Wakeup { rest.(sent := sent + rest.sent) }

  lemma WakeUnfolds(sent: seq<nat>, t: Table, sel: Selection, now: nat)
    requires Fresh(t, sel) && |sent| < MAX_CMDS_PER_SEC
    ensures var all := sent + if Sends(t, sel, now) then [sel.index] else [];
      var t1 := Processed(t, sel, now);
      Joined(sent, Wake(t, sel, |sent|, now)) ==
      Joined(all, if GoesOn(t1, now, |all|) then Wake(t1, Select(t1), |all|, now) else Wakeup([], t1, Select(t1)))
  {
    hide Select, Processed, FirstFrom;
    var log := if Sends(t, sel, now) then [sel.index] else [];
    var t1 := Processed(t, sel, now);
    if GoesOn(t1, now, |sent| + |log|) {
      var rest := Wake(t1, Select(t1), |sent| + |log|, now);
      assert sent + (log + rest.sent) == (sent + log) + rest.sent;
    }
  }

  lemma OnlyFirst(t: Table, i: nat)
    requires FirstFrom(t, i, 0) && t[i].time >= MAX_TIME
    ensures Select(t) == Nothing
  {
    if Select(t).Chosen? {
      FirstIsUnique(t, i, Select(t).index);
    }
  }

  // ------------------------------------------------------------ what a wakeup sends

  /** Sending any due command puts the sequence's next command, if any, after this second. */
  predicate NoneImmediate(t: Table, now: nat)
  {
    forall i: nat :: i in DueSet(t, now) ==> !Due(Advanced(t[i], i + 1, now), now)
  }

  predicate Distinct(xs: seq<nat>) { forall i, j :: 0 <= i < j < |xs| ==> xs[i] != xs[j] }

  function Smaller(a: nat, b: nat): nat { if a < b then a else b }

  lemma ProcessedDue(t: Table, sel: Selection, now: nat)
    requires Fresh(t, sel) && Sends(t, sel, now) && NoneImmediate(t, now)
    ensures var t1 := Processed(t, sel, now);
      && DueSet(t1, now) == DueSet(t, now) - {sel.index} && NoneImmediate(t1, now) && sel.index in DueSet(t, now)
      && forall k: nat :: k < NUMBER_OF_RTS ==> t1[k] == if k == sel.index then Advanced(t[k], k + 1, now) else t[k]
  {
    hide Advanced, Select, TableSound;
    var t1 := Processed(t, sel, now);
    forall k: nat | k < NUMBER_OF_RTS
      ensures t1[k] == if k == sel.index then Advanced(t[k], k + 1, now) else t[k] {}
    assert sel.index in DueSet(t, now);
  }

  /** The entries a wakeup sends, compared with the entries that were due when it began. */
  ghost predicate SendsDue(t: Table, w: Wakeup, now: nat, allowance: nat)
  {
    && Distinct(w.sent)
    && |w.sent| == Smaller(allowance, |DueSet(t, now)|)
    && (forall i :: i in w.sent ==> i in DueSet(t, now))
    && (forall i: nat :: i < NUMBER_OF_RTS ==> w.table[i] == if i in w.sent then Advanced(t[i], i + 1, now) else t[i])
    && w.sel == Select(w.table)
  }

  /** From its second command on, a wakeup sends in order of urgency: each command comes before
      every due command it has not sent yet. */
  predicate MostUrgentFirst(t: Table, sent: seq<nat>, now: nat, from: nat)
  {
    forall a: nat, j: nat :: from <= a < |sent| && sent[a] < |t| && j in DueSet(t, now) && j !in sent[..a] ==>
      Before(t, sent[a], j)
  }

  lemma SentThenRest(t: Table, i: nat, t1: Table, rest: Wakeup, now: nat, allowance: nat)
    requires i in DueSet(t, now) && DueSet(t1, now) == DueSet(t, now) - {i} && i < NUMBER_OF_RTS
    requires forall k: nat :: k < NUMBER_OF_RTS ==> t1[k] == if k == i then Advanced(t[k], k + 1, now) else t[k]
    requires allowance > 0 && SendsDue(t1, rest, now, allowance - 1)
    ensures SendsDue(t, Joined([i], rest), now, allowance)
  {
    hide Select, DueSet, Advanced, Due;
    var due := DueSet(t, now);
    assert |due - {i}| == |due| - 1;
    assert i !in rest.sent;
    var sent := [i] + rest.sent;
    forall k: nat ensures k in sent <==> k == i || k in rest.sent {}
    assert Distinct(sent) by {
      forall a, b | 0 <= a < b < |sent| ensures sent[a] != sent[b] {
        assert sent[b] == rest.sent[b - 1];
      }
    }
  }

  lemma NothingSent(t: Table, now: nat, allowance: nat)
    requires allowance == 0 || DueSet(t, now) == {}
    ensures SendsDue(t, Wakeup([], t, Select(t)), now, allowance)
  {
  }

  /** What a wakeup does once it has decided whether to go on. */
  ghost function Remaining(t: Table, now: nat, count: nat): Wakeup
  {
    if GoesOn(t, now, count) then Wake(t, Select(t), count, now) else Wakeup([], t, Select(t))
  }

  lemma SelectionSends(t: Table, now: nat)
    requires Select(t).Chosen? && Select(t).time <= now
    ensures Fresh(t, Select(t)) && Sends(t, Select(t), now)
  {
  }

  lemma {:induction false} RemainingSendsDue(t: Table, now: nat, count: nat)
    requires count <= MAX_CMDS_PER_SEC && NoneImmediate(t, now)
    ensures SendsDue(t, Remaining(t, now, count), now, MAX_CMDS_PER_SEC - count)
    decreases MAX_CMDS_PER_SEC - count
  {
    hide Wake, Select, SendsDue, NoneImmediate, Processed, Joined, Fresh, Sends, TableSound;
    SelectionIsDue(t, now);
    if GoesOn(t, now, count) {
      var sel := Select(t);
      SelectionSends(t, now);
      var t1 := Processed(t, sel, now);
      WakeIsJoined(t, sel, count, now);
      ProcessedDue(t, sel, now);
      RemainingSendsDue(t1, now, count + 1);
      SentThenRest(t, sel.index, t1, Remaining(t1, now, count + 1), now, MAX_CMDS_PER_SEC - count);
    } else {
      NothingSent(t, now, MAX_CMDS_PER_SEC - count);
    }
  }

  /** A wakeup sends each due command exactly once, up to eight of them, and nothing else. */
  lemma WakeSendsDue(t: Table, sel: Selection, now: nat)
    requires Fresh(t, sel) && NoneImmediate(t, now)
    ensures SendsDue(t, Wake(t, sel, 0, now), now, 8)
  {
    WakeIsJoined(t, sel, 0, now);
    hide Wake, Select, SendsDue, NoneImmediate, Processed, Joined, TableSound;
    var t1 := Processed(t, sel, now);
    if Sends(t, sel, now) {
      ProcessedDue(t, sel, now);
      RemainingSendsDue(t1, now, 1);
      SentThenRest(t, sel.index, t1, Remaining(t1, now, 1), now, MAX_CMDS_PER_SEC);
    } else {
      NotProcessed(t, sel, now);
      RemainingSendsDue(t, now, 0);
    }
  }

  lemma NotProcessed(t: Table, sel: Selection, now: nat)
    requires Fresh(t, sel) && !Sends(t, sel, now)
    ensures Processed(t, sel, now) == t
    ensures forall rest :: Joined([], rest) == rest
  {
    forall rest ensures Joined([], rest) == rest {
      assert [] + rest.sent == rest.sent;
    }
  }

  lemma WakeIsJoined(t: Table, sel: Selection, count: nat, now: nat)
    requires Fresh(t, sel) && count < MAX_CMDS_PER_SEC
    ensures var log := if Sends(t, sel, now) then [sel.index] else [];
      var t1 := Processed(t, sel, now);
      Wake(t, sel, count, now) ==
      Joined(log, Remaining(t1, now, count + |log|))
  {
    hide Select, Processed, FirstFrom;
  }

  lemma UrgentThenRest(t: Table, i: nat, t1: Table, rest: seq<nat>, now: nat, from: nat)
    requires i in DueSet(t, now) && DueSet(t1, now) == DueSet(t, now) - {i} && i < NUMBER_OF_RTS
    requires forall k: nat :: k < NUMBER_OF_RTS && k != i ==> t1[k] == t[k]
    requires (forall x :: x in rest ==> x in DueSet(t1, now)) && MostUrgentFirst(t1, rest, now, 0)
    requires from == 1 || forall j :: j in DueSet(t, now) ==> Before(t, i, j)
    ensures MostUrgentFirst(t, [i] + rest, now, from)
  {
    var sent := [i] + rest;
    forall a: nat, j: nat | from <= a < |sent| && sent[a] < |t| && j in DueSet(t, now) && j !in sent[..a]
      ensures Before(t, sent[a], j)
    {
      if a > 0 {
        UrgentInRest(t, i, t1, rest, now, a - 1, j);
      }
    }
  }

  lemma UrgentInRest(t: Table, i: nat, t1: Table, rest: seq<nat>, now: nat, a: nat, j: nat)
    requires i < NUMBER_OF_RTS && DueSet(t1, now) == DueSet(t, now) - {i}
    requires forall k: nat :: k < NUMBER_OF_RTS && k != i ==> t1[k] == t[k]
    requires (forall x :: x in rest ==> x in DueSet(t1, now)) && MostUrgentFirst(t1, rest, now, 0)
    requires a < |rest| && rest[a] < |t| && j in DueSet(t, now) && j !in ([i] + rest)[..a + 1]
    ensures Before(t, rest[a], j)
  {
    hide DueSet;
    assert ([i] + rest)[..a + 1] == [i] + rest[..a];
    assert ([i] + rest[..a])[0] == i && j != i && j !in rest[..a];
    assert rest[a] in DueSet(t1, now) && j in DueSet(t1, now);
    InDueSet(t, j, now);
    assert Before(t1, rest[a], j);
  }

  lemma InDueSet(t: Table, j: nat, now: nat)
    requires j in DueSet(t, now)
    ensures j < NUMBER_OF_RTS
  {
  }

  lemma {:induction false} RemainingIsUrgent(t: Table, now: nat, count: nat)
    requires count <= MAX_CMDS_PER_SEC && NoneImmediate(t, now)
    ensures MostUrgentFirst(t, Remaining(t, now, count).sent, now, 0)
    decreases MAX_CMDS_PER_SEC - count
  {
    hide Wake, Select, SendsDue, NoneImmediate, Processed, Fresh, Sends, TableSound, MostUrgentFirst;
    SelectionIsDue(t, now);
    if GoesOn(t, now, count) {
      var sel := Select(t);
      SelectionSends(t, now);
      var t1 := Processed(t, sel, now);
      WakeIsJoined(t, sel, count, now);
      ProcessedDue(t, sel, now);
      SentAreDue(t1, now, count + 1);
      RemainingIsUrgent(t1, now, count + 1);
      UrgentThenRest(t, sel.index, t1, Remaining(t1, now, count + 1).sent, now, 0);
    } else {
      NoneIsUrgent(t, now);
    }
  }

  lemma SentAreDue(t: Table, now: nat, count: nat)
    requires count <= MAX_CMDS_PER_SEC && NoneImmediate(t, now)
    ensures forall x :: x in Remaining(t, now, count).sent ==> x in DueSet(t, now)
  {
    RemainingSendsDue(t, now, count);
  }

  lemma NoneIsUrgent(t: Table, now: nat)
    ensures MostUrgentFirst(t, [], now, 0)
  {
  }

  lemma WakeParts(t: Table, sel: Selection, now: nat)
    requires Fresh(t, sel)
    ensures Wake(t, sel, 0, now).sent ==
      if Sends(t, sel, now) then [sel.index] + Remaining(Processed(t, sel, now), now, 1).sent
      else Remaining(t, now, 0).sent
  {
    WakeIsJoined(t, sel, 0, now);
    hide Wake, Select, Processed, TableSound, Remaining, DueSet;
    if !Sends(t, sel, now) {
      NotProcessed(t, sel, now);
    }
  }

  /** A wakeup sends in order of time, then of number, all but the command selected the second
      before: that one goes first even if a sequence started since then is more urgent. */
  lemma WakeIsUrgent(t: Table, sel: Selection, now: nat)
    requires Fresh(t, sel) && NoneImmediate(t, now)
    ensures var sent := Wake(t, sel, 0, now).sent;
      && MostUrgentFirst(t, sent, now, 1)
      && (MostUrgentFirst(t, sent, now, 0) <==>
          (Sends(t, sel, now) ==> MostUrgent(t, sel.index, now)))
  {
    WakeParts(t, sel, now);
    hide Wake, Select, SendsDue, NoneImmediate, Processed, TableSound, MostUrgentFirst, DueSet, Remaining, MostUrgent, Before;
    var t1 := Processed(t, sel, now);
    if Sends(t, sel, now) {
      ProcessedDue(t, sel, now);
      SentAreDue(t1, now, 1);
      RemainingIsUrgent(t1, now, 1);
      FirstDecides(t, sel.index, t1, Remaining(t1, now, 1).sent, now);
    } else {
      RemainingIsUrgent(t, now, 0);
      LaterAreUrgent(t, Remaining(t, now, 0).sent, now);
    }
  }

  predicate MostUrgent(t: Table, i: nat, now: nat)
    requires i < |t|
  {
    forall j: nat :: j in DueSet(t, now) ==> Before(t, i, j)
  }

  lemma FirstDecides(t: Table, i: nat, t1: Table, rest: seq<nat>, now: nat)
    requires i in DueSet(t, now) && DueSet(t1, now) == DueSet(t, now) - {i} && i < NUMBER_OF_RTS
    requires forall k: nat :: k < NUMBER_OF_RTS && k != i ==> t1[k] == t[k]
    requires (forall x :: x in rest ==> x in DueSet(t1, now)) && MostUrgentFirst(t1, rest, now, 0)
    ensures MostUrgentFirst(t, [i] + rest, now, 1)
    ensures MostUrgentFirst(t, [i] + rest, now, 0) <==> MostUrgent(t, i, now)
  {
    var sent := [i] + rest;
    UrgentThenRest(t, i, t1, rest, now, 1);
    if MostUrgent(t, i, now) {
      UrgentThenRest(t, i, t1, rest, now, 0);
    }
    if MostUrgentFirst(t, sent, now, 0) {
      forall j: nat | j in DueSet(t, now) ensures Before(t, i, j) {
        assert j !in sent[..0] && sent[0] == i;
      }
    }
  }

  lemma LaterAreUrgent(t: Table, sent: seq<nat>, now: nat)
    requires MostUrgentFirst(t, sent, now, 0)
    ensures MostUrgentFirst(t, sent, now, 1)
  {
  }

  /** Sending the commands of `sent` one after the other from table `t`: each is due when its turn
      comes, and, if `urgent`, comes before every other command then due, as do all after it. */
  ghost predicate Replays(t: Table, sent: seq<nat>, now: nat, urgent: bool, t': Table)
    decreases |sent|
  {
    if sent == [] then t' == t
    else
      var i := sent[0];
      && i in DueSet(t, now) && i < NUMBER_OF_RTS && (urgent ==> MostUrgent(t, i, now))
      && Replays(t[i := Advanced(t[i], i + 1, now)], sent[1..], now, true, t')
  }

  lemma ReplaysMore(t: Table, sel: Selection, now: nat, rest: seq<nat>, urgent: bool, t': Table)
    requires Fresh(t, sel) && Sends(t, sel, now) && Replays(Processed(t, sel, now), rest, now, true, t')
    requires urgent ==> MostUrgent(t, sel.index, now)
    ensures Replays(t, [sel.index] + rest, now, urgent, t')
  {
    hide Advanced, MostUrgent;
    SendsIsDue(t, sel, now);
    assert ([sel.index] + rest)[1..] == rest;
  }

  lemma {:induction false} RemainingReplays(t: Table, now: nat, count: nat)
    requires count <= MAX_CMDS_PER_SEC
    ensures var w := Remaining(t, now, count); Replays(t, w.sent, now, true, w.table)
    decreases MAX_CMDS_PER_SEC - count
  {
    hide Wake, Select, DueSet, Processed, Fresh, Sends, TableSound, Replays, Advanced;
    SelectionIsDue(t, now);
    if GoesOn(t, now, count) {
      var sel := Select(t);
      SelectionSends(t, now);
      WakeIsJoined(t, sel, count, now);
      RemainingReplays(Processed(t, sel, now), now, count + 1);
      ReplaysMore(t, sel, now, Remaining(Processed(t, sel, now), now, count + 1).sent, true, Remaining(Processed(t, sel, now), now, count + 1).table);
    } else {
      ReplaysNone(t, now);
    }
  }

  lemma ReplaysNone(t: Table, now: nat)
    ensures Replays(t, [], now, true, t)
  {
  }

  /** For every table, tags of zero included: each command a wakeup sends is due when its turn
      comes, from the second on it is the most urgent one then due, and the table left is the one
      those commands lead to. */
  lemma WakeReplays(t: Table, sel: Selection, now: nat)
    requires Fresh(t, sel)
    ensures var w := Wake(t, sel, 0, now); Replays(t, w.sent, now, !Sends(t, sel, now), w.table)
  {
    hide Wake, Select, DueSet, Processed, Fresh, TableSound, Replays, Advanced, Remaining;
    WakeIsJoined(t, sel, 0, now);
    if Sends(t, sel, now) {
      var rest := Remaining(Processed(t, sel, now), now, 1);
      RemainingReplays(Processed(t, sel, now), now, 1);
      ReplaysMore(t, sel, now, rest.sent, false, rest.table);
    } else {
      NotProcessed(t, sel, now);
      RemainingReplays(t, now, 0);
    }
  }

  lemma {:induction false} RemainingLeavesNoneDue(t: Table, now: nat, count: nat)
    requires count <= MAX_CMDS_PER_SEC
    ensures var w := Remaining(t, now, count);
      && |w.sent| <= MAX_CMDS_PER_SEC - count && w.sel == Select(w.table)
      && (|w.sent| < MAX_CMDS_PER_SEC - count ==> DueSet(w.table, now) == {})
    decreases MAX_CMDS_PER_SEC - count
  {
    hide Wake, Select, DueSet, Processed, Fresh, Sends, TableSound;
    SelectionIsDue(t, now);
    if GoesOn(t, now, count) {
      SelectionSends(t, now);
      WakeIsJoined(t, Select(t), count, now);
      RemainingLeavesNoneDue(Processed(t, Select(t), now), now, count + 1);
    }
  }

  /** For every table, tags of zero included: a wakeup sends at most eight commands, and if it sends
      fewer it leaves none due. */
  lemma WakeLeavesNoneDue(t: Table, sel: Selection, now: nat)
    requires Fresh(t, sel)
    ensures var w := Wake(t, sel, 0, now);
      && |w.sent| <= MAX_CMDS_PER_SEC && w.sel == Select(w.table)
      && (|w.sent| < MAX_CMDS_PER_SEC ==> DueSet(w.table, now) == {})
  {
    WakeIsJoined(t, sel, 0, now);
    hide Wake, Select, DueSet, TableSound, Remaining;
    var t1 := Processed(t, sel, now);
    RemainingLeavesNoneDue(t1, now, if Sends(t, sel, now) then 1 else 0);
  }

  /** When at most eight commands are due, the wakeup sends them all, each exactly once, and
      leaves none due. */
  lemma AllDueSent(t: Table, sel: Selection, now: nat)
    requires Fresh(t, sel) && NoneImmediate(t, now) && |DueSet(t, now)| <= MAX_CMDS_PER_SEC
    ensures var w := Wake(t, sel, 0, now);
      && Distinct(w.sent) && (forall i :: i in w.sent <==> i in DueSet(t, now))
      && DueSet(w.table, now) == {} && w.sel == Select(w.table)
      && forall i: nat :: i < NUMBER_OF_RTS ==>
           w.table[i] == if i in DueSet(t, now) then Advanced(t[i], i + 1, now) else t[i]
  {
    hide Wake, Select;
    WakeSendsDue(t, sel, now);
    var w, due := Wake(t, sel, 0, now), DueSet(t, now);
    DistinctFill(w.sent, due);
    forall i: nat | i < NUMBER_OF_RTS ensures !Due(w.table[i], now) {
      assert i in due <==> Due(t[i], now);
    }
  }

  lemma {:induction false} DistinctFill(xs: seq<nat>, s: set<nat>)
    requires Distinct(xs) && |xs| == |s| && forall x :: x in xs ==> x in s
    ensures forall x :: x in s <==> x in xs
    decreases |xs|
  {
    if xs != [] {
      var rest := xs[1..];
      assert xs == [xs[0]] + rest;
      assert xs[0] !in rest;
      DistinctFill(rest, s - {xs[0]});
    }
  }

  /** Two commands due at the same time go in order of number, unless the later one was selected
      the second before. */
  lemma TwoInOrder(t: Table, sel: Selection, now: nat, x: nat, y: nat)
    requires Fresh(t, sel) && NoneImmediate(t, now) && x < y < NUMBER_OF_RTS && t[x].time == t[y].time
    requires (forall i :: i in DueSet(t, now) <==> i == x || i == y) && (sel.Chosen? ==> sel.index != y)
    ensures Wake(t, sel, 0, now).sent == [x, y]
  {
    hide Wake, NoneImmediate, DueSet, Fresh, SendsDue, Distinct, MostUrgentFirst, Select, Advanced;
    var sent := Wake(t, sel, 0, now).sent;
    PairSize(DueSet(t, now), x, y);
    AllDueSent(t, sel, now);
    SentSize(t, sel, now);
    WakeIsUrgent(t, sel, now);
    if Sends(t, sel, now) {
      SendsIsDue(t, sel, now);
      assert Before(t, sel.index, x) && Before(t, sel.index, y);
      assert MostUrgent(t, sel.index, now);
    }
    TwoDistinct(sent, x, y);
    FirstComesFirst(t, sent, now, x, y);
  }

  lemma PairSize(s: set<nat>, x: nat, y: nat)
    requires x != y && forall i :: i in s <==> i == x || i == y
    ensures |s| == 2
  {
    assert s == {x, y};
  }

  lemma SentSize(t: Table, sel: Selection, now: nat)
    requires Fresh(t, sel) && NoneImmediate(t, now)
    ensures |Wake(t, sel, 0, now).sent| == Smaller(MAX_CMDS_PER_SEC, |DueSet(t, now)|)
  {
    WakeSendsDue(t, sel, now);
  }

  lemma SendsIsDue(t: Table, sel: Selection, now: nat)
    requires Fresh(t, sel) && Sends(t, sel, now)
    ensures sel.index in DueSet(t, now) && sel.index < NUMBER_OF_RTS
  {
  }

  lemma TwoDistinct(xs: seq<nat>, x: nat, y: nat)
    requires |xs| == 2 && x != y && x in xs && y in xs
    ensures xs == [x, y] || xs == [y, x]
  {
    var i :| 0 <= i < |xs| && xs[i] == x;
    var j :| 0 <= j < |xs| && xs[j] == y;
  }

  lemma FirstComesFirst(t: Table, sent: seq<nat>, now: nat, x: nat, y: nat)
    requires MostUrgentFirst(t, sent, now, 0) && (sent == [x, y] || sent == [y, x]) && x < |t| && y < |t| && x in DueSet(t, now)
    requires !Before(t, y, x)
    ensures sent == [x, y]
  {
    assert x !in sent[..0];
  }

  /** Of two entries with equal times the higher is never selected. */
  lemma LowerIsSelected(t: Table, x: nat, y: nat)
    requires x < y < NUMBER_OF_RTS && t[x].status == EXECUTING && t[y].status == EXECUTING && t[x].time == t[y].time
    ensures Select(t).Chosen? ==> Select(t).index != y
  {
    hide Select;
  }

  // ------------------------------------------------------------ a stale selection

  /** No sequence is executing, and the leave sequence of AK and the enter sequence of CONUS can start. */
  predicate Idle(t: Table)
  {
    NoneFrom(t, 0) && t[32].status == LOADED && t[30].status == LOADED && !t[32].disabled && !t[30].disabled
  }

  lemma StartedIs(t: Table, n: nat, now: nat)
    requires (n == 31 || n == 33) && t[n - 1].status == LOADED && !t[n - 1].disabled && now + 1 < MAX_TIME
    ensures StartedTable(t, n, now) == t[n - 1 := Info(EXECUTING, false, 0, now + 1)]
  {
  }

  /** With one sequence executing and due, a wakeup sends its command and selects it again. */
  lemma OneIsSent(t: Table, now: nat)
    requires now + 1 < MAX_TIME && t[32] == Info(EXECUTING, false, 0, now)
    requires forall j: nat :: j < NUMBER_OF_RTS && j != 32 ==> t[j].status != EXECUTING
    ensures var w := Wake(t, Nothing, 0, now);
      w.sent == [32] && w.table == t[32 := Info(EXECUTING, false, 1, now + 1)] && w.sel == Chosen(32, now + 1)
  {
    hide Wake, Select, NoneImmediate;
    OneDue(t, now);
    hide DueSet, Advanced;
    AllDueSent(t, Nothing, now);
    var w := Wake(t, Nothing, 0, now);
    assert w.table == t[32 := Info(EXECUTING, false, 1, now + 1)];
    SentSize(t, Nothing, now);
    assert w.sent[0] in w.sent;
    OneSelected(w.table, now + 1);
  }

  lemma OneDue(t: Table, now: nat)
    requires now + 1 < MAX_TIME && t[32] == Info(EXECUTING, false, 0, now)
    requires forall j: nat :: j < NUMBER_OF_RTS && j != 32 ==> t[j].status != EXECUTING
    ensures DueSet(t, now) == {32} && NoneImmediate(t, now) && Advanced(t[32], 33, now) == Info(EXECUTING, false, 1, now + 1)
  {
  }

  lemma OneSelected(t: Table, time: nat)
    requires t[32] == Info(EXECUTING, false, 1, time) && time < MAX_TIME
    requires forall j: nat :: j < NUMBER_OF_RTS && j != 32 ==> t[j].status != EXECUTING
    ensures Select(t) == Chosen(32, time)
  {
    assert FirstFrom(t, 32, 0);
    OnlySelected(t, 32);
  }

  lemma OnlySelected(t: Table, i: nat)
    requires FirstFrom(t, i, 0) && t[i].time < MAX_TIME
    ensures Select(t) == Chosen(i, t[i].time)
  {
    var sel := Select(t);
    if sel.Chosen? {
      FirstIsUnique(t, i, sel.index);
    }
  }

  /** The order of urgency can fail: the leave sequence of AK is started and, a second later, sends
      its first command and is selected for the next one; then the enter sequence of CONUS is
      started, of lower number and due in that same next second, and yet it goes second. */
  lemma StaleSelectionGoesFirst(t: Table, now: nat)
    requires Idle(t) && now + 3 < MAX_TIME
    ensures var w := Wake(StartedTable(t, 33, now), Nothing, 0, now + 1);
      var t2 := StartedTable(w.table, 31, now + 1);
      && w.sent == [32] && Fresh(t2, w.sel) && DueSet(t2, now + 2) == {30, 32} && Before(t2, 30, 32) && !Before(t2, 32, 30)
      && Wake(t2, w.sel, 0, now + 2).sent == [32, 30]
  {
    hide Wake, Select, Advanced, StartedTable, DueSet, AbsTime;
    StartedIs(t, 33, now);
    var t1 := StartedTable(t, 33, now);
    OneIsSent(t1, now + 1);
    var w := Wake(t1, Nothing, 0, now + 1);
    StartedIs(w.table, 31, now + 1);
    var t2 := StartedTable(w.table, 31, now + 1);
    assert t2 == t[32 := Info(EXECUTING, false, 1, now + 2)][30 := Info(EXECUTING, false, 0, now + 2)];
    StaleWake(t2, w.sel, now + 2);
  }

  lemma StaleWake(t: Table, sel: Selection, now: nat)
    requires now + 1 < MAX_TIME && t[32] == Info(EXECUTING, false, 1, now) && t[30] == Info(EXECUTING, false, 0, now)
    requires sel == Chosen(32, now) && forall j: nat :: j < NUMBER_OF_RTS && j != 32 && j != 30 ==> t[j].status != EXECUTING
    ensures DueSet(t, now) == {30, 32} && Wake(t, sel, 0, now).sent == [32, 30]
  {
    assert DueSet(t, now) == {30, 32};
    assert AbsTime(now, 1) == now + 1;
    assert !Due(Advanced(t[32], 33, now), now) && !Due(Advanced(t[30], 31, now), now);
    hide Wake, Select, Advanced;
    AllDueSent(t, sel, now);
    SentSize(t, sel, now);
    WakeParts(t, sel, now);
    TwoDistinct(Wake(t, sel, 0, now).sent, 30, 32);
  }
}
