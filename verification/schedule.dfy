/** The scheduler: a hundred slots a second, and how old the data is that Limit Checker samples. */
module Schedule {
  import opened Widths
  import opened Remainders

  datatype EnableState = Unused | Enabled | Disabled

  /** A schedule row: send `message` in every second whose number leaves `remainder` modulo `frequency`. */
  datatype Row = Row(state: EnableState, sends: bool, frequency: nat, remainder: nat, message: nat)

  const TOTAL_SLOTS: nat := 100
  const ENTRIES_PER_SLOT: nat := 5
  const TABLE_ENTRIES: nat := 500
  const MAX_MESSAGES: nat := 128

  type Table = t: seq<Row> | |t| == TABLE_ENTRIES witness seq(TABLE_ENTRIES, _ => Row(Unused, false, 0, 0, 0))

  // ------------------------------------------------------------ one slot

  /** What the scheduler checks of a row each time it meets it. */
  predicate WellFormed(r: Row)
  {
    r.message < MAX_MESSAGES && r.frequency != 0 && r.sends && r.remainder < r.frequency
  }

  /** Whether a row sends its message on a given pass through the table. */
  predicate Fires(r: Row, pass: nat)
  {
    r.state == Enabled && WellFormed(r) && pass % r.frequency == r.remainder
  }

  /** An enabled row that fails the check is disabled. */
  function Checked(r: Row): Row
  {
    if r.state == Enabled && !WellFormed(r) then r.(state := Disabled) else r
  }

  /** The messages the first `n` rows of a slot send, in order. */
  function Messages(t: Table, slot: nat, pass: nat, n: nat): seq<nat>
    requires slot < TOTAL_SLOTS && n <= ENTRIES_PER_SLOT
  {
    if n == 0 then []
    else
      var r := t[slot * ENTRIES_PER_SLOT + (n - 1)];
      Messages(t, slot, pass, n - 1) + if Fires(r, pass) then [r.message] else []
  }

  /** The slot after `slot`, and the pass it belongs to; the pass counter is a 32-bit unsigned integer. */
  function NextSlot(slot: nat, pass: nat): (nat, nat)
  {
    if slot + 1 == TOTAL_SLOTS then (0, (pass + 1) % UINT32) else (slot + 1, pass)
  }

  class Scheduler {
    var table: array<Row>
    var nextSlotNumber: nat
    var tablePassCount: nat
    var badTableDataCount: nat

    ghost predicate Valid()
      reads this, table
    {
      table.Length == TABLE_ENTRIES && nextSlotNumber < TOTAL_SLOTS
    }

    /** Process an entry: one that fails the check is disabled, one whose turn it is sends. */
    method ProcessNextEntry(i: nat) returns (sent: seq<nat>)
      requires Valid() && i < TABLE_ENTRIES && table[i].state == Enabled
      modifies table, this`badTableDataCount
      ensures var r := old(table[i]);
        var good := r.message < 128 && r.frequency != 0 && r.sends && r.remainder < r.frequency;
        && table[..] == old(table[..])[i := if good then r else r.(state := Disabled)]
        && sent == (if good && tablePassCount % r.frequency == r.remainder then [r.message] else [])
        && badTableDataCount == (if good then old(badTableDataCount) else (old(badTableDataCount) + 1) % UINT16)
    {
      sent := [];
      var r := table[i];
      if r.message >= MAX_MESSAGES || r.frequency == 0 || !r.sends || r.remainder >= r.frequency {
        badTableDataCount := (badTableDataCount + 1) % UINT16;
        table[i] := r.(state := Disabled);
      } else {
        var remainder := tablePassCount % r.frequency;
        if remainder == r.remainder {
          sent := [r.message];
        }
      }
    }

    method ProcessNextSlot() returns (sent: seq<nat>)
      requires Valid()
      modifies this, table
      ensures Valid() && table == old(table)
      ensures sent == old(Messages(table[..], nextSlotNumber, tablePassCount, ENTRIES_PER_SLOT))
      ensures (nextSlotNumber, tablePassCount) == NextSlot(old(nextSlotNumber), old(tablePassCount))
      ensures forall i :: 0 <= i < TABLE_ENTRIES ==>
        table[i] == if i / ENTRIES_PER_SLOT == old(nextSlotNumber) then Checked(old(table[i])) else old(table[i])
    {
      ghost var t: Table := table[..];
      var entry := 0;
      sent := [];
      while entry < ENTRIES_PER_SLOT
        invariant 0 <= entry <= ENTRIES_PER_SLOT && Valid() && table == old(table)
        invariant nextSlotNumber == old(nextSlotNumber) && tablePassCount == old(tablePassCount)
        invariant sent == Messages(t, nextSlotNumber, tablePassCount, entry)
        invariant forall i :: 0 <= i < TABLE_ENTRIES ==>
          table[i] == if nextSlotNumber * ENTRIES_PER_SLOT <= i < nextSlotNumber * ENTRIES_PER_SLOT + entry then Checked(t[i]) else t[i]
      {
        var i := nextSlotNumber * ENTRIES_PER_SLOT + entry;
        if table[i].state == Enabled {
          var one := ProcessNextEntry(i);
          sent := sent + one;
        }
        entry := entry + 1;
      }
      nextSlotNumber := nextSlotNumber + 1;
      if nextSlotNumber == TOTAL_SLOTS {
        nextSlotNumber := 0;
        tablePassCount := (tablePassCount + 1) % UINT32;
      }
    }
  }

  /** What a slot sends, message by message: the messages of those of its rows that fire, each row's
      once, in the order of the rows. */
  lemma {:induction false} MessagesAreRows(t: Table, slot: nat, pass: nat, n: nat) returns (rows: seq<nat>)
    requires slot < TOTAL_SLOTS && n <= ENTRIES_PER_SLOT
    ensures forall j, k :: 0 <= j < k < |rows| ==> rows[j] < rows[k]
    ensures forall i: nat :: i in rows <==> 5 * slot <= i < 5 * slot + n && i < 500 && Fires(t[i], pass)
    ensures |Messages(t, slot, pass, n)| == |rows|
    ensures forall j :: 0 <= j < |rows| ==> rows[j] < 500 && Messages(t, slot, pass, n)[j] == t[rows[j]].message
  {
    hide Fires;
    rows := [];
    if n > 0 {
      var before := MessagesAreRows(t, slot, pass, n - 1);
      var last := 5 * slot + (n - 1);
      rows := before + if Fires(t[last], pass) then [last] else [];
      forall i: nat ensures i in rows <==> 5 * slot <= i < 5 * slot + n && i < 500 && Fires(t[i], pass) {
        assert i in rows <==> i in before || (i == last && Fires(t[last], pass));
      }
      forall j, k | 0 <= j < k < |rows| ensures rows[j] < rows[k] {
        assert rows[j] in before;
        assert k < |before| ==> rows[k] == before[k];
      }
    }
  }

  // ------------------------------------------------------------ absolute time

  /** The scheduler's slot and pass after processing `n` slots from the start. */
  function SlotAfter(n: nat): (nat, nat)
  {
    if n == 0 then (0, 0) else var (slot, pass) := SlotAfter(n - 1); NextSlot(slot, pass)
  }

  /** Counting slots from the start, slot and pass are the digits of the count. */
  lemma {:induction false} SlotAfterIs(n: nat)
    ensures SlotAfter(n) == (n % 100, (n / 100) % 0x1_0000_0000)
  {
    if n > 0 {
      SlotAfterIs(n - 1);
      var q, r := (n - 1) / TOTAL_SLOTS, (n - 1) % TOTAL_SLOTS;
      if r + 1 == TOTAL_SLOTS {
        assert n / TOTAL_SLOTS == q + 1 && n % TOTAL_SLOTS == 0;
        RemainderStep(q, UINT32);
      } else {
        assert n / TOTAL_SLOTS == q && n % TOTAL_SLOTS == r + 1;
      }
    }
  }

  /** Message `m` is sent in the `n`th slot since the start. */
  predicate SentAt(t: Table, m: nat, n: nat)
  {
    m in Messages(t, n % TOTAL_SLOTS, (n / TOTAL_SLOTS) % UINT32, ENTRIES_PER_SLOT)
  }

  lemma {:induction false} InMessages(t: Table, slot: nat, pass: nat, n: nat, m: nat)
    requires slot < TOTAL_SLOTS && n <= ENTRIES_PER_SLOT
    ensures m in Messages(t, slot, pass, n) <==>
            exists i: nat :: slot * ENTRIES_PER_SLOT <= i < slot * ENTRIES_PER_SLOT + n && i < |t| && Fires(t[i], pass) && t[i].message == m
  {
    if n > 0 {
      InMessages(t, slot, pass, n - 1, m);
      var first, last := slot * ENTRIES_PER_SLOT, slot * ENTRIES_PER_SLOT + (n - 1);
      hide Fires;
      if exists i: nat :: first <= i < first + n && i < |t| && Fires(t[i], pass) && t[i].message == m {
        var i: nat :| first <= i < first + n && i < |t| && Fires(t[i], pass) && t[i].message == m;
        assert i < last || i == last;
      }
    }
  }

  /** How often message `m` is sent in the `n`th slot since the start. */
  function TimesSent(t: Table, m: nat, n: nat): nat
  {
    multiset(Messages(t, n % TOTAL_SLOTS, (n / TOTAL_SLOTS) % UINT32, ENTRIES_PER_SLOT))[m]
  }

  predicate Wants(r: Row, m: nat) { r.state == Enabled && r.message == m }

  /** Of the first `n` rows of the slot one at most is for message `m`. */
  predicate AtMostOne(t: Table, slot: nat, n: nat, m: nat)
  {
    forall i: nat, j: nat :: 5 * slot <= i < j < 5 * slot + n && j < |t| && Wants(t[i], m) ==> !Wants(t[j], m)
  }

  lemma AtMostOneOfFewer(t: Table, slot: nat, n: nat, m: nat)
    requires n > 0 && AtMostOne(t, slot, n, m)
    ensures AtMostOne(t, slot, n - 1, m)
  {
  }

  /** A message with one row in the slot at most is sent once at most. */
  lemma {:induction false} OneRowSendsOnce(t: Table, slot: nat, pass: nat, n: nat, m: nat)
    requires slot < TOTAL_SLOTS && n <= ENTRIES_PER_SLOT
    requires AtMostOne(t, slot, n, m)
    ensures multiset(Messages(t, slot, pass, n))[m] == if m in Messages(t, slot, pass, n) then 1 else 0
  {
    hide Fires, Wants, Messages, AtMostOne;
    MessagesUnfold(t, slot, pass, n);
    if n > 0 {
      var before, r := Messages(t, slot, pass, n - 1), t[5 * slot + (n - 1)];
      AtMostOneOfFewer(t, slot, n, m);
      OneRowSendsOnce(t, slot, pass, n - 1, m);
      OneMore(before, r.message, m);
      if Fires(r, pass) && r.message == m {
        NoOtherRow(t, slot, pass, n - 1, m);
      }
    }
  }

  lemma MessagesUnfold(t: Table, slot: nat, pass: nat, n: nat)
    requires slot < TOTAL_SLOTS && n <= ENTRIES_PER_SLOT
    ensures n == 0 ==> Messages(t, slot, pass, n) == []
    ensures n > 0 ==>
      var r := t[5 * slot + (n - 1)];
      Messages(t, slot, pass, n) == Messages(t, slot, pass, n - 1) + if Fires(r, pass) then [r.message] else []
  {
    hide Fires;
  }

  lemma OneMore(xs: seq<nat>, x: nat, m: nat)
    ensures multiset(xs + [x])[m] == multiset(xs)[m] + (if x == m then 1 else 0) && (m in xs + [x] <==> m in xs || m == x)
    ensures xs + [] == xs
  {
  }

  lemma FiringWants(r: Row, pass: nat)
    requires Fires(r, pass)
    ensures Wants(r, r.message)
  {
  }

  lemma NoOtherRow(t: Table, slot: nat, pass: nat, n: nat, m: nat)
    requires slot < TOTAL_SLOTS && n < ENTRIES_PER_SLOT && 5 * slot + n < |t|
    requires AtMostOne(t, slot, n + 1, m)
    requires Fires(t[5 * slot + n], pass) && t[5 * slot + n].message == m
    ensures m !in Messages(t, slot, pass, n)
  {
    hide Fires, Wants, Messages;
    FiringWants(t[5 * slot + n], pass);
    InMessages(t, slot, pass, n, m);
    if m in Messages(t, slot, pass, n) {
      var i: nat :| 5 * slot <= i < 5 * slot + n && i < |t| && Fires(t[i], pass) && t[i].message == m;
      FiringWants(t[i], pass);
      assert false;
    }
  }

  // ------------------------------------------------------------ the definition table

  function Send(frequency: nat, remainder: nat, message: nat): Row { Row(Enabled, true, frequency, remainder, message) }

  const CF_WAKEUP: nat := 25

  /** Row `i` of the definition table, five rows to a slot; file delivery is woken in every tenth. */
  function RowAt(i: nat): Row
  {
    if i % 50 == 4 then Send(1, 0, CF_WAKEUP) else OtherRow(i)
  }

  function OtherRow(i: nat): Row
  {
    match i
    case 9 => Send(1, 0, 26)        // slot 1: CF HK Request
    case 10 => Send(1, 0, 51)       // slot 2: GPS Data Request
    case 11 => Send(1, 0, 61)       // slot 2: FSS Data Request
    case 12 => Send(1, 0, 71)       // slot 2: CSS Data Request
    case 13 => Send(1, 0, 76)       // slot 2: IMU Data Request
    case 14 => Send(1, 0, 81)       // slot 2: MAG Data Request
    case 15 => Send(4, 3, 2)        // slot 3: EVS HK Request
    case 16 => Send(1, 0, 101)      // slot 3: ST Data Request
    case 17 => Send(1, 0, 45)       // slot 3: RW HK Request
    case 25 => Send(1, 0, 40)       // slot 5: CAM HK Request
    case 26 => Send(1, 0, 96)       // slot 5: ADCS HK Request
    case 35 => Send(1, 0, 90)       // slot 7: ADCS ADAC Request
    case 36 => Send(1, 0, 91)       // slot 7: ADCS DI Data Request
    case 37 => Send(1, 0, 92)       // slot 7: ADCS AD Data Request
    case 38 => Send(1, 0, 93)       // slot 7: ADCS GNC Data Request
    case 39 => Send(1, 0, 94)       // slot 7: ADCS AC Data Request
    case 40 => Send(1, 0, 95)       // slot 8: ADCS DO Data Request
    case 45 => Send(4, 2, 7)        // slot 9: DS HK Request
    case 65 => Send(4, 3, 3)        // slot 13: SB HK Request
    case 70 => Send(4, 1, 8)        // slot 14: FM HK Request
    case 115 => Send(4, 3, 4)       // slot 23: TIME HK Request
    case 125 => Send(10, 0, 35)     // slot 25: MGR HK Request
    case 130 => Send(1, 0, 21)      // slot 26: SC Wakeup
    case 145 => Send(4, 2, 11)      // slot 29: LC HK Request
    case 165 => Send(4, 3, 5)       // slot 33: TBL HK Request
    case 175 => Send(5, 0, 55)      // slot 35: Sample HK Request
    case 176 => Send(1, 0, 56)      // slot 35: Sample Data Request
    case 177 => Send(1, 0, 57)      // slot 35: SYN_APP Data Request
    case 180 => Send(1, 0, 23)      // slot 36: DS Wakeup
    case 185 => Send(5, 0, 100)     // slot 37: ST HK Request
    case 215 => Send(4, 3, 1)       // slot 43: ES HK Request
    case 220 => Send(4, 1, 14)      // slot 44: SC HK Request
    case 225 => Send(5, 1, 60)      // slot 45: FSS HK Request
    case 226 => Send(1, 0, 105)     // slot 45: Thruster HK Request
    case 245 => Send(4, 2, 15)      // slot 49: SCH HK Request
    case 255 => Send(1, 0, 22)      // slot 51: LC Sample Action Points
    case 275 => Send(5, 4, 65)      // slot 55: EPS HK Request
    case 280 => Send(4, 1, 30)      // slot 56: CI HK Request
    case 281 => Send(4, 2, 31)      // slot 56: TO HK Request
    case 325 => Send(4, 1, 70)      // slot 65: CSS HK Request
    case 350 => Send(1, 0, 62)      // slot 70: Torquer HK Request
    case 375 => Send(5, 1, 75)      // slot 75: IMU HK Request
    case 377 => Send(5, 2, 80)      // slot 75: MAG HK Request
    case 425 => Send(5, 4, 85)      // slot 85: Radio HK Request
    case _ => Row(Unused, false, 0, 0, 0)
  }

  function Definition(): (t: Table)
    ensures forall i :: 0 <= i < TABLE_ENTRIES ==> t[i] == RowAt(i)
  {
    seq(TABLE_ENTRIES, i requires 0 <= i < TABLE_ENTRIES => RowAt(i))
  }

  function Pass(n: nat): nat { (n / TOTAL_SLOTS) % UINT32 }

  /** Message `m` is sent in a slot exactly when one of the slot's five rows sends it. */
  lemma SentByRow(m: nat, n: nat)
    ensures SentAt(Definition(), m, n) <==>
            exists i: nat :: i / ENTRIES_PER_SLOT == n % TOTAL_SLOTS && Fires(RowAt(i), Pass(n)) && RowAt(i).message == m
  {
    hide RowAt, Fires;
    var slot := n % TOTAL_SLOTS;
    InMessages(Definition(), slot, Pass(n), ENTRIES_PER_SLOT, m);
    if i: nat :| i / ENTRIES_PER_SLOT == slot && Fires(RowAt(i), Pass(n)) && RowAt(i).message == m {
      assert slot * ENTRIES_PER_SLOT <= i < slot * ENTRIES_PER_SLOT + ENTRIES_PER_SLOT;
      assert Definition()[i] == RowAt(i);
    }
    if SentAt(Definition(), m, n) {
      var i: nat :| slot * ENTRIES_PER_SLOT <= i < slot * ENTRIES_PER_SLOT + ENTRIES_PER_SLOT && i < TABLE_ENTRIES
                    && Fires(Definition()[i], Pass(n)) && Definition()[i].message == m;
      assert i / ENTRIES_PER_SLOT == slot && Definition()[i] == RowAt(i);
    }
  }

  // ------------------------------------------------------------ the traffic repeats

  lemma OtherFrequencies(i: nat)
    ensures var r := OtherRow(i); r.state == Enabled ==>
              WellFormed(r) && r.message != CF_WAKEUP && r.frequency in {1, 4, 5, 10}
  {
    OtherMessages(i);
    var r := OtherRow(i);
    assert r.state == Enabled ==> r.frequency == 1 || r.frequency == 4 || r.frequency == 5 || r.frequency == 10;
  }

  lemma OtherMessages(i: nat)
    ensures var r := OtherRow(i); r.state == Enabled ==> r.sends && r.message < MAX_MESSAGES && r.message != CF_WAKEUP
  {
  }

  /** Every enabled row of the definition table passes the check; its frequency divides twenty. */
  lemma Frequencies(i: nat)
    ensures var r := RowAt(i); r.state == Enabled ==> WellFormed(r) && 20 % r.frequency == 0
  {
    OtherFrequencies(i);
    hide OtherRow;
  }

  lemma FiresAgain(r: Row, pass: nat)
    requires r.state == Enabled ==> WellFormed(r) && 20 % r.frequency == 0
    ensures Fires(r, pass + 20) <==> Fires(r, pass)
  {
    if r.state == Enabled {
      var f := r.frequency;
      var q, k := pass / f, 20 / f;
      assert pass + 20 == q * f + pass % f + k * f == (q + k) * f + pass % f;
      RemainderIs(pass + 20, f, q + k, pass % f);
    }
  }

  lemma {:induction false} MessagesAgain(slot: nat, pass: nat, n: nat)
    requires slot < TOTAL_SLOTS && n <= ENTRIES_PER_SLOT
    ensures Messages(Definition(), slot, pass + 20, n) == Messages(Definition(), slot, pass, n)
  {
    hide RowAt, Fires;
    if n > 0 {
      MessagesAgain(slot, pass, n - 1);
      var i := slot * ENTRIES_PER_SLOT + (n - 1);
      Frequencies(i);
      FiresAgain(RowAt(i), pass);
    }
  }

  /** Twenty seconds later every slot sends the same messages, unless the pass counter wraps. */
  lemma TrafficRepeats(n: nat)
    requires Pass(n) + 20 < UINT32
    ensures Messages(Definition(), (n + 2000) % TOTAL_SLOTS, Pass(n + 2000), ENTRIES_PER_SLOT)
         == Messages(Definition(), n % TOTAL_SLOTS, Pass(n), ENTRIES_PER_SLOT)
  {
    hide Messages, Definition;
    TwentySecondsOn(n);
    MessagesAgain(n % TOTAL_SLOTS, Pass(n), ENTRIES_PER_SLOT);
  }

  lemma TwentySecondsOn(n: nat)
    ensures (n + 2000) % TOTAL_SLOTS == n % TOTAL_SLOTS
    ensures Pass(n) + 20 < UINT32 ==> Pass(n + 2000) == Pass(n) + 20
  {
    assert (n + 2000) / TOTAL_SLOTS == n / TOTAL_SLOTS + 20;
  }

  // ------------------------------------------------------------ message by message

  /** When a message is sent: in one slot of every `seconds`th second, from second `offset` on. */
  datatype Timetable = Never | Every(slot: nat, seconds: nat, offset: nat)

  /** The timetable of every message but the wakeup of file delivery, by message number. */
  function Timetabled(m: nat): Timetable
  {
    match m
    case 1 => Every(43, 4, 3) case 2 => Every(3, 4, 3) case 3 => Every(13, 4, 3) case 4 => Every(23, 4, 3)
    case 5 => Every(33, 4, 3) case 7 => Every(9, 4, 2) case 8 => Every(14, 4, 1) case 11 => Every(29, 4, 2)
    case 14 => Every(44, 4, 1) case 15 => Every(49, 4, 2) case 21 => Every(26, 1, 0) case 22 => Every(51, 1, 0)
    case 23 => Every(36, 1, 0) case 26 => Every(1, 1, 0) case 30 => Every(56, 4, 1) case 31 => Every(56, 4, 2)
    case 35 => Every(25, 10, 0) case 40 => Every(5, 1, 0) case 45 => Every(3, 1, 0) case 51 => Every(2, 1, 0)
    case 55 => Every(35, 5, 0) case 56 => Every(35, 1, 0) case 57 => Every(35, 1, 0) case 60 => Every(45, 5, 1)
    case 61 => Every(2, 1, 0) case 62 => Every(70, 1, 0) case 65 => Every(55, 5, 4) case 70 => Every(65, 4, 1)
    case 71 => Every(2, 1, 0) case 75 => Every(75, 5, 1) case 76 => Every(2, 1, 0) case 80 => Every(75, 5, 2)
    case 81 => Every(2, 1, 0) case 85 => Every(85, 5, 4) case 90 => Every(7, 1, 0) case 91 => Every(7, 1, 0)
    case 92 => Every(7, 1, 0) case 93 => Every(7, 1, 0) case 94 => Every(7, 1, 0) case 95 => Every(8, 1, 0)
    case 96 => Every(5, 1, 0) case 100 => Every(37, 5, 0) case 101 => Every(3, 1, 0) case 105 => Every(45, 1, 0)
    case _ => Never
  }

  function RowFor(m: nat): nat
  {
    match m
    case 1 => 215 case 2 => 15 case 3 => 65 case 4 => 115 case 5 => 165 case 7 => 45
    case 8 => 70 case 11 => 145 case 14 => 220 case 15 => 245 case 21 => 130 case 22 => 255
    case 23 => 180 case 26 => 9 case 30 => 280 case 31 => 281 case 35 => 125 case 40 => 25
    case 45 => 17 case 51 => 10 case 55 => 175 case 56 => 176 case 57 => 177 case 60 => 225
    case 61 => 11 case 62 => 350 case 65 => 275 case 70 => 325 case 71 => 12 case 75 => 375
    case 76 => 13 case 80 => 377 case 81 => 14 case 85 => 425 case 90 => 35 case 91 => 36
    case 92 => 37 case 93 => 38 case 94 => 39 case 95 => 40 case 96 => 26 case 100 => 185
    case 101 => 16 case 105 => 226
    case _ => TABLE_ENTRIES
  }

  lemma EarlyRowOfMessage(i: nat)
    requires i < 70
    ensures OtherRow(i).state == Enabled ==> RowFor(OtherRow(i).message) == i
  {
  }

  lemma MiddleRowOfMessage(i: nat)
    requires 70 <= i < 220
    ensures OtherRow(i).state == Enabled ==> RowFor(OtherRow(i).message) == i
  {
  }

  lemma LateRowOfMessage(i: nat)
    requires 220 <= i
    ensures OtherRow(i).state == Enabled ==> RowFor(OtherRow(i).message) == i
  {
  }

  lemma RowOfMessage(i: nat)
    ensures OtherRow(i).state == Enabled ==> RowFor(OtherRow(i).message) == i
  {
    hide OtherRow, RowFor;
    if i < 70 {
      EarlyRowOfMessage(i);
    } else if i < 220 {
      MiddleRowOfMessage(i);
    } else {
      LateRowOfMessage(i);
    }
  }

  lemma RowForMessage(m: nat)
    ensures Timetabled(m) == Never ==> RowFor(m) == TABLE_ENTRIES
    ensures Timetabled(m).Every? ==>
      var e, i := Timetabled(m), RowFor(m);
      && i / ENTRIES_PER_SLOT == e.slot && i < TABLE_ENTRIES && i % 50 != 4
      && OtherRow(i) == Send(e.seconds, e.offset, m) && e.offset < e.seconds && m < MAX_MESSAGES
  {
  }

  /** One row at most is for the message, and it fires when the message's turn comes. */
  lemma RowsOfMessage(m: nat, i: nat, pass: nat)
    requires m != CF_WAKEUP
    ensures Wants(RowAt(i), m) ==> i == RowFor(m) && i < TABLE_ENTRIES
    ensures Timetabled(m).Every? ==> i == RowFor(m) ==>
      i < TABLE_ENTRIES && i / ENTRIES_PER_SLOT == Timetabled(m).slot && RowAt(i).message == m
      && Timetabled(m).seconds > 0 && (Fires(RowAt(i), pass) <==> pass % Timetabled(m).seconds == Timetabled(m).offset)
    ensures Timetabled(m) == Never ==> !Wants(RowAt(i), m)
  {
    hide OtherRow, Timetabled, RowFor;
    RowOfMessage(i);
    RowForMessage(m);
    NoEmptyRow(i);
  }

  lemma NoEmptyRow(i: nat)
    ensures i >= TABLE_ENTRIES ==> OtherRow(i).state == Unused
  {
  }

  /** Every message but the wakeup of file delivery is sent in its slot of the seconds of its
      timetable, once, and in no other slot, for all time. */
  lemma SentByTimetable(m: nat, n: nat)
    requires m != 25
    ensures TimesSent(Definition(), m, n) ==
      match Timetabled(m)
      case Never => 0
      case Every(slot, seconds, offset) =>
        if seconds > 0 && n % 100 == slot && ((n / 100) % 0x1_0000_0000) % seconds == offset then 1 else 0
  {
    hide RowAt, Definition, Messages, Fires, Timetabled, RowFor, Wants;
    var t, slot := Definition(), n % TOTAL_SLOTS;
    forall i: nat, j: nat | 5 * slot <= i < j < 5 * slot + 5 && j < |t| && Wants(t[i], m) ensures !Wants(t[j], m) {
      RowsOfMessage(m, i, Pass(n));
      RowsOfMessage(m, j, Pass(n));
    }
    OneRowSendsOnce(t, slot, Pass(n), ENTRIES_PER_SLOT, m);
    SentByRow(m, n);
    RowsOfMessage(m, RowFor(m), Pass(n));
    forall i: nat | Fires(RowAt(i), Pass(n)) && RowAt(i).message == m ensures i == RowFor(m) && Timetabled(m).Every? {
      FiringWants(RowAt(i), Pass(n));
      RowsOfMessage(m, i, Pass(n));
    }
  }

  // ------------------------------------------------------------ file delivery wakeups

  const TICKS_PER_SECOND: nat := 10

  lemma WakeupRows(i: nat, pass: nat)
    ensures Fires(RowAt(i), pass) && RowAt(i).message == CF_WAKEUP <==> i % 50 == 4
  {
    OtherFrequencies(i);
    hide OtherRow;
  }

  lemma WakeupSlots(slot: nat, i: nat)
    requires i / ENTRIES_PER_SLOT == slot
    ensures i % 50 == 4 ==> slot % 10 == 0
    ensures slot % 10 == 0 && i % ENTRIES_PER_SLOT == 4 ==> i % 50 == 4
  {
    var q := i / 50;
    if i % 50 == 4 {
      assert slot == 10 * q;
    }
  }

  /** File delivery is woken in every tenth slot, for all time. */
  lemma WakeupsTenApart(n: nat)
    ensures SentAt(Definition(), 25, n) <==> n % 10 == 0
  {
    hide RowAt, Fires, SentAt, Definition;
    SentByRow(CF_WAKEUP, n);
    var slot, pass := n % TOTAL_SLOTS, Pass(n);
    assert slot % 10 == n % 10;
    var i := slot * ENTRIES_PER_SLOT + 4;
    assert i / ENTRIES_PER_SLOT == slot && i % ENTRIES_PER_SLOT == 4;
    WakeupSlots(slot, i);
    WakeupRows(i, pass);
    forall k: nat | k / ENTRIES_PER_SLOT == slot && Fires(RowAt(k), pass) && RowAt(k).message == CF_WAKEUP
      ensures n % 10 == 0
    {
      WakeupRows(k, pass);
      WakeupSlots(slot, k);
    }
  }

  lemma WakeupSentOnce(n: nat)
    ensures TimesSent(Definition(), 25, n) == if n % 10 == 0 then 1 else 0
  {
    hide RowAt, Definition, Messages, Wants;
    var t, slot := Definition(), n % TOTAL_SLOTS;
    WakeupsTenApart(n);
    forall i: nat, j: nat | 5 * slot <= i < j < 5 * slot + 5 && j < |t| && Wants(t[i], CF_WAKEUP) ensures !Wants(t[j], CF_WAKEUP) {
      OneWakeupRow(i, j);
    }
    OneRowSendsOnce(t, slot, Pass(n), ENTRIES_PER_SLOT, CF_WAKEUP);
  }

  lemma OneWakeupRow(i: nat, j: nat)
    requires i < j < i + 5 && Wants(RowAt(i), CF_WAKEUP)
    ensures !Wants(RowAt(j), CF_WAKEUP)
  {
    OtherFrequencies(i);
    OtherFrequencies(j);
    hide OtherRow;
  }

  /** How often message `m` is sent in the `n` slots from slot `a` on. */
  function Sendings(t: Table, m: nat, a: nat, n: nat): nat
  {
    if n == 0 then 0 else Sendings(t, m, a, n - 1) + TimesSent(t, m, a + (n - 1))
  }

  lemma {:induction false} WakeupsCount(a: nat, n: nat)
    ensures Sendings(Definition(), CF_WAKEUP, a, n) == Firings(a, n, 10, 0)
  {
    hide TimesSent;
    if n > 0 {
      WakeupsCount(a, n - 1);
      WakeupSentOnce(a + (n - 1));
    }
  }

  /** In any hundred slots in a row exactly as many wakeups are sent as file delivery counts ticks a second. */
  lemma TicksPerSecond(a: nat)
    ensures Sendings(Definition(), 25, a, 100) == TICKS_PER_SECOND == 10
  {
    WakeupsCount(a, TOTAL_SLOTS);
    FiringsFloorOrCeiling(a, TOTAL_SLOTS, 10, 0);
  }
}
