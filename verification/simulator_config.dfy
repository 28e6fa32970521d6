/** The simulator configuration, rewritten in place once for every spacecraft. */
module SimulatorConfig {
  import opened Concatenation
  import opened TextLines
  import opened LinePoints

  const TIME_TAG: string := "<absolute-start-time>"
  const DISABLED: Line := "            <active>false</active>\n"

  function TimeLine(time: string): Line
  {
    "        " + (TIME_TAG + (time + "</absolute-start-time>\n"))
  }

  function SimulatorTags(): seq<string>
  {
    ["camsim</name>", "css-sim</name>", "eps-sim</name>", "fss-sim</name>", "gps</name>", "imu-sim</name>",
     "mag-sim</name>", "radio-sim</name>", "reactionwheel-sim0</name>", "reactionwheel-sim1</name>",
     "reactionwheel-sim2</name>", "sample-sim</name>", "star-tracker-sim</name>", "generic-torquer-sim</name>",
     "generic-thruster-sim</name>", "heater-sim</name>"]
  }

  /** Every simulator's tag holds the letter n, which neither rewritten line does. */
  lemma TagsHaveN(k: nat)
    requires k < |SimulatorTags()|
    ensures 'n' in SimulatorTags()[k]
  {
    var tag := SimulatorTags()[k];
    assert tag[|tag| - 5] == 'n';
  }

  /** The rewritten lines keep the scans blind to them, except a time line to the time tag. */
  predicate Neutral(time: string, tags: seq<string>)
  {
    Has(TimeLine(time), TIME_TAG) && !Has(DISABLED, TIME_TAG)
    && forall k :: 0 <= k < |tags| ==> !Has(TimeLine(time), tags[k]) && !Has(DISABLED, tags[k])
  }

  lemma {:induction false} HasAfter(prefix: string, line: Line, tag: string)
    requires Has(line, tag)
    ensures Has(prefix + line, tag)
  {
    if prefix == [] {
      assert prefix + line == line;
    } else {
      HasAfter(prefix[1..], line, tag);
      assert (prefix + line)[1..] == prefix[1..] + line;
    }
  }

  lemma TimeLineLacks(time: string)
    requires 'n' !in time
    ensures 'n' !in TimeLine(time)
  {
  }

  lemma DisabledLacks()
    ensures 'n' !in DISABLED && 'b' !in DISABLED
  {
  }

  lemma TimeTagHasB()
    ensures 'b' in TIME_TAG
  {
    assert TIME_TAG[2] == 'b';
  }

  /** They are neutral for every start time that is a number. */
  lemma NumbersAreNeutral(time: string)
    requires 'n' !in time
    ensures Neutral(time, SimulatorTags())
  {
    hide TimeLine, SimulatorTags;
    TimeLineHasTag(time);
    TimeLineLacks(time);
    DisabledLacks();
    TimeTagHasB();
    hide Has;
    LacksLetter(DISABLED, TIME_TAG, 'b');
    forall k | 0 <= k < |SimulatorTags()| ensures !Has(TimeLine(time), SimulatorTags()[k]) && !Has(DISABLED, SimulatorTags()[k]) {
      TagsHaveN(k);
      LacksLetter(TimeLine(time), SimulatorTags()[k], 'n');
      LacksLetter(DISABLED, SimulatorTags()[k], 'n');
    }
  }

  lemma TimeLineHasTag(time: string)
    ensures Has(TimeLine(time), TIME_TAG)
  {
    HasAfter("        ", TIME_TAG + (time + "</absolute-start-time>\n"), TIME_TAG);
  }

  /** A line without one of the tag's letters does not hold the tag. */
  lemma LacksLetter(line: Line, tag: string, c: char)
    requires c in tag && c !in line
    ensures !Has(line, tag)
  {
    var k :| 0 <= k < |tag| && tag[k] == c;
    if Has(line, tag) {
      HasCharacters(line, tag, k);
      assert false;
    }
  }

  // ------------------------------------------------------------ one spacecraft

  function TimedLine(line: Line, time: string): Line { if Has(line, TIME_TAG) then TimeLine(time) else line }

  function Timed(lines: seq<Line>, time: string): (out: seq<Line>)
    ensures |out| == |lines| && forall i :: 0 <= i < |lines| ==> out[i] == TimedLine(lines[i], time)
  {
    seq(|lines|, i requires 0 <= i < |lines| => TimedLine(lines[i], time))
  }

  /** A line with both a start time and a simulator's name. */
  ghost predicate Clash(line: Line, tags: seq<string>) { Has(line, TIME_TAG) && Listed(line, tags) }

  ghost predicate NoClash(lines: seq<Line>, tags: seq<string>)
  {
    forall i :: 0 <= i < |lines| ==> !Clash(lines[i], tags)
  }

  /** The lines while the scan stands at line `i`: the time lines before it have been replaced. */
  ghost predicate Halfway(lines: seq<Line>, now: seq<Line>, i: nat, time: string)
  {
    |now| == |lines| && i <= |lines| &&
    forall k :: 0 <= k < |lines| ==> now[k] == if k < i then TimedLine(lines[k], time) else lines[k]
  }

  /** Replacing the first line equal to a time line replaces the one the scan stands at, or leaves
      everything as it is when the line already reads as it should. */
  lemma TimeStep(lines: seq<Line>, now: seq<Line>, i: nat, time: string)
    requires Halfway(lines, now, i, time) && i < |lines| && Has(lines[i], TIME_TAG)
    ensures var j := IndexOf(now, lines[i]); j < |now| && Halfway(lines, now[j := TimeLine(time)], i + 1, time)
  {
    hide Has, TimeLine;
    var j := IndexOf(now, lines[i]);
    assert now[i] == lines[i] && j <= i && now[j] == lines[i];
    assert j < i ==> Timed(lines, time)[j] == TimeLine(time);
    ReplaceStep(lines, now, Timed(lines, time), i, j, TimeLine(time));
  }

  lemma ReplaceStep<T>(was: seq<T>, now: seq<T>, goal: seq<T>, i: nat, j: nat, value: T)
    requires |was| == |now| == |goal| && j <= i < |was| && goal[i] == value && (j < i ==> goal[j] == value)
    requires j < i ==> was[i] == value
    requires forall k :: 0 <= k < |was| ==> now[k] == if k < i then goal[k] else was[k]
    ensures forall k :: 0 <= k < |was| ==> now[j := value][k] == if k < i + 1 then goal[k] else was[k]
  {
  }

  lemma OtherStep(lines: seq<Line>, now: seq<Line>, i: nat, time: string)
    requires Halfway(lines, now, i, time) && i < |lines| && !Has(lines[i], TIME_TAG)
    ensures Halfway(lines, now, i + 1, time)
  {
  }

  /** A line without the time tag is found where it was before any replacement. */
  lemma FoundAsBefore(lines: seq<Line>, now: seq<Line>, i: nat, time: string, tags: seq<string>)
    requires Neutral(time, tags) && i < |lines| && Halfway(lines, now, i + 1, time) && !Has(lines[i], TIME_TAG)
    ensures IndexOf(now, lines[i]) == IndexOf(lines, lines[i]) && lines[i] in now
  {
    hide Has, TimeLine;
    var j := IndexOf(lines, lines[i]);
    assert now[i] == lines[i] && now[j] == lines[j];
    forall k | 0 <= k < j ensures now[k] != lines[i] {
      assert now[k] == lines[k] || Has(now[k], TIME_TAG);
    }
  }

  /** A clashing line is found only if the same line occurs again later. */
  lemma ClashFoundLater(lines: seq<Line>, now: seq<Line>, i: nat, time: string, tags: seq<string>)
    requires Neutral(time, tags) && i < |lines| && Halfway(lines, now, i + 1, time) && Clash(lines[i], tags)
    requires lines[i] in now
    ensures exists k :: i < k < |lines| && lines[k] == lines[i]
  {
    hide Has, TimeLine;
    var k :| 0 <= k < |now| && now[k] == lines[i];
    assert !Listed(TimeLine(time), tags);
    assert k > i;
  }

  /** A clashing line among the first `i` occurs again further on. */
  ghost predicate ClashesPending(lines: seq<Line>, tags: seq<string>, i: nat)
  {
    forall m :: 0 <= m < i <= |lines| && Clash(lines[m], tags) ==> exists k :: i <= k < |lines| && lines[k] == lines[m]
  }

  lemma PendingStep(lines: seq<Line>, now: seq<Line>, i: nat, time: string, tags: seq<string>)
    requires Neutral(time, tags) && i < |lines| && Halfway(lines, now, i + 1, time) && ClashesPending(lines, tags, i)
    requires lines[i] in now || !Listed(lines[i], tags)
    ensures ClashesPending(lines, tags, i + 1)
  {
    hide Has, TimeLine, Neutral, Listed;
    forall m | 0 <= m < i + 1 && Clash(lines[m], tags)
      ensures exists k :: i + 1 <= k < |lines| && lines[k] == lines[m]
    {
      var k := if m == i then i else var k :| i <= k < |lines| && lines[k] == lines[m]; k;
      if k == i {
        ClashFoundLater(lines, now, i, time, tags);
      }
    }
  }

  /** The file written for one spacecraft. */
  ghost predicate Written(lines: seq<Line>, time: string, tags: seq<string>, off: seq<bool>, out: seq<Line>)
    requires |tags| == |off|
  {
    |out| == |lines| && forall i :: 0 <= i < |lines| ==>
      out[i] == if Selected(lines, tags, off, i) then DISABLED else TimedLine(lines[i], time)
  }

  method Scan(lines: array<Line>, time: string, tags: seq<string>, points: array<nat>) returns (ok: bool)
    requires Neutral(time, tags) && points.Length == |tags|
    requires forall k :: 0 <= k < |tags| ==> points[k] == NOT_FOUND
    modifies lines, points
    ensures ok <==> NoClash(old(lines[..]), tags)
    ensures ok ==> lines[..] == Timed(old(lines[..]), time)
    ensures ok ==> forall k :: 0 <= k < |tags| ==> points[k] == PointAfter(old(lines[..]), tags[k])
  {
    hide Has, TimeLine, PointAfter, Listed, Neutral;
    ghost var was := lines[..];
    NothingScanned();
    assert was[..0] == [];
    var i := 0;
    while i < lines.Length
      invariant 0 <= i <= lines.Length
      invariant Halfway(was, lines[..], i, time) && ClashesPending(was, tags, i)
      invariant NoClash(was[..i], tags) ==> forall k :: 0 <= k < |tags| ==> points[k] == PointAfter(was[..i], tags[k])
    {
      var line := lines[i];
      if Has(line, TIME_TAG) {
        TimeStep(was, lines[..], i, time);
        var j := IndexOf(lines[..], line);
        lines[j] := TimeLine(time);
      } else {
        OtherStep(was, lines[..], i, time);
      }
      ok := NotePoints(lines, line, tags, points);
      if !ok {
        if !Has(line, TIME_TAG) {
          FoundAsBefore(was, lines[..], i, time, tags);
        }
        assert Clash(was[i], tags);
        return false;
      }
      PendingStep(was, lines[..], i, time, tags);
      if NoClash(was[..i + 1], tags) {
        PointsStep(was, lines[..], i, time, tags);
      }
      i := i + 1;
    }
    assert was[..i] == was;
    assert lines[..] == Timed(was, time);
    return true;
  }

  /** Without clashes so far the line's first place is the original one, or no tag asks for it. */
  lemma PointsStep(was: seq<Line>, now: seq<Line>, i: nat, time: string, tags: seq<string>)
    requires Neutral(time, tags) && i < |was| && Halfway(was, now, i + 1, time) && NoClash(was[..i + 1], tags)
    ensures NoClash(was[..i], tags)
    ensures forall k :: 0 <= k < |tags| ==>
      PointAfter(was[..i + 1], tags[k]) ==
      var x := PointAfter(was[..i], tags[k]);
      if Has(was[i], tags[k]) && IndexOf(now, was[i]) < x then IndexOf(now, was[i]) + 1 else x
  {
    hide Has, TimeLine, PointAfter, Neutral;
    assert !Clash(was[..i + 1][i], tags);
    assert forall m :: 0 <= m < i ==> was[..i][m] == was[..i + 1][m];
    if !Has(was[i], TIME_TAG) {
      FoundAsBefore(was, now, i, time, tags);
    }
    forall k | 0 <= k < |tags|
      ensures PointAfter(was[..i + 1], tags[k]) ==
        var x := PointAfter(was[..i], tags[k]);
        if Has(was[i], tags[k]) && IndexOf(now, was[i]) < x then IndexOf(now, was[i]) + 1 else x
    {
      ScanStep(was, i, tags[k]);
    }
  }

  /** One spacecraft's pass over the file: it fails with a value error exactly when some line holds
      both the time tag and a name, and with an index error exactly when a disabled simulator's
      point lies outside the file; otherwise every time line is rewritten, the lines after the
      disabled simulators' names are switched off, and nothing else changes. */
  method RewriteSimulators(lines: seq<Line>, time: string, tags: seq<string>, off: seq<bool>)
      returns (outcome: Outcome, out: seq<Line>)
    requires Neutral(time, tags) && |tags| == |off|
    ensures outcome == if !NoClash(lines, tags) then ValueError else if !AllInRange(lines, tags, off) then IndexError else Done
    ensures outcome == Done ==> Written(lines, time, tags, off, out)
  {
    hide Neutral, Has, TimeLine, PointAfter;
    out := [];
    var a := new Line[|lines|](i requires 0 <= i < |lines| => lines[i]);
    var points := new nat[|tags|](_ => NOT_FOUND);
    assert a[..] == lines;
    var ok := Scan(a, time, tags, points);
    if !ok {
      return ValueError, out;
    }
    ok := SwitchOff(a, points, off, DISABLED);
    outcome, out := if ok then Done else IndexError, a[..];
  }

  // ------------------------------------------------------------ spacecraft after spacecraft

  /** Every name stands before line 999 and is followed by a line of its own that is neither a name
      nor a time line; no line is both. */
  ghost predicate Placed(lines: seq<Line>, tags: seq<string>)
  {
    NoClash(lines, tags) && forall k :: 0 <= k < |tags| ==>
      var x := PointAfter(lines, tags[k]);
      FirstMatch(lines, tags[k]) < NOT_FOUND && x < |lines| && !Listed(lines[x], tags) && !Has(lines[x], TIME_TAG)
  }

  /** A name and the line after it make such a file. */
  lemma PlacedIsPossible(tag: string, after: Line)
    requires tag != "" && !Has(tag, TIME_TAG) && !Has(after, TIME_TAG) && !Has(after, tag)
    ensures Placed([tag, after], [tag])
  {
    assert Has(tag, tag);
    hide Has;
    var lines := [tag, after];
    assert lines[0] == tag && lines[1] == after;
    assert FirstMatch(lines, tag) == 0;
  }

  /** The file after each spacecraft in turn has rewritten it. */
  ghost predicate Passes(lines: seq<Line>, time: string, tags: seq<string>, offs: seq<seq<bool>>, out: seq<Line>)
    requires forall j :: 0 <= j < |offs| ==> |offs[j]| == |tags|
    decreases |offs|
  {
    if offs == [] then out == lines
    else exists mid :: Written(lines, time, tags, offs[0], mid) && Passes(mid, time, tags, offs[1..], out)
  }

  ghost predicate SomeSelected(lines: seq<Line>, tags: seq<string>, offs: seq<seq<bool>>, i: nat)
    requires forall j :: 0 <= j < |offs| ==> |offs[j]| == |tags|
  {
    exists j :: 0 <= j < |offs| && Selected(lines, tags, offs[j], i)
  }

  /** A rewrite leaves every tag in exactly the lines it was in, so every point stays where it was. */
  lemma RewriteKeepsTags(lines: seq<Line>, time: string, tags: seq<string>, off: seq<bool>, out: seq<Line>, i: nat, k: nat)
    requires Neutral(time, tags) && Placed(lines, tags) && |tags| == |off| && Written(lines, time, tags, off, out)
    requires i < |lines| && k < |tags|
    ensures Has(out[i], tags[k]) <==> Has(lines[i], tags[k])
    ensures Has(out[i], TIME_TAG) <==> Has(lines[i], TIME_TAG)
  {
    hide Has, TimeLine, PointAfter;
    if Selected(lines, tags, off, i) {
      var m :| 0 <= m < |tags| && off[m] && PointAfter(lines, tags[m]) == i;
      assert !Listed(lines[i], tags);
    } else if Has(lines[i], TIME_TAG) {
      assert !Clash(lines[i], tags);
    }
  }

  lemma SameTagsSamePoint(lines: seq<Line>, out: seq<Line>, tag: string)
    requires |out| == |lines| && forall i :: 0 <= i < |lines| ==> (Has(out[i], tag) <==> Has(lines[i], tag))
    ensures PointAfter(out, tag) == PointAfter(lines, tag) && FirstMatch(out, tag) == FirstMatch(lines, tag)
  {
    hide Has;
    var m, n := FirstMatch(lines, tag), FirstMatch(out, tag);
    assert m < |lines| ==> Has(out[m], tag);
    assert n < |lines| ==> Has(lines[n], tag);
  }

  lemma RewriteKeepsPoints(lines: seq<Line>, time: string, tags: seq<string>, off: seq<bool>, out: seq<Line>)
    requires Neutral(time, tags) && Placed(lines, tags) && |tags| == |off| && Written(lines, time, tags, off, out)
    ensures forall k :: 0 <= k < |tags| ==> PointAfter(out, tags[k]) == PointAfter(lines, tags[k])
    ensures Placed(out, tags)
  {
    hide Has, TimeLine, PointAfter, Neutral, Written, Placed;
    SameLength(lines, time, tags, off, out);
    forall k | 0 <= k < |tags|
      ensures PointAfter(out, tags[k]) == PointAfter(lines, tags[k]) && FirstMatch(out, tags[k]) == FirstMatch(lines, tags[k])
    {
      forall i | 0 <= i < |lines| ensures Has(out[i], tags[k]) <==> Has(lines[i], tags[k]) {
        RewriteKeepsTags(lines, time, tags, off, out, i, k);
      }
      SameTagsSamePoint(lines, out, tags[k]);
    }
    forall i, k | 0 <= i < |lines| && 0 <= k < |tags|
      ensures Has(out[i], tags[k]) <==> Has(lines[i], tags[k])
      ensures Has(out[i], TIME_TAG) <==> Has(lines[i], TIME_TAG)
    {
      RewriteKeepsTags(lines, time, tags, off, out, i, k);
    }
    StillPlaced(lines, tags, out);
  }

  lemma SameLength(lines: seq<Line>, time: string, tags: seq<string>, off: seq<bool>, out: seq<Line>)
    requires |tags| == |off| && Written(lines, time, tags, off, out)
    ensures |out| == |lines|
  {
  }

  lemma StillPlaced(lines: seq<Line>, tags: seq<string>, out: seq<Line>)
    requires Placed(lines, tags) && |out| == |lines|
    requires forall k :: 0 <= k < |tags| ==>
      PointAfter(out, tags[k]) == PointAfter(lines, tags[k]) && FirstMatch(out, tags[k]) == FirstMatch(lines, tags[k])
    requires forall i, k :: 0 <= i < |lines| && 0 <= k < |tags| ==>
      (Has(out[i], tags[k]) <==> Has(lines[i], tags[k])) && (Has(out[i], TIME_TAG) <==> Has(lines[i], TIME_TAG))
    ensures Placed(out, tags)
  {
    hide Has, PointAfter;
    forall i | 0 <= i < |lines| && Listed(out[i], tags) ensures Listed(lines[i], tags) && !Has(out[i], TIME_TAG) {
      var k :| 0 <= k < |tags| && Has(out[i], tags[k]);
      assert Has(lines[i], tags[k]);
      assert !Clash(lines[i], tags);
    }
  }

  /** After any number of spacecraft: a line is switched off if some spacecraft selected it, a time
      line holds the start time, and every other line is as it was at first. */
  lemma {:induction false} Accumulates(lines: seq<Line>, time: string, tags: seq<string>, offs: seq<seq<bool>>, out: seq<Line>)
    requires Neutral(time, tags) && Placed(lines, tags) && offs != []
    requires (forall j :: 0 <= j < |offs| ==> |offs[j]| == |tags|) && Passes(lines, time, tags, offs, out)
    ensures |out| == |lines| && forall i :: 0 <= i < |lines| ==>
      out[i] == if SomeSelected(lines, tags, offs, i) then DISABLED else TimedLine(lines[i], time)
    decreases |offs|
  {
    hide Has, TimeLine, PointAfter, Neutral, Placed, Selected;
    var rest := offs[1..];
    var mid :| Written(lines, time, tags, offs[0], mid) && Passes(mid, time, tags, rest, out);
    if rest != [] {
      RewriteKeepsPoints(lines, time, tags, offs[0], mid);
      Accumulates(mid, time, tags, rest, out);
    }
    forall i | 0 <= i < |lines|
      ensures out[i] == if SomeSelected(lines, tags, offs, i) then DISABLED else TimedLine(lines[i], time)
    {
      SelectedInTwo(lines, time, tags, offs, mid, i);
      TimedTwice(lines[i], time, tags);
    }
  }

  lemma SelectedInTwo(lines: seq<Line>, time: string, tags: seq<string>, offs: seq<seq<bool>>, mid: seq<Line>, i: nat)
    requires offs != [] && forall j :: 0 <= j < |offs| ==> |offs[j]| == |tags|
    requires |offs| > 1 ==> forall k :: 0 <= k < |tags| ==> PointAfter(mid, tags[k]) == PointAfter(lines, tags[k])
    ensures SomeSelected(lines, tags, offs, i) <==>
            Selected(lines, tags, offs[0], i) || SomeSelected(mid, tags, offs[1..], i)
  {
    hide PointAfter;
    if j :| 0 <= j < |offs| && Selected(lines, tags, offs[j], i) {
      if j > 0 {
        assert offs[1..][j - 1] == offs[j];
        assert Selected(mid, tags, offs[1..][j - 1], i);
      }
    }
    if j :| 0 <= j < |offs[1..]| && Selected(mid, tags, offs[1..][j], i) {
      assert offs[1..][j] == offs[j + 1];
      assert Selected(lines, tags, offs[j + 1], i);
    }
  }

  lemma TimedTwice(line: Line, time: string, tags: seq<string>)
    requires Neutral(time, tags)
    ensures TimedLine(TimedLine(line, time), time) == TimedLine(line, time) && TimedLine(DISABLED, time) == DISABLED
  {
    hide TimeLine;
  }

  const INACTIVE_TAG: string := "<active>false</active>"

  /** A line that switches a simulator off, however it is spaced. */
  predicate Inactive(line: Line) { Has(line, INACTIVE_TAG) }

  lemma DisabledIsInactive()
    ensures Inactive(DISABLED)
  {
    assert DISABLED == "            " + (INACTIVE_TAG + "\n");
    HasAfter("            ", INACTIVE_TAG + "\n", INACTIVE_TAG);
  }

  /** A simulator whose point is its own is inactive in the end if and only if it was inactive at
      first or some spacecraft did not enable it: enabling it elsewhere never brings it back. */
  lemma InactiveIffEverDisabled(lines: seq<Line>, time: string, tags: seq<string>, offs: seq<seq<bool>>, out: seq<Line>, k: nat)
    requires Neutral(time, tags) && Placed(lines, tags) && offs != []
    requires (forall j :: 0 <= j < |offs| ==> |offs[j]| == |tags|) && Passes(lines, time, tags, offs, out)
    requires k < |tags| && forall m :: 0 <= m < |tags| && m != k ==> PointAfter(lines, tags[m]) != PointAfter(lines, tags[k])
    ensures var x := PointAfter(lines, tags[k]);
      x < |lines| && |out| == |lines|
      && out[x] == (if exists j :: 0 <= j < |offs| && offs[j][k] then DISABLED else lines[x])
      && (Inactive(out[x]) <==> Inactive(lines[x]) || exists j :: 0 <= j < |offs| && offs[j][k])
  {
    Accumulates(lines, time, tags, offs, out);
    DisabledIsInactive();
    hide Has, TimeLine, PointAfter, Inactive;
    var x := PointAfter(lines, tags[k]);
    if j :| 0 <= j < |offs| && offs[j][k] {
      assert Selected(lines, tags, offs[j], x);
    }
    if j :| 0 <= j < |offs| && Selected(lines, tags, offs[j], x) {
      var m :| 0 <= m < |tags| && offs[j][m] && PointAfter(lines, tags[m]) == x;
      assert m == k;
    }
  }

  /** What is written reads back as it was written. */
  lemma WrittenReadsBack(lines: seq<Line>, time: string, tags: seq<string>, off: seq<bool>, out: seq<Line>)
    requires AsRead(lines) && '\n' !in time && |tags| == |off| && Written(lines, time, tags, off, out)
    ensures AsRead(out) && Split(Concat(out)) == out
  {
    hide Has, PointAfter, Selected;
    TextsAreWhole(time);
    SplitJoin(out);
  }

  lemma TextsAreWhole(time: string)
    requires '\n' !in time
    ensures Whole(TimeLine(time)) && Whole(DISABLED)
  {
  }
}
