/** The flight software startup script: application lines are moved in front of the end marker. */
module StartupScript {
  import opened TextLines
  import opened Components

  const APPS: nat := 25

  /** The applications, in the order they are looked for. */
  function App(k: nat): Component
  {
    match k
    case 0 => Cf case 1 => Ds case 2 => Fm case 3 => Lc case 4 => Sbn case 5 => Sc
    case 6 => Adcs case 7 => Cam case 8 => Css case 9 => Eps case 10 => Fss case 11 => Imu
    case 12 => Mag case 13 => Mgr case 14 => Radio case 15 => RaspberryPi case 16 => Rw case 17 => Gps
    case 18 => Sample case 19 => St case 20 => Syn case 21 => Tmp100 case 22 => ThermalControl
    case 23 => Torquer case _ => Thruster
  }

  /** The tag that marks an application's line in the script. */
  function Tag(app: nat): string
  {
    match app
    case 0 => "CF,"
    case 1 => "DS,"
    case 2 => "FM,"
    case 3 => "LC,"
    case 4 => "SBN,"
    case 5 => "SC,"
    case 6 => "ADCS,"
    case 7 => "CAM,"
    case 8 => "CSS,"
    case 9 => "EPS,"
    case 10 => "FSS,"
    case 11 => "IMU,"
    case 12 => "MAG,"
    case 13 => "MGR,"
    case 14 => "RADIO,"
    case 15 => "RASPBERRY_PI,"
    case 16 => "RW,"
    case 17 => "NAV,"
    case 18 => "SAMPLE,"
    case 19 => "ST,"
    case 20 => "SYN,"
    case 21 => "TMP100,"
    case 22 => "THERMAL,"
    case 23 => "TORQUER,"
    case _ => "THRUSTER,"
  }

  /** The same applications in the order their lines are inserted: torquer, thruster, syn, tmp100,
      thermal, st, sample, raspberry_pi, rw, radio, mag, mgr, imu, nav, and from fss back to cf. */
  function Inserted(k: nat): (app: nat)
    ensures app < APPS
  {
    if k < 2 then 23 + k else if k < 5 then 18 + k else if k < 7 then 24 - k else if k < 9 then 8 + k
    else if k == 9 then 14 else if k < 12 then 2 + k else if k == 12 then 11 else if k == 13 then 17
    else if k < 24 then 24 - k else 0
  }

  /** When each application's turn to be inserted comes. */
  function TurnOf(app: nat): (k: nat)
    requires app < APPS
    ensures k < APPS && Inserted(k) == app
  {
    if app >= 23 then app - 23 else if app >= 20 then app - 18 else if app >= 18 then 24 - app
    else if app == 17 then 13 else if app >= 15 then app - 8 else if app == 14 then 9
    else if app >= 12 then app - 2 else if app == 11 then 12 else 24 - app
  }

  const END_MARK: string := "!"

  /** The last line with the tag, if any. */
  function LastMatch(lines: seq<Line>, tag: string): (line: Line)
    ensures (forall i :: 0 <= i < |lines| ==> !Has(lines[i], tag)) ==> line == ""
    ensures (exists i :: 0 <= i < |lines| && Has(lines[i], tag)) ==> line in lines && Has(line, tag)
  {
    if lines == [] then ""
    else if Has(lines[|lines| - 1], tag) then lines[|lines| - 1]
    else LastMatch(lines[..|lines| - 1], tag)
  }

  lemma {:induction false} LastMatchIsLast(lines: seq<Line>, tag: string, i: nat)
    requires i < |lines| && Has(lines[i], tag) && forall j :: i < j < |lines| ==> !Has(lines[j], tag)
    ensures LastMatch(lines, tag) == lines[i]
  {
    if i + 1 < |lines| {
      LastMatchIsLast(lines[..|lines| - 1], tag, i);
    }
  }

  /** An application's line: its last one if the application is enabled, otherwise empty. */
  function AppLine(lines: seq<Line>, enabled: set<Component>, app: nat): Line
  {
    if App(app) in enabled then LastMatch(lines, Tag(app)) else ""
  }

  // ------------------------------------------------------------ inserting

  /** Insertion into a list; past its end it appends. */
  function Insert(lines: seq<Line>, at: nat, line: Line): seq<Line>
  {
    if at <= |lines| then lines[..at] + [line] + lines[at..] else lines + [line]
  }

  /** Insert one after the other at the same place. */
  function InsertAll(lines: seq<Line>, at: nat, xs: seq<Line>): seq<Line>
    decreases |xs|
  {
    if xs == [] then lines else InsertAll(Insert(lines, at, xs[0]), at, xs[1..])
  }

  function Reverse(xs: seq<Line>): (r: seq<Line>)
    ensures |r| == |xs| && forall i :: 0 <= i < |xs| ==> r[i] == xs[|xs| - 1 - i]
  {
    if xs == [] then [] else Reverse(xs[1..]) + [xs[0]]
  }

  lemma {:induction false} InsertInside(lines: seq<Line>, at: nat, xs: seq<Line>)
    requires at <= |lines|
    ensures InsertAll(lines, at, xs) == lines[..at] + Reverse(xs) + lines[at..]
    decreases |xs|
  {
    if xs != [] {
      var more := Insert(lines, at, xs[0]);
      InsertInside(more, at, xs[1..]);
      assert more[..at] == lines[..at] && more[at..] == [xs[0]] + lines[at..];
    }
  }

  lemma {:induction false} InsertPast(lines: seq<Line>, at: nat, xs: seq<Line>)
    requires |lines| + |xs| <= at
    ensures InsertAll(lines, at, xs) == lines + xs
    decreases |xs|
  {
    if xs != [] {
      assert Insert(lines, at, xs[0]) == lines + [xs[0]];
      InsertPast(lines + [xs[0]], at, xs[1..]);
      assert xs == [xs[0]] + xs[1..];
    }
  }

  lemma {:induction false} InsertInTwo(lines: seq<Line>, at: nat, xs: seq<Line>, d: nat)
    requires d <= |xs|
    ensures InsertAll(lines, at, xs) == InsertAll(InsertAll(lines, at, xs[..d]), at, xs[d..])
    decreases d
  {
    if d > 0 {
      InsertInTwo(Insert(lines, at, xs[0]), at, xs[1..], d - 1);
      assert xs[..d][1..] == xs[1..][..d - 1] && xs[1..][d - 1..] == xs[d..];
    }
  }

  /** What is inserted, in order: a newline, then the applications' lines. */
  function Ordered(found: seq<Line>): (xs: seq<Line>)
    requires |found| == APPS
    ensures |xs| == APPS + 1 && xs[0] == "\n"
    ensures forall k :: 0 <= k < APPS ==> xs[k + 1] == found[Inserted(k)]
  {
    ["\n"] + seq(APPS, k requires 0 <= k < APPS => found[Inserted(k)])
  }

  function Block(lines: seq<Line>, enabled: set<Component>): (xs: seq<Line>)
    ensures |xs| == APPS + 1 && xs[0] == "\n"
    ensures forall k :: 0 <= k < APPS ==> xs[k + 1] == AppLine(lines, enabled, Inserted(k))
  {
    Ordered(seq(APPS, a requires 0 <= a < APPS => AppLine(lines, enabled, a)))
  }

  /** The script written for a set of enabled applications. */
  function Written(lines: seq<Line>, enabled: set<Component>): seq<Line>
  {
    InsertAll(lines, PointAt(lines, END_MARK), Block(lines, enabled))
  }

  /** Remember the line for every enabled application whose tag it has. */
  method NoteApps(line: Line, enabled: set<Component>, found: array<Line>)
    requires found.Length == APPS
    modifies found
    ensures forall a :: 0 <= a < APPS ==> found[a] == if App(a) in enabled && Has(line, Tag(a)) then line else old(found[a])
  {
    var a := 0;
    while a < APPS
      invariant 0 <= a <= APPS
      invariant forall b :: 0 <= b < APPS ==>
        found[b] == if b < a && App(b) in enabled && Has(line, Tag(b)) then line else old(found[b])
    {
      if Has(line, Tag(a)) {
        if App(a) in enabled {
          found[a] := line;
        }
      }
      a := a + 1;
    }
  }

  lemma AppLineStep(lines: seq<Line>, i: nat, enabled: set<Component>, a: nat)
    requires i < |lines|
    ensures AppLine(lines[..i + 1], enabled, a) ==
            if App(a) in enabled && Has(lines[i], Tag(a)) then lines[i] else AppLine(lines[..i], enabled, a)
  {
    hide Tag;
    assert lines[..i + 1][..i] == lines[..i];
  }

  /** Insert a newline and then the applications' lines, all at the end mark. */
  method InsertLines(original: seq<Line>, eof: nat, found: array<Line>) returns (lines: seq<Line>)
    requires found.Length == APPS
    ensures lines == InsertAll(original, eof, Ordered(found[..]))
  {
    hide Inserted, Insert;
    ghost var xs := Ordered(found[..]);
    lines := Insert(original, eof, "\n");
    var k := 0;
    while k < APPS
      invariant 0 <= k <= APPS
      invariant InsertAll(lines, eof, xs[k + 1..]) == InsertAll(original, eof, xs)
    {
      lines := Insert(lines, eof, found[Inserted(k)]);
      assert xs[k + 1..][0] == xs[k + 1] && xs[k + 1..][1..] == xs[k + 2..];
      k := k + 1;
    }
  }

  method Rewrite(original: seq<Line>, enabled: set<Component>) returns (lines: seq<Line>)
    ensures lines == Written(original, enabled)
  {
    hide Has, Tag, Inserted, PointAt, InsertAll, AppLine;
    var eof := NOT_FOUND;
    var found := new Line[APPS](_ => "");
    var i := 0;
    NothingFound(enabled);
    assert original[..0] == [];
    while i < |original|
      invariant 0 <= i <= |original|
      invariant eof == PointAt(original[..i], END_MARK)
      invariant forall a :: 0 <= a < APPS ==> found[a] == AppLine(original[..i], enabled, a)
    {
      var line := original[i];
      ScanStep(original, i, END_MARK);
      if Has(line, END_MARK) {
        if IndexOf(original, line) < eof {
          eof := IndexOf(original, line);
        }
      }
      NoteApps(line, enabled, found);
      forall a | 0 <= a < APPS ensures found[a] == AppLine(original[..i + 1], enabled, a) {
        AppLineStep(original, i, enabled, a);
      }
      i := i + 1;
    }
    assert original[..i] == original;
    lines := InsertLines(original, eof, found);
    assert found[..] == seq(APPS, a requires 0 <= a < APPS => AppLine(original, enabled, a));
  }

  lemma NothingFound(enabled: set<Component>)
    ensures PointAt([], END_MARK) == NOT_FOUND && forall a: nat :: AppLine([], enabled, a) == ""
  {
  }

  /** The whole script, for every input. With an end mark (or 999 lines) the enabled applications'
      lines, cf first, and a newline stand in front of it and nothing else changes. Without one,
      in a shorter script, they are appended instead, the newline first and cf last. */
  lemma WrittenIs(lines: seq<Line>, enabled: set<Component>)
    ensures var e, xs := PointAt(lines, "!"), Block(lines, enabled);
      && (e <= |lines| ==> Written(lines, enabled) == lines[..e] + Reverse(xs) + lines[e..])
      && (|lines| + |xs| <= e ==> Written(lines, enabled) == lines + xs)
      && (|lines| < e < |lines| + |xs| ==>
            Written(lines, enabled) == lines + xs[..e - |lines|] + Reverse(xs[e - |lines|..]))
  {
    hide PointAt, AppLine, Inserted, Has;
    var e, xs := PointAt(lines, END_MARK), Block(lines, enabled);
    if e <= |lines| {
      InsertInside(lines, e, xs);
    } else if |lines| + |xs| <= e {
      InsertPast(lines, e, xs);
    } else {
      var d := e - |lines|;
      InsertInTwo(lines, e, xs, d);
      InsertPast(lines, e, xs[..d]);
      var more := lines + xs[..d];
      InsertInside(more, e, xs[d..]);
      assert more[..e] == more && more[e..] == [];
    }
  }

  /** The last line with the tag if the component is enabled, otherwise empty. */
  function Kept(lines: seq<Line>, enabled: set<Component>, app: Component, tag: string): Line
  {
    if app in enabled then LastMatch(lines, tag) else ""
  }

  lemma BlockUpTo8(lines: seq<Line>, enabled: set<Component>, b: seq<Line>)
    requires |b| == 26 && forall k :: 0 <= k < 8 ==> b[k] == AppLine(lines, enabled, Inserted(24 - k))
    ensures
      && b[0] == Kept(lines, enabled, Cf, "CF,") && b[1] == Kept(lines, enabled, Ds, "DS,")
      && b[2] == Kept(lines, enabled, Fm, "FM,") && b[3] == Kept(lines, enabled, Lc, "LC,")
      && b[4] == Kept(lines, enabled, Sbn, "SBN,") && b[5] == Kept(lines, enabled, Sc, "SC,")
      && b[6] == Kept(lines, enabled, Adcs, "ADCS,") && b[7] == Kept(lines, enabled, Cam, "CAM,")
  {
    hide LastMatch;
  }

  lemma BlockUpTo12(lines: seq<Line>, enabled: set<Component>, b: seq<Line>)
    requires |b| == 26 && forall k :: 8 <= k < 12 ==> b[k] == AppLine(lines, enabled, Inserted(24 - k))
    ensures
      && b[8] == Kept(lines, enabled, Css, "CSS,") && b[9] == Kept(lines, enabled, Eps, "EPS,")
      && b[10] == Kept(lines, enabled, Fss, "FSS,") && b[11] == Kept(lines, enabled, Gps, "NAV,")
  {
    hide LastMatch;
  }

  lemma BlockUpTo16(lines: seq<Line>, enabled: set<Component>, b: seq<Line>)
    requires |b| == 26 && forall k :: 12 <= k < 16 ==> b[k] == AppLine(lines, enabled, Inserted(24 - k))
    ensures
      && b[12] == Kept(lines, enabled, Imu, "IMU,") && b[13] == Kept(lines, enabled, Mgr, "MGR,")
      && b[14] == Kept(lines, enabled, Mag, "MAG,") && b[15] == Kept(lines, enabled, Radio, "RADIO,")
  {
    hide LastMatch;
  }

  lemma BlockUpTo19(lines: seq<Line>, enabled: set<Component>, b: seq<Line>)
    requires |b| == 26 && forall k :: 16 <= k < 19 ==> b[k] == AppLine(lines, enabled, Inserted(24 - k))
    ensures
      && b[16] == Kept(lines, enabled, Rw, "RW,") && b[17] == Kept(lines, enabled, RaspberryPi, "RASPBERRY_PI,")
      && b[18] == Kept(lines, enabled, Sample, "SAMPLE,")
  {
    hide LastMatch;
  }

  lemma BlockUpTo22(lines: seq<Line>, enabled: set<Component>, b: seq<Line>)
    requires |b| == 26 && forall k :: 19 <= k < 22 ==> b[k] == AppLine(lines, enabled, Inserted(24 - k))
    ensures
      && b[19] == Kept(lines, enabled, St, "ST,") && b[20] == Kept(lines, enabled, ThermalControl, "THERMAL,")
      && b[21] == Kept(lines, enabled, Tmp100, "TMP100,")
  {
    hide LastMatch;
  }

  lemma BlockUpTo25(lines: seq<Line>, enabled: set<Component>, b: seq<Line>)
    requires |b| == 26 && forall k :: 22 <= k < 25 ==> b[k] == AppLine(lines, enabled, Inserted(24 - k))
    ensures
      && b[22] == Kept(lines, enabled, Syn, "SYN,") && b[23] == Kept(lines, enabled, Thruster, "THRUSTER,")
      && b[24] == Kept(lines, enabled, Torquer, "TORQUER,")
  {
    hide LastMatch;
  }

  /** The block in the order it is read: the core applications, the components, a newline at its end;
      each line kept for the component whose switch it is, by the tag that marks it. */
  lemma BlockByName(lines: seq<Line>, enabled: set<Component>)
    ensures var b := Reverse(Block(lines, enabled));
      && |b| == 26 && b[25] == "\n"
      && b[0] == Kept(lines, enabled, Cf, "CF,") && b[1] == Kept(lines, enabled, Ds, "DS,")
      && b[2] == Kept(lines, enabled, Fm, "FM,") && b[3] == Kept(lines, enabled, Lc, "LC,")
      && b[4] == Kept(lines, enabled, Sbn, "SBN,") && b[5] == Kept(lines, enabled, Sc, "SC,")
      && b[6] == Kept(lines, enabled, Adcs, "ADCS,") && b[7] == Kept(lines, enabled, Cam, "CAM,")
      && b[8] == Kept(lines, enabled, Css, "CSS,") && b[9] == Kept(lines, enabled, Eps, "EPS,")
      && b[10] == Kept(lines, enabled, Fss, "FSS,") && b[11] == Kept(lines, enabled, Gps, "NAV,")
      && b[12] == Kept(lines, enabled, Imu, "IMU,") && b[13] == Kept(lines, enabled, Mgr, "MGR,")
      && b[14] == Kept(lines, enabled, Mag, "MAG,") && b[15] == Kept(lines, enabled, Radio, "RADIO,")
      && b[16] == Kept(lines, enabled, Rw, "RW,") && b[17] == Kept(lines, enabled, RaspberryPi, "RASPBERRY_PI,")
      && b[18] == Kept(lines, enabled, Sample, "SAMPLE,") && b[19] == Kept(lines, enabled, St, "ST,")
      && b[20] == Kept(lines, enabled, ThermalControl, "THERMAL,") && b[21] == Kept(lines, enabled, Tmp100, "TMP100,")
      && b[22] == Kept(lines, enabled, Syn, "SYN,") && b[23] == Kept(lines, enabled, Thruster, "THRUSTER,")
      && b[24] == Kept(lines, enabled, Torquer, "TORQUER,")
  {
    hide AppLine, Kept, Inserted;
    var xs := Block(lines, enabled);
    var b := Reverse(xs);
    forall k | 0 <= k < 25 ensures b[k] == AppLine(lines, enabled, Inserted(24 - k)) {
      assert b[k] == xs[(24 - k) + 1];
    }
    BlockUpTo8(lines, enabled, b);
    BlockUpTo12(lines, enabled, b);
    BlockUpTo16(lines, enabled, b);
    BlockUpTo19(lines, enabled, b);
    BlockUpTo22(lines, enabled, b);
    BlockUpTo25(lines, enabled, b);
  }

  /** Where each application's line stands in the block: a newline at its end and, before that, the
      applications in the reverse of the order they were inserted. */
  lemma BlockInScript(lines: seq<Line>, enabled: set<Component>, app: nat)
    requires app < APPS
    ensures var b := Reverse(Block(lines, enabled));
      b[APPS] == "\n" && b[APPS - 1 - TurnOf(app)] == AppLine(lines, enabled, app)
  {
    hide AppLine;
    var xs := Block(lines, enabled);
    assert xs[TurnOf(app) + 1] == AppLine(lines, enabled, Inserted(TurnOf(app)));
  }
}
