/** Rewriting a configuration file: find the lines after certain names, and switch some of them off. */
module LinePoints {
  import opened TextLines

  /** How a rewrite ends: written, or with one of the script's exceptions and nothing written. */
  datatype Outcome = Done | IndexError | ValueError

  ghost predicate Listed(line: Line, tags: seq<string>)
  {
    exists k :: 0 <= k < |tags| && Has(line, tags[k])
  }

  /** Line `i` comes right after the name of something that is switched off. */
  ghost predicate Selected(lines: seq<Line>, tags: seq<string>, off: seq<bool>, i: nat)
    requires |tags| == |off|
  {
    exists k :: 0 <= k < |tags| && off[k] && PointAfter(lines, tags[k]) == i
  }

  ghost predicate AllInRange(lines: seq<Line>, tags: seq<string>, off: seq<bool>)
    requires |tags| == |off|
  {
    forall k :: 0 <= k < |tags| && off[k] ==> PointAfter(lines, tags[k]) < |lines|
  }

  /** One line of the scan: every tag in it moves its point, if that lies later; asking where the
      line is fails if it has meanwhile been replaced. */
  method NotePoints(lines: array<Line>, line: Line, tags: seq<string>, points: array<nat>) returns (ok: bool)
    requires points.Length == |tags|
    modifies points
    ensures ok <==> line in lines[..] || !Listed(line, tags)
    ensures ok ==> forall k :: 0 <= k < |tags| ==>
      points[k] == if Has(line, tags[k]) && IndexOf(lines[..], line) < old(points[k]) then IndexOf(lines[..], line) + 1 else old(points[k])
  {
    hide Has;
    var k := 0;
    var j := IndexOf(lines[..], line);
    while k < |tags|
      invariant 0 <= k <= |tags|
      invariant j < lines.Length || forall m :: 0 <= m < k ==> !Has(line, tags[m])
      invariant forall m :: 0 <= m < |tags| ==>
        points[m] == if m < k && Has(line, tags[m]) && j < old(points[m]) then j + 1 else old(points[m])
    {
      if Has(line, tags[k]) {
        if j == lines.Length {
          return false;
        }
        if j < points[k] {
          points[k] := j + 1;
        }
      }
      k := k + 1;
    }
    return true;
  }

  /** Overwrite the line at every point that is switched off. */
  method SwitchOff(lines: array<Line>, points: array<nat>, off: seq<bool>, text: Line) returns (ok: bool)
    requires points.Length == |off|
    modifies lines
    ensures ok <==> forall k :: 0 <= k < |off| && off[k] ==> points[k] < lines.Length
    ensures ok ==> forall i :: 0 <= i < lines.Length ==>
      lines[i] == if exists k :: 0 <= k < |off| && off[k] && points[k] == i then text else old(lines[i])
  {
    var k := 0;
    while k < |off|
      invariant 0 <= k <= |off|
      invariant forall m :: 0 <= m < k && off[m] ==> points[m] < lines.Length
      invariant forall i :: 0 <= i < lines.Length ==>
        lines[i] == if exists m :: 0 <= m < k && off[m] && points[m] == i then text else old(lines[i])
    {
      if off[k] {
        if points[k] >= lines.Length {
          return false;
        }
        lines[points[k]] := text;
      }
      k := k + 1;
    }
    return true;
  }

  // ------------------------------------------------------------ a file scanned as it stands

  /** The file with the selected lines switched off. */
  ghost predicate SwitchedOff(lines: seq<Line>, tags: seq<string>, off: seq<bool>, text: Line, out: seq<Line>)
    requires |tags| == |off|
  {
    |out| == |lines| && forall i :: 0 <= i < |lines| ==> out[i] == if Selected(lines, tags, off, i) then text else lines[i]
  }

  /** Switch off the lines after the names given; the other lines stay as they are. */
  method Rewrite(lines: seq<Line>, tags: seq<string>, off: seq<bool>, text: Line) returns (outcome: Outcome, out: seq<Line>)
    requires |tags| == |off|
    ensures outcome == if AllInRange(lines, tags, off) then Done else IndexError
    ensures outcome == Done ==> SwitchedOff(lines, tags, off, text, out)
  {
    hide Has, PointAfter;
    var a := new Line[|lines|](i requires 0 <= i < |lines| => lines[i]);
    var points := new nat[|tags|](_ => NOT_FOUND);
    assert a[..] == lines;
    NothingScanned();
    assert lines[..0] == [];
    var i := 0;
    while i < |lines|
      invariant 0 <= i <= |lines| && a[..] == lines
      invariant forall k :: 0 <= k < |tags| ==> points[k] == PointAfter(lines[..i], tags[k])
    {
      assert lines[i] in a[..];
      var found := NotePoints(a, a[i], tags, points);
      forall k | 0 <= k < |tags| ensures points[k] == PointAfter(lines[..i + 1], tags[k]) {
        ScanStep(lines, i, tags[k]);
      }
      i := i + 1;
    }
    assert lines[..i] == lines;
    var ok := SwitchOff(a, points, off, text);
    outcome, out := if ok then Done else IndexError, a[..];
  }

  lemma NothingScanned()
    ensures forall tag :: PointAfter([], tag) == NOT_FOUND
  {
  }
}
