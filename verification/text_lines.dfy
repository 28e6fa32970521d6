/** Text files as lists of lines, and the searches the configuration script makes in them. */
module TextLines {
  import opened Concatenation

  type Line = string

  /** The line contains the tag. */
  predicate Has(line: Line, tag: string)
  {
    tag <= line || (line != [] && Has(line[1..], tag))
  }

  /** A tag is contained where the line reads like it. */
  lemma {:induction false} HasSomewhere(line: Line, tag: string)
    ensures Has(line, tag) <==> exists i: nat, j: nat :: i <= j <= |line| && line[i..j] == tag
  {
    if tag <= line {
      assert line[0..|tag|] == tag;
    } else if line != [] {
      HasSomewhere(line[1..], tag);
      if i: nat, j: nat :| i <= j <= |line[1..]| && line[1..][i..j] == tag {
        assert line[i + 1..j + 1] == tag;
      }
      if i: nat, j: nat :| i <= j <= |line| && line[i..j] == tag {
        assert i > 0;
        assert line[1..][i - 1..j - 1] == tag;
      }
    }
  }

  /** A line containing the tag contains each of its characters. */
  lemma {:induction false} HasCharacters(line: Line, tag: string, k: nat)
    requires Has(line, tag) && k < |tag|
    ensures tag[k] in line
  {
    if tag <= line {
      assert line[k] == tag[k];
    } else {
      HasCharacters(line[1..], tag, k);
    }
  }

  /** The index of the first line containing the tag; the number of lines if none does. */
  function FirstMatch(lines: seq<Line>, tag: string): (m: nat)
    ensures m <= |lines| && (m < |lines| ==> Has(lines[m], tag))
    ensures forall i :: 0 <= i < m ==> !Has(lines[i], tag)
  {
    if lines == [] || Has(lines[0], tag) then 0 else 1 + FirstMatch(lines[1..], tag)
  }

  /** The index of the first line equal to `line`; the number of lines if none is. */
  function IndexOf(lines: seq<Line>, line: Line): (m: nat)
    ensures m <= |lines| && (m < |lines| ==> lines[m] == line)
    ensures forall i :: 0 <= i < m ==> lines[i] != line
  {
    if lines == [] || lines[0] == line then 0 else 1 + IndexOf(lines[1..], line)
  }

  const NOT_FOUND: nat := 999

  /** The place after the first line with the tag; a tag not found before line 999 stands at 999. */
  function PointAfter(lines: seq<Line>, tag: string): nat
  {
    var m := FirstMatch(lines, tag);
    if m < |lines| && m < NOT_FOUND then m + 1 else NOT_FOUND
  }

  /** The place of the first line with the tag, likewise. */
  function PointAt(lines: seq<Line>, tag: string): nat
  {
    var m := FirstMatch(lines, tag);
    if m < |lines| && m < NOT_FOUND then m else NOT_FOUND
  }

  /** The scan's comparison with the first equal line makes later matches, duplicates included,
      change nothing. */
  lemma ScanStep(lines: seq<Line>, i: nat, tag: string)
    requires i < |lines|
    ensures var x, j := PointAfter(lines[..i], tag), IndexOf(lines, lines[i]);
      PointAfter(lines[..i + 1], tag) == if Has(lines[i], tag) && j < x then j + 1 else x
    ensures var x, j := PointAt(lines[..i], tag), IndexOf(lines, lines[i]);
      PointAt(lines[..i + 1], tag) == if Has(lines[i], tag) && j < x then j else x
  {
    hide Has;
    var before, upto := lines[..i], lines[..i + 1];
    var m, m', j := FirstMatch(before, tag), FirstMatch(upto, tag), IndexOf(lines, lines[i]);
    assert forall k :: 0 <= k < i ==> before[k] == upto[k] == lines[k];
    assert upto[i] == lines[i] == lines[j] && j <= i;
    if m < i {
      assert m' == m;
      assert Has(lines[i], tag) ==> m <= j;
    } else if Has(lines[i], tag) {
      assert m' == i;
      assert j == i;
    }
  }

  // ------------------------------------------------------------ lines and text

  /** Cut a text after each newline, keeping the newlines. */
  function Split(text: string): (lines: seq<Line>)
    decreases |text|
  {
    if text == [] then []
    else
      var n := FirstNewline(text);
      [text[..n]] + Split(text[n..])
  }

  /** The length of the first line, newline included. */
  function FirstNewline(text: string): (n: nat)
    requires text != []
    ensures 0 < n <= |text| && (forall i :: 0 <= i < n - 1 ==> text[i] != '\n')
    ensures n < |text| ==> text[n - 1] == '\n'
  {
    if text[0] == '\n' || |text| == 1 then 1 else 1 + FirstNewline(text[1..])
  }

  /** A line as a file holds it: nonempty, with a newline at its end if anywhere. */
  predicate Whole(line: Line)
  {
    line != [] && line[|line| - 1] == '\n' && forall i :: 0 <= i < |line| - 1 ==> line[i] != '\n'
  }

  predicate LastLine(line: Line) { Whole(line) || (line != [] && '\n' !in line) }

  predicate AsRead(lines: seq<Line>)
  {
    forall i :: 0 <= i < |lines| ==> if i + 1 < |lines| then Whole(lines[i]) else LastLine(lines[i])
  }

  /** Reading a file into lines and joining them gives back the file ... */
  lemma {:induction false} JoinSplit(text: string)
    ensures Concat(Split(text)) == text && AsRead(Split(text))
    decreases |text|
  {
    if text != [] {
      var n := FirstNewline(text);
      JoinSplit(text[n..]);
      FirstLine(text);
      JoinMore(text[..n], Split(text[n..]));
      hide Whole, LastLine, Concat, AsRead, Split, FirstNewline;
      assert text == text[..n] + text[n..];
    }
  }

  lemma JoinMore(first: Line, rest: seq<Line>)
    ensures Concat([first] + rest) == first + Concat(rest)
    ensures AsRead(rest) && (if rest == [] then LastLine(first) else Whole(first)) ==> AsRead([first] + rest)
  {
    hide Whole, LastLine;
    ConcatMore(first, rest);
    assert forall i :: 1 <= i <= |rest| ==> ([first] + rest)[i] == rest[i - 1];
  }

  lemma FirstLine(text: string)
    requires text != []
    ensures var n := FirstNewline(text);
      && Split(text) == [text[..n]] + Split(text[n..])
      && (Split(text[n..]) == [] <==> n == |text|)
      && LastLine(text[..n]) && (n < |text| ==> Whole(text[..n]))
  {
    FirstIsWhole(text);
    hide FirstNewline, LastLine, Whole;
  }

  lemma FirstIsWhole(text: string)
    requires text != []
    ensures var n := FirstNewline(text); LastLine(text[..n]) && (n < |text| ==> Whole(text[..n]))
  {
    var n := FirstNewline(text);
    var first := text[..n];
    hide FirstNewline;
    assert forall i :: 0 <= i < n ==> first[i] == text[i];
  }

  lemma NewlineEnds(first: Line, rest: string)
    requires if rest == [] then LastLine(first) else Whole(first)
    ensures FirstNewline(first + rest) == |first|
  {
    var text := first + rest;
    var n := FirstNewline(text);
    assert forall i :: 0 <= i < |first| ==> text[i] == first[i];
  }

  /** ... and writing lines, each ended by its only newline, and reading them gives back the lines. */
  lemma {:induction false} SplitJoin(lines: seq<Line>)
    requires AsRead(lines)
    ensures Split(Concat(lines)) == lines
  {
    if lines != [] {
      var first, rest := lines[0], lines[1..];
      assert AsRead(rest) && (rest != [] ==> Whole(first)) && LastLine(first) by {
        hide Whole, LastLine;
        assert forall i :: 0 <= i < |rest| ==> rest[i] == lines[i + 1];
      }
      SplitJoin(rest);
      NotEmpty(rest);
      var text := first + Concat(rest);
      NewlineEnds(first, Concat(rest));
      hide Whole, Split, AsRead, FirstNewline;
      FirstLine(text);
      assert text[..|first|] == first && text[|first|..] == Concat(rest);
      assert lines == [first] + rest;
    }
  }

  lemma NotEmpty(lines: seq<Line>)
    requires AsRead(lines)
    ensures Concat(lines) == [] <==> lines == []
  {
  }
}
