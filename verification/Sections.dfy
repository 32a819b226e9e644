/** `app/documents/pdf_parser.py`: a page is a title, a block of metadata, and sections cut at
    numbered headings. */
module Sections {
  import opened Prelude
  import opened TextLines
  import opened Cuts
  import Text

  datatype Section = Section(number: Option<string>, title: string, body: string)

  datatype Heading = Heading(number: string, title: string)

  /** What a line is: no line break within. */
  predicate OneLine(line: string) {
    forall c :: c in line ==> !IsBreak(c)
  }

  /** The heading pattern, on one line: digits, a full stop, white space, and a title. */
  function HeadingOf(line: string): Option<Heading> {
    var digits := DigitRun(line, 0);
    if digits == 0 || digits == |line| || line[digits] != '.' then None
    else
      var spaces := SpaceRun(line, digits + 1);
      var start := digits + 1 + spaces;
      if spaces == 0 || start == |line| then None
      else Some(Heading(line[..digits], line[start..]))
  }

  predicate NoHeading(line: string) {
    HeadingOf(line).None?
  }

  function SectionOf(piece: seq<string>): Section {
    if piece == [] || NoHeading(piece[0]) then Section(None, "", "")
    else
      var h := HeadingOf(piece[0]).value;
      Section(Some(h.number), h.title, Text.Join('\n', piece[1..]))
  }

  /** Without headings, one section titled by the first line; otherwise one section for every
      piece from the first heading on. */
  function Split(lines: seq<string>): seq<Section> {
    if lines == [] then []
    else
      var first := Run(NoHeading, lines);
      if first == |lines| then [Section(None, lines[0], Text.Join('\n', lines[1..]))]
      else Map(SectionOf, Pieces(NoHeading, lines[first..]))
  }

  method CollectHeadings(lines: seq<string>) returns (headings: seq<nat>)
    ensures headings == HeadsFrom(NoHeading, lines, 0)
  {
    hide HeadingOf;
    headings := [];
    for i := 0 to |lines|
      invariant HeadsFrom(NoHeading, lines, 0) == headings + HeadsFrom(NoHeading, lines, i)
    {
      if HeadingOf(lines[i]).Some? {
        ConcatAssociative(headings, [i], HeadsFrom(NoHeading, lines, i + 1));
        headings := headings + [i];
      }
    }
  }

  /** The loop over heading positions, as written. */
  method SplitSections(lines: seq<string>) returns (sections: seq<Section>)
    ensures sections == Split(lines)
  {
    if lines == [] {
      return [];
    }
    var headings := CollectHeadings(lines);
    NextHead(NoHeading, lines, 0);
    assert lines[0..] == lines;
    if headings == [] {
      return [Section(None, lines[0], Text.Join('\n', lines[1..]))];
    }
    sections := CutAtHeadings(lines, headings);
  }

  method CutAtHeadings(lines: seq<string>, headings: seq<nat>) returns (sections: seq<Section>)
    requires headings != [] && headings[0] < |lines| && !NoHeading(lines[headings[0]])
    requires headings == HeadsFrom(NoHeading, lines, headings[0])
    ensures sections == Map(SectionOf, Pieces(NoHeading, lines[headings[0]..]))
  {
    hide HeadingOf;
    sections := [];
    ghost var from: nat := headings[0];
    ghost var all := Map(SectionOf, Pieces(NoHeading, lines[from..]));
    for pos := 0 to |headings|
      invariant from <= |lines| && headings[pos..] == HeadsFrom(NoHeading, lines, from)
      invariant pos < |headings| ==> from == headings[pos]
      invariant pos == |headings| ==> from == |lines|
      invariant from < |lines| ==> !NoHeading(lines[from])
      invariant all == sections + Map(SectionOf, Pieces(NoHeading, lines[from..]))
    {
      var start := headings[pos];
      var end := if pos + 1 < |headings| then headings[pos + 1] else |lines|;
      NextFrom(lines, headings[pos..], start, end);
      CutOne(lines, start);
      var heading := HeadingOf(lines[start]).value;
      var section := Section(Some(heading.number), heading.title, Text.Join('\n', lines[start + 1..end]));
      assert section == SectionOf(lines[start..end]);
      ConcatAssociative(sections, [section], Map(SectionOf, Pieces(NoHeading, lines[end..])));
      sections := sections + [section];
      from := end;
    }
  }

  /** The next position in the list is where the piece at `start` ends. */
  lemma NextFrom(lines: seq<string>, hs: seq<nat>, start: nat, end: int)
    requires hs != [] && hs[0] == start < |lines| && !NoHeading(lines[start])
    requires hs == HeadsFrom(NoHeading, lines, start)
    requires end == if |hs| > 1 then hs[1] else |lines|
    ensures end == EndOf(NoHeading, lines, start)
    ensures |hs| == 1 ==> end == |lines|
    ensures hs[1..] == HeadsFrom(NoHeading, lines, end)
  {
    hide NoHeading;
    HeadsStep(NoHeading, lines, start);
  }

  lemma CutOne(lines: seq<string>, start: nat)
    requires start < |lines| && !NoHeading(lines[start])
    ensures var end := EndOf(NoHeading, lines, start);
            && Map(SectionOf, Pieces(NoHeading, lines[start..]))
               == [SectionOf(lines[start..end])] + Map(SectionOf, Pieces(NoHeading, lines[end..]))
            && lines[start..end][0] == lines[start] && lines[start..end][1..] == lines[start + 1..end]
  {
    hide NoHeading, SectionOf;
    PiecesStep(NoHeading, lines, start);
    var end := EndOf(NoHeading, lines, start);
    MapFirst(SectionOf, lines[start..end], Pieces(NoHeading, lines[end..]));
  }

  // ---- What splitting keeps, and what it undoes ----

  /** Only the lines before the first heading are lost: the pieces the sections are made of tile
      the rest, each has its one heading in front, and each section is its piece: the heading's
      number and title, and the lines after it. */
  lemma SectionsTile(lines: seq<string>, first: nat)
    requires first == Run(NoHeading, lines) < |lines|
    ensures exists pieces ::
              && |Split(lines)| == |pieces| && Concat(pieces) == lines[first..]
              && (forall p, i :: p in pieces && 0 <= i < |p| ==> (NoHeading(p[i]) <==> i > 0))
              && forall k :: 0 <= k < |pieces| ==> IsSection(Split(lines)[k], pieces[k])
  {
    hide NoHeading, SectionOf, Run, Pieces, Concat, IsSection;
    PiecesTile(NoHeading, lines[first..]);
    var pieces := Pieces(NoHeading, lines[first..]);
    assert Split(lines) == Map(SectionOf, pieces);
    assert forall p, i :: p in pieces && 0 <= i < |p| ==> (NoHeading(p[i]) <==> i > 0);
    forall k | 0 <= k < |pieces| ensures IsSection(Split(lines)[k], pieces[k]) {
      assert pieces[k] in pieces && !NoHeading(pieces[k][0]);
      SectionIs(pieces[k]);
    }
  }

  /** The section of a piece with a heading in front. */
  ghost predicate IsSection(s: Section, piece: seq<string>) {
    && piece != [] && s.number.Some? && HeadingOf(piece[0]) == Some(Heading(s.number.value, s.title))
    && s.body == Text.Join('\n', piece[1..])
  }

  lemma SectionIs(piece: seq<string>)
    requires piece != [] && !NoHeading(piece[0])
    ensures IsSection(SectionOf(piece), piece)
  {
    hide HeadingOf;
  }

  /** Without any heading a page's remainder is one section, titled by its first line; without any
      line there is none. */
  lemma SplitWithoutHeadings(lines: seq<string>)
    requires forall l :: l in lines ==> HeadingOf(l) == None
    ensures Split(lines) == if lines == [] then [] else [Section(None, lines[0], Text.Join('\n', lines[1..]))]
  {
    assert lines + [] == lines;
    RunIs(NoHeading, lines, []);
  }

  /** A numbered section, as it is laid out in lines. */
  datatype Printed = Printed(number: string, gap: string, title: string, body: seq<string>)

  predicate Printable(s: Printed) {
    && s.number != [] && (forall c :: c in s.number ==> IsDigit(c))
    && s.gap != [] && (forall c :: c in s.gap ==> IsSpace(c) && !IsBreak(c))
    && s.title != [] && !IsSpace(s.title[0]) && OneLine(s.title)
    && (forall l :: l in s.body ==> OneLine(l) && NoHeading(l))
  }

  function HeadingLine(s: Printed): string {
    s.number + "." + s.gap + s.title
  }

  function PrintOne(s: Printed): seq<string> {
    [HeadingLine(s)] + s.body
  }

  function Meaning(s: Printed): Section {
    Section(Some(s.number), s.title, Text.Join('\n', s.body))
  }

  lemma HeadingRoundTrip(s: Printed)
    requires Printable(s)
    ensures OneLine(HeadingLine(s)) && HeadingOf(HeadingLine(s)) == Some(Heading(s.number, s.title))
  {
    var line, d, g := HeadingLine(s), |s.number|, |s.gap|;
    assert forall k :: 0 <= k < d ==> line[k] == s.number[k];
    assert line[d] == '.';
    DigitRunOf(line, 0, d);
    assert forall k :: d + 1 <= k < d + 1 + g ==> line[k] == s.gap[k - d - 1];
    assert line[d + 1 + g] == s.title[0];
    SpaceRunOf(line, d + 1, g);
    assert line[..d] == s.number;
    assert line[d + 1 + g..] == s.title;
  }

  /** A line is a heading exactly when it is laid out like one, and then number and title are its
      own. */
  lemma HeadingExactly(line: string, h: Heading)
    requires OneLine(line)
    ensures HeadingOf(line) == Some(h) <==>
              exists gap :: IsLaidOut(line, h.number, gap, h.title)
  {
    hide HeadingOf;
    if gap :| IsLaidOut(line, h.number, gap, h.title) {
      assert forall c :: c in gap || c in h.title ==> c in line;
      HeadingRoundTrip(Printed(h.number, gap, h.title, []));
    }
    if HeadingOf(line) == Some(h) {
      var gap := HeadingLaysOut(line, h);
    }
  }

  lemma HeadingLaysOut(line: string, h: Heading) returns (gap: string)
    requires HeadingOf(line) == Some(h)
    ensures IsLaidOut(line, h.number, gap, h.title)
  {
    hide DigitRun, SpaceRun;
    var d := DigitRun(line, 0);
    var n := SpaceRun(line, d + 1);
    gap := line[d + 1..d + 1 + n];
    DigitRunIsDigits(line, 0);
    SpaceRunIsSpaces(line, d + 1);
    assert line[d..d + 1] == ".";
    FourParts(line, d, d + 1 + n);
  }

  lemma FourParts(line: string, d: nat, t: nat)
    requires d < t <= |line| && line[d..d + 1] == "."
    ensures line == line[..d] + "." + line[d + 1..t] + line[t..]
  {
  }

  /** Digits, a full stop, white space, and a title. */
  ghost predicate IsLaidOut(line: string, number: string, gap: string, title: string) {
    && line == number + "." + gap + title
    && number != [] && (forall c :: c in number ==> IsDigit(c))
    && gap != [] && (forall c :: c in gap ==> IsSpace(c)) && title != [] && !IsSpace(title[0])
  }

  lemma PrintedPiece(s: Printed)
    requires Printable(s)
    ensures var p := PrintOne(s); p != [] && !NoHeading(p[0]) && forall i :: 0 < i < |p| ==> NoHeading(p[i])
    ensures SectionOf(PrintOne(s)) == Meaning(s)
  {
    HeadingRoundTrip(s);
    assert forall i :: 0 < i < |PrintOne(s)| ==> PrintOne(s)[i] == s.body[i - 1];
    assert PrintOne(s)[1..] == s.body;
  }

  lemma PrintedPieces(ss: seq<Printed>)
    requires forall s :: s in ss ==> Printable(s)
    ensures Concat(Map(PrintOne, ss)) == [] <==> ss == []
    ensures Concat(Map(PrintOne, ss)) == [] || !NoHeading(Concat(Map(PrintOne, ss))[0])
    ensures Pieces(NoHeading, Concat(Map(PrintOne, ss))) == Map(PrintOne, ss)
  {
    hide NoHeading, Printable, PrintOne, SectionOf, Pieces;
    var pieces := Map(PrintOne, ss);
    forall p | p in pieces
      ensures p != [] && !NoHeading(p[0]) && forall i :: 0 < i < |p| ==> NoHeading(p[i])
    {
      MapMember(PrintOne, ss, p);
      var s :| s in ss && PrintOne(s) == p;
      PrintedPiece(s);
    }
    PiecesOfConcat(NoHeading, pieces);
    assert pieces != [] ==> pieces[0] in pieces && Concat(pieces) == pieces[0] + Concat(pieces[1..]);
  }

  lemma PrintedMeaning(ss: seq<Printed>)
    requires forall s :: s in ss ==> Printable(s)
    ensures Map(SectionOf, Map(PrintOne, ss)) == Map(Meaning, ss)
  {
    hide NoHeading, Printable, PrintOne, SectionOf, Meaning;
    forall i | 0 <= i < |ss| ensures SectionOf(Map(PrintOne, ss)[i]) == Meaning(ss[i]) {
      assert ss[i] in ss;
      PrintedPiece(ss[i]);
    }
  }

  /** Splitting undoes printing: whatever unnumbered lines come first, the numbered sections
      come back with their numbers, titles and bodies, as long as no body has a heading line. */
  lemma SplitUndoesPrint(preface: seq<string>, ss: seq<Printed>)
    requires ss != [] && forall s :: s in ss ==> Printable(s)
    requires forall l :: l in preface ==> NoHeading(l)
    ensures Split(preface + Concat(Map(PrintOne, ss))) == Map(Meaning, ss)
  {
    hide NoHeading, Printable, PrintOne, SectionOf, Meaning, Run, Pieces, Concat;
    var printed := Concat(Map(PrintOne, ss));
    PrintedPieces(ss);
    PrintedMeaning(ss);
    RunIs(NoHeading, preface, printed);
    assert (preface + printed)[|preface|..] == printed;
  }

  /** A body text has only one reading as clean lines. */
  lemma BodyDeterminesLines(xs: seq<string>, ys: seq<string>)
    requires forall l :: l in xs ==> IsClean(l)
    requires forall l :: l in ys ==> IsClean(l)
    requires Text.Join('\n', xs) == Text.Join('\n', ys)
    ensures xs == ys
  {
    CleanLinesOfJoin(xs);
    CleanLinesOfJoin(ys);
  }
}
