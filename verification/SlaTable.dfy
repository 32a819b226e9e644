/** `app/documents/sla_table.py`: first-response targets out of a flattened grid, and out of a
    bullet list. */
module SlaTable {
  import opened Prelude
  import opened Enums
  import opened Records
  import opened TextLines
  import opened Durations
  import opened Cuts
  import Text

  const PLANS := ["Enterprise", "Growth", "Standard"]
  const SEVERITIES := [P1, P2, P3]

  datatype ParseError = NoHeader | BadHeader | BadRow(plan: string) | WrongCount(found: nat)

  function Target(sourceId: string, plan: Option<string>, accountId: Option<string>, s: Severity,
                  text: string): SlaTarget {
    var d := ParseDuration(text);
    SlaTarget(sourceId, plan, accountId, s, text, d.minutes, d.is24x7, d.businessCalendar)
  }

  // ---- The grid ----

  predicate IsHeaderAt(lines: seq<string>, h: nat) {
    h + 4 <= |lines| && lines[h..h + 4] == ["Plan", "P1", "P2", "P3"]
  }

  /** The line group of a plan starts at `i` and is complete. */
  predicate IsRowAt(lines: seq<string>, i: nat, plan: string) {
    i + 4 <= |lines| && lines[i] == plan
  }

  function RowTargets(sourceId: string, plan: string, cells: seq<string>): seq<SlaTarget>
    requires |cells| == 3
  {
    [Target(sourceId, Some(plan), None, P1, cells[0]), Target(sourceId, Some(plan), None, P2, cells[1]),
     Target(sourceId, Some(plan), None, P3, cells[2])]
  }

  /** The rows of plans `p` and up, read from `cursor`. */
  function Rows(sourceId: string, lines: seq<string>, cursor: nat, p: nat): Result<seq<SlaTarget>, ParseError>
    requires p <= 3
    decreases 3 - p
  {
    if p == 3 then Ok([])
    else if !IsRowAt(lines, cursor, PLANS[p]) then Err(BadRow(PLANS[p]))
    else
      var row := RowTargets(sourceId, PLANS[p], lines[cursor + 1..cursor + 4]);
      match Rows(sourceId, lines, cursor + 4, p + 1)
      case Err(e) => Err(e)
      case Ok(rest) => Ok(row + rest)
  }

  predicate NotPlan(line: string) {
    line != "Plan"
  }

  function GridOf(sourceId: string, lines: seq<string>): Result<seq<SlaTarget>, ParseError> {
    var h := Run(NotPlan, lines);
    if h == |lines| then Err(NoHeader)
    else if !IsHeaderAt(lines, h) then Err(BadHeader)
    else Rows(sourceId, lines, h + 4, 0)
  }

  /** `lines.index("Plan")` */
  method IndexOfPlan(lines: seq<string>) returns (h: nat)
    ensures h == Run(NotPlan, lines)
  {
    h := 0;
    while h < |lines| && lines[h] != "Plan"
      invariant h <= Run(NotPlan, lines)
    {
      h := h + 1;
    }
  }

  /** The inner loop over the three cells of a row. */
  method ReadRow(sourceId: string, plan: string, cells: seq<string>) returns (row: seq<SlaTarget>)
    requires |cells| == 3
    ensures row == RowTargets(sourceId, plan, cells)
  {
    row := [];
    for k := 0 to 3
      invariant row == RowTargets(sourceId, plan, cells)[..k]
    {
      var text := cells[k];
      var d := ParseDuration(text);
      row := row + [SlaTarget(sourceId, Some(plan), None, SEVERITIES[k], text, d.minutes, d.is24x7,
                              d.businessCalendar)];
    }
  }

  /** The grid parser as written. */
  method ParseGridTable(body: string, sourceId: string) returns (r: Result<seq<SlaTarget>, ParseError>)
    ensures r == GridOf(sourceId, CleanLines(body))
  {
    hide RowTargets, CleanLines, Run;
    var lines := CleanLines(body);
    var header := IndexOfPlan(lines);
    if header == |lines| {
      return Err(NoHeader);
    }
    if header + 4 > |lines| || lines[header..header + 4] != ["Plan", "P1", "P2", "P3"] {
      return Err(BadHeader);
    }
    var cursor: nat := header + 4;
    var targets := [];
    if Rows(sourceId, lines, cursor, 0).Ok? {
      assert targets + Rows(sourceId, lines, cursor, 0).value == Rows(sourceId, lines, cursor, 0).value;
    }
    for p := 0 to 3
      invariant GridOf(sourceId, lines) ==
                match Rows(sourceId, lines, cursor, p)
                case Err(e) => Err(e)
                case Ok(rest) => Ok(targets + rest)
    {
      if cursor + 4 > |lines| || lines[cursor] != PLANS[p] {
        return Err(BadRow(PLANS[p]));
      }
      var row := ReadRow(sourceId, PLANS[p], lines[cursor + 1..cursor + 4]);
      if Rows(sourceId, lines, cursor + 4, p + 1).Ok? {
        ConcatAssociative(targets, row, Rows(sourceId, lines, cursor + 4, p + 1).value);
      }
      targets := targets + row;
      cursor := cursor + 4;
    }
    assert targets + [] == targets;
    return Ok(targets);
  }

  // ---- What the grid parser accepts, and what it reads ----

  /** A row as it is laid out: the plan and three cells. */
  datatype Row = Row(first: string, second: string, third: string)

  function Cells(r: Row): seq<string> {
    [r.first, r.second, r.third]
  }

  /** The header and the three plan rows. */
  function GridLines(enterprise: Row, growth: Row, standard: Row): seq<string> {
    ["Plan", "P1", "P2", "P3"] + (["Enterprise"] + Cells(enterprise))
    + (["Growth"] + Cells(growth)) + (["Standard"] + Cells(standard))
  }

  function GridTargets(sourceId: string, enterprise: Row, growth: Row, standard: Row): seq<SlaTarget> {
    RowTargets(sourceId, "Enterprise", Cells(enterprise)) + RowTargets(sourceId, "Growth", Cells(growth))
    + RowTargets(sourceId, "Standard", Cells(standard))
  }

  /** Reading undoes writing: a grid is read back cell by cell, whatever lines other than "Plan"
      come before it and whatever comes after. */
  lemma GridRoundTrip(sourceId: string, lead: seq<string>, enterprise: Row, growth: Row, standard: Row,
                      tail: seq<string>)
    requires "Plan" !in lead
    ensures GridOf(sourceId, lead + GridLines(enterprise, growth, standard) + tail)
         == Ok(GridTargets(sourceId, enterprise, growth, standard))
  {
    hide RowTargets;
    var grid := GridLines(enterprise, growth, standard);
    var lines, h := lead + grid + tail, |lead|;
    assert lines == lead + (grid + tail);
    RunIs(NotPlan, lead, grid + tail);
    assert forall i :: 0 <= i < 16 ==> lines[h + i] == grid[i];
    assert lines[h..h + 4] == ["Plan", "P1", "P2", "P3"];
    assert lines[h + 5..h + 8] == Cells(enterprise);
    assert lines[h + 9..h + 12] == Cells(growth);
    assert lines[h + 13..h + 16] == Cells(standard);
    ThreeRows(sourceId, lines, h + 4);
  }

  lemma ThreeRows(sourceId: string, lines: seq<string>, c: nat)
    ensures Rows(sourceId, lines, c, 0).Ok? <==>
              c + 12 <= |lines| && lines[c] == "Enterprise" && lines[c + 4] == "Growth" && lines[c + 8] == "Standard"
    ensures Rows(sourceId, lines, c, 0).Ok? ==>
              Rows(sourceId, lines, c, 0).value ==
              RowTargets(sourceId, "Enterprise", lines[c + 1..c + 4])
              + RowTargets(sourceId, "Growth", lines[c + 5..c + 8])
              + RowTargets(sourceId, "Standard", lines[c + 9..c + 12])
  {
    hide RowTargets;
    assert Rows(sourceId, lines, c + 12, 3) == Ok([]);
    var third := Rows(sourceId, lines, c + 8, 2);
    var second := Rows(sourceId, lines, c + 4, 1);
    if third.Ok? && second.Ok? && c + 12 <= |lines| {
      ConcatAssociative(RowTargets(sourceId, "Enterprise", lines[c + 1..c + 4]),
                        RowTargets(sourceId, "Growth", lines[c + 5..c + 8]), third.value);
    }
  }

  /** The same from the text itself: clean cells, one to a line. */
  lemma GridTextRoundTrip(sourceId: string, lead: seq<string>, enterprise: Row, growth: Row, standard: Row)
    requires "Plan" !in lead && forall l :: l in lead ==> IsClean(l)
    requires forall c :: c in Cells(enterprise) + Cells(growth) + Cells(standard) ==> IsClean(c)
    ensures GridOf(sourceId, CleanLines(Text.Join('\n', lead + GridLines(enterprise, growth, standard))))
         == Ok(GridTargets(sourceId, enterprise, growth, standard))
  {
    hide GridOf, GridTargets, CleanLines;
    var grid := GridLines(enterprise, growth, standard);
    forall l | l in lead + grid ensures IsClean(l) {
      if l in grid {
        GridLineClean(enterprise, growth, standard, l);
      }
    }
    CleanLinesOfJoin(lead + grid);
    assert lead + grid + [] == lead + grid;
    GridRoundTrip(sourceId, lead, enterprise, growth, standard, []);
  }

  lemma GridLineClean(enterprise: Row, growth: Row, standard: Row, l: string)
    requires forall c :: c in Cells(enterprise) + Cells(growth) + Cells(standard) ==> IsClean(c)
    requires l in GridLines(enterprise, growth, standard)
    ensures IsClean(l)
  {
    if l !in Cells(enterprise) + Cells(growth) + Cells(standard) {
      assert l in ["Plan", "P1", "P2", "P3", "Enterprise", "Growth", "Standard"];
    }
  }

  /** Some grid stands in the lines after what leads up to their first "Plan". */
  ghost predicate HasGrid(lines: seq<string>) {
    exists lead, enterprise, growth, standard, tail ::
      "Plan" !in lead && lines == lead + GridLines(enterprise, growth, standard) + tail
  }

  /** The parser accepts exactly the lines that have a grid after their first "Plan". */
  lemma GridAcceptsExactly(sourceId: string, lines: seq<string>)
    ensures GridOf(sourceId, lines).Ok? <==> HasGrid(lines)
  {
    hide GridOf, HasGrid;
    if GridOf(sourceId, lines).Ok? {
      GridNeeded(sourceId, lines);
    } else if HasGrid(lines) {
      GridAccepted(sourceId, lines);
    }
  }

  lemma GridNeeded(sourceId: string, lines: seq<string>)
    requires GridOf(sourceId, lines).Ok?
    ensures HasGrid(lines)
  {
    hide Rows, HasGrid, Run;
    var h := Run(NotPlan, lines);
    ThreeRows(sourceId, lines, h + 4);
    ThreeParts(lines, h, h + 16);
    var lead, g := lines[..h], lines[h..h + 16];
    assert g[..4] == lines[h..h + 4];
    assert forall l :: l in lead ==> NotPlan(l);
    GridFound(lead, g, lines[h + 16..]);
  }

  /** The lines are those of a text whose grid has clean cells. */
  ghost predicate HasCleanGrid(lines: seq<string>) {
    exists lead, enterprise, growth, standard, tail ::
      && "Plan" !in lead && lines == lead + GridLines(enterprise, growth, standard) + tail
      && forall c :: c in Cells(enterprise) + Cells(growth) + Cells(standard) ==> IsClean(c)
  }

  /** On any text at all, the parser accepts exactly when its clean lines have a grid after the
      first "Plan", and every cell it then reads is clean: no surrounding white space, never
      empty. */
  lemma GridTextAcceptsExactly(sourceId: string, text: string)
    ensures GridOf(sourceId, CleanLines(text)).Ok? <==> HasCleanGrid(CleanLines(text))
  {
    hide GridOf, CleanLines;
    var lines := CleanLines(text);
    GridAcceptsExactly(sourceId, lines);
    CleanLinesAreClean(text);
    if HasGrid(lines) {
      CleanGrid(lines);
    }
  }

  lemma CleanGrid(lines: seq<string>)
    requires HasGrid(lines) && forall l :: l in lines ==> IsClean(l)
    ensures HasCleanGrid(lines)
  {
    hide IsClean;
    var lead, enterprise, growth, standard, tail :|
      "Plan" !in lead && lines == lead + GridLines(enterprise, growth, standard) + tail;
    forall c | c in Cells(enterprise) + Cells(growth) + Cells(standard) ensures IsClean(c) {
      assert c in GridLines(enterprise, growth, standard);
      assert c in lines;
    }
  }

  lemma GridAccepted(sourceId: string, lines: seq<string>)
    requires HasGrid(lines)
    ensures GridOf(sourceId, lines).Ok?
  {
    hide GridLines, GridOf, GridTargets;
    var lead, enterprise, growth, standard, tail :|
      "Plan" !in lead && lines == lead + GridLines(enterprise, growth, standard) + tail;
    GridRoundTrip(sourceId, lead, enterprise, growth, standard, tail);
  }

  lemma GroupIsGrid(g: seq<string>)
    requires |g| == 16 && g[..4] == ["Plan", "P1", "P2", "P3"]
    requires g[4] == "Enterprise" && g[8] == "Growth" && g[12] == "Standard"
    ensures g == GridLines(Row(g[5], g[6], g[7]), Row(g[9], g[10], g[11]), Row(g[13], g[14], g[15]))
  {
    assert g[4..8] == ["Enterprise", g[5], g[6], g[7]];
    assert g[8..12] == ["Growth", g[9], g[10], g[11]];
    assert g[12..] == ["Standard", g[13], g[14], g[15]];
    assert g == g[..4] + g[4..8] + g[8..12] + g[12..];
  }

  lemma GridFound(lead: seq<string>, g: seq<string>, tail: seq<string>)
    requires "Plan" !in lead && |g| == 16 && g[..4] == ["Plan", "P1", "P2", "P3"]
    requires g[4] == "Enterprise" && g[8] == "Growth" && g[12] == "Standard"
    ensures HasGrid(lead + g + tail)
  {
    hide GridLines, HasGrid;
    GroupIsGrid(g);
    GridStands(lead + g + tail, lead, Row(g[5], g[6], g[7]), Row(g[9], g[10], g[11]),
               Row(g[13], g[14], g[15]), tail);
  }

  lemma GridStands(lines: seq<string>, lead: seq<string>, enterprise: Row, growth: Row, standard: Row,
                   tail: seq<string>)
    requires "Plan" !in lead && lines == lead + GridLines(enterprise, growth, standard) + tail
    ensures HasGrid(lines)
  {
    hide GridLines;
  }

  /** The nine targets of a grid, in reading order: each has its plan and severity, its cell's text,
      and what that text says about time. */
  lemma GridTargetsExactly(sourceId: string, enterprise: Row, growth: Row, standard: Row, i: nat)
    requires i < 9
    ensures var targets := GridTargets(sourceId, enterprise, growth, standard);
            var cell := [enterprise.first, enterprise.second, enterprise.third, growth.first, growth.second, growth.third,
                         standard.first, standard.second, standard.third][i];
            var d := ParseDuration(cell);
            && |targets| == 9
            && targets[i] == SlaTarget(sourceId, Some(["Enterprise", "Growth", "Standard"][i / 3]), None, [P1, P2, P3][i % 3],
                                       cell, d.minutes, d.is24x7, d.businessCalendar)
  {
    hide ParseDuration;
  }

  /** Why lines are refused: there is no "Plan"; the first one heads no grid; or the row of a plan, the
      first such plan, is not where it should be, or not complete. */
  lemma GridRefusedExactly(sourceId: string, lines: seq<string>, h: nat)
    requires h <= |lines| && (forall j :: 0 <= j < h ==> lines[j] != "Plan") && (h < |lines| ==> lines[h] == "Plan")
    ensures var r := GridOf(sourceId, lines);
            var headed := h + 4 <= |lines| && lines[h + 1] == "P1" && lines[h + 2] == "P2" && lines[h + 3] == "P3";
            && (r == Err(NoHeader) <==> h == |lines|)
            && (r == Err(BadHeader) <==> h < |lines| && !headed)
            && (r == Err(BadRow("Enterprise")) <==> headed && !(h + 8 <= |lines| && lines[h + 4] == "Enterprise"))
            && (r == Err(BadRow("Growth")) <==>
                  headed && h + 8 <= |lines| && lines[h + 4] == "Enterprise"
                  && !(h + 12 <= |lines| && lines[h + 8] == "Growth"))
            && (r == Err(BadRow("Standard")) <==>
                  headed && h + 12 <= |lines| && lines[h + 4] == "Enterprise" && lines[h + 8] == "Growth"
                  && !(h + 16 <= |lines| && lines[h + 12] == "Standard"))
  {
    hide RowTargets;
    assert lines[..h] + lines[h..] == lines;
    RunIs(NotPlan, lines[..h], lines[h..]);
    if h + 4 <= |lines| {
      var header := lines[h..h + 4];
      assert header[0] == lines[h] && header[1] == lines[h + 1] && header[2] == lines[h + 2] && header[3] == lines[h + 3];
      assert header == [header[0], header[1], header[2], header[3]];
      RowsFail(sourceId, lines, h + 4);
    }
  }

  lemma RowsFail(sourceId: string, lines: seq<string>, c: nat)
    ensures var r := Rows(sourceId, lines, c, 0);
            var first, second, third := IsRowAt(lines, c, "Enterprise"), IsRowAt(lines, c + 4, "Growth"), IsRowAt(lines, c + 8, "Standard");
            if !first then r == Err(BadRow("Enterprise")) else if !second then r == Err(BadRow("Growth"))
            else if !third then r == Err(BadRow("Standard")) else r.Ok?
  {
    hide RowTargets;
    assert Rows(sourceId, lines, c + 12, 3) == Ok([]);
    var third := Rows(sourceId, lines, c + 8, 2);
    var second := Rows(sourceId, lines, c + 4, 1);
  }

  // ---- The bullet list ----

  /** The bullet pattern at position `i`: a severity, a colon, and at least one character. */
  predicate BulletAt(line: string, i: nat) {
    && i + 3 < |line| && line[i] == 'P' && '1' <= line[i + 1] <= '3' && line[i + 2] == ':'
  }

  function FirstBullet(line: string, i: nat): (at: Option<nat>)
    requires i <= |line|
    ensures at.Some? ==> i <= at.value && BulletAt(line, at.value)
    ensures forall j :: i <= j < (if at.Some? then at.value else |line|) ==> !BulletAt(line, j)
    decreases |line| - i
  {
    if i == |line| then None
    else if BulletAt(line, i) then Some(i)
    else FirstBullet(line, i + 1)
  }

  function SeverityOf(c: char): Severity {
    if c == '1' then P1 else if c == '2' then P2 else P3
  }

  function BulletTargets(sourceId: string, accountId: string, line: string): seq<SlaTarget> {
    match FirstBullet(line, 0)
    case None => []
    case Some(i) =>
      [Target(sourceId, None, Some(accountId), SeverityOf(line[i + 1]), Strip(line[i + 3..]))]
  }

  function BulletsIn(sourceId: string, accountId: string, lines: seq<string>): seq<SlaTarget> {
    if lines == [] then []
    else BulletTargets(sourceId, accountId, lines[0]) + BulletsIn(sourceId, accountId, lines[1..])
  }

  /** The target of a line: that of its first bullet, or none without one. */
  lemma BulletExactly(sourceId: string, accountId: string, line: string, i: nat)
    requires i <= |line| && forall j :: 0 <= j < i ==> !IsBullet(line[j..])
    requires i < |line| ==> IsBullet(line[i..])
    ensures var targets := BulletTargets(sourceId, accountId, line);
            if i == |line| then targets == []
            else
              var text, digit := Strip(line[i + 3..]), line[i + 1];
              var d := ParseDuration(text);
              targets == [SlaTarget(sourceId, None, Some(accountId), if digit == '1' then P1 else if digit == '2' then P2 else P3,
                                    text, d.minutes, d.is24x7, d.businessCalendar)]
  {
    hide ParseDuration, Strip;
    forall j | 0 <= j <= |line| ensures IsBullet(line[j..]) <==> BulletAt(line, j) {
      BulletIs(line, j);
    }
  }

  lemma BulletIs(line: string, j: nat)
    requires j <= |line|
    ensures IsBullet(line[j..]) <==> BulletAt(line, j)
  {
    if j + 3 < |line| {
      var head := line[j..][..3];
      assert head == [line[j], line[j + 1], line[j + 2]];
      assert BulletAt(line, j) ==> line[j + 1] in {'1', '2', '3'};
      assert "P1:" == ['P', '1', ':'] && "P2:" == ['P', '2', ':'] && "P3:" == ['P', '3', ':'];
    }
  }

  /** A severity, a colon, and something more. */
  predicate IsBullet(s: string) {
    |s| > 3 && s[..3] in {"P1:", "P2:", "P3:"}
  }

  lemma {:induction false} BulletsConcat(sourceId: string, accountId: string, xs: seq<string>, ys: seq<string>)
    ensures BulletsIn(sourceId, accountId, xs + ys)
         == BulletsIn(sourceId, accountId, xs) + BulletsIn(sourceId, accountId, ys)
  {
    hide BulletTargets;
    if xs == [] {
      assert xs + ys == ys;
    } else {
      var tail := xs[1..];
      assert (xs + ys)[1..] == tail + ys;
      BulletsConcat(sourceId, accountId, tail, ys);
      ConcatAssociative(BulletTargets(sourceId, accountId, xs[0]), BulletsIn(sourceId, accountId, tail),
                        BulletsIn(sourceId, accountId, ys));
    }
  }

  lemma BulletsOne(sourceId: string, accountId: string, line: string)
    ensures BulletsIn(sourceId, accountId, [line]) == BulletTargets(sourceId, accountId, line)
  {
    hide BulletTargets;
    assert [line][1..] == [];
    assert BulletsIn(sourceId, accountId, []) == [];
  }

  function BulletsOf(sourceId: string, accountId: string, lines: seq<string>)
    : Result<seq<SlaTarget>, ParseError>
  {
    var targets := BulletsIn(sourceId, accountId, lines);
    if |targets| == 3 then Ok(targets) else Err(WrongCount(|targets|))
  }

  method ParseBulletTargets(body: string, sourceId: string, accountId: string)
    returns (r: Result<seq<SlaTarget>, ParseError>)
    ensures r == BulletsOf(sourceId, accountId, Lines(body))
  {
    var lines := Lines(body);
    var targets: seq<SlaTarget> := [];
    for k := 0 to |lines|
      invariant targets == BulletsIn(sourceId, accountId, lines[..k])
    {
      assert lines[..k + 1] == lines[..k] + [lines[k]];
      BulletsConcat(sourceId, accountId, lines[..k], [lines[k]]);
      BulletsOne(sourceId, accountId, lines[k]);
      var i := FirstBullet(lines[k], 0);
      if i == None {
        continue;
      }
      var text := Strip(lines[k][i.value + 3..]);
      var d := ParseDuration(text);
      targets := targets +
        [SlaTarget(sourceId, None, Some(accountId), SeverityOf(lines[k][i.value + 1]), text, d.minutes,
                   d.is24x7, d.businessCalendar)];
    }
    assert lines[..|lines|] == lines;
    if |targets| != 3 {
      return Err(WrongCount(|targets|));
    }
    r := Ok(targets);
  }

  predicate NoBullet(line: string) {
    FirstBullet(line, 0).None?
  }

  /** The list is refused exactly when the number of lines with a bullet is not three, and the error
      says how many there are. */
  lemma {:induction false} BulletCount(sourceId: string, accountId: string, lines: seq<string>)
    ensures |BulletsIn(sourceId, accountId, lines)| == |Filter((l: string) => !NoBullet(l), lines)|
  {
    hide FirstBullet;
    if lines != [] {
      BulletCount(sourceId, accountId, lines[1..]);
    }
  }

  lemma BulletsRefusedExactly(sourceId: string, accountId: string, lines: seq<string>)
    ensures var n := |Filter((l: string) => exists i :: 0 <= i < |l| && IsBullet(l[i..]), lines)|;
            BulletsOf(sourceId, accountId, lines)
            == if n == 3 then Ok(BulletsIn(sourceId, accountId, lines)) else Err(WrongCount(n))
  {
    hide BulletsIn;
    BulletCount(sourceId, accountId, lines);
    forall l: string ensures !NoBullet(l) <==> exists i :: 0 <= i < |l| && IsBullet(l[i..]) {
      BulletStands(l);
    }
    FilterAgree((l: string) => !NoBullet(l), (l: string) => exists i :: 0 <= i < |l| && IsBullet(l[i..]), lines);
  }

  lemma BulletStands(l: string)
    ensures !NoBullet(l) <==> exists i :: 0 <= i < |l| && IsBullet(l[i..])
  {
    forall j | 0 <= j <= |l| ensures IsBullet(l[j..]) <==> BulletAt(l, j) {
      BulletIs(l, j);
    }
  }

  function BulletLine(digit: char, text: string): string {
    "- P" + [digit] + ": " + text
  }

  lemma BulletRoundTrip(sourceId: string, accountId: string, digit: char, text: string)
    requires '1' <= digit <= '3' && IsClean(text)
    ensures BulletTargets(sourceId, accountId, BulletLine(digit, text))
         == [Target(sourceId, None, Some(accountId), SeverityOf(digit), text)]
  {
    hide Target;
    var line := BulletLine(digit, text);
    assert line[0] == '-' && line[1] == ' ' && line[2] == 'P' && line[3] == digit && line[4] == ':';
    assert BulletAt(line, 2) && !BulletAt(line, 0) && !BulletAt(line, 1);
    var at := FirstBullet(line, 0);
    assert at == Some(2);
    assert line[5..] == " " + text;
    assert (" " + text)[1..] == text;
    assert StripLeft(" " + text) == StripLeft(text) == text;
  }

  /** A printed bullet list comes back as its three targets, whatever lines without a bullet
      surround the bullets. */
  lemma BulletsRoundTrip(sourceId: string, accountId: string, first: string, second: string, third: string,
                         gaps: seq<seq<string>>)
    requires IsClean(first) && IsClean(second) && IsClean(third)
    requires |gaps| == 4 && forall g, l :: g in gaps && l in g ==> NoBullet(l)
    ensures BulletsOf(sourceId, accountId,
                      gaps[0] + [BulletLine('1', first)] + gaps[1] + [BulletLine('2', second)]
                      + gaps[2] + [BulletLine('3', third)] + gaps[3])
         == Ok([Target(sourceId, None, Some(accountId), P1, first),
                Target(sourceId, None, Some(accountId), P2, second),
                Target(sourceId, None, Some(accountId), P3, third)])
  {
    hide Target, BulletsIn, BulletLine, FirstBullet;
    var a, b, c := BulletLine('1', first), BulletLine('2', second), BulletLine('3', third);
    BulletRoundTrip(sourceId, accountId, '1', first);
    BulletRoundTrip(sourceId, accountId, '2', second);
    BulletRoundTrip(sourceId, accountId, '3', third);
    assert gaps[0] in gaps && gaps[1] in gaps && gaps[2] in gaps && gaps[3] in gaps;
    GapAndBullet(sourceId, accountId, [], gaps[0], a);
    assert [] + gaps[0] + [a] == gaps[0] + [a];
    GapAndBullet(sourceId, accountId, gaps[0] + [a], gaps[1], b);
    GapAndBullet(sourceId, accountId, gaps[0] + [a] + gaps[1] + [b], gaps[2], c);
    BulletsConcat(sourceId, accountId, gaps[0] + [a] + gaps[1] + [b] + gaps[2] + [c], gaps[3]);
    GapsAreEmpty(sourceId, accountId, gaps[3]);
    assert BulletsIn(sourceId, accountId, []) == [] by {
      GapsAreEmpty(sourceId, accountId, []);
    }
    var t1 := Target(sourceId, None, Some(accountId), P1, first);
    var t2 := Target(sourceId, None, Some(accountId), P2, second);
    var t3 := Target(sourceId, None, Some(accountId), P3, third);
    assert BulletsIn(sourceId, accountId, gaps[0] + [a]) == [t1];
    assert BulletsIn(sourceId, accountId, gaps[0] + [a] + gaps[1] + [b]) == [t1, t2];
    assert BulletsIn(sourceId, accountId, gaps[0] + [a] + gaps[1] + [b] + gaps[2] + [c]) == [t1, t2, t3];
    assert [t1, t2, t3] + [] == [t1, t2, t3];
  }

  lemma GapAndBullet(sourceId: string, accountId: string, before: seq<string>, gap: seq<string>, line: string)
    requires forall l :: l in gap ==> NoBullet(l)
    ensures BulletsIn(sourceId, accountId, before + gap + [line])
         == BulletsIn(sourceId, accountId, before) + BulletTargets(sourceId, accountId, line)
  {
    BulletsConcat(sourceId, accountId, before, gap);
    BulletsConcat(sourceId, accountId, before + gap, [line]);
    GapsAreEmpty(sourceId, accountId, gap);
    BulletsOne(sourceId, accountId, line);
  }

  lemma {:induction false} GapsAreEmpty(sourceId: string, accountId: string, gap: seq<string>)
    requires forall l :: l in gap ==> NoBullet(l)
    ensures BulletsIn(sourceId, accountId, gap) == []
  {
    if gap != [] {
      assert gap[0] in gap;
      GapsAreEmpty(sourceId, accountId, gap[1..]);
    }
  }

  // ---- Rows the SLA calculation cannot use ----

  lemma SoonSaysNothing()
    ensures ParseDuration("soon").minutes.None? && !ParseDuration("soon").businessCalendar
  {
    assert Text.Lower("soon") == "soon";
    assert !Text.Contains("soon", "business");
    SoonHasNoDigits();
    NoDigitsNoMatch("soon", 0);
  }

  lemma SoonHasNoDigits()
    ensures forall i :: 0 <= i <= 4 ==> DigitRun("soon", i) == 0
  {
  }

  /** The text of a cell says a clock time, or speaks of business time. */
  predicate SaysWhen(cell: string) {
    Text.Contains(Text.Lower(cell), "business") || Search(Text.Lower(cell), 0).Some?
  }

  /** A grid whose cells all say when is what the SLA calculation can use, and no other grid. */
  lemma UsableExactlyWhen(sourceId: string, enterprise: Row, growth: Row, standard: Row)
    ensures (forall t :: t in GridTargets(sourceId, enterprise, growth, standard) ==>
                           t.minutes.Some? || t.businessCalendar)
            <==> forall c :: c in Cells(enterprise) + Cells(growth) + Cells(standard) ==> SaysWhen(c)
  {
    hide Target, SaysWhen;
    var targets := GridTargets(sourceId, enterprise, growth, standard);
    var cells := Cells(enterprise) + Cells(growth) + Cells(standard);
    forall i | 0 <= i < 9
      ensures SaysWhen(cells[i]) <==> targets[i].minutes.Some? || targets[i].businessCalendar
    {
      var plan := Some(PLANS[i / 3]);
      TargetUsable(sourceId, plan, cells[i], SEVERITIES[i % 3]);
      assert targets[i] == Target(sourceId, plan, None, SEVERITIES[i % 3], cells[i]);
    }
    assert |targets| == |cells| == 9;
    assert forall i :: 0 <= i < 9 ==> targets[i] in targets && cells[i] in cells;
  }

  lemma TargetUsable(sourceId: string, plan: Option<string>, text: string, s: Severity)
    ensures var t := Target(sourceId, plan, None, s, text);
            SaysWhen(text) <==> t.minutes.Some? || t.businessCalendar
  {
  }

  lemma {:induction false} NoDigitsNoMatch(s: string, i: nat)
    requires i <= |s| && forall k :: i <= k <= |s| ==> DigitRun(s, k) == 0
    ensures Search(s, i) == None
    decreases |s| - i
  {
    if i < |s| {
      NoDigitsNoMatch(s, i + 1);
    }
  }
}
