/** The known-issue rule of `app/detection/rules.py`: product documents are cut at each KI
    mention, and each active piece is matched with tickets by shared vocabulary. */
module KnownIssues {
  import opened Prelude
  import opened Enums
  import opened Ordering
  import opened Records
  import opened Repository
  import opened SeverityVote
  import opened Fingerprint
  import opened RadarRules
  import opened TextLines
  import Text

  /** The pattern of a known-issue id, with its word boundaries, at position `i`. */
  predicate IsMention(text: string, i: nat) {
    && i + 3 <= |text| && text[i..i + 3] == "KI-"
    && (i == 0 || !IsWord(text[i - 1]))
    && var end := i + 3 + DigitRun(text, i + 3);
    && end > i + 3
    && (end == |text| || !IsWord(text[end]))
  }

  function MentionsFrom(text: string, i: nat): seq<nat>
    requires i <= |text|
    decreases |text| - i
  {
    if i == |text| then []
    else (if IsMention(text, i) then [i] else []) + MentionsFrom(text, i + 1)
  }

  function Mentions(text: string): seq<nat> {
    MentionsFrom(text, 0)
  }

  /** A mention is "KI-" and a number, standing alone as a word. */
  lemma MentionExactly(text: string, i: nat)
    ensures IsMention(text, i) <==>
              exists digits :: IsNumber(digits) && StandsAt(text, i, "KI-" + digits)
  {
    hide IsMention, IsNumber, StandsAt;
    if IsMention(text, i) {
      var digits := MentionStands(text, i);
    }
    if digits :| IsNumber(digits) && StandsAt(text, i, "KI-" + digits) {
      StandsIsMention(text, i, digits);
    }
  }

  lemma MentionStands(text: string, i: nat) returns (digits: string)
    requires IsMention(text, i)
    ensures IsNumber(digits) && StandsAt(text, i, "KI-" + digits)
  {
    hide DigitRun;
    var n := DigitRun(text, i + 3);
    digits := text[i + 3..i + 3 + n];
    DigitRunIsDigits(text, i + 3);
    assert forall k :: 0 <= k < n ==> digits[k] == text[i + 3 + k];
    assert text[i..i + 3 + n] == text[i..i + 3] + digits;
  }

  lemma StandsIsMention(text: string, i: nat, digits: string)
    requires IsNumber(digits) && StandsAt(text, i, "KI-" + digits)
    ensures IsMention(text, i)
  {
    hide DigitRun;
    var n, whole := |digits|, "KI-" + digits;
    assert text[i..i + 3] == whole[..3] == "KI-";
    assert forall k :: 0 <= k < n ==> text[i + 3 + k] == text[i..i + |whole|][3 + k] == digits[k];
    assert i + 3 + n < |text| ==> !IsDigit(text[i + 3 + n]);
    DigitRunOf(text, i + 3, n);
  }

  ghost predicate IsNumber(digits: string) {
    digits != [] && forall c :: c in digits ==> IsDigit(c)
  }

  /** The word stands at `i`, and no word goes on before or after it. */
  ghost predicate StandsAt(text: string, i: nat, word: string) {
    && i + |word| <= |text| && text[i..i + |word|] == word
    && (i > 0 ==> !IsWord(text[i - 1])) && (i + |word| < |text| ==> !IsWord(text[i + |word|]))
  }

  function MentionText(text: string, i: nat): string
    requires IsMention(text, i)
  {
    text[i..i + 3 + DigitRun(text, i + 3)]
  }

  ghost predicate Ascending(text: string, i: nat, ms: seq<nat>) {
    && (forall k :: 0 <= k < |ms| ==> i <= ms[k] < |text| && IsMention(text, ms[k]))
    && (forall k, l :: 0 <= k < l < |ms| ==> ms[k] < ms[l])
  }

  lemma {:induction false} MentionsAscend(text: string, i: nat)
    requires i <= |text|
    ensures Ascending(text, i, MentionsFrom(text, i))
    ensures forall j :: i <= j < |text| && IsMention(text, j) ==> j in MentionsFrom(text, i)
    decreases |text| - i
  {
    hide IsMention;
    if i < |text| {
      MentionsAscend(text, i + 1);
      var rest := MentionsFrom(text, i + 1);
      assert MentionsFrom(text, i) == if IsMention(text, i) then [i] + rest else rest;
      if IsMention(text, i) {
        OneMoreAscends(text, i, rest);
      }
    }
  }

  lemma OneMoreAscends(text: string, i: nat, rest: seq<nat>)
    requires i < |text| && IsMention(text, i) && Ascending(text, i + 1, rest)
    ensures Ascending(text, i, [i] + rest) && i in [i] + rest && forall j :: j in rest ==> j in [i] + rest
  {
    hide IsMention;
    var ms := [i] + rest;
    assert forall k :: 0 < k < |ms| ==> ms[k] == rest[k - 1];
  }

  /** Where the segment of mention `k` ends. */
  function SegmentEnd(text: string, ms: seq<nat>, k: nat): nat
    requires k < |ms|
  {
    if k + 1 < |ms| then ms[k + 1] else |text|
  }

  function Segment(text: string, ms: seq<nat>, k: nat): string
    requires ms == Mentions(text) && k < |ms|
  {
    MentionsAscend(text, 0);
    text[ms[k]..SegmentEnd(text, ms, k)]
  }

  function SegmentsFrom(text: string, ms: seq<nat>, k: nat): string
    requires ms == Mentions(text) && k <= |ms|
    decreases |ms| - k
  {
    if k == |ms| then [] else Segment(text, ms, k) + SegmentsFrom(text, ms, k + 1)
  }

  /** The segments tile the text from a mention to the end. */
  lemma {:induction false} SegmentsTile(text: string, k: nat)
    requires k < |Mentions(text)|
    ensures Mentions(text)[k] <= |text|
    ensures SegmentsFrom(text, Mentions(text), k) == text[Mentions(text)[k]..]
    decreases |Mentions(text)| - k
  {
    MentionsAscend(text, 0);
    if k + 1 < |Mentions(text)| {
      SegmentsTile(text, k + 1);
    }
  }

  /** A segment starts with its own mention and has no other mention of the text in it. */
  lemma SegmentHasOneMention(text: string, k: nat, j: nat)
    requires k < |Mentions(text)|
    requires Mentions(text)[k] <= j < SegmentEnd(text, Mentions(text), k)
    ensures IsMention(text, j) <==> j == Mentions(text)[k]
  {
    MentionsAscend(text, 0);
    var ms := Mentions(text);
    forall l | k < l < |ms| ensures SegmentEnd(text, ms, k) <= ms[l] {
    }
    if IsMention(text, j) {
      var l :| 0 <= l < |ms| && ms[l] == j;
    }
  }

  datatype Issue =
    Issue(kiId: string, sourceId: string, section: string, resolved: bool, tokens: set<string>)

  function IssueAt(lex: Lexicon, c: Chunk, k: nat): Issue
    requires k < |Mentions(c.text)|
  {
    MentionsAscend(c.text, 0);
    var ms := Mentions(c.text);
    var segment := Segment(c.text, ms, k);
    Issue(MentionText(c.text, ms[k]), c.sourceId, c.section,
          Text.Contains(Text.Lower(segment), "resolved"), lex.tokens(segment))
  }

  function IssuesOf(lex: Lexicon, c: Chunk): seq<Issue> {
    seq(|Mentions(c.text)|, k requires 0 <= k < |Mentions(c.text)| => IssueAt(lex, c, k))
  }

  function ParsedIssues(chunks: seq<Chunk>, lex: Lexicon): seq<Issue> {
    FlatMap((c: Chunk) => IssuesOf(lex, c), Filter((c: Chunk) => c.productDoc && c.current, chunks))
  }

  method ParseKnownIssues(chunks: seq<Chunk>, lex: Lexicon) returns (issues: seq<Issue>)
    ensures issues == ParsedIssues(chunks, lex)
  {
    hide Mentions, IssueAt;
    var rows := Filter((c: Chunk) => c.productDoc && c.current, chunks);
    ghost var rule := (c: Chunk) => IssuesOf(lex, c);
    issues := [];
    for r := 0 to |rows|
      invariant issues == FlatMap(rule, rows[..r])
    {
      FlatMapStep(rule, rows, r);
      ghost var before := issues;
      var matches := Mentions(rows[r].text);
      for i := 0 to |matches|
        invariant issues == before + IssuesOf(lex, rows[r])[..i]
      {
        issues := issues + [IssueAt(lex, rows[r], i)];
      }
    }
    assert rows[..|rows|] == rows;
  }

  /** The issue that chunk `c` mentions at `from`, in the piece of its text up to `to`. */
  ghost predicate IsIssueAt(lex: Lexicon, c: Chunk, from: nat, to: nat, i: Issue) {
    && from < to <= |c.text| && IsMention(c.text, from)
    && (forall j :: from < j < to ==> !IsMention(c.text, j)) && (to < |c.text| ==> IsMention(c.text, to))
    && i.kiId == c.text[from..from + 3 + DigitRun(c.text, from + 3)]
    && i.sourceId == c.sourceId && i.section == c.section
    && (i.resolved <==> Text.Contains(Text.Lower(c.text[from..to]), "resolved"))
    && i.tokens == lex.tokens(c.text[from..to])
  }

  /** The parsed issues are exactly those of the mentions in current product documents, each judged
      by its own piece: from its mention to the next one, or to the end of the text. */
  lemma ParsedExactly(chunks: seq<Chunk>, lex: Lexicon, i: Issue)
    ensures i in ParsedIssues(chunks, lex) <==>
              exists c, from: nat, to: nat :: c in chunks && c.productDoc && c.current && IsIssueAt(lex, c, from, to, i)
  {
    hide IssuesOf, IsIssueAt;
    var rows := Filter((c: Chunk) => c.productDoc && c.current, chunks);
    FlatMapMember((c: Chunk) => IssuesOf(lex, c), rows, i);
    forall c ensures c in rows <==> c in chunks && c.productDoc && c.current {
      FilterMember((c: Chunk) => c.productDoc && c.current, chunks, c);
    }
    forall c ensures i in IssuesOf(lex, c) <==> exists from: nat, to: nat :: IsIssueAt(lex, c, from, to, i) {
      IssuesExactly(lex, c, i);
    }
  }

  lemma IssuesExactly(lex: Lexicon, c: Chunk, i: Issue)
    ensures i in IssuesOf(lex, c) <==> exists from: nat, to: nat :: IsIssueAt(lex, c, from, to, i)
  {
    hide IsMention, Mentions, Text.Contains;
    var ms := Mentions(c.text);
    if i in IssuesOf(lex, c) {
      var k :| 0 <= k < |ms| && IssuesOf(lex, c)[k] == i;
      PieceEnds(c.text, k);
      assert IsIssueAt(lex, c, ms[k], SegmentEnd(c.text, ms, k), i);
    }
    if from: nat, to: nat :| IsIssueAt(lex, c, from, to, i) {
      AllMentions(c.text);
      var k :| 0 <= k < |ms| && ms[k] == from;
      PieceEnds(c.text, k);
      var end := SegmentEnd(c.text, ms, k);
      assert !(from < to < end) && !(from < end < to);
      assert IssuesOf(lex, c)[k] == i;
    }
  }

  lemma AllMentions(text: string)
    ensures forall j: nat :: j in Mentions(text) <==> j < |text| && IsMention(text, j)
  {
    MentionsAscend(text, 0);
  }

  /** A piece begins at its mention, has no other, and ends at the next mention or with the text. */
  lemma PieceEnds(text: string, k: nat)
    requires k < |Mentions(text)|
    ensures var ms := Mentions(text);
            var end := SegmentEnd(text, ms, k);
            && ms[k] < end <= |text| && IsMention(text, ms[k])
            && (forall j :: ms[k] < j < end ==> !IsMention(text, j)) && (end < |text| ==> IsMention(text, end))
            && Segment(text, ms, k) == text[ms[k]..end]
  {
    hide IsMention;
    MentionsAscend(text, 0);
    var ms := Mentions(text);
    forall j | ms[k] < j < SegmentEnd(text, ms, k) ensures !IsMention(text, j) {
      OtherMention(text, k, j);
    }
  }

  lemma OtherMention(text: string, k: nat, j: nat)
    requires k < |Mentions(text)| && Mentions(text)[k] < j < SegmentEnd(text, Mentions(text), k)
    ensures !IsMention(text, j)
  {
    hide IsMention;
    SegmentHasOneMention(text, k, j);
  }

  predicate SharesVocabulary(lex: Lexicon, issue: Issue, t: Ticket) {
    |lex.tokens(TicketText(t)) * issue.tokens| >= MIN_SHARED_TOKENS
  }

  function Candidates(db: Database, auth: Auth, cfg: Config): seq<Ticket> {
    Filter((t: Ticket) => t.createdAt >= Cutoff(cfg), Tickets(db, auth, None))
  }

  function Matching(cfg: Config, issue: Issue, ts: seq<Ticket>): seq<Ticket> {
    Filter((t: Ticket) => SharesVocabulary(cfg.lex, issue, t), ts)
  }

  function KnownIssueAlerts(chunks: seq<Chunk>, cfg: Config, issue: Issue, ts: seq<Ticket>): seq<Alert> {
    var ids := Map((t: Ticket) => t.ticketId, ts);
    if |ids| < cfg.knownIssueMinimum then []
    else
      [Alert(AlertId(cfg.digest, KnownIssuePattern, cfg.windowName, VERSION, [issue.kiId] + ids),
             KnownIssuePattern, Medium, issue.kiId, |ids|, cfg.knownIssueMinimum, cfg.windowName,
             SortDistinct(Text.Less, ids),
             SortDistinct(Text.Less, Map((t: Ticket) => t.accountId, ts)),
             [CiteDocument(chunks, issue.sourceId, issue.section, Some(issue.kiId))]
             + Map((id: string) => CiteStructured("tickets", id), ids), Confident)]
  }

  function ActiveIssues(db: Database, cfg: Config): seq<Issue> {
    Filter((i: Issue) => !i.resolved, ParsedIssues(db.chunks, cfg.lex))
  }

  function KnownIssuePatterns(db: Database, auth: Auth, cfg: Config): seq<Alert> {
    FlatMap((i: Issue) => KnownIssueAlerts(db.chunks, cfg, i, Matching(cfg, i, Candidates(db, auth, cfg))),
            ActiveIssues(db, cfg))
  }

  method DetectKnownIssuePatterns(db: Database, auth: Auth, cfg: Config) returns (alerts: seq<Alert>)
    ensures alerts == KnownIssuePatterns(db, auth, cfg)
  {
    var parsed := ParseKnownIssues(db.chunks, cfg.lex);
    var issues := Filter((i: Issue) => !i.resolved, parsed);
    if issues == [] {
      return [];
    }
    var found := SearchTickets(db, auth, None, None);
    var candidates := Filter((t: Ticket) => t.createdAt >= Cutoff(cfg), found.value);
    assert candidates == Candidates(db, auth, cfg);
    ghost var rule := (i: Issue) =>
      KnownIssueAlerts(db.chunks, cfg, i, Matching(cfg, i, Candidates(db, auth, cfg)));
    alerts := [];
    for k := 0 to |issues|
      invariant alerts == FlatMap(rule, issues[..k])
    {
      FlatMapStep(rule, issues, k);
      alerts := alerts + KnownIssueAlerts(db.chunks, cfg, issues[k], Matching(cfg, issues[k], candidates));
    }
    assert issues[..|issues|] == issues;
  }
}
