/** Why aggregates need tickets that are not named like known issues: a wider scope that loses
    one. */
module RadarClash {
  import opened Prelude
  import opened Enums
  import opened Ordering
  import opened Records
  import opened Repository
  import opened Applicability
  import opened SeverityVote
  import opened Fingerprint
  import opened RadarRules
  import opened KnownIssues
  import opened RadarService
  import opened RadarLaws
  import opened RadarScope
  import opened TextLines
  import Text

  const PRINTER := "KI-1 printer jammed"
  const WEBHOOK := "KI-2 webhook delayed"

  /** Each ticket is named like the issue that the other one matches. */
  const ABOUT_WEBHOOK := Ticket("KI-1", "A", 0, Open, "webhook", "delayed", "email", "", 0, None)
  const ABOUT_PRINTER := Ticket("KI-2", "B", 0, Open, "printer", "jammed", "email", "", 0, None)

  function ClashDb(): Database {
    Database([Account("A", "Acme", "Growth", "active", "", None, false, ""),
              Account("B", "Birch", "Growth", "active", "", None, false, "")],
             [], [ABOUT_WEBHOOK, ABOUT_PRINTER], [], [],
             [Chunk("SRC-05", "1", "1", true, true, PRINTER), Chunk("SRC-05", "1", "2", true, true, WEBHOOK)])
  }

  const WORDS := {"printer", "jammed", "webhook", "delayed"}

  /** The words of four letters and more in the texts above. */
  function WordsIn(text: string): set<string> {
    set w | w in WORDS && Text.Contains(Text.Lower(text), w)
  }

  function ClashConfig(): Config {
    Config(Registry([], map[]), Lexicon([], [], [], WordsIn), key => key, DEFAULT_WARNING_RATIO,
           DEFAULT_RECURRING_THRESHOLD, DEFAULT_CARRIER_THRESHOLD, DEFAULT_KNOWN_ISSUE_MINIMUM, 30, "30d", 0)
  }

  const ONLY_B := Auth(SupportAgent, Some(["B"]))
  const EVERYONE := Auth(OperationsAdmin, None)

  // ---- The texts ----

  lemma Present(before: string, part: string, after: string)
    ensures Text.Contains(before + part + after, part)
  {
    var s := before + part + after;
    assert s[|before|..|before| + |part|] == part;
    assert Text.OccursAt(s, part, |before|);
  }

  lemma Absent(s: string, part: string, k: nat)
    requires k < |part| && part[k] !in s
    ensures !Text.Contains(s, part)
  {
    forall i | 0 <= i <= |s| ensures !Text.OccursAt(s, part, i) {
      if i + |part| <= |s| {
        assert s[i..i + |part|][k] == s[i + k];
      }
    }
  }

  lemma LowerIs(text: string, lower: string)
    requires |text| == |lower| && forall i :: 0 <= i < |text| ==> Text.LowerChar(text[i]) == lower[i]
    ensures Text.Lower(text) == lower
  {
  }

  lemma PrinterWords(text: string, id: string)
    requires id in {"", "ki-1 "} && Text.Lower(text) == id + "printer" + " jammed"
    ensures WordsIn(text) == {"printer", "jammed"} && !Text.Contains(Text.Lower(text), "resolved")
  {
    hide Text.Contains, Text.Lower;
    var lower := id + "printer" + " jammed";
    Present(id, "printer", " jammed");
    assert lower == id + "printer " + "jammed" + "";
    Present(id + "printer ", "jammed", "");
    Absent(lower, "webhook", 0);
    Absent(lower, "delayed", 2);
    Absent(lower, "resolved", 4);
  }

  lemma WebhookWords(text: string, id: string)
    requires id in {"", "ki-2 "} && Text.Lower(text) == id + "webhook" + " delayed"
    ensures WordsIn(text) == {"webhook", "delayed"} && !Text.Contains(Text.Lower(text), "resolved")
  {
    hide Text.Contains, Text.Lower;
    var lower := id + "webhook" + " delayed";
    Present(id, "webhook", " delayed");
    assert lower == id + "webhook " + "delayed" + "";
    Present(id + "webhook ", "delayed", "");
    Absent(lower, "printer", 0);
    Absent(lower, "jammed", 0);
    Absent(lower, "resolved", 0);
  }

  /** A text with its only mention at the front. */
  lemma OneMention(text: string)
    requires |text| > 4 && text[..3] == "KI-" && IsDigit(text[3]) && text[4] == ' '
    requires forall j :: 0 < j < |text| ==> text[j] != 'K'
    ensures Mentions(text) == [0] && IsMention(text, 0) && MentionText(text, 0) == text[..4]
  {
    DigitRunOf(text, 3, 1);
    assert text[0..3] == "KI-";
    assert IsMention(text, 0);
    MentionsAscend(text, 0);
    var ms := Mentions(text);
    assert 0 in ms && (|ms| > 1 ==> ms[0] < ms[1]);
    forall k | 0 <= k < |ms| ensures ms[k] == 0 {
      assert text[ms[k]..ms[k] + 3][0] == 'K';
    }
  }

  lemma OneIssue(lex: Lexicon, c: Chunk)
    requires |c.text| > 4 && c.text[..3] == "KI-" && IsDigit(c.text[3]) && c.text[4] == ' '
    requires forall j :: 0 < j < |c.text| ==> c.text[j] != 'K'
    ensures IssuesOf(lex, c)
         == [Issue(c.text[..4], c.sourceId, c.section, Text.Contains(Text.Lower(c.text), "resolved"), lex.tokens(c.text))]
  {
    hide MentionText, IsMention, Text.Contains;
    OneMention(c.text);
    assert c.text[0..|c.text|] == c.text;
    assert IssuesOf(lex, c)[0] == IssueAt(lex, c, 0);
  }

  // ---- The rule ----

  lemma FilterOne<T>(p: T -> bool, x: T)
    ensures Filter(p, [x]) == if p(x) then [x] else []
  {
    assert [x][1..] == [];
  }

  lemma FilterTwo<T>(p: T -> bool, x: T, y: T)
    ensures Filter(p, [x, y]) == (if p(x) then [x] else []) + if p(y) then [y] else []
  {
    FilterOne(p, y);
    assert [x, y][1..] == [y];
  }

  lemma FlatMapTwo<T, U>(f: T -> seq<U>, x: T, y: T)
    ensures FlatMap(f, [x, y]) == f(x) + f(y)
  {
    assert [x, y][1..] == [y] && [y][1..] == [];
    assert FlatMap(f, [y]) == f(y) + FlatMap(f, []);
  }

  function PrinterIssue(): Issue {
    Issue("KI-1", "SRC-05", "1", false, {"printer", "jammed"})
  }

  function WebhookIssue(): Issue {
    Issue("KI-2", "SRC-05", "2", false, {"webhook", "delayed"})
  }

  lemma Issues()
    ensures ActiveIssues(ClashDb(), ClashConfig()) == [PrinterIssue(), WebhookIssue()]
  {
    hide IssuesOf, WordsIn;
    var lex, chunks := ClashConfig().lex, ClashDb().chunks;
    PrinterIssues();
    WebhookIssues();
    FilterTwo((c: Chunk) => c.productDoc && c.current, chunks[0], chunks[1]);
    FlatMapTwo((c: Chunk) => IssuesOf(lex, c), chunks[0], chunks[1]);
    FilterTwo((i: Issue) => !i.resolved, PrinterIssue(), WebhookIssue());
  }

  lemma PrinterIssues()
    ensures IssuesOf(ClashConfig().lex, ClashDb().chunks[0]) == [PrinterIssue()]
  {
    hide IssuesOf, Text.Contains, Text.Lower, WordsIn;
    LowerIs(PRINTER, "ki-1 " + "printer" + " jammed");
    PrinterWords(PRINTER, "ki-1 ");
    OneIssue(ClashConfig().lex, ClashDb().chunks[0]);
    assert PRINTER[..4] == "KI-1";
  }

  lemma WebhookIssues()
    ensures IssuesOf(ClashConfig().lex, ClashDb().chunks[1]) == [WebhookIssue()]
  {
    hide IssuesOf, Text.Contains, Text.Lower, WordsIn;
    LowerIs(WEBHOOK, "ki-2 " + "webhook" + " delayed");
    WebhookWords(WEBHOOK, "ki-2 ");
    OneIssue(ClashConfig().lex, ClashDb().chunks[1]);
    assert WEBHOOK[..4] == "KI-2";
  }

  lemma TicketsMatch()
    ensures var lex := ClashConfig().lex;
            && SharesVocabulary(lex, PrinterIssue(), ABOUT_PRINTER) && !SharesVocabulary(lex, PrinterIssue(), ABOUT_WEBHOOK)
            && SharesVocabulary(lex, WebhookIssue(), ABOUT_WEBHOOK) && !SharesVocabulary(lex, WebhookIssue(), ABOUT_PRINTER)
  {
    hide WordsIn;
    assert TicketText(ABOUT_PRINTER) == "printer jammed" && TicketText(ABOUT_WEBHOOK) == "webhook delayed";
    LowerIs("printer jammed", "" + "printer" + " jammed");
    LowerIs("webhook delayed", "" + "webhook" + " delayed");
    PrinterWords("printer jammed", "");
    WebhookWords("webhook delayed", "");
    var p, w: set<string> := {"printer", "jammed"}, {"webhook", "delayed"};
    assert p * p == p && w * w == w && p * w == {} && w * p == {};
  }

  function PrinterAlerts(): seq<Alert> {
    KnownIssueAlerts(ClashDb().chunks, ClashConfig(), PrinterIssue(), [ABOUT_PRINTER])
  }

  function WebhookAlerts(): seq<Alert> {
    KnownIssueAlerts(ClashDb().chunks, ClashConfig(), WebhookIssue(), [ABOUT_WEBHOOK])
  }

  lemma InScope()
    ensures Candidates(ClashDb(), EVERYONE, ClashConfig()) == [ABOUT_WEBHOOK, ABOUT_PRINTER]
    ensures Candidates(ClashDb(), ONLY_B, ClashConfig()) == [ABOUT_PRINTER]
  {
    var recent := (t: Ticket) => t.createdAt >= Cutoff(ClashConfig());
    FilterTwo((t: Ticket) => TicketWanted(EVERYONE, None, None, t), ABOUT_WEBHOOK, ABOUT_PRINTER);
    FilterTwo((t: Ticket) => TicketWanted(ONLY_B, None, None, t), ABOUT_WEBHOOK, ABOUT_PRINTER);
    FilterTwo(recent, ABOUT_WEBHOOK, ABOUT_PRINTER);
    FilterOne(recent, ABOUT_PRINTER);
  }

  lemma Matches(i: Issue)
    requires i in {PrinterIssue(), WebhookIssue()}
    ensures Matching(ClashConfig(), i, [ABOUT_WEBHOOK, ABOUT_PRINTER])
         == if i == PrinterIssue() then [ABOUT_PRINTER] else [ABOUT_WEBHOOK]
    ensures Matching(ClashConfig(), i, [ABOUT_PRINTER]) == if i == PrinterIssue() then [ABOUT_PRINTER] else []
  {
    hide SharesVocabulary;
    var shares := (t: Ticket) => SharesVocabulary(ClashConfig().lex, i, t);
    TicketsMatch();
    FilterTwo(shares, ABOUT_WEBHOOK, ABOUT_PRINTER);
    FilterOne(shares, ABOUT_PRINTER);
  }

  lemma RuleAlerts()
    ensures KnownIssuePatterns(ClashDb(), EVERYONE, ClashConfig()) == PrinterAlerts() + WebhookAlerts()
    ensures KnownIssuePatterns(ClashDb(), ONLY_B, ClashConfig()) == PrinterAlerts()
  {
    hide ActiveIssues, Matching, Candidates, CiteDocument, AlertId;
    Issues();
    InScope();
    Matches(PrinterIssue());
    Matches(WebhookIssue());
    AlertsOf(EVERYONE);
    AlertsOf(ONLY_B);
  }

  lemma AlertsOf(auth: Auth)
    requires ActiveIssues(ClashDb(), ClashConfig()) == [PrinterIssue(), WebhookIssue()]
    ensures var db, cfg := ClashDb(), ClashConfig();
            KnownIssuePatterns(db, auth, cfg)
            == KnownIssueAlerts(db.chunks, cfg, PrinterIssue(), Matching(cfg, PrinterIssue(), Candidates(db, auth, cfg)))
             + KnownIssueAlerts(db.chunks, cfg, WebhookIssue(), Matching(cfg, WebhookIssue(), Candidates(db, auth, cfg)))
  {
    hide ActiveIssues, Matching, Candidates, KnownIssueAlerts;
    var db, cfg := ClashDb(), ClashConfig();
    FlatMapTwo((i: Issue) => KnownIssueAlerts(db.chunks, cfg, i, Matching(cfg, i, Candidates(db, auth, cfg))),
               PrinterIssue(), WebhookIssue());
  }

  /** The two aggregates have one fingerprint: each is computed from the same two ids. */
  lemma OneFingerprint()
    ensures |PrinterAlerts()| == |WebhookAlerts()| == 1 && PrinterAlerts()[0].id == WebhookAlerts()[0].id
    ensures PrinterAlerts()[0].subject == "KI-1" && WebhookAlerts()[0].subject == "KI-2"
    ensures PrinterAlerts()[0].kind == WebhookAlerts()[0].kind == KnownIssuePattern
  {
    hide Key;
    Text.LessStrictTotal();
    var cfg := ClashConfig();
    var x, y := ["KI-1"] + ["KI-2"], ["KI-2"] + ["KI-1"];
    assert Map((t: Ticket) => t.ticketId, [ABOUT_PRINTER]) == ["KI-2"];
    assert Map((t: Ticket) => t.ticketId, [ABOUT_WEBHOOK]) == ["KI-1"];
    SameKey(x, y);
  }

  lemma SameKey(xs: seq<string>, ys: seq<string>)
    requires forall x :: x in xs <==> x in ys
    ensures Key(KnownIssuePattern, "30d", VERSION, xs) == Key(KnownIssuePattern, "30d", VERSION, ys)
  {
    Text.LessStrictTotal();
    SortDistinctCanonical(Text.Less, xs, ys);
  }

  lemma SeenOne(a: Alert)
    ensures Seen([a]) == map[a.id := a]
  {
    assert [a][..0] == [];
  }

  lemma SeenTwo(a: Alert, b: Alert)
    requires a.id == b.id
    ensures Seen([a] + [b]) == map[b.id := b]
  {
    SeenOne(a);
    SeenOne(b);
    SeenConcat([a], [b]);
  }

  /** Issue KI-1 is matched by a ticket named KI-2 and the other way round: the wider caller, who
      sees both tickets, loses the alert on KI-1 that the narrower one gets. */
  lemma WideningDropsAggregate()
    returns (db: Database, narrow: Auth, wide: Auth, cfg: Config, types: Option<seq<AlertType>>, a: Alert)
    ensures ValidTables(db) && Injective(cfg.digest) && Within(narrow, wide)
    ensures cfg.recurringThreshold > 0 && cfg.carrierThreshold > 0
    ensures Radar(db, wide, cfg, types).Ok? && Radar(db, narrow, cfg, types).Ok?
    ensures a in Radar(db, narrow, cfg, types).value && !PerRecord(a.kind)
    ensures !exists b :: b in Radar(db, wide, cfg, types).value && b.kind == a.kind && b.subject == a.subject
  {
    hide Radar, Canonical, KnownIssuePatterns, PrinterAlerts, WebhookAlerts;
    db, narrow, wide, cfg := ClashDb(), ONLY_B, EVERYONE, ClashConfig();
    types := Some([KnownIssuePattern]);
    ClashTables();
    RuleAlerts();
    OneFingerprint();
    a := PrinterAlerts()[0];
    var z := WebhookAlerts()[0];
    assert PrinterAlerts() == [a] && WebhookAlerts() == [z];
    SeenOne(a);
    SeenTwo(a, z);
    Runs(narrow);
    Runs(wide);
    InRadar(db, narrow, cfg, types, a);
    forall b | b in Radar(db, wide, cfg, types).value && b.kind == a.kind ensures b == z {
      InRadar(db, wide, cfg, types, b);
    }
  }

  lemma ClashTables()
    ensures ValidTables(ClashDb()) && Injective(ClashConfig().digest)
  {
    assert Text.Less("KI-1", "KI-2");
  }

  lemma Runs(auth: Auth)
    requires auth.role != RestrictedSupport
    ensures Radar(ClashDb(), auth, ClashConfig(), Some([KnownIssuePattern])).Ok?
  {
    hide Canonical, KnownIssuePatterns;
    assert [KnownIssuePattern][1..] == [];
  }
}
