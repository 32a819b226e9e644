/** Two complete runs, step by step, of one question about one ticket: its severity signals tie,
    and the run ends completed and not escalated; and with a priced model the same question can
    cost more than its budget. */
module SampleRun {
  import opened Prelude
  import opened Enums
  import opened Records
  import opened Repository
  import opened Applicability
  import opened SeverityVote
  import opened TextLines
  import opened Entities
  import opened Planner
  import opened Tools
  import opened EvidencePack
  import opened Orchestrator
  import opened AgentTrust
  import opened CostLaws
  import Citations
  import Trust
  import Text

  const ID := "TKT-1"

  const TICKET :=
    Ticket(ID, "ACCT-1", 0, Open, "complete outage", "but intermittent", "email", "", 0, None)

  const ACCOUNT := Account("ACCT-1", "Acme Logistics", "Growth", "active", "", None, false, "")

  const DB := Database([ACCOUNT], [], [TICKET], [], [], [])

  const ANYONE := Auth(SupportAgent, None)

  const STEPS := [Lookup(LookupTicket, ID), Calculate(CalcSeverity, ID), Search(SupportPolicies)]

  /** A pattern that is a phrase, in any case. */
  function Phrase(phrase: string): Signal {
    Signal(text => Text.Contains(Text.Lower(text), phrase), phrase)
  }

  /** One phrase of the P1 definitions and one of the P2 definitions. */
  function TwoPhrases(): Lexicon {
    Lexicon([Phrase("complete outage")], [Phrase("intermittent")], [], text => {})
  }

  function SampleWorld(): World {
    World(DB, ANYONE, Registry([], map[]), map[], map[], TwoPhrases(), 0, sources => Ok([]))
  }

  /** The default budget: six iterations and tool calls, two model calls, half a dollar. */
  function SampleEnvironment(estimate: Option<real>): Environment {
    Environment(SampleWorld(), Budget(6, 6, 2, 8000, 30.0, 0.5), step => ToolSpec(10.0, false, 0), i => 0.0,
                i => k => 0.0, (pack, trust) => 400, tokens => estimate)
  }

  /** The question as the patterns read it: one id token, a severity keyword, one significant
      word. */
  function SeverityQuestion(): Question {
    Question("severity of TKT-1?", [ID], false, false, false, false, true, false, true, false, {"severity"})
  }

  function Plainly(p: Prompt): Reply {
    Reply("unclear", 0.0)
  }

  // ---- The input is one the patterns can read ----

  /** The shape of an id token: two to eight letters, a hyphen, one to ten digits. */
  ghost predicate IsIdToken(token: string) {
    exists n: nat :: HyphenAt(token, n)
  }

  predicate HyphenAt(token: string, n: nat) {
    && 2 <= n <= 8 && n + 1 < |token| <= n + 11 && token[n] == '-'
    && (forall i :: 0 <= i < n ==> 'a' <= token[i] <= 'z' || 'A' <= token[i] <= 'Z')
    && (forall i :: n < i < |token| ==> IsDigit(token[i]))
  }

  /** The tokens of a question are exactly the id tokens that stand in its text as whole words,
      and its words stand in it too. */
  ghost predicate ReadsFromText(q: Question) {
    && (forall token :: token in q.tokens <==>
          IsIdToken(token) && exists i :: 0 <= i <= |q.text| && StandsAlone(q.text, token, i))
    && (forall word :: word in q.words ==> Text.Contains(Text.Lower(q.text), word))
  }

  predicate StandsAlone(text: string, part: string, i: nat) {
    && Text.OccursAt(text, part, i)
    && (i == 0 || !IsWord(text[i - 1])) && (i + |part| == |text| || !IsWord(text[i + |part|]))
  }

  lemma QuestionReads()
    ensures ReadsFromText(SeverityQuestion())
  {
    hide IsIdToken, StandsAlone, Text.Contains, Text.Lower;
    IdIsToken();
    IdStands();
    WordOccurs();
    var text := SeverityQuestion().text;
    forall token, i | 0 <= i <= |text| && IsIdToken(token) && StandsAlone(text, token, i) ensures token == ID {
      OnlyId(token, i);
    }
  }

  /** The one hyphen of the question leaves room for one token. */
  lemma OnlyId(token: string, i: nat)
    requires IsIdToken(token) && StandsAlone(SeverityQuestion().text, token, i)
    ensures token == ID
  {
    var text := SeverityQuestion().text;
    var n: nat :| HyphenAt(token, n);
    assert forall k :: 0 <= k < |token| ==> token[k] == text[i + k];
    OneHyphen(i + n);
    Marks();
    assert forall k :: i <= k < i + n ==> text[k] == token[k - i] != ' ';
    assert forall k :: i + n < k < i + |token| ==> text[k] == token[k - i] != '?';
    assert i == 12 && |token| == 5;
    assert text[12..17] == ID;
  }

  lemma OneHyphen(k: nat)
    requires k < |SeverityQuestion().text| && SeverityQuestion().text[k] == '-'
    ensures k == 15
  {
  }

  lemma Marks()
    ensures var text := SeverityQuestion().text; |text| == 18 && text[11] == ' ' && text[17] == '?'
    ensures forall k :: 12 <= k < 17 && k != 15 ==> IsWord(SeverityQuestion().text[k])
  {
  }

  lemma IdIsToken()
    ensures IsIdToken(ID)
  {
    assert HyphenAt(ID, 3);
  }

  lemma IdStands()
    ensures StandsAlone(SeverityQuestion().text, ID, 12)
  {
    var text := SeverityQuestion().text;
    assert |text| == 18 && text[12..17] == ID && text[11] == ' ' && text[17] == '?';
  }

  lemma WordOccurs()
    ensures Text.Contains(Text.Lower(SeverityQuestion().text), "severity")
  {
    var lower := Text.Lower(SeverityQuestion().text);
    assert lower[0..8] == "severity";
    assert Text.OccursAt(lower, "severity", 0);
  }

  /** Each phrase occurs in the ticket's text. */
  lemma PhrasesMatch()
    ensures Phrase("complete outage").matches(TicketText(TICKET))
    ensures Phrase("intermittent").matches(TicketText(TICKET))
  {
    hide Text.Lower, Text.Contains, TicketText;
    OutageOccurs();
    IntermittentOccurs();
  }

  lemma OutageOccurs()
    ensures Text.Contains(Text.Lower(TicketText(TICKET)), "complete outage")
  {
    var text := TicketText(TICKET);
    var lower := Text.Lower(text);
    assert text == "complete outage but intermittent";
    assert lower[0..15] == "complete outage";
    assert Text.OccursAt(lower, "complete outage", 0);
  }

  lemma IntermittentOccurs()
    ensures Text.Contains(Text.Lower(TicketText(TICKET)), "intermittent")
  {
    var text := TicketText(TICKET);
    var lower := Text.Lower(text);
    assert text == "complete outage but intermittent";
    assert lower[20..32] == "intermittent";
    assert Text.OccursAt(lower, "intermittent", 20);
  }

  lemma OneSignal(lex: Lexicon, s: Severity, sig: Signal, text: string)
    requires lex.Signals(s) == [sig] && sig.matches(text)
    ensures |Hits(lex, s, text)| == 1
  {
    var found := (sig: Signal) => if sig.matches(text) then [sig.definition] else [];
    FlatMapAgree(found, (sig: Signal) => if sig.matches(text) then [sig.definition] else [], [sig]);
    assert [sig][1..] == [];
    assert FlatMap(found, [sig]) == found(sig) + FlatMap(found, []);
  }

  lemma TicketTies()
    ensures GetTicket(DB, ID, ANYONE) == Ok(TICKET) && Tied(SampleWorld(), ID)
  {
    hide Text.Contains;
    var lex, text := TwoPhrases(), TicketText(TICKET);
    PhrasesMatch();
    OneSignal(lex, P1, Phrase("complete outage"), text);
    OneSignal(lex, P2, Phrase("intermittent"), text);
  }

  lemma FilterOne<T>(p: T -> bool, x: T)
    ensures Filter(p, [x]) == if p(x) then [x] else []
  {
    assert [x][1..] == [];
  }

  lemma IdMentioned()
    ensures Mentioned(SeverityQuestion()) == [ID]
  {
    assert Text.Upper(ID) == ID;
    assert Map(Text.Upper, [ID]) == [ID];
    assert [ID][..0] == [];
    assert DedupBy(Self, [ID]) == DedupBy(Self, []) + [ID];
  }

  lemma IdClassified()
    ensures Entities.Classify(DB, ANYONE, ID) == ATicket
  {
    hide Tied;
    TicketTies();
  }

  lemma Resolves()
    ensures Resolve(DB, ANYONE, SeverityQuestion()) == Resolution([], [ID], [], [], [])
  {
    hide Entities.Classify, Mentioned;
    var q := SeverityQuestion();
    IdMentioned();
    IdClassified();
    forall b ensures InBucket(DB, ANYONE, b, [ID]) == if b == ATicket then [ID] else [] {
      FilterOne((id: string) => Entities.Classify(DB, ANYONE, id) == b, ID);
    }
  }

  lemma Plans(estimate: Option<real>)
    ensures Investigate(SampleEnvironment(estimate), SeverityQuestion()) == Planned(SeverityIntent, STEPS)
  {
    hide Resolve, FlatMap;
    Resolves();
    var q, r := SeverityQuestion(), Resolution([], [ID], [], [], []);
    assert Signals(q, r) == [SeverityIntent];
    assert FlatMap(LookedUpAndCalculated(LookupTicket, CalcSeverity), [ID])
        == [Lookup(LookupTicket, ID), Calculate(CalcSeverity, ID)] by {
      OnePair();
    }
  }

  lemma OnePair()
    ensures FlatMap(LookedUpAndCalculated(LookupTicket, CalcSeverity), [ID])
         == [Lookup(LookupTicket, ID), Calculate(CalcSeverity, ID)]
  {
    assert [ID][1..] == [];
    assert FlatMap(LookedUpAndCalculated(LookupTicket, CalcSeverity), []) == [];
  }

  function TiedCalculation(): Calculation {
    Calculation(CalcSeverity, ID, Some(SeverityPayload(OutcomeOf(TwoPhrases(), TicketText(TICKET)))), Uncertain,
                [CiteDocument([], "SRC-01", "2")], [], [], true)
  }

  function TiedResults(): seq<ToolResult> {
    [ToolResult(Ok(RecordFound(TicketRow(TICKET))), 1), ToolResult(Ok(Calculated(TiedCalculation())), 1),
     ToolResult(Ok(Documents([])), 1)]
  }

  lemma Dispatches()
    ensures Dispatch(SampleWorld(), STEPS[0]) == Ok(RecordFound(TicketRow(TICKET)))
    ensures Dispatch(SampleWorld(), STEPS[1]) == Ok(Calculated(TiedCalculation()))
    ensures Dispatch(SampleWorld(), STEPS[2]) == Ok(Documents([]))
  {
    hide Plurality, CiteDocument;
    TicketTies();
  }

  lemma ToolsRun(estimate: Option<real>)
    ensures RunTools(SampleEnvironment(estimate), STEPS, 0, 0, []) == Ran(TiedResults())
  {
    hide Dispatch, TiedCalculation;
    Dispatches();
    var env, rs := SampleEnvironment(estimate), TiedResults();
    assert ToolCall(env, 0, STEPS[0]) == rs[0] && ToolCall(env, 1, STEPS[1]) == rs[1];
    assert ToolCall(env, 2, STEPS[2]) == rs[2];
    assert [] + [rs[0]] == [rs[0]] && [rs[0]] + [rs[1]] == [rs[0], rs[1]] && [rs[0], rs[1]] + [rs[2]] == rs;
    assert RunTools(env, STEPS, 3, 3, rs) == Ran(rs);
    assert RunTools(env, STEPS, 2, 2, [rs[0], rs[1]]) == Ran(rs);
    assert RunTools(env, STEPS, 1, 1, [rs[0]]) == Ran(rs);
  }

  lemma Weighs(estimate: Option<real>) returns (pack: Pack, trust: TrustState)
    requires estimate.Some? ==> estimate.value <= 0.5
    ensures Weigh(SampleEnvironment(estimate), SeverityQuestion(), SeverityIntent, STEPS, TiedResults())
         == Ready(pack, trust)
  {
    hide Build, TiedCalculation, SampleWorld;
    pack := Build(TiedResults());
    trust := Trust.Gate(pack.trustStates, pack.documents != []);
    HasPayload();
  }

  lemma HasPayload()
    ensures Build(TiedResults()).domainResults != []
  {
    hide OutcomeOf, CiteDocument;
    var c, results := TiedCalculation(), TiedResults();
    assert results[1] in results && results[1].output == Ok(Calculated(c));
    CalculationsExactly(results, c);
    FlatMapMember(PayloadOf, Calculations(results), c.payload.value);
  }

  lemma NoMarkers(citations: seq<EvidenceRef>)
    ensures Citations.Invalid("unclear", citations) == []
  {
    Citations.ValidExactlyWhen("unclear", citations);
  }

  lemma RunAnswers()
    ensures Run(SampleEnvironment(None), SeverityQuestion(), Plainly).0.answer.Some?
    ensures Run(SampleEnvironment(None), SeverityQuestion(), Plainly).0.toolTrace == TiedResults()
  {
    hide Investigate, RunTools, Weigh, Upto, Citations.Invalid, SampleEnvironment, TiedResults, SeverityQuestion;
    Plans(None);
    ToolsRun(None);
    var pack, trust := Weighs(None);
    NoMarkers(pack.citations);
  }

  /** The comment in the orchestrator takes a tie for escalated; here is a run with a tie that is
      not. */
  lemma TiedRunCompletes()
    returns (env: Environment, q: Question, provider: Provider, c: Calculation)
    ensures ValidTables(env.world.db) && ReadsFromText(q)
    ensures var r := Run(env, q, provider).0;
            && r.answer.Some? && r.status == Completed
            && c in Calculations(r.toolTrace) && c.kind == CalcSeverity && Tied(env.world, c.target)
  {
    hide Run, Resolve, Tied, OutcomeOf, CiteDocument, ReadsFromText;
    env, q, provider, c := SampleEnvironment(None), SeverityQuestion(), Plainly, TiedCalculation();
    QuestionReads();
    RunAnswers();
    Resolves();
    TicketTies();
    NoOrderNoEscalation(env, q, provider);
    assert TiedResults()[1] in TiedResults() && TiedResults()[1].output == Ok(Calculated(c));
    CalculationsExactly(TiedResults(), c);
  }

  /** The run reaches the model, with this estimate for a call. */
  ghost predicate Asks(env: Environment, q: Question, estimate: Option<real>) {
    FirstPromptOf(env, q).Some? && Estimate(env, q) == estimate
  }

  lemma Prompts(estimate: Option<real>)
    requires estimate.Some? ==> estimate.value <= 0.5
    ensures Asks(SampleEnvironment(estimate), SeverityQuestion(), estimate)
  {
    hide Investigate, RunTools, Weigh, TiedResults, SeverityQuestion;
    Plans(estimate);
    ToolsRun(estimate);
    var pack, trust := Weighs(estimate);
  }

  /** A run within the default budget's check that costs more than the budget: the estimate for a
      call is thirty cents, no call costs more, and the repair makes it sixty. */
  lemma RunOverspends() returns (env: Environment, q: Question, provider: Provider, e: real)
    ensures ValidTables(env.world.db) && ReadsFromText(q)
    ensures Asks(env, q, Some(e)) && e <= env.budget.maxCost
    ensures KeepsWithin(provider, e) && Run(env, q, provider).0.cost > env.budget.maxCost
  {
    hide Run, FirstPromptOf, KeepsWithin, ReadsFromText;
    e := 0.3;
    env, q := SampleEnvironment(Some(e)), SeverityQuestion();
    QuestionReads();
    Prompts(Some(e));
    CostKeptExactlyWhen(env, q, e);
    provider :| KeepsWithin(provider, e) && !(Run(env, q, provider).0.cost <= env.budget.maxCost);
  }
}
