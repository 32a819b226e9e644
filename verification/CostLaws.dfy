/** What the cost check before the first model call is worth. */
module CostLaws {
  import opened Prelude
  import opened Enums
  import opened Records
  import opened Entities
  import opened Planner
  import opened Tools
  import opened EvidencePack
  import opened Orchestrator
  import Citations
  import Trust

  /** No reply costs more than the estimate `e`. */
  ghost predicate KeepsWithin(provider: Provider, e: real) {
    forall p :: provider(p).Reply? ==> 0.0 <= provider(p).cost <= e
  }

  function Repeat(n: nat): string {
    if n == 0 then [] else ['x'] + Repeat(n - 1)
  }

  function LongestName(citations: seq<EvidenceRef>): nat {
    if citations == [] then 0
    else
      var rest := LongestName(citations[1..]);
      var here := |Citations.CitationKey(citations[0])| + |citations[0].sourceId|;
      if here > rest then here else rest
  }

  lemma {:induction false} LongestBounds(citations: seq<EvidenceRef>, ref: EvidenceRef)
    requires ref in citations
    ensures |Citations.CitationKey(ref)| <= LongestName(citations) && |ref.sourceId| <= LongestName(citations)
  {
    if ref != citations[0] {
      LongestBounds(citations[1..], ref);
    }
  }

  lemma {:induction false} RepeatShape(n: nat)
    ensures |Repeat(n)| == n && forall c :: c in Repeat(n) ==> c == 'x'
    ensures Citations.BeforeColon(Repeat(n)) == Repeat(n)
  {
    if n > 0 {
      RepeatShape(n - 1);
      assert Repeat(n)[1..] == Repeat(n - 1);
    }
  }

  /** Whatever the evidence is, some text has a marker it does not support: one that is longer
      than every key and id of the evidence. */
  lemma SomeTextIsInvalid(citations: seq<EvidenceRef>) returns (text: string)
    ensures Citations.Invalid(text, citations) != []
  {
    var m := Repeat(LongestName(citations) + 1);
    RepeatShape(LongestName(citations) + 1);
    text := "[" + m + "]";
    assert text[0] == '[' && text[1..1 + |m|] == m && text[1 + |m|] == ']';
    assert Citations.MarkerChar('x');
    assert Citations.Bracketed(text, 0, m);
    forall ref | ref in citations ensures m != Citations.CitationKey(ref) && m != ref.sourceId {
      LongestBounds(citations, ref);
    }
    Citations.ValidExactlyWhen(text, citations);
  }

  lemma CostOfRepair(env: Environment, intent: Intent, steps: seq<Step>, results: seq<ToolResult>,
                     pack: Pack, trust: TrustState, first: Reply, invalid: seq<string>,
                     provider: Provider, e: real)
    requires first.Reply? && KeepsWithin(provider, e) && 0.0 <= e
    ensures var cost := RepairWith(env, intent, steps, results, pack, trust, first, invalid, provider).0.cost;
            cost <= if env.budget.maxLlmCalls < 2 then first.cost else first.cost + e
  {
    hide Citations.Invalid, Upto;
  }

  lemma CostOfAnswer(env: Environment, intent: Intent, steps: seq<Step>, results: seq<ToolResult>,
                     pack: Pack, trust: TrustState, provider: Provider, e: real)
    requires KeepsWithin(provider, e) && 0.0 <= e
    ensures var cost := AnswerWith(env, intent, steps, results, pack, trust, provider).0.cost;
            cost <= if env.budget.maxLlmCalls < 2 then e else e + e
  {
    hide Citations.Invalid, Upto, RepairWith;
    var first := provider(Compose(pack, trust));
    if first.Reply? {
      CostOfRepair(env, intent, steps, results, pack, trust, first,
                   Citations.Invalid(first.text, pack.citations), provider, e);
    }
  }

  lemma WorstProvider(env: Environment, intent: Intent, steps: seq<Step>, results: seq<ToolResult>,
                      pack: Pack, trust: TrustState, e: real) returns (provider: Provider)
    requires 0.0 <= e
    ensures KeepsWithin(provider, e)
    ensures AnswerWith(env, intent, steps, results, pack, trust, provider).0.cost
         == if env.budget.maxLlmCalls < 2 then e else e + e
  {
    var text := SomeTextIsInvalid(pack.citations);
    hide Citations.Invalid, Upto, RepairWith;
    provider := (p: Prompt) => Reply(text, e);
    WorstRepair(env, intent, steps, results, pack, trust, text, e, provider);
  }

  lemma WorstRepair(env: Environment, intent: Intent, steps: seq<Step>, results: seq<ToolResult>,
                    pack: Pack, trust: TrustState, text: string, e: real, provider: Provider)
    requires Citations.Invalid(text, pack.citations) != [] && forall p :: provider(p) == Reply(text, e)
    ensures RepairWith(env, intent, steps, results, pack, trust, Reply(text, e),
                       Citations.Invalid(text, pack.citations), provider).0.cost
         == if env.budget.maxLlmCalls < 2 then e else e + e
  {
    hide Citations.Invalid, Upto;
  }

  // ---- Whole runs ----

  /** The first prompt of a run, if the run gets as far as a model call; no provider has a say in
      it. */
  function FirstPromptOf(env: Environment, q: Question): Option<Prompt> {
    match Investigate(env, q)
    case Ended(_) => None
    case Planned(intent, steps) =>
      match RunTools(env, steps, 0, 0, [])
      case Stopped(_, _) => None
      case Ran(results) =>
        match Weigh(env, q, intent, steps, results)
        case Unanswerable(_) => None
        case Ready(pack, trust) => Some(Compose(pack, trust))
  }

  /** The estimate the cost check looks at; a model without a price has none. */
  function Estimate(env: Environment, q: Question): Option<real>
    requires FirstPromptOf(env, q).Some?
  {
    var p := FirstPromptOf(env, q).value;
    env.worstCaseCost(env.contextTokens(p.pack, p.trust))
  }

  lemma ComposingRun(env: Environment, q: Question)
    returns (intent: Intent, steps: seq<Step>, results: seq<ToolResult>, pack: Pack, trust: TrustState)
    requires FirstPromptOf(env, q).Some?
    ensures FirstPromptOf(env, q) == Some(Compose(pack, trust)) && BudgetFailure(env, pack, trust) == None
    ensures forall provider :: Run(env, q, provider) ==
              AnswerWith(env, intent, steps, results, pack, trust, provider)
  {
    hide Resolve, ResolveIntent, PlanSteps, Build, AnswerWith, Upto, RunTools, NeedsAccount, Trust.Gate, Sufficient, BudgetFailure;
    var found := Investigate(env, q);
    intent, steps := found.intent, found.steps;
    results := RunTools(env, steps, 0, 0, []).results;
    var w := Weigh(env, q, intent, steps, results);
    pack, trust := w.pack, w.trust;
  }

  /** A run that never gets to a model call costs nothing. */
  lemma NoPromptNoCost(env: Environment, q: Question, provider: Provider)
    requires FirstPromptOf(env, q).None?
    ensures Run(env, q, provider).0.cost == 0.0
  {
    hide Resolve, ResolveIntent, PlanSteps, Build, Weigh, AnswerWith, Upto, RunTools, NeedsAccount;
    var found := Investigate(env, q);
    EarlyEndsCostNothing(env, q, Unsupported, [], []);
    if found.Planned? && RunTools(env, found.steps, 0, 0, []).Ran? {
      EarlyEndsCostNothing(env, q, found.intent, found.steps, RunTools(env, found.steps, 0, 0, []).results);
    }
  }

  /** When no call costs more than `e`, every run of this question stays within the cost budget
      exactly when as many calls as the call budget permits fit into it. */
  lemma RunCostWithinExactly(env: Environment, q: Question, e: real)
    requires FirstPromptOf(env, q).Some? && 0.0 <= e
    ensures (forall provider :: KeepsWithin(provider, e) ==> Run(env, q, provider).0.cost <= env.budget.maxCost)
            <==> (if env.budget.maxLlmCalls < 2 then e else e + e) <= env.budget.maxCost
  {
    hide Run, AnswerWith, KeepsWithin, BudgetFailure, FirstPromptOf;
    var intent, steps, results, pack, trust := ComposingRun(env, q);
    forall provider | KeepsWithin(provider, e)
      ensures Run(env, q, provider).0.cost <= if env.budget.maxLlmCalls < 2 then e else e + e
    {
      CostOfAnswer(env, intent, steps, results, pack, trust, provider, e);
    }
    var worst := WorstProvider(env, intent, steps, results, pack, trust, e);
    assert Run(env, q, worst).0.cost == if env.budget.maxLlmCalls < 2 then e else e + e;
  }

  /** The cost check is made once, before the first call, and not again before the repair. So for
      every question that passes it, the budget is kept by every provider that keeps each call
      within the estimate exactly when no repair is possible or two calls fit. */
  lemma CostKeptExactlyWhen(env: Environment, q: Question, e: real)
    requires FirstPromptOf(env, q).Some? && Estimate(env, q) == Some(e) && 0.0 <= e
    ensures (forall provider :: KeepsWithin(provider, e) ==> Run(env, q, provider).0.cost <= env.budget.maxCost)
            <==> env.budget.maxLlmCalls < 2 || e + e <= env.budget.maxCost
  {
    hide Run, KeepsWithin, FirstPromptOf;
    RunCostWithinExactly(env, q, e);
    var intent, steps, results, pack, trust := ComposingRun(env, q);
    assert e <= env.budget.maxCost;
  }

  /** Without a price the check is skipped: the same questions pass whatever the cost budget is,
      and some provider exceeds any of them. */
  lemma UnpricedNeverKept(env: Environment, q: Question, maxCost: real) returns (provider: Provider)
    requires FirstPromptOf(env, q).Some? && Estimate(env, q) == None
    ensures FirstPromptOf(env.(budget := env.budget.(maxCost := maxCost)), q) == FirstPromptOf(env, q)
    ensures Run(env, q, provider).0.cost > maxCost
  {
    hide Run, KeepsWithin, AnswerWith;
    var e := if maxCost < 0.0 then 1.0 else maxCost + 1.0;
    var intent, steps, results, pack, trust := ComposingRun(env, q);
    provider := WorstProvider(env, intent, steps, results, pack, trust, e);
    SameWithoutPrice(env, q, maxCost);
  }

  lemma SameWithoutPrice(env: Environment, q: Question, maxCost: real)
    requires FirstPromptOf(env, q).Some? && Estimate(env, q) == None
    ensures FirstPromptOf(env.(budget := env.budget.(maxCost := maxCost)), q) == FirstPromptOf(env, q)
  {
    hide Resolve, ResolveIntent, PlanSteps, Build, Upto, RunTools, NeedsAccount, Trust.Gate, Sufficient;
    var env' := env.(budget := env.budget.(maxCost := maxCost));
    var found := Investigate(env, q);
    assert Investigate(env', q) == found;
    ToolsIgnoreCost(env, env', found.steps, 0, 0, []);
  }

  lemma {:induction false} ToolsIgnoreCost(env: Environment, env': Environment, steps: seq<Step>, i: nat,
                                           iterations: nat, results: seq<ToolResult>)
    requires i <= |steps| && env' == env.(budget := env.budget.(maxCost := env'.budget.maxCost))
    ensures RunTools(env', steps, i, iterations, results) == RunTools(env, steps, i, iterations, results)
    decreases |steps| - i
  {
    hide Dispatch, Attempts;
    if i < |steps| {
      var r := ToolCall(env, i, steps[i]);
      assert ToolCall(env', i, steps[i]) == r;
      ToolsIgnoreCost(env, env', steps, i + 1, iterations + r.attempts, results + [r]);
    }
  }

  // ---- The accounts a run keeps ----

  ghost function Spent(provider: Provider, prompts: seq<Prompt>): real {
    if prompts == [] then 0.0
    else
      var last := provider(prompts[|prompts| - 1]);
      Spent(provider, prompts[..|prompts| - 1]) + if last.Reply? then last.cost else 0.0
  }

  ghost function Replies(provider: Provider, prompts: seq<Prompt>): nat {
    if prompts == [] then 0
    else
      Replies(provider, prompts[..|prompts| - 1])
      + if provider(prompts[|prompts| - 1]).Reply? then 1 else 0
  }

  lemma OnePrompt(provider: Provider, p: Prompt)
    ensures Spent(provider, [p]) == (if provider(p).Reply? then provider(p).cost else 0.0)
    ensures Replies(provider, [p]) == (if provider(p).Reply? then 1 else 0)
  {
    assert [p][..0] == [];
  }

  lemma TwoPrompts(provider: Provider, p: Prompt, q: Prompt)
    ensures Spent(provider, [p, q]) == Spent(provider, [p]) + Spent(provider, [q])
    ensures Replies(provider, [p, q]) == Replies(provider, [p]) + Replies(provider, [q])
  {
    assert [p, q][..1] == [p];
    OnePrompt(provider, q);
  }

  lemma AnswerAccounts(env: Environment, intent: Intent, steps: seq<Step>, results: seq<ToolResult>,
                       pack: Pack, trust: TrustState, provider: Provider)
    ensures var (r, prompts) := AnswerWith(env, intent, steps, results, pack, trust, provider);
            r.cost == Spent(provider, prompts) && r.llmCalls == Replies(provider, prompts)
  {
    hide Citations.Invalid, Upto, Spent, Replies;
    var compose := Compose(pack, trust);
    OnePrompt(provider, compose);
    if provider(compose).Reply? {
      var repair := Repair(pack, trust, provider(compose).text,
                           Citations.Invalid(provider(compose).text, pack.citations));
      OnePrompt(provider, repair);
      TwoPrompts(provider, compose, repair);
      assert [compose] + [repair] == [compose, repair];
      assert [compose] + [] == [compose];
    }
  }

  lemma EarlyEndsCostNothing(env: Environment, q: Question, intent: Intent, steps: seq<Step>,
                             results: seq<ToolResult>)
    ensures var found := Investigate(env, q);
            found.Ended? ==> found.result.cost == 0.0 && found.result.llmCalls == 0
    ensures var w := Weigh(env, q, intent, steps, results);
            w.Unanswerable? ==> w.result.cost == 0.0 && w.result.llmCalls == 0
  {
    hide Resolve, ResolveIntent, PlanSteps, Build, Upto, Trust.Gate, Sufficient, BudgetFailure, NeedsAccount;
  }

  /** The result of every run accounts for exactly the replies its prompts got: as many calls,
      and the sum of their costs. A prompt that failed counts for neither. */
  lemma RunAccounts(env: Environment, q: Question, provider: Provider)
    ensures var (r, prompts) := Run(env, q, provider);
            r.cost == Spent(provider, prompts) && r.llmCalls == Replies(provider, prompts)
  {
    hide Resolve, ResolveIntent, PlanSteps, Build, Weigh, AnswerWith, Upto, RunTools, NeedsAccount;
    var found := Investigate(env, q);
    EarlyEndsCostNothing(env, q, Unsupported, [], []);
    if found.Planned? {
      var phase := RunTools(env, found.steps, 0, 0, []);
      if phase.Ran? {
        EarlyEndsCostNothing(env, q, found.intent, found.steps, phase.results);
        var w := Weigh(env, q, found.intent, found.steps, phase.results);
        if w.Ready? {
          AnswerAccounts(env, found.intent, found.steps, phase.results, w.pack, w.trust, provider);
        }
      }
    }
  }
}
