/** How a run goes and ends, phase by phase, in terms of what it is given. */
module AgentExact {
  import opened Prelude
  import opened Enums
  import opened Entities
  import opened Planner
  import opened Tools
  import opened EvidencePack
  import opened Orchestrator
  import opened AgentLaws
  import Citations
  import Trust

  /** The states a run passes, in order. */
  const PIPELINE := [RequestReceived, AuthValidated, EntitiesResolved, IntentResolved, PlanCreated, ToolExecuting,
                     EvidenceValidated, DomainEvaluated, TrustEvaluated, ResponseComposed]

  /** The first `passed` states, and then the end. */
  ghost predicate Traces(r: AgentResult, passed: nat) {
    passed <= |PIPELINE| && r.trace == PIPELINE[..passed] + [Terminal(r.status)]
  }

  lemma {:induction false} UptoIsPipeline(k: nat)
    requires k <= |PIPELINE|
    ensures Upto(k) == PIPELINE[..k]
  {
    if k > 0 {
      UptoIsPipeline(k - 1);
      assert PIPELINE[..k] == PIPELINE[..k - 1] + [PIPELINE[k - 1]];
    }
  }

  /** A result without an answer, a cost or evidence, after this many states. */
  ghost predicate EndsEarly(r: AgentResult, passed: nat, status: Status, reason: Reason, intent: Option<Intent>,
                            trust: Option<TrustState>, toolTrace: seq<ToolResult>, planned: seq<Step>) {
    && Traces(r, passed) && r.status == status && r.reason == Some(reason) && r.intent == intent && r.trust == trust
    && r.toolTrace == toolTrace && r.planned == planned && r.answer == None && !r.review
    && r.citations == [] && r.assumptions == [] && r.conflicts == [] && r.llmCalls == 0 && r.cost == 0.0
  }

  lemma EndIs(passed: nat, status: Status, reason: Reason, intent: Option<Intent>, trust: Option<TrustState>,
              toolTrace: seq<ToolResult>, planned: seq<Step>)
    requires passed <= |PIPELINE|
    ensures EndsEarly(End(Upto(passed), status, reason, intent, trust, toolTrace, planned),
                      passed, status, reason, intent, trust, toolTrace, planned)
  {
    UptoIsPipeline(passed);
  }

  /** The question is about one instance, names nothing, and the caller has more than one account. */
  ghost predicate NamesNoInstance(q: Question, r: Resolution, accountScope: Option<seq<string>>) {
    && q.instance && !q.aggregate && r.orderIds == r.ticketIds == r.accountIds == []
    && (accountScope == None || |accountScope.value| != 1)
  }

  /** What happens before any tool runs. */
  lemma InvestigationExactly(env: Environment, q: Question)
    ensures var r := Resolve(env.world.db, env.world.auth, q);
            var intent := ResolveIntent(q, r);
            var steps := PlanSteps(intent, r);
            var found := Investigate(env, q);
            if r.ambiguous != [] then
              found.Ended? && EndsEarly(found.result, 3, NeedsClarification, AmbiguousAccounts, None, None, [], [])
            else if NamesNoInstance(q, r, env.world.auth.accountScope) then
              found.Ended? && EndsEarly(found.result, 4, NeedsClarification, AccountNeeded, Some(intent), None, [], [])
            else if q.blank then
              found.Ended? && EndsEarly(found.result, 4, InsufficientEvidence, EmptyRequest, Some(intent), None, [], [])
            else if |steps| > env.budget.maxToolCalls then
              found.Ended? && EndsEarly(found.result, 5, Failed, TooManyToolCalls, Some(intent), None, [], [])
            else found == Planned(intent, steps)
  {
    hide Resolve, ResolveIntent, PlanSteps, Upto, End, EndsEarly;
    var r := Resolve(env.world.db, env.world.auth, q);
    var intent := ResolveIntent(q, r);
    EndIs(3, NeedsClarification, AmbiguousAccounts, None, None, [], []);
    EndIs(4, NeedsClarification, AccountNeeded, Some(intent), None, [], []);
    EndIs(4, InsufficientEvidence, EmptyRequest, Some(intent), None, [], []);
    EndIs(5, Failed, TooManyToolCalls, Some(intent), None, [], []);
    if r.ambiguous == [] {
      BlankIsUnsupported(q, r);
      if !q.blank {
        ResolvedPlanNeverEmpty(q, r);
      }
    }
  }

  ghost function CallsOf(env: Environment, steps: seq<Step>, n: nat): seq<ToolResult>
    requires n <= |steps|
  {
    seq(n, k requires 0 <= k < n => Attempts(env.specOf(steps[k]), Dispatch(env.world, steps[k]), env.latency(k), 1))
  }

  /** Every one of the first `n` steps finds time and iterations left, and none is refused. */
  ghost predicate Proceeds(env: Environment, steps: seq<Step>, n: nat)
    requires n <= |steps|
  {
    forall k :: 0 <= k < n ==>
      && env.elapsed(k) <= env.budget.maxWallClock
      && TotalAttempts(CallsOf(env, steps, k)) < env.budget.maxIterations
      && CallsOf(env, steps, n)[k].output != Err(NotAuthorized)
  }

  /** The tool loop stops at the first step that finds no time left, or no iterations left, or is
      refused, in this order; what ran before it, and a refused call itself, is on record. */
  lemma ToolsExactly(env: Environment, steps: seq<Step>, n: nat)
    requires n <= |steps| && Proceeds(env, steps, n)
    ensures var phase := RunTools(env, steps, 0, 0, []);
            var before := CallsOf(env, steps, n);
            && (n == |steps| ==> phase == Ran(before))
            && (n < |steps| ==>
                  var next := CallsOf(env, steps, n + 1);
                  && (env.elapsed(n) > env.budget.maxWallClock ==> phase == Stopped(WallClockExceeded, before))
                  && (env.elapsed(n) <= env.budget.maxWallClock ==>
                        && (TotalAttempts(before) >= env.budget.maxIterations ==> phase == Stopped(IterationsExceeded, before))
                        && (TotalAttempts(before) < env.budget.maxIterations && next[n].output == Err(NotAuthorized) ==>
                              phase == Stopped(ToolNotAuthorized, next))))
  {
    hide Dispatch;
    Reaches(env, steps, n);
    if n < |steps| {
      assert CallsOf(env, steps, n + 1) == CallsOf(env, steps, n) + [ToolCall(env, n, steps[n])];
    }
  }

  lemma {:induction false} Reaches(env: Environment, steps: seq<Step>, n: nat)
    requires n <= |steps| && Proceeds(env, steps, n)
    ensures RunTools(env, steps, 0, 0, [])
         == RunTools(env, steps, n, TotalAttempts(CallsOf(env, steps, n)), CallsOf(env, steps, n))
  {
    hide CallsOf, ToolCall, Proceeds;
    OneStepFewer(env, steps, n);
    if n > 0 {
      var before, r := CallsOf(env, steps, n - 1), ToolCall(env, n - 1, steps[n - 1]);
      assert (before + [r])[..|before|] == before;
      Reaches(env, steps, n - 1);
    }
  }

  lemma OneStepFewer(env: Environment, steps: seq<Step>, n: nat)
    requires n <= |steps| && Proceeds(env, steps, n)
    ensures CallsOf(env, steps, 0) == []
    ensures n > 0 ==>
              var r := ToolCall(env, n - 1, steps[n - 1]);
              && Proceeds(env, steps, n - 1) && CallsOf(env, steps, n) == CallsOf(env, steps, n - 1) + [r]
              && env.elapsed(n - 1) <= env.budget.maxWallClock && r.output != Err(NotAuthorized)
              && TotalAttempts(CallsOf(env, steps, n - 1)) < env.budget.maxIterations
  {
    hide Dispatch, Attempts, TotalAttempts;
    if n > 0 {
      assert forall k :: 0 <= k < n - 1 ==> CallsOf(env, steps, n - 1)[k] == CallsOf(env, steps, n)[k];
    }
  }

  /** Documents alone support an answer when the question has significant words and either two of
      them occur in one document, or there are two documents and one of them ranks at -3.0 or
      lower. */
  lemma SufficientExactly(q: Question, docs: seq<Doc>)
    ensures Sufficient(q, docs) <==>
              && q.words != {}
              && (|| (exists d :: d in docs && |d.words * q.words| >= 2)
                  || (|docs| >= 2 && exists d :: d in docs && d.score <= -3.0))
  {
    forall d: Doc ensures d.words * q.words == q.words * d.words {
    }
  }

  /** What is checked between the tools and the first model call, in this order. */
  lemma WeighExactly(env: Environment, q: Question, intent: Intent, steps: seq<Step>, results: seq<ToolResult>)
    ensures var pack := Build(results);
            var trust := Trust.Gate(pack.trustStates, pack.documents != []);
            var tokens := env.contextTokens(pack, trust);
            var cost := env.worstCaseCost(tokens);
            var w := Weigh(env, q, intent, steps, results);
            if pack.citations == [] && pack.documents == [] && pack.domainResults == [] then
              w.Unanswerable? && EndsEarly(w.result, 8, InsufficientEvidence, NoEvidence, Some(intent), None, results, steps)
            else if pack.domainResults == [] && !Sufficient(q, pack.documents) then
              w.Unanswerable? && EndsEarly(w.result, 8, InsufficientEvidence, InsufficientDocuments, Some(intent), None, results, steps)
            else if env.budget.maxLlmCalls <= 0 then
              w.Unanswerable? && EndsEarly(w.result, 9, Failed, NoLlmCallsAllowed, Some(intent), Some(trust), results, [])
            else if env.budget.maxContextTokens < tokens then
              w.Unanswerable? && EndsEarly(w.result, 9, Failed, ContextTooLarge, Some(intent), Some(trust), results, [])
            else if cost.Some? && env.budget.maxCost < cost.value then
              w.Unanswerable? && EndsEarly(w.result, 9, Failed, CostTooHigh, Some(intent), Some(trust), results, [])
            else w == Ready(pack, trust)
  {
    hide Build, Trust.Gate, Sufficient, Upto, End, EndsEarly;
    var trust := Trust.Gate(Build(results).trustStates, Build(results).documents != []);
    EndIs(8, InsufficientEvidence, NoEvidence, Some(intent), None, results, steps);
    EndIs(8, InsufficientEvidence, InsufficientDocuments, Some(intent), None, results, steps);
    EndIs(9, Failed, NoLlmCallsAllowed, Some(intent), Some(trust), results, []);
    EndIs(9, Failed, ContextTooLarge, Some(intent), Some(trust), results, []);
    EndIs(9, Failed, CostTooHigh, Some(intent), Some(trust), results, []);
  }

  /** A result that carries the evidence, after all states. */
  ghost predicate EndsWith(r: AgentResult, status: Status, reason: Option<Reason>, answer: Option<string>,
                           intent: Intent, steps: seq<Step>, results: seq<ToolResult>, pack: Pack, trust: TrustState,
                           llmCalls: nat, cost: real) {
    && Traces(r, 10) && r.status == status && r.reason == reason && r.answer == answer
    && r.intent == Some(intent) && r.planned == steps && r.toolTrace == results && r.trust == Some(trust)
    && r.citations == pack.citations && r.assumptions == pack.assumptions && r.conflicts == pack.conflicts
    && r.review == pack.review && r.llmCalls == llmCalls && r.cost == cost
  }

  lemma CloseIs(status: Status, reason: Option<Reason>, answer: Option<string>, intent: Intent, steps: seq<Step>,
                results: seq<ToolResult>, pack: Pack, trust: TrustState, llmCalls: nat, cost: real)
    ensures EndsWith(Close(Upto(10), status, reason, answer, intent, steps, results, pack, trust, llmCalls, cost),
                     status, reason, answer, intent, steps, results, pack, trust, llmCalls, cost)
  {
    UptoIsPipeline(10);
  }

  /** How composition ends: with the first text if it cites only the evidence; else, if a second call
      is permitted, with the repaired text if that one does; and otherwise without an answer, for a
      reason that says which step failed. */
  lemma AnswerExactly(env: Environment, intent: Intent, steps: seq<Step>, results: seq<ToolResult>,
                      pack: Pack, trust: TrustState, provider: Provider)
    ensures var (r, prompts) := AnswerWith(env, intent, steps, results, pack, trust, provider);
            var done := if trust == Escalate then Escalated else Completed;
            var compose := Compose(pack, trust);
            var first := provider(compose);
            if first == ProviderRaised then
              EndsEarly(r, 9, Failed, CompositionFailed, Some(intent), Some(trust), results, []) && prompts == [compose]
            else if Citations.Invalid(first.text, pack.citations) == [] then
              && EndsWith(r, done, None, Some(first.text), intent, steps, results, pack, trust, 1, first.cost)
              && prompts == [compose]
            else if env.budget.maxLlmCalls <= 1 then
              && EndsWith(r, EvidenceValidationFailed, Some(UnsupportedCitations), None, intent, steps, results, pack, trust,
                          1, first.cost)
              && prompts == [compose]
            else
              var repair := Repair(pack, trust, first.text, Citations.Invalid(first.text, pack.citations));
              && prompts == [compose, repair]
              && EndsRepaired(r, done, provider(repair), first.cost, intent, steps, results, pack, trust)
  {
    hide Upto, Citations.Invalid, End, EndsEarly, Close, EndsWith, RepairWith, EndsRepaired;
    EndIs(9, Failed, CompositionFailed, Some(intent), Some(trust), results, []);
    var done := if trust == Escalate then Escalated else Completed;
    var first := provider(Compose(pack, trust));
    if first.Reply? {
      var invalid := Citations.Invalid(first.text, pack.citations);
      CloseIs(done, None, Some(first.text), intent, steps, results, pack, trust, 1, first.cost);
      RepairEnds(env, intent, steps, results, pack, trust, first, invalid, provider);
    }
  }

  ghost predicate EndsRepaired(r: AgentResult, done: Status, second: Reply, spent: real, intent: Intent, steps: seq<Step>,
                               results: seq<ToolResult>, pack: Pack, trust: TrustState) {
    if second == ProviderRaised then
      EndsWith(r, Failed, Some(RepairFailed), None, intent, steps, results, pack, trust, 1, spent)
    else if Citations.Invalid(second.text, pack.citations) != [] then
      EndsWith(r, EvidenceValidationFailed, Some(StillUnsupportedCitations), None, intent, steps, results, pack, trust,
               2, spent + second.cost)
    else EndsWith(r, done, None, Some(second.text), intent, steps, results, pack, trust, 2, spent + second.cost)
  }

  lemma RepairEnds(env: Environment, intent: Intent, steps: seq<Step>, results: seq<ToolResult>,
                   pack: Pack, trust: TrustState, first: Reply, invalid: seq<string>, provider: Provider)
    requires first.Reply?
    ensures var (r, more) := RepairWith(env, intent, steps, results, pack, trust, first, invalid, provider);
            var done := if trust == Escalate then Escalated else Completed;
            var repair := Repair(pack, trust, first.text, invalid);
            if env.budget.maxLlmCalls <= 1 then
              && EndsWith(r, EvidenceValidationFailed, Some(UnsupportedCitations), None, intent, steps, results, pack, trust,
                          1, first.cost)
              && more == []
            else
              more == [repair]
              && EndsRepaired(r, done, provider(repair), first.cost, intent, steps, results, pack, trust)
  {
    hide Upto, Citations.Invalid, Close, EndsWith;
    var done := if trust == Escalate then Escalated else Completed;
    CloseIs(EvidenceValidationFailed, Some(UnsupportedCitations), None, intent, steps, results, pack, trust, 1, first.cost);
    CloseIs(Failed, Some(RepairFailed), None, intent, steps, results, pack, trust, 1, first.cost);
    var second := provider(Repair(pack, trust, first.text, invalid));
    if second.Reply? {
      var cost := first.cost + second.cost;
      CloseIs(EvidenceValidationFailed, Some(StillUnsupportedCitations), None, intent, steps, results, pack, trust, 2, cost);
      CloseIs(done, None, Some(second.text), intent, steps, results, pack, trust, 2, cost);
    }
  }

  /** The phases in order; the first that ends the run ends it. */
  lemma RunExactly(env: Environment, q: Question, provider: Provider)
    ensures var (r, prompts) := Run(env, q, provider);
            var found := Investigate(env, q);
            && (found.Ended? ==> r == found.result && prompts == [])
            && (found.Planned? ==>
                  var phase := RunTools(env, found.steps, 0, 0, []);
                  && (phase.Stopped? ==>
                        EndsEarly(r, 6, Failed, phase.reason, Some(found.intent), None, phase.partial, []) && prompts == [])
                  && (phase.Ran? ==>
                        var w := Weigh(env, q, found.intent, found.steps, phase.results);
                        && (w.Unanswerable? ==> r == w.result && prompts == [])
                        && (w.Ready? ==>
                              (r, prompts) == AnswerWith(env, found.intent, found.steps, phase.results, w.pack, w.trust, provider))))
  {
    hide Investigate, RunTools, Weigh, AnswerWith, Upto, End, EndsEarly;
    var found := Investigate(env, q);
    if found.Planned? && RunTools(env, found.steps, 0, 0, []).Stopped? {
      var phase := RunTools(env, found.steps, 0, 0, []);
      EndIs(6, Failed, phase.reason, Some(found.intent), None, phase.partial, []);
    }
  }
}
