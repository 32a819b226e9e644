/** `app/agent/orchestrator.py`: one bounded run from a question to a terminal state. */
module Orchestrator {
  import opened Prelude
  import opened Enums
  import opened Records
  import opened Entities
  import opened Planner
  import opened Tools
  import opened EvidencePack
  import Citations
  import Trust

  datatype Status =
    | Completed | NeedsClarification | InsufficientEvidence | Escalated | Failed
    | EvidenceValidationFailed

  datatype AgentState =
    | RequestReceived | AuthValidated | EntitiesResolved | IntentResolved | PlanCreated
    | ToolExecuting | EvidenceValidated | DomainEvaluated | TrustEvaluated | ResponseComposed
    | Terminal(status: Status)

  /** The fixed order in which a run passes its states. */
  function StageAt(i: nat): AgentState {
    if i == 0 then RequestReceived
    else if i == 1 then AuthValidated
    else if i == 2 then EntitiesResolved
    else if i == 3 then IntentResolved
    else if i == 4 then PlanCreated
    else if i == 5 then ToolExecuting
    else if i == 6 then EvidenceValidated
    else if i == 7 then DomainEvaluated
    else if i == 8 then TrustEvaluated
    else ResponseComposed
  }

  const STAGES := 10

  /** The first `done` states of a run that has not ended. */
  function Upto(done: nat): seq<AgentState> {
    if done == 0 then [] else Upto(done - 1) + [StageAt(done - 1)]
  }

  datatype Reason =
    | AmbiguousAccounts | AccountNeeded | EmptyRequest | NothingPlanned | TooManyToolCalls
    | WallClockExceeded | IterationsExceeded | ToolNotAuthorized | NoEvidence
    | InsufficientDocuments | NoLlmCallsAllowed | ContextTooLarge | CostTooHigh
    | CompositionFailed | UnsupportedCitations | RepairFailed | StillUnsupportedCitations

  datatype Budget = Budget(
    maxIterations: int, maxToolCalls: int, maxLlmCalls: int, maxContextTokens: int,
    maxWallClock: real, maxCost: real)

  /** What the run is given: the tools' world, the budget, the tool specifications, the clock
      as read before each step, how long each attempt of each step takes, and the token and
      cost estimators. */
  datatype Environment = Environment(
    world: World, budget: Budget, specOf: Step -> ToolSpec, elapsed: nat -> real,
    latency: nat -> nat -> real, contextTokens: (Pack, TrustState) -> int,
    worstCaseCost: int -> Option<real>)

  datatype Prompt =
    | Compose(pack: Pack, trust: TrustState)
    | Repair(pack: Pack, trust: TrustState, previous: string, invalid: seq<string>)

  /** Any text at any cost, or an exception. */
  datatype Reply = Reply(text: string, cost: real) | ProviderRaised

  type Provider = Prompt -> Reply

  datatype AgentResult = AgentResult(
    status: Status, answer: Option<string>, trust: Option<TrustState>, review: bool,
    citations: seq<EvidenceRef>, assumptions: seq<string>, conflicts: seq<Conflict>,
    reason: Option<Reason>, intent: Option<Intent>, planned: seq<Step>, toolTrace: seq<ToolResult>,
    trace: seq<AgentState>, llmCalls: nat, cost: real)

  /** `_terminal` with its defaults: the terminal state goes on the trace. */
  function End(trace: seq<AgentState>, status: Status, reason: Reason, intent: Option<Intent> := None,
               trust: Option<TrustState> := None, toolTrace: seq<ToolResult> := [],
               planned: seq<Step> := []): AgentResult {
    AgentResult(status, None, trust, false, [], [], [], Some(reason), intent, planned, toolTrace,
                trace + [Terminal(status)], 0, 0.0)
  }

  datatype Investigation = Ended(result: AgentResult) | Planned(intent: Intent, steps: seq<Step>)

  /** The early ends once the entities are unambiguous. */
  function Admit(needsAccount: bool, intent: Intent, steps: seq<Step>, maxToolCalls: int): Investigation {
    if needsAccount then Ended(End(Upto(4), NeedsClarification, AccountNeeded, intent := Some(intent)))
    else if intent == Unsupported then
      Ended(End(Upto(4), InsufficientEvidence, EmptyRequest, intent := Some(intent)))
    else if steps == [] then
      Ended(End(Upto(5), InsufficientEvidence, NothingPlanned, intent := Some(intent)))
    else if |steps| > maxToolCalls then
      Ended(End(Upto(5), Failed, TooManyToolCalls, intent := Some(intent)))
    else Planned(intent, steps)
  }

  function Investigate(env: Environment, q: Question): Investigation {
    var r := Resolve(env.world.db, env.world.auth, q);
    if r.ambiguous != [] then Ended(End(Upto(3), NeedsClarification, AmbiguousAccounts))
    else
      var intent := ResolveIntent(q, r);
      Admit(NeedsAccount(q, r, env.world.auth), intent, PlanSteps(intent, r), env.budget.maxToolCalls)
  }

  function ToolCall(env: Environment, i: nat, s: Step): ToolResult {
    Attempts(env.specOf(s), Dispatch(env.world, s), env.latency(i), 1)
  }

  datatype ToolPhase = Stopped(reason: Reason, partial: seq<ToolResult>) | Ran(results: seq<ToolResult>)

  /** The tool loop from step `i` on. */
  function RunTools(env: Environment, steps: seq<Step>, i: nat, iterations: nat, results: seq<ToolResult>)
    : ToolPhase
    requires i <= |steps|
    decreases |steps| - i
  {
    if i == |steps| then Ran(results)
    else if env.elapsed(i) > env.budget.maxWallClock then Stopped(WallClockExceeded, results)
    else if iterations >= env.budget.maxIterations then Stopped(IterationsExceeded, results)
    else
      var r := ToolCall(env, i, steps[i]);
      if r.output == Err(NotAuthorized) then Stopped(ToolNotAuthorized, results + [r])
      else RunTools(env, steps, i + 1, iterations + r.attempts, results + [r])
  }

  const STRONG_SCORE := -3.0
  const MIN_SHARED_WORDS := 2
  const MIN_CORROBORATING_CHUNKS := 2

  /** The sufficiency gate for answers that rest on documents alone. */
  predicate Sufficient(q: Question, docs: seq<Doc>) {
    && docs != [] && q.words != {}
    && (|| (exists d :: d in docs && |q.words * d.words| >= MIN_SHARED_WORDS)
        || ((exists d :: d in docs && d.score <= STRONG_SCORE) && |docs| >= MIN_CORROBORATING_CHUNKS))
  }

  /** The three checks before the first model call, in the order they are made. */
  function BudgetFailure(env: Environment, pack: Pack, trust: TrustState): Option<Reason> {
    var tokens := env.contextTokens(pack, trust);
    var cost := env.worstCaseCost(tokens);
    if env.budget.maxLlmCalls < 1 then Some(NoLlmCallsAllowed)
    else if tokens > env.budget.maxContextTokens then Some(ContextTooLarge)
    else if cost.Some? && cost.value > env.budget.maxCost then Some(CostTooHigh)
    else None
  }

  datatype Weighed = Unanswerable(result: AgentResult) | Ready(pack: Pack, trust: TrustState)

  /** Evidence, trust, and the budgets that are checked before a model is called. */
  function Weigh(env: Environment, q: Question, intent: Intent, steps: seq<Step>, results: seq<ToolResult>)
    : Weighed
  {
    var pack := Build(results);
    if pack.citations == [] && pack.documents == [] && pack.domainResults == [] then
      Unanswerable(End(Upto(8), InsufficientEvidence, NoEvidence,
        intent := Some(intent), toolTrace := results, planned := steps))
    else if pack.domainResults == [] && !Sufficient(q, pack.documents) then
      Unanswerable(End(Upto(8), InsufficientEvidence, InsufficientDocuments,
        intent := Some(intent), toolTrace := results, planned := steps))
    else
      var trust := Trust.Gate(pack.trustStates, pack.documents != []);
      var failure := BudgetFailure(env, pack, trust);
      if failure.Some? then
        Unanswerable(End(Upto(9), Failed, failure.value,
          intent := Some(intent), trust := Some(trust), toolTrace := results))
      else Ready(pack, trust)
  }

  function FinalStatus(trust: TrustState): Status {
    if trust == Escalate then Escalated else Completed
  }

  /** `_terminal` as it is called after composition: the result carries the evidence. */
  function Close(trace: seq<AgentState>, status: Status, reason: Option<Reason>, answer: Option<string>,
                 intent: Intent, steps: seq<Step>, results: seq<ToolResult>, pack: Pack,
                 trust: TrustState, llmCalls: nat, cost: real): AgentResult {
    AgentResult(status, answer, Some(trust), pack.review, pack.citations, pack.assumptions,
                pack.conflicts, reason, Some(intent), steps, results, trace + [Terminal(status)],
                llmCalls, cost)
  }

  /** The bounded repair of a first answer with unsupported citations: the result, and the
      prompts sent besides the first. */
  function RepairWith(env: Environment, intent: Intent, steps: seq<Step>, results: seq<ToolResult>,
                      pack: Pack, trust: TrustState, first: Reply, invalid: seq<string>,
                      provider: Provider): (AgentResult, seq<Prompt>)
    requires first.Reply?
  {
    if env.budget.maxLlmCalls < 2 then
      (Close(Upto(10), EvidenceValidationFailed, Some(UnsupportedCitations), None,
             intent, steps, results, pack, trust, 1, first.cost), [])
    else
      var repair := Repair(pack, trust, first.text, invalid);
      var second := provider(repair);
      if second.ProviderRaised? then
        (Close(Upto(10), Failed, Some(RepairFailed), None,
               intent, steps, results, pack, trust, 1, first.cost),
         [repair])
      else if Citations.Invalid(second.text, pack.citations) != [] then
        (Close(Upto(10), EvidenceValidationFailed, Some(StillUnsupportedCitations), None,
               intent, steps, results, pack, trust, 2, first.cost + second.cost), [repair])
      else
        (Close(Upto(10), FinalStatus(trust), None, Some(second.text),
               intent, steps, results, pack, trust, 2, first.cost + second.cost), [repair])
  }

  /** Compose, check citations, repair once. Returns the result and the prompts sent. */
  function AnswerWith(env: Environment, intent: Intent, steps: seq<Step>, results: seq<ToolResult>,
                      pack: Pack, trust: TrustState, provider: Provider): (AgentResult, seq<Prompt>) {
    var compose := Compose(pack, trust);
    var first := provider(compose);
    if first.ProviderRaised? then
      (End(Upto(9), Failed, CompositionFailed,
           intent := Some(intent), trust := Some(trust), toolTrace := results), [compose])
    else
      var invalid := Citations.Invalid(first.text, pack.citations);
      if invalid == [] then
        (Close(Upto(10), FinalStatus(trust), None, Some(first.text),
               intent, steps, results, pack, trust, 1, first.cost), [compose])
      else
        var (result, more) := RepairWith(env, intent, steps, results, pack, trust, first, invalid, provider);
        (result, [compose] + more)
  }

  function Run(env: Environment, q: Question, provider: Provider): (AgentResult, seq<Prompt>) {
    match Investigate(env, q)
    case Ended(result) => (result, [])
    case Planned(intent, steps) =>
      match RunTools(env, steps, 0, 0, [])
      case Stopped(reason, partial) =>
        (End(Upto(6), Failed, reason, intent := Some(intent), toolTrace := partial), [])
      case Ran(results) =>
        match Weigh(env, q, intent, steps, results)
        case Unanswerable(result) => (result, [])
        case Ready(pack, trust) => AnswerWith(env, intent, steps, results, pack, trust, provider)
  }

  /** The tool loop as written. */
  method ExecutePlan(env: Environment, steps: seq<Step>) returns (phase: ToolPhase)
    ensures phase == RunTools(env, steps, 0, 0, [])
  {
    var results: seq<ToolResult> := [];
    var iterations: nat := 0;
    for i := 0 to |steps|
      invariant RunTools(env, steps, 0, 0, []) == RunTools(env, steps, i, iterations, results)
    {
      if env.elapsed(i) > env.budget.maxWallClock {
        return Stopped(WallClockExceeded, results);
      }
      if iterations >= env.budget.maxIterations {
        return Stopped(IterationsExceeded, results);
      }
      var result := ExecuteTool(env.world, env.specOf(steps[i]), Valid(steps[i]), env.latency(i));
      iterations := iterations + result.attempts;
      results := results + [result];
      if result.output == Err(NotAuthorized) {
        return Stopped(ToolNotAuthorized, results);
      }
    }
    return Ran(results);
  }

  /** From the intent to a plan, or an early end; `trace` is what was recorded by then. */
  method PlanQuestion(needsAccount: bool, intent: Intent, entities: Resolution, maxToolCalls: int,
                      sofar: seq<AgentState>)
    returns (found: Investigation, trace: seq<AgentState>)
    requires sofar == Upto(4)
    ensures found == Admit(needsAccount, intent, PlanSteps(intent, entities), maxToolCalls)
    ensures found.Planned? ==> trace == Upto(5)
  {
    trace := sofar;
    if needsAccount {
      return Ended(End(trace, NeedsClarification, AccountNeeded, intent := Some(intent))), trace;
    }
    if intent == Unsupported {
      return Ended(End(trace, InsufficientEvidence, EmptyRequest, intent := Some(intent))), trace;
    }
    var steps := BuildPlan(intent, entities);
    trace := trace + [PlanCreated];
    if steps == [] {
      return Ended(End(trace, InsufficientEvidence, NothingPlanned, intent := Some(intent))), trace;
    }
    if |steps| > maxToolCalls {
      return Ended(End(trace, Failed, TooManyToolCalls, intent := Some(intent))), trace;
    }
    return Planned(intent, steps), trace;
  }

  method InvestigateQuestion(env: Environment, q: Question)
    returns (found: Investigation, trace: seq<AgentState>)
    ensures found == Investigate(env, q)
    ensures found.Planned? ==> trace == Upto(5)
  {
    trace := Upto(2);
    var entities := ResolveEntities(env.world.db, env.world.auth, q);
    trace := trace + [EntitiesResolved];
    if entities.ambiguous != [] {
      return Ended(End(trace, NeedsClarification, AmbiguousAccounts)), trace;
    }
    var intent := ResolveIntent(q, entities);
    trace := trace + [IntentResolved];
    found, trace :=
      PlanQuestion(NeedsAccount(q, entities, env.world.auth), intent, entities, env.budget.maxToolCalls, trace);
  }

  /** The run as written: states are appended as it goes, and every early exit hands over the
      trace it has by then. */
  method RunAgent(env: Environment, q: Question, provider: Provider)
    returns (result: AgentResult, prompts: seq<Prompt>)
    ensures (result, prompts) == Run(env, q, provider)
  {
    prompts := [];
    var found, trace := InvestigateQuestion(env, q);
    if found.Ended? {
      return found.result, prompts;
    }
    var intent, steps := found.intent, found.steps;
    trace := trace + [ToolExecuting];
    var phase := ExecutePlan(env, steps);
    if phase.Stopped? {
      return End(trace, Failed, phase.reason,
        intent := Some(intent), toolTrace := phase.partial), prompts;
    }
    var weighed;
    weighed, trace := WeighEvidence(env, q, intent, steps, phase.results, trace);
    if weighed.Unanswerable? {
      return weighed.result, prompts;
    }
    result, prompts :=
      ComposeAndRepair(env, intent, steps, phase.results, weighed.pack, weighed.trust, trace, provider);
  }

  method WeighEvidence(env: Environment, q: Question, intent: Intent, steps: seq<Step>,
                       results: seq<ToolResult>, sofar: seq<AgentState>)
    returns (weighed: Weighed, trace: seq<AgentState>)
    requires sofar == Upto(6)
    ensures weighed == Weigh(env, q, intent, steps, results)
    ensures weighed.Ready? ==> trace == Upto(9)
  {
    var pack := BuildEvidencePack(results);
    trace := sofar + [EvidenceValidated];
    trace := trace + [DomainEvaluated];
    if pack.citations == [] && pack.documents == [] && pack.domainResults == [] {
      return Unanswerable(End(trace, InsufficientEvidence, NoEvidence,
        intent := Some(intent), toolTrace := results, planned := steps)), trace;
    }
    if pack.domainResults == [] && !Sufficient(q, pack.documents) {
      return Unanswerable(End(trace, InsufficientEvidence, InsufficientDocuments,
        intent := Some(intent), toolTrace := results, planned := steps)), trace;
    }
    var trust := Trust.Gate(pack.trustStates, pack.documents != []);
    trace := trace + [TrustEvaluated];
    var failure := BudgetFailure(env, pack, trust);
    if failure.Some? {
      return Unanswerable(End(trace, Failed, failure.value,
        intent := Some(intent), trust := Some(trust), toolTrace := results)), trace;
    }
    return Ready(pack, trust), trace;
  }

  /** What a repair may do, whatever the provider answers. */
  ghost predicate RepairedWithin(env: Environment, pack: Pack, trust: TrustState, first: Reply,
                                 invalid: seq<string>, provider: Provider, r: AgentResult, more: seq<Prompt>)
    requires first.Reply?
  {
    && more == (if env.budget.maxLlmCalls < 2 then [] else [Repair(pack, trust, first.text, invalid)])
    && r.llmCalls == (if more != [] && provider(more[0]).Reply? then 2 else 1)
    && (r.answer.Some? <==>
          && more != [] && provider(more[0]).Reply?
          && Citations.Invalid(provider(more[0]).text, pack.citations) == [])
    && (r.answer.Some? ==> r.answer.value == provider(more[0]).text && r.status == FinalStatus(trust))
  }

  lemma CloseShows(trace: seq<AgentState>, status: Status, reason: Option<Reason>, answer: Option<string>,
                   intent: Intent, steps: seq<Step>, results: seq<ToolResult>, pack: Pack,
                   trust: TrustState, llmCalls: nat, cost: real)
    ensures var r := Close(trace, status, reason, answer, intent, steps, results, pack, trust, llmCalls, cost);
            r.status == status && r.answer == answer && r.llmCalls == llmCalls
  {
  }

  lemma RepairExactly(env: Environment, intent: Intent, steps: seq<Step>, results: seq<ToolResult>,
                      pack: Pack, trust: TrustState, first: Reply, invalid: seq<string>, provider: Provider)
    requires first.Reply?
    ensures var (r, more) := RepairWith(env, intent, steps, results, pack, trust, first, invalid, provider);
            RepairedWithin(env, pack, trust, first, invalid, provider, r, more)
  {
    hide Upto, Citations.Invalid, FinalStatus, Close;
    CloseShows(Upto(10), EvidenceValidationFailed, Some(UnsupportedCitations), None,
               intent, steps, results, pack, trust, 1, first.cost);
    CloseShows(Upto(10), Failed, Some(RepairFailed), None, intent, steps, results, pack, trust, 1, first.cost);
    var second := provider(Repair(pack, trust, first.text, invalid));
    if second.Reply? {
      var cost := first.cost + second.cost;
      CloseShows(Upto(10), EvidenceValidationFailed, Some(StillUnsupportedCitations), None,
                 intent, steps, results, pack, trust, 2, cost);
      CloseShows(Upto(10), FinalStatus(trust), None, Some(second.text),
                 intent, steps, results, pack, trust, 2, cost);
    }
  }

  /** The bounded repair: at most one more call, told what was wrong; an answer exactly when that
      call came back with a text that cites only the evidence. */
  method RepairOnce(env: Environment, intent: Intent, steps: seq<Step>, results: seq<ToolResult>,
                    pack: Pack, trust: TrustState, first: Reply, invalid: seq<string>,
                    trace: seq<AgentState>, provider: Provider)
    returns (result: AgentResult, more: seq<Prompt>)
    requires first.Reply? && trace == Upto(10)
    ensures (result, more) == RepairWith(env, intent, steps, results, pack, trust, first, invalid, provider)
    ensures RepairedWithin(env, pack, trust, first, invalid, provider, result, more)
  {
    hide Upto, Citations.Invalid, FinalStatus, Close, RepairedWithin;
    RepairExactly(env, intent, steps, results, pack, trust, first, invalid, provider);
    more := [];
    if env.budget.maxLlmCalls < 2 {
      result := Close(trace, EvidenceValidationFailed, Some(UnsupportedCitations), None,
                      intent, steps, results, pack, trust, 1, first.cost);
      return;
    }
    more := [Repair(pack, trust, first.text, invalid)];
    var repaired := provider(more[0]);
    if repaired.ProviderRaised? {
      result := Close(trace, Failed, Some(RepairFailed), None,
                      intent, steps, results, pack, trust, 1, first.cost);
      return;
    }
    if Citations.Invalid(repaired.text, pack.citations) != [] {
      result := Close(trace, EvidenceValidationFailed, Some(StillUnsupportedCitations), None,
                      intent, steps, results, pack, trust, 2, first.cost + repaired.cost);
      return;
    }
    result := Close(trace, FinalStatus(trust), None, Some(repaired.text),
                    intent, steps, results, pack, trust, 2, first.cost + repaired.cost);
  }

  method ComposeAndRepair(env: Environment, intent: Intent, steps: seq<Step>, results: seq<ToolResult>,
                          pack: Pack, trust: TrustState, sofar: seq<AgentState>, provider: Provider)
    returns (result: AgentResult, prompts: seq<Prompt>)
    requires sofar == Upto(9)
    ensures (result, prompts) == AnswerWith(env, intent, steps, results, pack, trust, provider)
  {
    var trace := sofar;
    prompts := [Compose(pack, trust)];
    var reply := provider(prompts[0]);
    if reply.ProviderRaised? {
      return End(trace, Failed, CompositionFailed,
        intent := Some(intent), trust := Some(trust), toolTrace := results), prompts;
    }
    trace := trace + [ResponseComposed];
    var invalid := Citations.Invalid(reply.text, pack.citations);
    if invalid != [] {
      var more;
      result, more := RepairOnce(env, intent, steps, results, pack, trust, reply, invalid, trace, provider);
      prompts := prompts + more;
      return;
    }
    result := Close(trace, FinalStatus(trust), None, Some(reply.text),
                    intent, steps, results, pack, trust, 1, reply.cost);
  }
}
