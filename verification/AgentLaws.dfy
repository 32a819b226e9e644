/** What holds of every bounded run, for every question, database, caller, budget and
    provider. */
module AgentLaws {
  import opened Prelude
  import opened Enums
  import opened Records
  import opened Repository
  import opened Entities
  import opened Planner
  import opened Tools
  import opened EvidencePack
  import opened Orchestrator
  import Citations
  import Trust
  import Sla

  // ---- Budgets ----

  ghost function TotalAttempts(results: seq<ToolResult>): nat {
    if results == [] then 0
    else TotalAttempts(results[..|results| - 1]) + results[|results| - 1].attempts
  }

  ghost function ResultsOf(p: ToolPhase): seq<ToolResult> {
    if p.Stopped? then p.partial else p.results
  }

  /** No tool may be tried more than `cap` times. */
  ghost predicate CappedBy(env: Environment, cap: nat) {
    forall s :: MaxAttempts(env.specOf(s)) <= cap
  }

  lemma CallCapped(env: Environment, i: nat, s: Step, cap: nat)
    requires CappedBy(env, cap)
    ensures ToolCall(env, i, s).attempts <= cap
  {
    hide Dispatch;
    AttemptsBounded(env.specOf(s), Dispatch(env.world, s), env.latency(i), 1);
  }

  lemma {:induction false} ToolsBounded(env: Environment, steps: seq<Step>, i: nat, iterations: nat,
                                        results: seq<ToolResult>, cap: nat)
    requires i <= |steps| && |results| == i && CappedBy(env, cap)
    requires iterations == TotalAttempts(results)
    requires i > 0 ==> iterations <= env.budget.maxIterations - 1 + cap
    ensures var all := ResultsOf(RunTools(env, steps, i, iterations, results));
            && |all| <= |steps|
            && (all != [] ==> TotalAttempts(all) <= env.budget.maxIterations - 1 + cap)
    decreases |steps| - i
  {
    hide ToolCall, CappedBy;
    if i < |steps| && env.elapsed(i) <= env.budget.maxWallClock && iterations < env.budget.maxIterations {
      var r := ToolCall(env, i, steps[i]);
      CallCapped(env, i, steps[i], cap);
      var more := results + [r];
      assert more[..i] == results;
      if r.output != Err(NotAuthorized) {
        ToolsBounded(env, steps, i + 1, iterations + r.attempts, more, cap);
      }
    }
  }

  /** A run sends at most min(2, max_llm_calls) prompts and makes at most max_tool_calls tool
      calls, and all tool attempts together stay below max_iterations plus one tool's cap. */
  lemma RunBounded(env: Environment, q: Question, provider: Provider, cap: nat)
    requires CappedBy(env, cap)
    ensures var (r, prompts) := Run(env, q, provider);
            && |prompts| <= 2
            && (prompts != [] ==> |prompts| <= env.budget.maxLlmCalls)
            && r.llmCalls <= |prompts|
            && (r.toolTrace != [] ==> |r.toolTrace| <= env.budget.maxToolCalls)
            && (r.toolTrace != [] ==>
                  TotalAttempts(r.toolTrace) <= env.budget.maxIterations - 1 + cap)
  {
    hide Resolve, ResolveIntent, PlanSteps, Weigh, AnswerWith, Upto, Build, RunTools;
    var found := Investigate(env, q);
    if found.Planned? {
      ToolsBounded(env, found.steps, 0, 0, [], cap);
      PromptsBounded(env, q, found.intent, found.steps, provider);
    }
  }

  lemma PromptsBounded(env: Environment, q: Question, intent: Intent, steps: seq<Step>, provider: Provider)
    ensures var phase := RunTools(env, steps, 0, 0, []);
            phase.Ran? ==>
              var weighed := Weigh(env, q, intent, steps, phase.results);
              && (weighed.Unanswerable? ==> weighed.result.llmCalls == 0 && weighed.result.toolTrace == phase.results)
              && (weighed.Ready? ==>
                    && env.budget.maxLlmCalls >= 1
                    && var (r, prompts) :=
                         AnswerWith(env, intent, steps, phase.results, weighed.pack, weighed.trust, provider);
                    && r.toolTrace == phase.results && r.llmCalls <= |prompts| <= 2
                    && |prompts| <= env.budget.maxLlmCalls)
  {
    hide Upto, Build, Citations.Invalid, Trust.Gate, Sufficient, RunTools;
  }

  // ---- The state trace ----

  /** `k` pipeline states and then the one terminal state that matches the status. */
  ghost predicate WellTraced(r: AgentResult, k: nat) {
    k <= STAGES && r.trace == Upto(k) + [Terminal(r.status)]
  }

  lemma {:induction false} UptoStages(k: nat)
    requires k <= STAGES
    ensures |Upto(k)| == k
    ensures forall i :: 0 <= i < k ==> Upto(k)[i] == StageAt(i) && !StageAt(i).Terminal?
    ensures forall i, j :: 0 <= i < j < k ==> StageAt(i) != StageAt(j)
  {
    if k > 0 {
      UptoStages(k - 1);
    }
  }

  lemma TracedShape(r: AgentResult, k: nat)
    requires WellTraced(r, k)
    ensures Distinct(r.trace)
    ensures forall i :: 0 <= i < |r.trace| ==> (r.trace[i].Terminal? <==> i == |r.trace| - 1)
  {
    UptoStages(k);
  }

  lemma WeighTraced(env: Environment, q: Question, intent: Intent, steps: seq<Step>, results: seq<ToolResult>)
    ensures var w := Weigh(env, q, intent, steps, results);
            w.Unanswerable? ==> WellTraced(w.result, 8) || WellTraced(w.result, 9)
  {
    hide Upto, Build, Trust.Gate, Sufficient, BudgetFailure;
  }

  lemma CloseTraced(status: Status, reason: Option<Reason>, answer: Option<string>, intent: Intent,
                    steps: seq<Step>, results: seq<ToolResult>, pack: Pack, trust: TrustState,
                    llmCalls: nat, cost: real)
    ensures WellTraced(Close(Upto(10), status, reason, answer, intent, steps, results, pack, trust, llmCalls, cost), 10)
  {
    hide Upto;
  }

  lemma RepairTraced(env: Environment, intent: Intent, steps: seq<Step>, results: seq<ToolResult>,
                     pack: Pack, trust: TrustState, first: Reply, invalid: seq<string>, provider: Provider)
    requires first.Reply?
    ensures WellTraced(RepairWith(env, intent, steps, results, pack, trust, first, invalid, provider).0, 10)
  {
    hide Upto, Citations.Invalid, WellTraced, Close, FinalStatus;
    CloseTraced(EvidenceValidationFailed, Some(UnsupportedCitations), None, intent, steps, results, pack, trust,
                1, first.cost);
    CloseTraced(Failed, Some(RepairFailed), None, intent, steps, results, pack, trust, 1, first.cost);
    var second := provider(Repair(pack, trust, first.text, invalid));
    if second.Reply? {
      var cost := first.cost + second.cost;
      CloseTraced(EvidenceValidationFailed, Some(StillUnsupportedCitations), None, intent, steps, results, pack,
                  trust, 2, cost);
      CloseTraced(FinalStatus(trust), None, Some(second.text), intent, steps, results, pack, trust, 2, cost);
    }
  }

  lemma AnswerTraced(env: Environment, intent: Intent, steps: seq<Step>, results: seq<ToolResult>,
                     pack: Pack, trust: TrustState, provider: Provider)
    ensures var r := AnswerWith(env, intent, steps, results, pack, trust, provider).0;
            WellTraced(r, 9) || WellTraced(r, 10)
  {
    hide Upto, Citations.Invalid, RepairWith, Close, FinalStatus;
    var first := provider(Compose(pack, trust));
    if first.Reply? {
      CloseTraced(FinalStatus(trust), None, Some(first.text), intent, steps, results, pack, trust, 1, first.cost);
      RepairTraced(env, intent, steps, results, pack, trust, first, Citations.Invalid(first.text, pack.citations),
                   provider);
    }
  }

  /** Every trace is a repetition-free prefix of the fixed pipeline followed by exactly one
      terminal state, the one that matches the status. */
  lemma RunTraced(env: Environment, q: Question, provider: Provider)
    ensures var r := Run(env, q, provider).0;
            && (exists k :: WellTraced(r, k))
            && Distinct(r.trace)
            && (forall i :: 0 <= i < |r.trace| ==> (r.trace[i].Terminal? <==> i == |r.trace| - 1))
  {
    hide Resolve, ResolveIntent, PlanSteps, Build, Weigh, AnswerWith, Upto, RunTools;
    var r := Run(env, q, provider).0;
    var found := Investigate(env, q);
    if found.Ended? {
      assert WellTraced(r, 3) || WellTraced(r, 4) || WellTraced(r, 5);
    } else {
      var phase := RunTools(env, found.steps, 0, 0, []);
      if phase.Stopped? {
        assert WellTraced(r, 6);
      } else {
        WeighTraced(env, q, found.intent, found.steps, phase.results);
        var w := Weigh(env, q, found.intent, found.steps, phase.results);
        if w.Ready? {
          AnswerTraced(env, found.intent, found.steps, phase.results, w.pack, w.trust, provider);
        }
      }
    }
    var k :| WellTraced(r, k);
    TracedShape(r, k);
  }

  // ---- Answers ----

  /** A run that answers: what it executed, gathered and was answered with. */
  ghost predicate Answers(env: Environment, q: Question, intent: Intent, steps: seq<Step>,
                          results: seq<ToolResult>, pack: Pack, trust: TrustState) {
    && Investigate(env, q) == Planned(intent, steps)
    && RunTools(env, steps, 0, 0, []) == Ran(results)
    && Weigh(env, q, intent, steps, results) == Ready(pack, trust)
  }

  /** What composition settles in every result it gives. */
  ghost predicate Composed(r: AgentResult, results: seq<ToolResult>, pack: Pack, trust: TrustState) {
    && r.trust == Some(trust) && r.toolTrace == results
    && (r.answer.Some? <==> r.status == Completed || r.status == Escalated)
    && (r.answer.Some? ==>
          && Citations.Invalid(r.answer.value, pack.citations) == []
          && r.citations == pack.citations && r.status == FinalStatus(trust))
    && (r.llmCalls > 0 ==>
          && r.assumptions == pack.assumptions && r.conflicts == pack.conflicts
          && r.citations == pack.citations && r.review == pack.review)
  }

  lemma ClosedIsComposed(trace: seq<AgentState>, status: Status, reason: Option<Reason>,
                         answer: Option<string>, intent: Intent, steps: seq<Step>,
                         results: seq<ToolResult>, pack: Pack, trust: TrustState, llmCalls: nat, cost: real)
    requires if answer.Some? then
               status == FinalStatus(trust) && Citations.Invalid(answer.value, pack.citations) == []
             else status != Completed && status != Escalated
    ensures Composed(Close(trace, status, reason, answer, intent, steps, results, pack, trust, llmCalls, cost),
                     results, pack, trust)
  {
    hide Citations.Invalid;
  }

  lemma RepairWithLaw(env: Environment, intent: Intent, steps: seq<Step>, results: seq<ToolResult>,
                      pack: Pack, trust: TrustState, first: Reply, invalid: seq<string>, provider: Provider)
    requires first.Reply?
    ensures Composed(RepairWith(env, intent, steps, results, pack, trust, first, invalid, provider).0,
                     results, pack, trust)
  {
    hide Upto, Citations.Invalid, Composed, Close, FinalStatus;
    ClosedIsComposed(Upto(10), EvidenceValidationFailed, Some(UnsupportedCitations), None,
                     intent, steps, results, pack, trust, 1, first.cost);
    ClosedIsComposed(Upto(10), Failed, Some(RepairFailed), None,
                     intent, steps, results, pack, trust, 1, first.cost);
    var second := provider(Repair(pack, trust, first.text, invalid));
    if second.Reply? {
      ClosedIsComposed(Upto(10), EvidenceValidationFailed, Some(StillUnsupportedCitations), None,
                       intent, steps, results, pack, trust, 2, first.cost + second.cost);
      if Citations.Invalid(second.text, pack.citations) == [] {
        ClosedIsComposed(Upto(10), FinalStatus(trust), None, Some(second.text),
                         intent, steps, results, pack, trust, 2, first.cost + second.cost);
      }
    }
  }

  lemma AnswerWithLaw(env: Environment, intent: Intent, steps: seq<Step>, results: seq<ToolResult>,
                      pack: Pack, trust: TrustState, provider: Provider)
    ensures Composed(AnswerWith(env, intent, steps, results, pack, trust, provider).0, results, pack, trust)
  {
    hide Upto, Citations.Invalid, RepairWith;
    var first := provider(Compose(pack, trust));
    if first.Reply? {
      RepairWithLaw(env, intent, steps, results, pack, trust, first,
                    Citations.Invalid(first.text, pack.citations), provider);
    }
  }

  lemma EarlyEndsHaveNoAnswer(env: Environment, q: Question, intent: Intent, steps: seq<Step>,
                              results: seq<ToolResult>)
    ensures var found := Investigate(env, q);
            found.Ended? ==> found.result.answer.None? && found.result.status != Completed && found.result.status != Escalated
    ensures var w := Weigh(env, q, intent, steps, results);
            w.Unanswerable? ==> w.result.answer.None? && w.result.status != Completed && w.result.status != Escalated
  {
    hide Resolve, ResolveIntent, PlanSteps, Build, Upto, Trust.Gate, Sufficient, BudgetFailure, NeedsAccount;
  }

  lemma WeighedPack(env: Environment, q: Question, intent: Intent, steps: seq<Step>, results: seq<ToolResult>)
    ensures var w := Weigh(env, q, intent, steps, results);
            w.Ready? ==> w.pack == Build(results)
  {
    hide Build, Trust.Gate, Sufficient, BudgetFailure, Upto;
  }

  /** An answer is there exactly in a completed or escalated run, and then every bracketed
      marker in it names a source that the run's own tool results cite, whatever the provider
      wrote. */
  lemma AnswersAreGrounded(env: Environment, q: Question, provider: Provider)
    ensures var r := Run(env, q, provider).0;
            && (r.answer.Some? <==> r.status == Completed || r.status == Escalated)
            && (r.answer.Some? ==>
                  && r.citations == Build(r.toolTrace).citations
                  && forall i, m :: 0 <= i < |r.answer.value| && Citations.Bracketed(r.answer.value, i, m) ==>
                       Citations.Names(r.citations, m))
  {
    hide Resolve, ResolveIntent, PlanSteps, Build, Weigh, AnswerWith, Upto, RunTools;
    var found := Investigate(env, q);
    EarlyEndsHaveNoAnswer(env, q, Unsupported, [], []);
    if found.Planned? {
      var phase := RunTools(env, found.steps, 0, 0, []);
      if phase.Ran? {
        EarlyEndsHaveNoAnswer(env, q, found.intent, found.steps, phase.results);
        var w := Weigh(env, q, found.intent, found.steps, phase.results);
        if w.Ready? {
          WeighedPack(env, q, found.intent, found.steps, phase.results);
          AnswerWithLaw(env, found.intent, found.steps, phase.results, w.pack, w.trust, provider);
        }
      }
    }
    var r := Run(env, q, provider).0;
    if r.answer.Some? {
      Citations.ValidExactlyWhen(r.answer.value, r.citations);
    }
  }

  /** The model decides neither the trust state nor what the tools returned, nor the first
      prompt: two runs that differ only in the provider agree on all three. */
  lemma ProviderDecidesOnlyTheText(env: Environment, q: Question, provider: Provider, provider': Provider)
    ensures var (r, prompts) := Run(env, q, provider);
            var (r', prompts') := Run(env, q, provider');
            && r.trust == r'.trust && r.toolTrace == r'.toolTrace && r.intent == r'.intent
            && (prompts == [] <==> prompts' == [])
            && (prompts != [] ==> prompts[0] == prompts'[0])
            && (prompts == [] ==> r == r')
            && (r.answer.Some? && r'.answer.Some? ==> r.status == r'.status && r.citations == r'.citations)
  {
    hide Resolve, ResolveIntent, PlanSteps, Build, Weigh, AnswerWith, Upto, RunTools, NeedsAccount;
    var found := Investigate(env, q);
    if found.Planned? {
      var phase := RunTools(env, found.steps, 0, 0, []);
      if phase.Ran? {
        var w := Weigh(env, q, found.intent, found.steps, phase.results);
        if w.Ready? {
          AnswerWithLaw(env, found.intent, found.steps, phase.results, w.pack, w.trust, provider);
          AnswerWithLaw(env, found.intent, found.steps, phase.results, w.pack, w.trust, provider');
          FirstPrompt(env, found.intent, found.steps, phase.results, w.pack, w.trust, provider);
          FirstPrompt(env, found.intent, found.steps, phase.results, w.pack, w.trust, provider');
        }
      }
    }
  }

  lemma FirstPrompt(env: Environment, intent: Intent, steps: seq<Step>, results: seq<ToolResult>,
                    pack: Pack, trust: TrustState, provider: Provider)
    ensures var (r, prompts) := AnswerWith(env, intent, steps, results, pack, trust, provider);
            prompts != [] && prompts[0] == Compose(pack, trust) && r.intent == Some(intent)
  {
    hide Upto, Citations.Invalid;
  }

  lemma AnswerWithPrompts(env: Environment, intent: Intent, steps: seq<Step>, results: seq<ToolResult>,
                          pack: Pack, trust: TrustState, provider: Provider)
    ensures forall p :: p in AnswerWith(env, intent, steps, results, pack, trust, provider).1 ==>
              p.pack == pack && p.trust == trust
  {
    hide Upto, Citations.Invalid, Close, End;
  }

  /** An answered run went through all its phases, and its tool trace is what its tools
      returned. */
  lemma AnsweredRun(env: Environment, q: Question, provider: Provider)
    returns (intent: Intent, steps: seq<Step>, pack: Pack, trust: TrustState)
    requires Run(env, q, provider).0.answer.Some?
    ensures var r := Run(env, q, provider).0;
            && Answers(env, q, intent, steps, r.toolTrace, pack, trust)
            && r.trust == Some(trust) && r.status == FinalStatus(trust) && pack == Build(r.toolTrace)
  {
    hide Resolve, ResolveIntent, PlanSteps, Build, Weigh, AnswerWith, Upto, RunTools, NeedsAccount;
    var found := Investigate(env, q);
    EarlyEndsHaveNoAnswer(env, q, Unsupported, [], []);
    intent, steps := found.intent, found.steps;
    var phase := RunTools(env, steps, 0, 0, []);
    EarlyEndsHaveNoAnswer(env, q, intent, steps, phase.results);
    var w := Weigh(env, q, intent, steps, phase.results);
    pack, trust := w.pack, w.trust;
    WeighedPack(env, q, intent, steps, phase.results);
    AnswerWithLaw(env, intent, steps, phase.results, pack, trust, provider);
  }

  // ---- The branch that should not be reachable ----

  lemma ResolvedStepNotRefused(w: World, r: Resolution, s: Step)
    requires AboutResolved(r, s)
    requires forall id :: id in r.orderIds ==> GetOrder(w.db, id, w.auth).Ok?
    requires forall id :: id in r.ticketIds ==> GetTicket(w.db, id, w.auth).Ok?
    requires forall id :: id in r.accountIds ==> GetAccount(w.db, id, w.auth).Ok?
    ensures Dispatch(w, s) != Err(NotAuthorizedError)
  {
    if s.Calculate? && s.kind == CalcSla {
      Sla.SecondLookupNotRefused(w.db, w.reg, w.lex, s.target, w.auth, w.now);
    }
  }

  lemma {:induction false} LoopNotRefused(env: Environment, steps: seq<Step>, i: nat, iterations: nat,
                                          results: seq<ToolResult>)
    requires i <= |steps| && forall s :: s in steps ==> Dispatch(env.world, s) != Err(NotAuthorizedError)
    ensures var p := RunTools(env, steps, i, iterations, results);
            p.Stopped? ==> p.reason != ToolNotAuthorized
    decreases |steps| - i
  {
    if i < |steps| {
      AttemptsBounded(env.specOf(steps[i]), Dispatch(env.world, steps[i]), env.latency(i), 1);
      var r := ToolCall(env, i, steps[i]);
      assert steps[i] in steps;
      if env.elapsed(i) <= env.budget.maxWallClock && iterations < env.budget.maxIterations {
        LoopNotRefused(env, steps, i + 1, iterations + r.attempts, results + [r]);
      }
    }
  }

  /** No question, database, caller, budget or provider makes a run end because a tool was not
      authorized: nothing reaches a plan that its own lookups, the second one of the SLA
      calculation included, would refuse. */
  lemma NeverUnauthorized(env: Environment, q: Question, provider: Provider)
    ensures Run(env, q, provider).0.reason != Some(ToolNotAuthorized)
  {
    hide Resolve, ResolveIntent, PlanSteps, Build, Weigh, AnswerWith, Upto, RunTools, NeedsAccount, Dispatch;
    var w := env.world;
    var r := Resolve(w.db, w.auth, q);
    var found := Investigate(env, q);
    if found.Planned? {
      ResolvedIsVisible(w.db, w.auth, q);
      PlanIsAboutResolved(found.intent, r);
      forall s | s in found.steps ensures Dispatch(w, s) != Err(NotAuthorizedError) {
        ResolvedStepNotRefused(w, r, s);
      }
      LoopNotRefused(env, found.steps, 0, 0, []);
      OtherReasons(env, q, found.intent, found.steps, provider);
    }
  }

  /** Another branch that is never taken: by then an intent was resolved from unambiguous
      entities, and every such intent plans at least a search. */
  lemma NeverWithoutPlan(env: Environment, q: Question, provider: Provider)
    ensures Run(env, q, provider).0.reason != Some(NothingPlanned)
  {
    hide Resolve, ResolveIntent, PlanSteps, Weigh, AnswerWith, Upto, RunTools, NeedsAccount;
    var r := Resolve(env.world.db, env.world.auth, q);
    var found := Investigate(env, q);
    if found.Planned? {
      OtherReasons(env, q, found.intent, found.steps, provider);
      StopReasons(env, found.steps, 0, 0, []);
    } else if r.ambiguous == [] {
      BlankIsUnsupported(q, r);
      if !q.blank {
        ResolvedPlanNeverEmpty(q, r);
      }
    }
  }

  lemma BlankIsUnsupported(q: Question, r: Resolution)
    requires r.ambiguous == []
    ensures ResolveIntent(q, r) == Unsupported <==> q.blank
  {
  }

  lemma {:induction false} StopReasons(env: Environment, steps: seq<Step>, i: nat, iterations: nat,
                                       results: seq<ToolResult>)
    requires i <= |steps|
    ensures var p := RunTools(env, steps, i, iterations, results);
            p.Stopped? ==> p.reason in {WallClockExceeded, IterationsExceeded, ToolNotAuthorized}
    decreases |steps| - i
  {
    hide ToolCall;
    if i < |steps| {
      var r := ToolCall(env, i, steps[i]);
      StopReasons(env, steps, i + 1, iterations + r.attempts, results + [r]);
    }
  }

  lemma OtherReasons(env: Environment, q: Question, intent: Intent, steps: seq<Step>, provider: Provider)
    ensures var phase := RunTools(env, steps, 0, 0, []);
            phase.Ran? ==>
              var w := Weigh(env, q, intent, steps, phase.results);
              var reason := if w.Unanswerable? then w.result.reason
                            else AnswerWith(env, intent, steps, phase.results, w.pack, w.trust, provider).0.reason;
              reason != Some(ToolNotAuthorized) && reason != Some(NothingPlanned)
  {
    hide Upto, Build, Citations.Invalid, Trust.Gate, Sufficient, RunTools;
  }
}
