/** What a run may depend on, and what it may show, given the caller's scope. */
module AgentScope {
  import opened Prelude
  import opened Records
  import opened Repository
  import opened Entities
  import opened Planner
  import opened Tools
  import opened EvidencePack
  import opened Orchestrator
  import opened AgentLaws
  import Citations
  import Trust
  import Cancellation
  import ServiceCredit
  import Sla

  lemma VisibleOrderSame(db: Database, db': Database, auth: Auth, id: string)
    requires ValidTables(db) && ValidTables(db') && AgreeInScope(db, db', auth)
    requires GetOrder(db, id, auth).Ok?
    ensures GetOrder(db', id, auth) == GetOrder(db, id, auth)
  {
    VisibleLookups(db, db', auth, id);
  }

  /** A planned step gives the same outcome in two databases with the same in-scope rows. */
  lemma StepIgnoresOutOfScope(w: World, db': Database, r: Resolution, s: Step)
    requires ValidTables(w.db) && ValidTables(db') && AgreeInScope(w.db, db', w.auth)
    requires AboutResolved(r, s)
    requires forall id :: id in r.orderIds ==> GetOrder(w.db, id, w.auth).Ok?
    requires forall id :: id in r.ticketIds ==> GetTicket(w.db, id, w.auth).Ok?
    ensures Dispatch(w, s) == Dispatch(w.(db := db'), s)
  {
    match s
    case Lookup(LookupAccount, id) => GetAccountIgnoresOutOfScope(w.db, db', w.auth, id);
    case Lookup(LookupOrder, id) => VisibleOrderSame(w.db, db', w.auth, id);
    case Lookup(LookupTicket, id) => VisibleLookups(w.db, db', w.auth, id);
    case Search(_) =>
    case Calculate(CalcCancellation, id) =>
      VisibleOrderSame(w.db, db', w.auth, id);
      CancellationReadsOneOrder(w, db', id);
    case Calculate(CalcServiceCredit, id) =>
      VisibleOrderSame(w.db, db', w.auth, id);
      CreditReadsOneOrder(w, db', id);
    case Calculate(CalcSla, id) =>
      VisibleLookups(w.db, db', w.auth, id);
      GetAccountIgnoresOutOfScope(w.db, db', w.auth, GetTicket(w.db, id, w.auth).value.accountId);
      Sla.SameReadsSameSla(w.db, db', w.reg, w.lex, id, w.auth, w.now);
    case Calculate(CalcSeverity, id) => VisibleLookups(w.db, db', w.auth, id);
  }

  lemma CancellationReadsOneOrder(w: World, db': Database, id: string)
    requires w.db.sources == db'.sources && w.db.chunks == db'.chunks
    requires GetOrder(w.db, id, w.auth) == GetOrder(db', id, w.auth)
    ensures Cancellation.EvaluateCancellation(w.db, w.reg, w.fees, id, w.auth, w.now)
         == Cancellation.EvaluateCancellation(db', w.reg, w.fees, id, w.auth, w.now)
  {
  }

  lemma CreditReadsOneOrder(w: World, db': Database, id: string)
    requires w.db.sources == db'.sources && w.db.chunks == db'.chunks
    requires GetOrder(w.db, id, w.auth) == GetOrder(db', id, w.auth)
    ensures ServiceCredit.EvaluateServiceCredit(w.db, w.reg, w.credits, id, w.auth, w.now)
         == ServiceCredit.EvaluateServiceCredit(db', w.reg, w.credits, id, w.auth, w.now)
  {
  }

  lemma CallIgnoresWorld(env: Environment, env': Environment, i: nat, step: Step)
    requires env' == env.(world := env'.world) && Dispatch(env.world, step) == Dispatch(env'.world, step)
    ensures ToolCall(env, i, step) == ToolCall(env', i, step)
  {
    hide Dispatch;
  }

  lemma {:induction false} LoopIgnoresOutOfScope(env: Environment, env': Environment, steps: seq<Step>,
                                                 i: nat, iterations: nat, results: seq<ToolResult>)
    requires i <= |steps| && env' == env.(world := env'.world)
    requires forall s :: s in steps ==> Dispatch(env.world, s) == Dispatch(env'.world, s)
    ensures RunTools(env, steps, i, iterations, results) == RunTools(env', steps, i, iterations, results)
    decreases |steps| - i
  {
    hide Dispatch, ToolCall;
    if i < |steps| {
      assert steps[i] in steps;
      var r := ToolCall(env, i, steps[i]);
      CallIgnoresWorld(env, env', i, steps[i]);
      LoopIgnoresOutOfScope(env, env', steps, i + 1, iterations + r.attempts, results + [r]);
    }
  }

  /** Non-interference of the whole run: with disjoint ids, rows outside the caller's scope
      change neither the plan, the tool outcomes, the trust state, the prompts nor the answer. */
  lemma RunIgnoresOutOfScope(env: Environment, db': Database, q: Question, provider: Provider)
    requires ValidTables(env.world.db) && ValidTables(db')
    requires AgreeInScope(env.world.db, db', env.world.auth)
    requires DisjointKeys(env.world.db) && DisjointKeys(db')
    ensures Run(env, q, provider) == Run(env.(world := env.world.(db := db')), q, provider)
  {
    hide Resolve, ResolveIntent, PlanSteps, Upto, RunTools, NeedsAccount, AnswerWith, Weigh, Dispatch;
    var w, env' := env.world, env.(world := env.world.(db := db'));
    ResolveIgnoresOutOfScope(w.db, db', w.auth, q);
    var r, found := Resolve(w.db, w.auth, q), Investigate(env, q);
    assert found == Investigate(env', q);
    if found.Planned? {
      ResolvedIsVisible(w.db, w.auth, q);
      PlanIsAboutResolved(found.intent, r);
      forall s | s in found.steps ensures Dispatch(w, s) == Dispatch(env'.world, s) {
        StepIgnoresOutOfScope(w, db', r, s);
      }
      LoopIgnoresOutOfScope(env, env', found.steps, 0, 0, []);
      RestIgnoresWorld(env, env'.world, q, found.intent, found.steps, provider);
    }
  }

  /** After the tools have run, nothing looks at the database again. */
  lemma RestIgnoresWorld(env: Environment, world': World, q: Question, intent: Intent,
                         steps: seq<Step>, provider: Provider)
    ensures var env' := env.(world := world');
            var phase := RunTools(env, steps, 0, 0, []);
            phase.Ran? ==>
              var w := Weigh(env, q, intent, steps, phase.results);
              && w == Weigh(env', q, intent, steps, phase.results)
              && (w.Ready? ==>
                    AnswerWith(env, intent, steps, phase.results, w.pack, w.trust, provider)
                    == AnswerWith(env', intent, steps, phase.results, w.pack, w.trust, provider))
  {
    hide Upto, Build, Citations.Invalid, Trust.Gate, Sufficient, RunTools;
  }

  // ---- One database: what a prompt may show ----

  /** Every record and every calculated value a tool returned comes from a dispatch in the
      run's own world. */
  ghost predicate Dispatched(w: World, r: ToolResult) {
    r.output.Ok? ==> exists s :: Dispatch(w, s) == Ok(r.output.value)
  }

  lemma {:induction false} LoopDispatches(env: Environment, steps: seq<Step>, i: nat, iterations: nat,
                                          results: seq<ToolResult>)
    requires i <= |steps| && forall r :: r in results ==> Dispatched(env.world, r)
    ensures forall r :: r in ResultsOf(RunTools(env, steps, i, iterations, results)) ==> Dispatched(env.world, r)
    decreases |steps| - i
  {
    hide Dispatch, ToolCall, Dispatched;
    if i < |steps| {
      var r := ToolCall(env, i, steps[i]);
      CallDispatches(env, i, steps[i]);
      LoopDispatches(env, steps, i + 1, iterations + r.attempts, results + [r]);
    }
  }

  lemma CallDispatches(env: Environment, i: nat, s: Step)
    ensures Dispatched(env.world, ToolCall(env, i, s))
  {
    hide Dispatch;
    AttemptsBounded(env.specOf(s), Dispatch(env.world, s), env.latency(i), 1);
  }

  /** A record a lookup returned is stored, and belongs to an account in the caller's scope. */
  lemma RowInScope(w: World, s: Step, row: Row)
    requires Dispatch(w, s) == Ok(RecordFound(row))
    ensures StoredIn(w.db, row) && w.auth.Allows(OwnerOf(row))
  {
  }

  lemma FactsInScope(w: World, results: seq<ToolResult>, row: Row)
    requires forall r :: r in results ==> Dispatched(w, r)
    requires row in Build(results).facts
    ensures StoredIn(w.db, row) && w.auth.Allows(OwnerOf(row))
  {
    hide Dispatch, StoredIn, OwnerOf;
    var kept := (r: ToolResult) => if r.output.Ok? then [r.output.value] else [];
    FlatMapMember(FactsOf, Successes(results), row);
    var o :| o in Successes(results) && row in FactsOf(o);
    FlatMapMember(kept, results, o);
    var r :| r in results && o in kept(r);
    var s :| Dispatch(w, s) == Ok(r.output.value);
    RowInScope(w, s, row);
  }

  /** Whatever is asked, no prompt shows a record outside the caller's scope: every record in
      every prompt of every run is a row of the database that belongs to an account the caller
      may see. */
  lemma PromptsStayInScope(env: Environment, q: Question, provider: Provider, p: Prompt, row: Row)
    requires p in Run(env, q, provider).1 && row in p.pack.facts
    ensures StoredIn(env.world.db, row) && env.world.auth.Allows(OwnerOf(row))
  {
    hide Resolve, ResolveIntent, PlanSteps, Build, Weigh, AnswerWith, Upto, RunTools, NeedsAccount, Dispatched, StoredIn, OwnerOf;
    var found := Investigate(env, q);
    var phase := RunTools(env, found.steps, 0, 0, []);
    var w := Weigh(env, q, found.intent, found.steps, phase.results);
    WeighedPack(env, q, found.intent, found.steps, phase.results);
    AnswerWithPrompts(env, found.intent, found.steps, phase.results, w.pack, w.trust, provider);
    LoopDispatches(env, found.steps, 0, 0, []);
    FactsInScope(env.world, phase.results, row);
  }

  /** The caller may read the record this calculation is about. */
  ghost predicate TargetVisible(w: World, c: Calculation) {
    match c.kind
    case CalcCancellation => GetOrder(w.db, c.target, w.auth).Ok?
    case CalcServiceCredit => GetOrder(w.db, c.target, w.auth).Ok?
    case CalcSla => GetTicket(w.db, c.target, w.auth).Ok?
    case CalcSeverity => GetTicket(w.db, c.target, w.auth).Ok?
  }

  lemma CalculationInScope(w: World, s: Step, c: Calculation)
    requires Dispatch(w, s) == Ok(Calculated(c))
    ensures s == Calculate(c.kind, c.target) && TargetVisible(w, c)
  {
  }

  lemma ValueInScope(w: World, results: seq<ToolResult>, value: Payload) returns (c: Calculation)
    requires forall r :: r in results ==> Dispatched(w, r)
    requires value in Build(results).domainResults
    ensures c in Calculations(results) && c.payload == Some(value) && TargetVisible(w, c)
    ensures Dispatch(w, Calculate(c.kind, c.target)) == Ok(Calculated(c))
  {
    hide Dispatch, TargetVisible;
    FlatMapMember(PayloadOf, Calculations(results), value);
    c :| c in Calculations(results) && value in PayloadOf(c);
    CalculationsExactly(results, c);
    var r :| r in results && r.output == Ok(Calculated(c));
    var s :| Dispatch(w, s) == Ok(r.output.value);
    CalculationInScope(w, s, c);
  }

  /** Nor does a prompt show a value calculated about a record outside the caller's scope: every
      value is the payload of one of the run's own calculations, and that is what the calculator
      gives for a record the caller may read. */
  lemma PromptValuesStayInScope(env: Environment, q: Question, provider: Provider, p: Prompt, value: Payload)
    returns (c: Calculation)
    requires p in Run(env, q, provider).1 && value in p.pack.domainResults
    ensures c in Calculations(Run(env, q, provider).0.toolTrace) && c.payload == Some(value)
    ensures Dispatch(env.world, Calculate(c.kind, c.target)) == Ok(Calculated(c)) && TargetVisible(env.world, c)
  {
    hide Resolve, ResolveIntent, PlanSteps, Build, Weigh, AnswerWith, Upto, RunTools, NeedsAccount, Dispatched, Dispatch, TargetVisible;
    var found := Investigate(env, q);
    var phase := RunTools(env, found.steps, 0, 0, []);
    var w := Weigh(env, q, found.intent, found.steps, phase.results);
    WeighedPack(env, q, found.intent, found.steps, phase.results);
    AnswerWithPrompts(env, found.intent, found.steps, phase.results, w.pack, w.trust, provider);
    AnswerWithLaw(env, found.intent, found.steps, phase.results, w.pack, w.trust, provider);
    LoopDispatches(env, found.steps, 0, 0, []);
    c := ValueInScope(env.world, phase.results, value);
  }
}
