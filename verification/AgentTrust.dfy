/** What decides the trust state and the status of an answered run. */
module AgentTrust {
  import opened Prelude
  import opened Enums
  import opened Records
  import opened Repository
  import opened Applicability
  import opened SeverityVote
  import opened Entities
  import opened Planner
  import opened Tools
  import opened EvidencePack
  import opened Orchestrator
  import opened AgentLaws
  import Trust
  import Cancellation
  import ServiceCredit
  import Sla

  lemma {:induction false} RanAll(env: Environment, steps: seq<Step>, i: nat, iterations: nat,
                                  results: seq<ToolResult>)
    requires i <= |steps| && |results| == i
    requires forall j :: 0 <= j < i ==> results[j] == ToolCall(env, j, steps[j])
    ensures var p := RunTools(env, steps, i, iterations, results);
            p.Ran? ==>
              |p.results| == |steps| && forall j :: 0 <= j < |steps| ==> p.results[j] == ToolCall(env, j, steps[j])
    decreases |steps| - i
  {
    if i < |steps| {
      var r := ToolCall(env, i, steps[i]);
      RanAll(env, steps, i + 1, iterations + r.attempts, results + [r]);
    }
  }

  /** A calculation of this run fell back from an agreement out of term, or owes a credit above
      the approval limit. */
  ghost predicate NeedsHuman(w: World, c: Calculation) {
    match c.kind
    case CalcCancellation =>
      var o := GetOrder(w.db, c.target, w.auth);
      && o.Ok? && o.value.status == Booked && o.value.cancellationRequestedAt.Some?
      && OutOfTerm(w, CancellationFee, o.value.accountId)
    case CalcServiceCredit =>
      var o := GetOrder(w.db, c.target, w.auth);
      && o.Ok? && ServiceCredit.AtFault(o.value)
      && (OutOfTerm(w, ServiceCreditThresholdAndAmount, o.value.accountId) || CreditOverLimit(w, o.value))
    case CalcSla => false
    case CalcSeverity => false
  }

  /** What the governing clause owes for the delay of this order is above the approval limit. */
  ghost predicate CreditOverLimit(w: World, o: Order) {
    var a := ResolveApplicability(w.db.sources, w.reg, ServiceCreditThresholdAndAmount, o.accountId, DayOf(w.now));
    && a.Ok? && a.value.winner.sourceId in w.credits
    && ServiceCredit.OverLimit(
         ServiceCredit.ApplyCreditRule(w.credits[a.value.winner.sourceId], ServiceCredit.DelayHours(o, w.now), o.fee))
  }

  ghost predicate OutOfTerm(w: World, topic: ClauseTopic, accountId: string) {
    var o := OverrideFor(w.reg, topic, accountId);
    && o.Some? && GetSource(w.db.sources, o.value.sourceId).Ok?
    && !ActiveAt(GetSource(w.db.sources, o.value.sourceId).value, DayOf(w.now))
  }

  lemma DispatchEscalates(w: World, s: Step, c: Calculation)
    requires Dispatch(w, s) == Ok(Calculated(c))
    ensures c.trust == Escalate <==> NeedsHuman(w, c)
  {
    if s.kind == CalcCancellation {
      Cancellation.EscalatesExactlyWhenOutOfTerm(w.db, w.reg, w.fees, s.target, w.auth, w.now);
      var o := GetOrder(w.db, s.target, w.auth).value;
      if o.status == Booked && o.cancellationRequestedAt.Some? {
        CancellationSourceKnown(w, s.target);
      }
    } else if s.kind == CalcServiceCredit {
      ServiceCredit.EscalatesExactlyWhen(w.db, w.reg, w.credits, s.target, w.auth, w.now);
      if ServiceCredit.AtFault(GetOrder(w.db, s.target, w.auth).value) {
        CreditSourceKnown(w, s.target);
      }
    } else if s.kind == CalcSla {
      Sla.TrustExactly(w.db, w.reg, w.lex, s.target, w.auth, w.now);
    }
  }

  lemma CancellationSourceKnown(w: World, id: string)
    requires Cancellation.EvaluateCancellation(w.db, w.reg, w.fees, id, w.auth, w.now).Ok?
    requires var o := GetOrder(w.db, id, w.auth).value;
             o.status == Booked && o.cancellationRequestedAt.Some?
    ensures var v := OverrideFor(w.reg, CancellationFee, GetOrder(w.db, id, w.auth).value.accountId);
            v.Some? ==> GetSource(w.db.sources, v.value.sourceId).Ok?
  {
  }

  lemma CreditSourceKnown(w: World, id: string)
    requires ServiceCredit.EvaluateServiceCredit(w.db, w.reg, w.credits, id, w.auth, w.now).Ok?
    requires ServiceCredit.AtFault(GetOrder(w.db, id, w.auth).value)
    ensures var v := OverrideFor(w.reg, ServiceCreditThresholdAndAmount, GetOrder(w.db, id, w.auth).value.accountId);
            v.Some? ==> GetSource(w.db.sources, v.value.sourceId).Ok?
  {
  }

  lemma CalculationsOfRun(env: Environment, steps: seq<Step>, results: seq<ToolResult>, c: Calculation)
    requires RunTools(env, steps, 0, 0, []) == Ran(results) && c in Calculations(results)
    ensures exists s :: s in steps && Dispatch(env.world, s) == Ok(Calculated(c))
  {
    RanAll(env, steps, 0, 0, []);
    CalculationsExactly(results, c);
    var r :| r in results && r.output == Ok(Calculated(c));
    var j :| 0 <= j < |results| && results[j] == r;
    AttemptsBounded(env.specOf(steps[j]), Dispatch(env.world, steps[j]), env.latency(j), 1);
    assert steps[j] in steps;
  }

  lemma GateOfCalculations(calcs: seq<Calculation>)
    ensures var states := Map(TrustOf, calcs);
            && (states == [] <==> calcs == [])
            && (Escalate in states <==> exists c :: c in calcs && c.trust == Escalate)
            && ((forall t :: t in states ==> t == Confident) <==> forall c :: c in calcs ==> c.trust == Confident)
  {
    forall t ensures t in Map(TrustOf, calcs) <==> exists c :: c in calcs && c.trust == t {
      MapMember(TrustOf, calcs, t);
    }
    forall c | c in calcs ensures c.trust in Map(TrustOf, calcs) {}
  }

  /** An answered run is escalated exactly when one of its successful cancellation or credit
      calculations needs a human, and it is CONFIDENT exactly when at least one calculation
      succeeded and every one that did is CONFIDENT. */
  lemma EscalatedExactlyWhen(env: Environment, q: Question, provider: Provider)
    requires Run(env, q, provider).0.answer.Some?
    ensures var r := Run(env, q, provider).0;
            var calcs := Calculations(r.toolTrace);
            && (r.status == Escalated <==> exists c :: c in calcs && NeedsHuman(env.world, c))
            && (r.trust == Some(Confident) <==>
                  calcs != [] && forall c :: c in calcs ==> c.trust == Confident)
  {
    hide Resolve, ResolveIntent, PlanSteps, Upto, RunTools, NeedsAccount, AnswerWith, NeedsHuman, Dispatch, Sufficient, BudgetFailure, Run;
    var intent, steps, pack, trust := AnsweredRun(env, q, provider);
    var calcs := Calculations(Run(env, q, provider).0.toolTrace);
    Trust.GateExactly(pack.trustStates, pack.documents != []);
    GateOfCalculations(calcs);
    forall c | c in calcs ensures c.trust == Escalate <==> NeedsHuman(env.world, c) {
      CalculationsOfRun(env, steps, Run(env, q, provider).0.toolTrace, c);
      var s :| s in steps && Dispatch(env.world, s) == Ok(Calculated(c));
      DispatchEscalates(env.world, s, c);
    }
  }

  /** The ticket's text has no plurality of severity signals. */
  ghost predicate Tied(w: World, ticketId: string) {
    var t := GetTicket(w.db, ticketId, w.auth);
    t.Ok? && Plurality(w.lex, TicketText(t.value)) == None
  }

  lemma SeverityTrust(w: World, s: Step, c: Calculation)
    requires Dispatch(w, s) == Ok(Calculated(c)) && c.kind == CalcSeverity
    ensures c.trust == if Tied(w, c.target) then Uncertain else Confident
  {
  }

  /** A tie does not escalate: an answered run that classified a tied ticket is never CONFIDENT,
      and it is escalated exactly when some cancellation or credit calculation of it needs a
      human. */
  lemma TieEscalatesExactlyWhen(env: Environment, q: Question, provider: Provider, c: Calculation)
    requires Run(env, q, provider).0.answer.Some?
    requires c in Calculations(Run(env, q, provider).0.toolTrace) && c.kind == CalcSeverity
    requires Tied(env.world, c.target)
    ensures var r := Run(env, q, provider).0;
            && r.trust != Some(Confident)
            && (r.status == Escalated <==>
                  exists d :: d in Calculations(r.toolTrace)
                    && d.kind in {CalcCancellation, CalcServiceCredit} && NeedsHuman(env.world, d))
  {
    hide Run, Dispatch, Tied, Calculations, RunTools, Investigate, Weigh;
    EscalatedExactlyWhen(env, q, provider);
    var intent, steps, pack, trust := AnsweredRun(env, q, provider);
    CalculationsOfRun(env, steps, Run(env, q, provider).0.toolTrace, c);
    var s :| s in steps && Dispatch(env.world, s) == Ok(Calculated(c));
    SeverityTrust(env.world, s, c);
    assert c.trust == Uncertain;
  }

  /** In particular a question that resolves to no order never ends escalated, whatever its
      tickets look like. */
  lemma NoOrderNoEscalation(env: Environment, q: Question, provider: Provider)
    requires Resolve(env.world.db, env.world.auth, q).orderIds == []
    requires Run(env, q, provider).0.answer.Some?
    ensures Run(env, q, provider).0.status == Completed
  {
    hide Run, Dispatch, Calculations, RunTools, Weigh, Resolve, ResolveIntent, PlanSteps, NeedsAccount, NeedsHuman;
    EscalatedExactlyWhen(env, q, provider);
    var r := Run(env, q, provider).0;
    var intent, steps, pack, trust := AnsweredRun(env, q, provider);
    forall c | c in Calculations(r.toolTrace) ensures !NeedsHuman(env.world, c) {
      CalculationsOfRun(env, steps, r.toolTrace, c);
      var s :| s in steps && Dispatch(env.world, s) == Ok(Calculated(c));
      DispatchTarget(env.world, s, c);
      PlanExactly(intent, Resolve(env.world.db, env.world.auth, q), s);
      OnlyOrdersNeedHumans(env.world, c);
    }
  }

  lemma DispatchTarget(w: World, s: Step, c: Calculation)
    requires Dispatch(w, s) == Ok(Calculated(c))
    ensures s == Calculate(c.kind, c.target)
  {
  }

  lemma OnlyOrdersNeedHumans(w: World, c: Calculation)
    requires c.kind !in {CalcCancellation, CalcServiceCredit}
    ensures !NeedsHuman(w, c)
  {
  }

  /** Neither fact depends on the order the tools ran in. */
  lemma TrustIgnoresToolOrder(results: seq<ToolResult>, results': seq<ToolResult>)
    requires forall r :: r in results <==> r in results'
    ensures Trust.Gate(Build(results).trustStates, Build(results).documents != [])
         == Trust.Gate(Build(results').trustStates, Build(results').documents != [])
  {
    forall c ensures c in Calculations(results) <==> c in Calculations(results') {
      CalculationsExactly(results, c);
      CalculationsExactly(results', c);
    }
    forall t ensures t in Build(results).trustStates <==> t in Build(results').trustStates {
      TrustStatesExactly(results, t);
      TrustStatesExactly(results', t);
    }
    SomeDocument(results, results');
    SomeDocument(results', results);
    Trust.GateIgnoresOrder(Build(results).trustStates, Build(results').trustStates,
                           Build(results).documents != []);
  }

  lemma SomeDocument(results: seq<ToolResult>, results': seq<ToolResult>)
    requires forall r :: r in results ==> r in results'
    ensures Build(results).documents != [] ==> Build(results').documents != []
  {
    var docs := Build(results).documents;
    if docs != [] {
      var kept := (r: ToolResult) => if r.output.Ok? then [r.output.value] else [];
      assert docs[0] in docs;
      FlatMapMember(DocsOf, Successes(results), docs[0]);
      var o :| o in Successes(results) && docs[0] in DocsOf(o);
      FlatMapMember(kept, results, o);
      FlatMapMember(kept, results', o);
      FlatMapMember(DocsOf, Successes(results'), docs[0]);
    }
  }
}
