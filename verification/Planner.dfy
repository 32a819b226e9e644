/** `app/agent/intent.py` and `app/agent/planner.py`: from a question to a bounded list of tool
    calls. */
module Planner {
  import opened Prelude
  import opened Records
  import opened Entities

  datatype Intent =
    | Informational | OrderInvestigation | TicketInvestigation | AccountInvestigation
    | CancellationIntent | ServiceCreditIntent | SlaIntent | SeverityIntent | KnownIssueIntent
    | MultiSource | Clarification | Unsupported

  datatype LookupKind = LookupAccount | LookupOrder | LookupTicket

  datatype CalculationKind = CalcCancellation | CalcServiceCredit | CalcSla | CalcSeverity

  /** Which documents a search is restricted to. */
  datatype SourceFilter = AnySource | SupportPolicies | ProductDocs

  datatype Step =
    | Lookup(lookup: LookupKind, entity: string)
    | Calculate(kind: CalculationKind, target: string)
    | Search(sources: SourceFilter)

  function Signals(q: Question, r: Resolution): seq<Intent> {
    (if q.cancellation && r.orderIds != [] then [CancellationIntent] else [])
    + (if q.credit && r.orderIds != [] then [ServiceCreditIntent] else [])
    + (if q.sla && r.ticketIds != [] then [SlaIntent] else [])
    + (if q.severity && r.ticketIds != [] then [SeverityIntent] else [])
    + (if q.knownIssue then [KnownIssueIntent] else [])
  }

  function ResolveIntent(q: Question, r: Resolution): Intent {
    if r.ambiguous != [] then Clarification
    else if q.blank then Unsupported
    else
      var signals := Signals(q, r);
      if |signals| > 1 then MultiSource
      else if |signals| == 1 then signals[0]
      else if r.orderIds != [] then OrderInvestigation
      else if r.ticketIds != [] then TicketInvestigation
      else if r.accountIds != [] then AccountInvestigation
      else Informational
  }

  /** Which topics a question raises: its keyword and, but for known issues, an entity for it. */
  predicate Raises(q: Question, r: Resolution, topic: Intent) {
    match topic
    case CancellationIntent => q.cancellation && r.orderIds != []
    case ServiceCreditIntent => q.credit && r.orderIds != []
    case SlaIntent => q.sla && r.ticketIds != []
    case SeverityIntent => q.severity && r.ticketIds != []
    case KnownIssueIntent => q.knownIssue
    case _ => false
  }

  /** The intent: the one topic raised, several sources for more than one, and for none the first
      of an order, a ticket, an account, or no entity at all. Ambiguity comes before everything,
      and then a blank question. */
  lemma IntentExactly(q: Question, r: Resolution)
    ensures var intent := ResolveIntent(q, r);
            && (intent == Clarification <==> r.ambiguous != [])
            && (intent == Unsupported <==> r.ambiguous == [] && q.blank)
            && (r.ambiguous == [] && !q.blank ==>
                  && (forall topic | topic in {CancellationIntent, ServiceCreditIntent, SlaIntent, SeverityIntent, KnownIssueIntent} ::
                        intent == topic <==>
                          Raises(q, r, topic) && forall other :: Raises(q, r, other) ==> other == topic)
                  && (intent == MultiSource <==>
                        exists topic, other :: topic != other && Raises(q, r, topic) && Raises(q, r, other))
                  && var none := forall topic :: !Raises(q, r, topic);
                  && (intent == OrderInvestigation <==> none && r.orderIds != [])
                  && (intent == TicketInvestigation <==> none && r.orderIds == [] && r.ticketIds != [])
                  && (intent == AccountInvestigation <==>
                        none && r.orderIds == [] && r.ticketIds == [] && r.accountIds != [])
                  && (intent == Informational <==>
                        none && r.orderIds == [] && r.ticketIds == [] && r.accountIds == []))
  {
    var signals := Signals(q, r);
    SignalsExactly(q, r);
    if |signals| > 1 {
      assert Raises(q, r, signals[0]) && Raises(q, r, signals[1]) && signals[0] != signals[1];
    } else if |signals| == 1 {
      assert Raises(q, r, signals[0]) && forall other :: Raises(q, r, other) ==> other == signals[0];
    } else {
      assert forall topic :: !Raises(q, r, topic);
    }
  }

  lemma SignalsExactly(q: Question, r: Resolution)
    ensures forall topic :: topic in Signals(q, r) <==> Raises(q, r, topic)
    ensures Distinct(Signals(q, r))
  {
  }

  /** The clarification gate: an instance question that names nothing, from a caller whose
      scope is not one account. */
  predicate NeedsAccount(q: Question, r: Resolution, auth: Auth) {
    && r.orderIds == [] && r.ticketIds == []
    && q.instance && !q.aggregate
    && r.accountIds == []
    && !(auth.accountScope.Some? && |auth.accountScope.value| == 1)
  }

  // The steps each loop of the planner appends for one id.

  function LookedUp(kind: LookupKind): string -> seq<Step> {
    id => [Lookup(kind, id)]
  }

  function LookedUpAndCalculated(kind: LookupKind, outcome: CalculationKind): string -> seq<Step> {
    id => [Lookup(kind, id), Calculate(outcome, id)]
  }

  function CalculatedFor(outcomes: seq<CalculationKind>): string -> seq<Step> {
    id => Map((outcome: CalculationKind) => Calculate(outcome, id), outcomes)
  }

  function PlanSteps(intent: Intent, r: Resolution): seq<Step> {
    match intent
    case CancellationIntent =>
      FlatMap(LookedUpAndCalculated(LookupOrder, CalcCancellation), r.orderIds) + [Search(AnySource)]
    case ServiceCreditIntent =>
      FlatMap(LookedUpAndCalculated(LookupOrder, CalcServiceCredit), r.orderIds) + [Search(AnySource)]
    case SlaIntent =>
      FlatMap(LookedUpAndCalculated(LookupTicket, CalcSla), r.ticketIds) + [Search(AnySource)]
    case SeverityIntent =>
      FlatMap(LookedUpAndCalculated(LookupTicket, CalcSeverity), r.ticketIds) + [Search(SupportPolicies)]
    case KnownIssueIntent => [Search(ProductDocs)]
    case OrderInvestigation => FlatMap(LookedUp(LookupOrder), r.orderIds) + [Search(AnySource)]
    case TicketInvestigation => FlatMap(LookedUp(LookupTicket), r.ticketIds) + [Search(AnySource)]
    case AccountInvestigation => FlatMap(LookedUp(LookupAccount), r.accountIds) + [Search(AnySource)]
    case MultiSource =>
      FlatMap(LookedUp(LookupOrder), r.orderIds) + FlatMap(LookedUp(LookupTicket), r.ticketIds)
      + [Search(AnySource)]
      + FlatMap(CalculatedFor([CalcCancellation, CalcServiceCredit]), r.orderIds)
      + FlatMap(CalculatedFor([CalcSla]), r.ticketIds)
    case Informational => [Search(AnySource)]
    case Clarification => []
    case Unsupported => []
  }

  /** `for id in ids: steps.append(...)`. */
  method AppendFor(steps: seq<Step>, stepsFor: string -> seq<Step>, ids: seq<string>) returns (r: seq<Step>)
    ensures r == steps + FlatMap(stepsFor, ids)
  {
    r := steps;
    for i := 0 to |ids|
      invariant r == steps + FlatMap(stepsFor, ids[..i])
    {
      FlatMapStep(stepsFor, ids, i);
      r := r + stepsFor(ids[i]);
    }
    assert ids[..|ids|] == ids;
  }

  method BuildPlan(intent: Intent, r: Resolution) returns (steps: seq<Step>)
    ensures steps == PlanSteps(intent, r)
  {
    hide FlatMap, LookedUp, LookedUpAndCalculated, CalculatedFor;
    steps := [];
    match intent {
      case CancellationIntent =>
        steps := AppendFor(steps, LookedUpAndCalculated(LookupOrder, CalcCancellation), r.orderIds);
        steps := steps + [Search(AnySource)];
      case ServiceCreditIntent =>
        steps := AppendFor(steps, LookedUpAndCalculated(LookupOrder, CalcServiceCredit), r.orderIds);
        steps := steps + [Search(AnySource)];
      case SlaIntent =>
        steps := AppendFor(steps, LookedUpAndCalculated(LookupTicket, CalcSla), r.ticketIds);
        steps := steps + [Search(AnySource)];
      case SeverityIntent =>
        steps := AppendFor(steps, LookedUpAndCalculated(LookupTicket, CalcSeverity), r.ticketIds);
        steps := steps + [Search(SupportPolicies)];
      case KnownIssueIntent =>
        steps := steps + [Search(ProductDocs)];
      case OrderInvestigation =>
        steps := AppendFor(steps, LookedUp(LookupOrder), r.orderIds);
        steps := steps + [Search(AnySource)];
      case TicketInvestigation =>
        steps := AppendFor(steps, LookedUp(LookupTicket), r.ticketIds);
        steps := steps + [Search(AnySource)];
      case AccountInvestigation =>
        steps := AppendFor(steps, LookedUp(LookupAccount), r.accountIds);
        steps := steps + [Search(AnySource)];
      case MultiSource =>
        steps := AppendFor(steps, LookedUp(LookupOrder), r.orderIds);
        steps := AppendFor(steps, LookedUp(LookupTicket), r.ticketIds);
        steps := steps + [Search(AnySource)];
        steps := AppendFor(steps, CalculatedFor([CalcCancellation, CalcServiceCredit]), r.orderIds);
        steps := AppendFor(steps, CalculatedFor([CalcSla]), r.ticketIds);
      case Informational =>
        steps := steps + [Search(AnySource)];
      case Clarification =>
      case Unsupported =>
    }
  }

  /** Every planned step is about an id the resolution holds, in the table it was found in. */
  ghost predicate AboutResolved(r: Resolution, s: Step) {
    match s
    case Lookup(LookupOrder, id) => id in r.orderIds
    case Lookup(LookupTicket, id) => id in r.ticketIds
    case Lookup(LookupAccount, id) => id in r.accountIds
    case Calculate(CalcCancellation, id) => id in r.orderIds
    case Calculate(CalcServiceCredit, id) => id in r.orderIds
    case Calculate(CalcSla, id) => id in r.ticketIds
    case Calculate(CalcSeverity, id) => id in r.ticketIds
    case Search(_) => true
  }

  /** Which steps a plan should have, independently of how it is put together. */
  predicate Wanted(intent: Intent, r: Resolution, s: Step) {
    match s
    case Lookup(LookupOrder, id) =>
      id in r.orderIds && intent in {CancellationIntent, ServiceCreditIntent, OrderInvestigation, MultiSource}
    case Lookup(LookupTicket, id) =>
      id in r.ticketIds && intent in {SlaIntent, SeverityIntent, TicketInvestigation, MultiSource}
    case Lookup(LookupAccount, id) => id in r.accountIds && intent == AccountInvestigation
    case Calculate(CalcCancellation, id) => id in r.orderIds && intent in {CancellationIntent, MultiSource}
    case Calculate(CalcServiceCredit, id) => id in r.orderIds && intent in {ServiceCreditIntent, MultiSource}
    case Calculate(CalcSla, id) => id in r.ticketIds && intent in {SlaIntent, MultiSource}
    case Calculate(CalcSeverity, id) => id in r.ticketIds && intent == SeverityIntent
    case Search(sources) =>
      && intent !in {Clarification, Unsupported}
      && sources == (if intent == SeverityIntent then SupportPolicies
                     else if intent == KnownIssueIntent then ProductDocs else AnySource)
  }

  lemma LookedUpMember(kind: LookupKind, ids: seq<string>, s: Step)
    ensures s in FlatMap(LookedUp(kind), ids) <==> s.Lookup? && s.lookup == kind && s.entity in ids
  {
    FlatMapMember(LookedUp(kind), ids, s);
  }

  lemma BothMember(kind: LookupKind, outcome: CalculationKind, ids: seq<string>, s: Step)
    ensures s in FlatMap(LookedUpAndCalculated(kind, outcome), ids) <==>
              || (s.Lookup? && s.lookup == kind && s.entity in ids)
              || (s.Calculate? && s.kind == outcome && s.target in ids)
  {
    FlatMapMember(LookedUpAndCalculated(kind, outcome), ids, s);
    if s.Lookup? && s.lookup == kind && s.entity in ids {
      assert s in LookedUpAndCalculated(kind, outcome)(s.entity);
    }
    if s.Calculate? && s.kind == outcome && s.target in ids {
      assert s in LookedUpAndCalculated(kind, outcome)(s.target);
    }
  }

  lemma CalculatedMember(outcomes: seq<CalculationKind>, ids: seq<string>, s: Step)
    ensures s in FlatMap(CalculatedFor(outcomes), ids) <==>
              s.Calculate? && s.kind in outcomes && s.target in ids
  {
    FlatMapMember(CalculatedFor(outcomes), ids, s);
    forall id ensures s in CalculatedFor(outcomes)(id) <==> s.Calculate? && s.kind in outcomes && s.target == id {
      MapMember((outcome: CalculationKind) => Calculate(outcome, id), outcomes, s);
    }
  }

  /** A plan has exactly the steps its intent wants: each resolved entity of the right kind is
      looked up, each asked-for outcome is calculated, and there is one kind of search. */
  lemma PlanExactly(intent: Intent, r: Resolution, s: Step)
    ensures s in PlanSteps(intent, r) <==> Wanted(intent, r, s)
  {
    hide FlatMap, LookedUp, LookedUpAndCalculated, CalculatedFor;
    BothMember(LookupOrder, CalcCancellation, r.orderIds, s);
    BothMember(LookupOrder, CalcServiceCredit, r.orderIds, s);
    BothMember(LookupTicket, CalcSla, r.ticketIds, s);
    BothMember(LookupTicket, CalcSeverity, r.ticketIds, s);
    LookedUpMember(LookupOrder, r.orderIds, s);
    LookedUpMember(LookupTicket, r.ticketIds, s);
    LookedUpMember(LookupAccount, r.accountIds, s);
    CalculatedMember([CalcCancellation, CalcServiceCredit], r.orderIds, s);
    CalculatedMember([CalcSla], r.ticketIds, s);
  }

  /** Each id is looked up and its outcome calculated, one id after the other; then one search. */
  ghost predicate PairsAndSearch(steps: seq<Step>, lookup: LookupKind, outcome: CalculationKind, ids: seq<string>,
                                 sources: SourceFilter) {
    && |steps| == 2 * |ids| + 1 && steps[2 * |ids|] == Search(sources)
    && forall k :: 0 <= k < |ids| ==> steps[2 * k] == Lookup(lookup, ids[k]) && steps[2 * k + 1] == Calculate(outcome, ids[k])
  }

  /** Each id is looked up; then one search. */
  ghost predicate LookupsAndSearch(steps: seq<Step>, lookup: LookupKind, ids: seq<string>) {
    && |steps| == |ids| + 1 && steps[|ids|] == Search(AnySource)
    && forall k :: 0 <= k < |ids| ==> steps[k] == Lookup(lookup, ids[k])
  }

  /** All lookups, orders first; one search; then what is calculated for the orders and for the
      tickets. */
  ghost predicate EverySource(steps: seq<Step>, orders: seq<string>, tickets: seq<string>) {
    var (n, m) := (|orders|, |tickets|);
    && |steps| == 3 * n + 2 * m + 1 && steps[n + m] == Search(AnySource)
    && (forall k :: 0 <= k < n ==> steps[k] == Lookup(LookupOrder, orders[k]))
    && (forall k :: 0 <= k < m ==> steps[n + k] == Lookup(LookupTicket, tickets[k]))
    && (forall k :: 0 <= k < n ==>
          && steps[n + m + 1 + 2 * k] == Calculate(CalcCancellation, orders[k])
          && steps[n + m + 2 + 2 * k] == Calculate(CalcServiceCredit, orders[k]))
    && (forall k :: 0 <= k < m ==> steps[3 * n + m + 1 + k] == Calculate(CalcSla, tickets[k]))
  }

  /** The plan of every intent, step by step. */
  lemma PlanInOrder(intent: Intent, r: Resolution)
    ensures var steps := PlanSteps(intent, r);
            match intent
            case CancellationIntent => PairsAndSearch(steps, LookupOrder, CalcCancellation, r.orderIds, AnySource)
            case ServiceCreditIntent => PairsAndSearch(steps, LookupOrder, CalcServiceCredit, r.orderIds, AnySource)
            case SlaIntent => PairsAndSearch(steps, LookupTicket, CalcSla, r.ticketIds, AnySource)
            case SeverityIntent => PairsAndSearch(steps, LookupTicket, CalcSeverity, r.ticketIds, SupportPolicies)
            case KnownIssueIntent => steps == [Search(ProductDocs)]
            case OrderInvestigation => LookupsAndSearch(steps, LookupOrder, r.orderIds)
            case TicketInvestigation => LookupsAndSearch(steps, LookupTicket, r.ticketIds)
            case AccountInvestigation => LookupsAndSearch(steps, LookupAccount, r.accountIds)
            case MultiSource => EverySource(steps, r.orderIds, r.ticketIds)
            case Informational => steps == [Search(AnySource)]
            case Clarification => steps == []
            case Unsupported => steps == []
  {
    hide FlatMap, LookedUp, LookedUpAndCalculated, CalculatedFor;
    PairsAt(LookupOrder, CalcCancellation, r.orderIds);
    PairsAt(LookupOrder, CalcServiceCredit, r.orderIds);
    PairsAt(LookupTicket, CalcSla, r.ticketIds);
    PairsAt(LookupTicket, CalcSeverity, r.ticketIds);
    LookupsAt(LookupOrder, r.orderIds);
    LookupsAt(LookupTicket, r.ticketIds);
    LookupsAt(LookupAccount, r.accountIds);
    OrderOutcomesAt(r.orderIds);
    TicketOutcomesAt(r.ticketIds);
  }

  /** Two steps for each id, one id after the other. */
  ghost predicate InPairs(steps: seq<Step>, first: string -> Step, second: string -> Step, ids: seq<string>) {
    && |steps| == 2 * |ids|
    && forall k :: 0 <= k < |ids| ==> steps[2 * k] == first(ids[k]) && steps[2 * k + 1] == second(ids[k])
  }

  lemma InPairsStep(first: string -> Step, second: string -> Step, rest: seq<Step>, ids: seq<string>)
    requires ids != [] && InPairs(rest, first, second, ids[1..])
    ensures InPairs([first(ids[0]), second(ids[0])] + rest, first, second, ids)
  {
    var steps := [first(ids[0]), second(ids[0])] + rest;
    forall k | 0 <= k < |ids| ensures steps[2 * k] == first(ids[k]) && steps[2 * k + 1] == second(ids[k]) {
      if k > 0 {
        var j := k - 1;
        assert ids[1..][j] == ids[k];
        assert rest[2 * j] == first(ids[k]) && rest[2 * j + 1] == second(ids[k]);
        assert steps[2 * j + 2] == rest[2 * j] && steps[2 * j + 3] == rest[2 * j + 1];
      }
    }
  }

  lemma {:induction false} PairsAt(lookup: LookupKind, outcome: CalculationKind, ids: seq<string>)
    ensures InPairs(FlatMap(LookedUpAndCalculated(lookup, outcome), ids),
                    id => Lookup(lookup, id), id => Calculate(outcome, id), ids)
  {
    hide InPairs;
    if ids == [] {
      NoPairs(id => Lookup(lookup, id), id => Calculate(outcome, id));
    } else {
      PairsAt(lookup, outcome, ids[1..]);
      InPairsStep(id => Lookup(lookup, id), id => Calculate(outcome, id),
                  FlatMap(LookedUpAndCalculated(lookup, outcome), ids[1..]), ids);
    }
  }

  lemma NoPairs(first: string -> Step, second: string -> Step)
    ensures InPairs([], first, second, [])
  {
  }

  lemma {:induction false} LookupsAt(lookup: LookupKind, ids: seq<string>)
    ensures var steps := FlatMap(LookedUp(lookup), ids);
            |steps| == |ids| && forall k :: 0 <= k < |ids| ==> steps[k] == Lookup(lookup, ids[k])
  {
    if ids != [] {
      LookupsAt(lookup, ids[1..]);
    }
  }

  lemma {:induction false} OrderOutcomesAt(ids: seq<string>)
    ensures InPairs(FlatMap(CalculatedFor([CalcCancellation, CalcServiceCredit]), ids),
                    id => Calculate(CalcCancellation, id), id => Calculate(CalcServiceCredit, id), ids)
  {
    hide InPairs;
    if ids == [] {
      NoPairs(id => Calculate(CalcCancellation, id), id => Calculate(CalcServiceCredit, id));
    } else {
      OrderOutcomesAt(ids[1..]);
      assert CalculatedFor([CalcCancellation, CalcServiceCredit])(ids[0])
          == [Calculate(CalcCancellation, ids[0]), Calculate(CalcServiceCredit, ids[0])];
      InPairsStep(id => Calculate(CalcCancellation, id), id => Calculate(CalcServiceCredit, id),
                  FlatMap(CalculatedFor([CalcCancellation, CalcServiceCredit]), ids[1..]), ids);
    }
  }

  lemma {:induction false} TicketOutcomesAt(ids: seq<string>)
    ensures var steps := FlatMap(CalculatedFor([CalcSla]), ids);
            |steps| == |ids| && forall k :: 0 <= k < |ids| ==> steps[k] == Calculate(CalcSla, ids[k])
  {
    if ids != [] {
      TicketOutcomesAt(ids[1..]);
    }
  }

  /** A plan for an intent that was resolved from unambiguous entities and a question that is
      not blank is never empty, and asks for an outcome only when there is an entity for it. */
  lemma ResolvedPlanNeverEmpty(q: Question, r: Resolution)
    requires r.ambiguous == [] && !q.blank
    ensures PlanSteps(ResolveIntent(q, r), r) != []
    ensures ResolveIntent(q, r) in {CancellationIntent, ServiceCreditIntent, OrderInvestigation} ==> r.orderIds != []
    ensures ResolveIntent(q, r) in {SlaIntent, SeverityIntent, TicketInvestigation} ==> r.ticketIds != []
    ensures ResolveIntent(q, r) == AccountInvestigation ==> r.accountIds != []
  {
    var intent := ResolveIntent(q, r);
    assert intent !in {Clarification, Unsupported};
    PlanExactly(intent, r, Search(if intent == SeverityIntent then SupportPolicies
                                  else if intent == KnownIssueIntent then ProductDocs else AnySource));
  }

  function TableOf(kind: CalculationKind): LookupKind {
    match kind
    case CalcCancellation => LookupOrder
    case CalcServiceCredit => LookupOrder
    case CalcSla => LookupTicket
    case CalcSeverity => LookupTicket
  }

  /** The entity of every calculation was looked up by an earlier step. */
  ghost predicate LooksUpFirst(steps: seq<Step>) {
    forall i :: 0 <= i < |steps| && steps[i].Calculate? ==>
      Lookup(TableOf(steps[i].kind), steps[i].target) in steps[..i]
  }

  lemma {:induction false} PairsLookUpFirst(kind: LookupKind, outcome: CalculationKind, ids: seq<string>)
    requires TableOf(outcome) == kind
    ensures LooksUpFirst(FlatMap(LookedUpAndCalculated(kind, outcome), ids))
  {
    if ids != [] {
      var pair, rest := [Lookup(kind, ids[0]), Calculate(outcome, ids[0])],
                        FlatMap(LookedUpAndCalculated(kind, outcome), ids[1..]);
      PairsLookUpFirst(kind, outcome, ids[1..]);
      var steps := pair + rest;
      forall i | 0 <= i < |steps| && steps[i].Calculate?
        ensures Lookup(TableOf(steps[i].kind), steps[i].target) in steps[..i]
      {
        if i == 1 {
          assert steps[..1][0] == pair[0];
        } else {
          assert steps[i] == rest[i - 2];
          assert steps[..i] == pair + rest[..i - 2];
        }
      }
    }
  }

  lemma LookUpsAlone(front: seq<Step>, back: seq<Step>)
    requires LooksUpFirst(front)
    requires forall s :: s in back && s.Calculate? ==> Lookup(TableOf(s.kind), s.target) in front
    ensures LooksUpFirst(front + back)
  {
    var steps := front + back;
    forall i | 0 <= i < |steps| && steps[i].Calculate?
      ensures Lookup(TableOf(steps[i].kind), steps[i].target) in steps[..i]
    {
      if i < |front| {
        assert steps[..i] == front[..i];
      } else {
        assert steps[i] == back[i - |front|] && steps[i] in back;
        assert steps[..i] == front + back[..i - |front|];
      }
    }
  }

  /** In every plan, what is calculated was looked up before. */
  lemma PlanLooksUpFirst(intent: Intent, r: Resolution)
    ensures LooksUpFirst(PlanSteps(intent, r))
  {
    hide FlatMap, LookedUp, LookedUpAndCalculated, CalculatedFor;
    match intent
    case CancellationIntent => PairsThenSearch(LookupOrder, CalcCancellation, r.orderIds, AnySource);
    case ServiceCreditIntent => PairsThenSearch(LookupOrder, CalcServiceCredit, r.orderIds, AnySource);
    case SlaIntent => PairsThenSearch(LookupTicket, CalcSla, r.ticketIds, AnySource);
    case SeverityIntent => PairsThenSearch(LookupTicket, CalcSeverity, r.ticketIds, SupportPolicies);
    case MultiSource => MultiLooksUpFirst(r);
    case _ => NothingCalculated(intent, r);
  }

  lemma NothingCalculated(intent: Intent, r: Resolution)
    requires intent !in {CancellationIntent, ServiceCreditIntent, SlaIntent, SeverityIntent, MultiSource}
    ensures LooksUpFirst(PlanSteps(intent, r))
  {
    hide PlanSteps;
    var steps := PlanSteps(intent, r);
    forall i | 0 <= i < |steps| ensures !steps[i].Calculate? {
      PlanExactly(intent, r, steps[i]);
    }
  }

  lemma PairsThenSearch(kind: LookupKind, outcome: CalculationKind, ids: seq<string>, sources: SourceFilter)
    requires TableOf(outcome) == kind
    ensures LooksUpFirst(FlatMap(LookedUpAndCalculated(kind, outcome), ids) + [Search(sources)])
  {
    PairsLookUpFirst(kind, outcome, ids);
    LookUpsAlone(FlatMap(LookedUpAndCalculated(kind, outcome), ids), [Search(sources)]);
  }

  lemma MultiLooksUpFirst(r: Resolution)
    ensures LooksUpFirst(PlanSteps(MultiSource, r))
  {
    hide FlatMap, LookedUp, CalculatedFor;
    var lookups := FlatMap(LookedUp(LookupOrder), r.orderIds) + FlatMap(LookedUp(LookupTicket), r.ticketIds)
                   + [Search(AnySource)];
    var orders := FlatMap(CalculatedFor([CalcCancellation, CalcServiceCredit]), r.orderIds);
    var tickets := FlatMap(CalculatedFor([CalcSla]), r.ticketIds);
    forall s ensures s in lookups <==>
      || (s.Lookup? && s.lookup == LookupOrder && s.entity in r.orderIds)
      || (s.Lookup? && s.lookup == LookupTicket && s.entity in r.ticketIds) || s == Search(AnySource)
    {
      LookedUpMember(LookupOrder, r.orderIds, s);
      LookedUpMember(LookupTicket, r.ticketIds, s);
    }
    forall s | s in orders || s in tickets
      ensures s.Calculate? && Lookup(TableOf(s.kind), s.target) in lookups
    {
      CalculatedMember([CalcCancellation, CalcServiceCredit], r.orderIds, s);
      CalculatedMember([CalcSla], r.ticketIds, s);
    }
    assert forall i :: 0 <= i < |lookups| ==> lookups[i] in lookups && !lookups[i].Calculate?;
    LookUpsAlone(lookups, orders);
    LookUpsAlone(lookups + orders, tickets);
  }

  lemma PlanIsAboutResolved(intent: Intent, r: Resolution)
    ensures forall s :: s in PlanSteps(intent, r) ==> AboutResolved(r, s)
  {
    forall s | s in PlanSteps(intent, r) ensures AboutResolved(r, s) {
      PlanExactly(intent, r, s);
    }
  }
}
