/** `app/agent/tools.py` and `app/agent/registry.py`: the dispatch of a planned step and the
    bounded retry around it. */
module Tools {
  import opened Prelude
  import opened Enums
  import opened Records
  import opened Repository
  import opened Applicability
  import opened SeverityVote
  import opened Planner
  import Cancellation
  import ServiceCredit
  import Sla

  datatype ToolErrorType = NotFound | NotAuthorized | InvalidArguments | Timeout | Internal

  /** A retrieved chunk, with its significant words and its rank score (lower is better). */
  datatype Doc = Doc(
    sourceId: string, page: string, section: string, snippet: string, words: set<string>, score: real)

  const MIN_RELEVANCE_SCORE := -1.0

  /** What a document search can fail with: a query without searchable terms, or SQLite. */
  datatype SearchFailure = NoSearchableTerms | SearchBroke

  /** Everything a tool reads: the database, the caller, the registries, the snapshot, and the
      search index as a function of the filter. */
  datatype World = World(
    db: Database, auth: Auth, reg: Registry, fees: map<string, Cancellation.FeeRule>,
    credits: map<string, ServiceCredit.CreditRule>, lex: Lexicon, now: int,
    search: SourceFilter -> Result<seq<Doc>, SearchFailure>)

  /** A record with all its fields. */
  datatype Row = AccountRow(account: Account) | OrderRow(order: Order) | TicketRow(ticket: Ticket)

  /** The account a record belongs to. */
  function OwnerOf(row: Row): string {
    match row
    case AccountRow(a) => a.accountId
    case OrderRow(o) => o.accountId
    case TicketRow(t) => t.accountId
  }

  ghost predicate StoredIn(db: Database, row: Row) {
    match row
    case AccountRow(a) => a in db.accounts
    case OrderRow(o) => o in db.orders
    case TicketRow(t) => t in db.tickets
  }

  /** The calculated values. */
  datatype Payload =
    | CancellationPayload(cancellation: Cancellation.CancellationOutcome)
    | CreditPayload(credit: ServiceCredit.CreditOutcome)
    | SlaPayload(sla: Sla.SlaOutcome)
    | SeverityPayload(severity: SeverityOutcome)

  /** A calculation as it crosses the tool boundary. */
  datatype Calculation = Calculation(
    kind: CalculationKind, target: string, payload: Option<Payload>, trust: TrustState,
    evidence: seq<EvidenceRef>, assumptions: seq<string>, conflicts: seq<Conflict>, review: bool)

  datatype Output =
    | RecordFound(row: Row)
    | Documents(docs: seq<Doc>)
    | Calculated(outcome: Calculation)

  function FromDecision<T>(kind: CalculationKind, target: string, wrap: T -> Payload,
                           d: Result<Decision<T>, Exn>): Result<Output, Exn>
  {
    if d.Err? then Err(d.error)
    else
      var payload := if d.value.result.Some? then Some(wrap(d.value.result.value)) else None;
      Ok(Calculated(Calculation(kind, target, payload, d.value.trust, d.value.evidence,
                                d.value.assumptions, d.value.conflicts, d.value.review)))
  }

  function FromRow<T>(wrap: T -> Row, r: Result<T, Exn>): Result<Output, Exn> {
    if r.Err? then Err(r.error) else Ok(RecordFound(wrap(r.value)))
  }

  function SeverityDecision(w: World, ticketId: string): Result<Decision<SeverityOutcome>, Exn> {
    var t := GetTicket(w.db, ticketId, w.auth);
    if t.Err? then Err(t.error)
    else
      var outcome := OutcomeOf(w.lex, TicketText(t.value));
      var s := outcome.severity;
      Ok(Decision(Some(outcome), if s.Some? then Confident else Uncertain,
                  [CiteDocument(w.db.chunks, "SRC-01", "2")], [], [], s.None?))
  }

  function Dispatch(w: World, s: Step): Result<Output, Exn> {
    match s
    case Lookup(LookupAccount, id) => FromRow(AsAccount, GetAccount(w.db, id, w.auth))
    case Lookup(LookupOrder, id) => FromRow(AsOrder, GetOrder(w.db, id, w.auth))
    case Lookup(LookupTicket, id) => FromRow(AsTicket, GetTicket(w.db, id, w.auth))
    case Search(sources) =>
      (var r := w.search(sources);
       if r.Err? then Err(if r.error == NoSearchableTerms then InvalidFilterError else OtherError)
       else Ok(Documents(Filter((d: Doc) => d.score <= MIN_RELEVANCE_SCORE, r.value))))
    case Calculate(CalcCancellation, id) =>
      FromDecision(CalcCancellation, id, AsCancellation,
        Cancellation.EvaluateCancellation(w.db, w.reg, w.fees, id, w.auth, w.now))
    case Calculate(CalcServiceCredit, id) =>
      FromDecision(CalcServiceCredit, id, AsCredit,
        ServiceCredit.EvaluateServiceCredit(w.db, w.reg, w.credits, id, w.auth, w.now))
    case Calculate(CalcSla, id) =>
      FromDecision(CalcSla, id, AsSla, Sla.CalculateSla(w.db, w.reg, w.lex, id, w.auth, w.now))
    case Calculate(CalcSeverity, id) => FromDecision(CalcSeverity, id, AsSeverity, SeverityDecision(w, id))
  }

  function AsAccount(a: Account): Row { AccountRow(a) }
  function AsOrder(o: Order): Row { OrderRow(o) }
  function AsTicket(t: Ticket): Row { TicketRow(t) }
  function AsCancellation(c: Cancellation.CancellationOutcome): Payload { CancellationPayload(c) }
  function AsCredit(c: ServiceCredit.CreditOutcome): Payload { CreditPayload(c) }
  function AsSla(o: Sla.SlaOutcome): Payload { SlaPayload(o) }
  function AsSeverity(o: SeverityOutcome): Payload { SeverityPayload(o) }

  function Classify(e: Exn): ToolErrorType {
    match e
    case NotAuthorizedError => NotAuthorized
    case UnknownEntityError => NotFound
    case InvalidFilterError => InvalidArguments
    case ValueError => InvalidArguments
    case ValidationError => InvalidArguments
    case OtherError => Internal
  }

  datatype ToolSpec = ToolSpec(timeoutSeconds: real, retryable: bool, maxRetries: nat)

  /** A tool call as the orchestrator sees it. */
  datatype ToolResult = ToolResult(output: Result<Output, ToolErrorType>, attempts: nat)

  function MaxAttempts(spec: ToolSpec): nat {
    if spec.retryable then spec.maxRetries + 1 else 1
  }

  /** One attempt, normalized; a call that took too long is a timeout after the fact. */
  function AttemptOutcome(spec: ToolSpec, r: Result<Output, Exn>, latency: real): Result<Output, ToolErrorType> {
    if r.Err? then Err(Classify(r.error))
    else if latency > spec.timeoutSeconds then Err(Timeout)
    else Ok(r.value)
  }

  /** The attempts from number `k` on, given how long each of them takes. */
  function Attempts(spec: ToolSpec, r: Result<Output, Exn>, latency: nat -> real, k: nat): ToolResult
    requires 1 <= k <= MaxAttempts(spec)
    decreases MaxAttempts(spec) - k
  {
    var outcome := AttemptOutcome(spec, r, latency(k));
    if outcome != Err(Timeout) || k == MaxAttempts(spec) then ToolResult(outcome, k)
    else Attempts(spec, r, latency, k + 1)
  }

  /** A call by name, as it arrives: a planned step, a name that is not registered, or
      arguments the tool's input model refuses. */
  datatype ToolRequest = Valid(step: Step) | UnknownTool | BadArguments

  /** The validation and the retry loop as written. */
  method ExecuteTool(w: World, spec: ToolSpec, request: ToolRequest, latency: nat -> real)
    returns (result: ToolResult)
    ensures request.Valid? ==> result == Attempts(spec, Dispatch(w, request.step), latency, 1)
    ensures !request.Valid? ==> result == ToolResult(Err(InvalidArguments), 1)
  {
    if request == UnknownTool {
      return ToolResult(Err(InvalidArguments), 1);
    }
    if request == BadArguments {
      return ToolResult(Err(InvalidArguments), 1);
    }
    var s := request.step;
    var attempt := 1;
    while true
      invariant 1 <= attempt <= MaxAttempts(spec)
      invariant Attempts(spec, Dispatch(w, s), latency, 1) == Attempts(spec, Dispatch(w, s), latency, attempt)
      decreases MaxAttempts(spec) - attempt
    {
      var raised := Dispatch(w, s);
      if raised.Err? {
        result := ToolResult(Err(Classify(raised.error)), attempt);
      } else if latency(attempt) > spec.timeoutSeconds {
        result := ToolResult(Err(Timeout), attempt);
      } else {
        return ToolResult(Ok(raised.value), attempt);
      }
      if result.output != Err(Timeout) || attempt >= MaxAttempts(spec) {
        return result;
      }
      attempt := attempt + 1;
    }
  }

  /** The attempts stay within the cap; every attempt but the last timed out; the last is the
      result; and only the last permitted attempt may end in a timeout. */
  lemma {:induction false} AttemptsBounded(spec: ToolSpec, r: Result<Output, Exn>, latency: nat -> real, k: nat)
    requires 1 <= k <= MaxAttempts(spec)
    ensures var result := Attempts(spec, r, latency, k);
            && k <= result.attempts <= MaxAttempts(spec)
            && result.output == AttemptOutcome(spec, r, latency(result.attempts))
            && (forall j: nat :: k <= j < result.attempts ==> AttemptOutcome(spec, r, latency(j)) == Err(Timeout))
            && (result.output == Err(Timeout) ==> result.attempts == MaxAttempts(spec))
    decreases MaxAttempts(spec) - k
  {
    if AttemptOutcome(spec, r, latency(k)) == Err(Timeout) && k < MaxAttempts(spec) {
      AttemptsBounded(spec, r, latency, k + 1);
    }
  }

  /** A deterministic failure is never retried. */
  lemma FailureNotRetried(spec: ToolSpec, r: Result<Output, Exn>, latency: nat -> real)
    requires r.Err?
    ensures Attempts(spec, r, latency, 1) == ToolResult(Err(Classify(r.error)), 1)
  {
  }

  /** Which error a caller sees for which exception. */
  lemma ClassifyExactly(e: Exn)
    ensures Classify(e) == NotAuthorized <==> e == NotAuthorizedError
    ensures Classify(e) == NotFound <==> e == UnknownEntityError
    ensures Classify(e) == InvalidArguments <==> e in {InvalidFilterError, ValueError, ValidationError}
    ensures Classify(e) == Internal <==> e == OtherError
  {
  }

  /** An attempt succeeds exactly when the tool returned within its time, and it is a timeout
      exactly when the tool returned too late; a tool that may not be retried has one attempt. */
  lemma AttemptExactly(spec: ToolSpec, r: Result<Output, Exn>, latency: real)
    ensures forall v :: AttemptOutcome(spec, r, latency) == Ok(v) <==> r == Ok(v) && !(latency > spec.timeoutSeconds)
    ensures AttemptOutcome(spec, r, latency) == Err(Timeout) <==> r.Ok? && latency > spec.timeoutSeconds
    ensures r.Err? ==> AttemptOutcome(spec, r, latency) == Err(Classify(r.error))
    ensures MaxAttempts(spec) == 1 + if spec.retryable then spec.maxRetries else 0
  {
  }

  /** A lookup gives the record it asks for, with all its fields, or fails as the reader does. */
  lemma LookupExactly(w: World, id: string)
    ensures forall row :: Dispatch(w, Lookup(LookupOrder, id)) == Ok(RecordFound(row)) <==>
              row.OrderRow? && GetOrder(w.db, id, w.auth) == Ok(row.order)
    ensures forall row :: Dispatch(w, Lookup(LookupTicket, id)) == Ok(RecordFound(row)) <==>
              row.TicketRow? && GetTicket(w.db, id, w.auth) == Ok(row.ticket)
    ensures forall row :: Dispatch(w, Lookup(LookupAccount, id)) == Ok(RecordFound(row)) <==>
              row.AccountRow? && GetAccount(w.db, id, w.auth) == Ok(row.account)
    ensures forall e :: Dispatch(w, Lookup(LookupOrder, id)) == Err(e) <==> GetOrder(w.db, id, w.auth) == Err(e)
    ensures forall e :: Dispatch(w, Lookup(LookupTicket, id)) == Err(e) <==> GetTicket(w.db, id, w.auth) == Err(e)
    ensures forall e :: Dispatch(w, Lookup(LookupAccount, id)) == Err(e) <==> GetAccount(w.db, id, w.auth) == Err(e)
  {
  }

  /** A search keeps, in order, what the index ranks at -1.0 or lower (lower is better). */
  lemma SearchExactly(w: World, sources: SourceFilter)
    ensures var r, found := Dispatch(w, Search(sources)), w.search(sources);
            && (found == Err(NoSearchableTerms) ==> r == Err(InvalidFilterError))
            && (found == Err(SearchBroke) ==> r == Err(OtherError))
            && (found.Ok? ==>
                  && r.Ok? && r.value.Documents?
                  && (forall d :: d in r.value.docs <==> d in found.value && d.score <= -1.0)
                  && r.value.docs == Filter((d: Doc) => !(d.score > -1.0), found.value))
  {
    var found := w.search(sources);
    if found.Ok? {
      var relevant := (d: Doc) => d.score <= MIN_RELEVANCE_SCORE;
      FilterAgree(relevant, (d: Doc) => !(d.score > -1.0), found.value);
      forall d ensures d in Filter(relevant, found.value) <==> d in found.value && d.score <= -1.0 {
        FilterMember(relevant, found.value, d);
      }
    }
  }

  /** A calculation crosses the tool boundary whole. */
  ghost predicate Carries<T>(r: Result<Output, Exn>, kind: CalculationKind, id: string, d: Result<Decision<T>, Exn>,
                             payload: Option<Payload>) {
    if d.Err? then r == Err(d.error)
    else r == Ok(Calculated(Calculation(kind, id, payload, d.value.trust, d.value.evidence, d.value.assumptions,
                                        d.value.conflicts, d.value.review)))
  }

  /** Each calculation is that of its own calculator, on this target. */
  lemma CalculationExactly(w: World, id: string)
    ensures var d := Cancellation.EvaluateCancellation(w.db, w.reg, w.fees, id, w.auth, w.now);
            Carries(Dispatch(w, Calculate(CalcCancellation, id)), CalcCancellation, id, d,
                    if d.Ok? && d.value.result.Some? then Some(CancellationPayload(d.value.result.value)) else None)
    ensures var d := ServiceCredit.EvaluateServiceCredit(w.db, w.reg, w.credits, id, w.auth, w.now);
            Carries(Dispatch(w, Calculate(CalcServiceCredit, id)), CalcServiceCredit, id, d,
                    if d.Ok? && d.value.result.Some? then Some(CreditPayload(d.value.result.value)) else None)
    ensures var d := Sla.CalculateSla(w.db, w.reg, w.lex, id, w.auth, w.now);
            Carries(Dispatch(w, Calculate(CalcSla, id)), CalcSla, id, d,
                    if d.Ok? && d.value.result.Some? then Some(SlaPayload(d.value.result.value)) else None)
  {
    hide Cancellation.EvaluateCancellation, ServiceCredit.EvaluateServiceCredit, Sla.CalculateSla;
  }

  /** A severity is classified from the ticket's own text, cites the definitions, is CONFIDENT exactly
      when one is assigned, and otherwise needs a review. */
  lemma SeverityExactly(w: World, id: string)
    ensures var t, r := GetTicket(w.db, id, w.auth), Dispatch(w, Calculate(CalcSeverity, id));
            && (t.Err? ==> r == Err(t.error))
            && (t.Ok? ==>
                  var outcome := OutcomeOf(w.lex, t.value.subject + " " + t.value.description);
                  r == Ok(Calculated(Calculation(
                         CalcSeverity, id, Some(SeverityPayload(outcome)),
                         if outcome.severity.Some? then Confident else Uncertain,
                         [CiteDocument(w.db.chunks, "SRC-01", "2")], [], [], outcome.severity.None?))))
  {
    hide OutcomeOf, CiteDocument;
  }
}
