/** The escalation action: its audit row, its three requests, and what each request does
    when nothing else runs at the same time. */
module ActionRecords {
  import opened Prelude
  import opened Enums

  /** Instants are counted in seconds. */
  const ACTION_EXPIRY_SECONDS := 15 * 60

  datatype ActionStatus =
    | PendingConfirmation | Confirmed | Executed | Rejected | Expired | Failed | Cancelled

  datatype ProposedChange =
    ProposedChange(previousStatus: TicketStatus, severity: Severity, slaBreached: bool)

  /** A payload digest. SHA-256 of a payload is a free constructor, so two payloads have
      one digest exactly when they are equal; `Text` is any other string a caller may send. */
  datatype Digest = Sha256(target: string, change: ProposedChange) | Text(text: string)

  datatype Risk = High | Medium

  datatype FailureReason = ConfirmationWindowExpired

  datatype ActionRecord = ActionRecord(
    actionId: string,
    requestId: string,
    userId: string,
    target: string,
    change: ProposedChange,
    reason: string,
    risk: Risk,
    payloadHash: Digest,
    status: ActionStatus,
    preparedAt: int,
    expiresAt: int,
    confirmedAt: Option<int>,
    executedAt: Option<int>,
    idempotencyKey: string,
    failureReason: Option<FailureReason>)

  datatype ErrorCode =
    | NotAuthorized | NotFound | InvalidTargetState | CannotDetermineEligibility
    | NotEscalationEligible | WrongState | ConfirmationExpired | WrongUser
    | PayloadMismatch | TargetInvalid | TargetStateChanged

  /** What a call hands back. `Raised` is the exception SQLite raises for a duplicate key. */
  datatype Outcome =
    | Returned(success: bool, record: Option<ActionRecord>, error: Option<ErrorCode>)
    | Raised

  function Success(r: ActionRecord): Outcome {
    Returned(true, Some(r), None)
  }

  function Refusal(r: Option<ActionRecord>, e: ErrorCode): Outcome {
    Returned(false, r, Some(e))
  }

  /** What one look at the tickets table tells the caller. */
  datatype TicketRead = NotVisible | NoSuchTicket | Found(status: TicketStatus)

  /** A call with everything it takes from outside the actions table: its arguments, its
      clock reading, and what it sees in the tickets table and in the SLA calculation. */
  datatype Request =
    | Prepare(newId: string, requestId: string, userId: string, ticketId: string, reason: string,
              ticket: TicketRead, severity: Option<Severity>, breached: Option<bool>, now: int)
    | Confirm(actionId: string, hash: Digest, userId: string, ticket: TicketRead, now: int)
    | Execute(actionId: string, now: int)

  /** The actions table, by primary key. */
  type Table = map<string, ActionRecord>

  ghost predicate Keyed(t: Table) {
    forall id :: id in t ==> t[id].actionId == id
  }

  /** The escalation bar: a P1 ticket, or one past its first-response deadline. */
  predicate Eligible(severity: Option<Severity>, breached: Option<bool>) {
    severity.Some? && (severity.value == P1 || breached == Some(true))
  }

  function TicketRefusal(req: Request): Option<ErrorCode>
    requires req.Prepare?
  {
    match req.ticket
    case NotVisible => Some(NotAuthorized)
    case NoSuchTicket => Some(NotFound)
    case Found(status) => if status != Open then Some(InvalidTargetState) else None
  }

  function EligibilityRefusal(req: Request): Option<ErrorCode>
    requires req.Prepare?
  {
    if req.severity.None? then Some(CannotDetermineEligibility)
    else if !Eligible(req.severity, req.breached) then Some(NotEscalationEligible)
    else None
  }

  /** The row a prepare call proposes. */
  function Proposal(req: Request): ActionRecord
    requires req.Prepare? && TicketRefusal(req).None? && EligibilityRefusal(req).None?
  {
    var change :=
      ProposedChange(req.ticket.status, req.severity.value, req.breached == Some(true));
    ActionRecord(
      req.newId, req.requestId, req.userId, req.ticketId, change, req.reason,
      if req.severity.value == P1 then High else Medium,
      Sha256(req.ticketId, change), PendingConfirmation,
      req.now, req.now + ACTION_EXPIRY_SECONDS, None, None, req.newId, None)
  }

  /** Why the ticket, as seen by a confirming caller, no longer admits the proposal. */
  function TargetRefusal(ticket: TicketRead, r: ActionRecord): Option<ErrorCode> {
    match ticket
    case NotVisible => Some(NotAuthorized)
    case NoSuchTicket => Some(TargetInvalid)
    case Found(status) => if status != r.change.previousStatus then Some(TargetStateChanged) else None
  }

  function ExpiredRow(r: ActionRecord): ActionRecord {
    r.(status := Expired, failureReason := Some(ConfirmationWindowExpired))
  }

  function ConfirmedRow(r: ActionRecord, now: int): ActionRecord {
    r.(status := Confirmed, confirmedAt := Some(now))
  }

  function ExecutedRow(r: ActionRecord, now: int): ActionRecord {
    r.(status := Executed, executedAt := Some(now))
  }

  /** The sequential specification: the whole call at one instant, with no other caller in
      sight. It has no conditional update and no re-read. */
  function Atomic(req: Request, t: Table): (Table, Outcome) {
    match req
    case Prepare(_, _, _, _, _, _, _, _, _) =>
      if TicketRefusal(req).Some? then (t, Refusal(None, TicketRefusal(req).value))
      else if EligibilityRefusal(req).Some? then (t, Refusal(None, EligibilityRefusal(req).value))
      else if req.newId in t then (t, Raised)
      else (t[req.newId := Proposal(req)], Success(Proposal(req)))
    case Confirm(id, hash, userId, ticket, now) =>
      if id !in t then (t, Refusal(None, NotFound))
      else
        var r := t[id];
        if r.status != PendingConfirmation then (t, Refusal(Some(r), WrongState))
        else if now > r.expiresAt then
          (t[id := ExpiredRow(r)], Refusal(Some(ExpiredRow(r)), ConfirmationExpired))
        else if r.userId != userId then (t, Refusal(Some(r), WrongUser))
        else if hash != r.payloadHash then (t, Refusal(Some(r), PayloadMismatch))
        else if TargetRefusal(ticket, r).Some? then
          (t, Refusal(Some(r), TargetRefusal(ticket, r).value))
        else (t[id := ConfirmedRow(r, now)], Success(ConfirmedRow(r, now)))
    case Execute(id, now) =>
      if id !in t then (t, Refusal(None, NotFound))
      else
        var r := t[id];
        if r.status == Executed then (t, Success(r))
        else if r.status != Confirmed then (t, Refusal(Some(r), WrongState))
        else (t[id := ExecutedRow(r, now)], Success(ExecutedRow(r, now)))
  }

  /** The columns that no statement but the INSERT ever writes. */
  ghost predicate SameProposal(r: ActionRecord, r': ActionRecord) {
    r' == r.(status := r'.status, confirmedAt := r'.confirmedAt,
             executedAt := r'.executedAt, failureReason := r'.failureReason)
  }

  /** What any number of steps of any callers may do to one row: nothing, or move it
      strictly forward. No status is ever entered again. */
  ghost predicate RowEvolves(r: ActionRecord, r': ActionRecord) {
    || r' == r
    || (&& SameProposal(r, r')
        && match r.status
           case PendingConfirmation => r'.status in {Confirmed, Executed, Expired}
           case Confirmed => r' == r.(status := Executed, executedAt := r'.executedAt)
           case _ => false)
  }

  ghost predicate Evolves(t: Table, t': Table) {
    forall id :: id in t ==> id in t' && RowEvolves(t[id], t'[id])
  }

  lemma EvolvesTransitive(t0: Table, t1: Table, t2: Table)
    requires Evolves(t0, t1) && Evolves(t1, t2)
    ensures Evolves(t0, t2)
  {
  }

  /** The sequential specification moves rows only forward and keeps the primary key. */
  lemma AtomicEvolves(req: Request, t: Table)
    requires Keyed(t)
    ensures Keyed(Atomic(req, t).0) && Evolves(t, Atomic(req, t).0)
  {
  }

  /** A second execute, at any later time, changes nothing and returns the first one's row. */
  lemma ExecuteIdempotent(id: string, now: int, later: int, t: Table)
    requires Atomic(Execute(id, now), t).1.Returned? && Atomic(Execute(id, now), t).1.success
    ensures Atomic(Execute(id, later), Atomic(Execute(id, now), t).0) == Atomic(Execute(id, now), t)
  {
  }

  /** Exactly when an escalation is prepared: a visible open ticket, classified, and P1 or past
      its deadline. Then one pending row with these fields is added, and otherwise none. */
  lemma PrepareSucceedsExactlyWhen(req: Request, t: Table)
    requires req.Prepare?
    ensures (Atomic(req, t).1.Returned? && Atomic(req, t).1.success) <==>
              && req.ticket == Found(Open) && req.severity.Some?
              && (req.severity == Some(P1) || req.breached == Some(true)) && req.newId !in t
    ensures var (after, out) := Atomic(req, t);
            out.Returned? && out.success ==>
              && out.record.Some? && out.error == None
              && var r := out.record.value;
              && after == t[req.newId := r]
              && r.actionId == r.idempotencyKey == req.newId && r.requestId == req.requestId
              && r.userId == req.userId && r.target == req.ticketId && r.reason == req.reason
              && r.change == ProposedChange(Open, req.severity.value, req.breached == Some(true))
              && r.payloadHash == Sha256(req.ticketId, r.change)
              && (r.risk == High <==> req.severity == Some(P1))
              && r.status == PendingConfirmation
              && r.preparedAt == req.now && r.expiresAt == req.now + 900
              && r.confirmedAt == r.executedAt == None && r.failureReason == None
  {
  }

  /** And why it is refused otherwise, in the order of the checks; nothing changes. */
  lemma PrepareRefusedExactlyWhen(req: Request, t: Table)
    requires req.Prepare?
    ensures var (after, out) := Atomic(req, t);
            var open := req.ticket == Found(Open);
            var late := req.breached == Some(true);
            && (out == Returned(false, None, Some(NotAuthorized)) <==> req.ticket == NotVisible)
            && (out == Returned(false, None, Some(NotFound)) <==> req.ticket == NoSuchTicket)
            && (out == Returned(false, None, Some(InvalidTargetState)) <==> req.ticket.Found? && !open)
            && (out == Returned(false, None, Some(CannotDetermineEligibility)) <==> open && req.severity == None)
            && (out == Returned(false, None, Some(NotEscalationEligible)) <==>
                  open && req.severity in {Some(P2), Some(P3)} && !late)
            && (out == Raised <==>
                  open && req.newId in t && (req.severity == Some(P1) || (req.severity.Some? && late)))
            && (!(out.Returned? && out.success) ==> after == t)
  {
  }

  /** Exactly when a confirmation succeeds. Then the row is confirmed at that instant, and nothing
      else about it or about any other row changes. */
  lemma ConfirmSucceedsExactlyWhen(req: Request, t: Table)
    requires req.Confirm?
    ensures (Atomic(req, t).1.Returned? && Atomic(req, t).1.success) <==>
            (&& req.actionId in t
             && var r := t[req.actionId];
             && r.status == PendingConfirmation && req.now <= r.expiresAt
             && r.userId == req.userId && r.payloadHash == req.hash
             && req.ticket == Found(r.change.previousStatus))
    ensures var (after, out) := Atomic(req, t);
            out.Returned? && out.success ==>
              var r := t[req.actionId].(status := Confirmed, confirmedAt := Some(req.now));
              out == Returned(true, Some(r), None) && after == t[req.actionId := r]
  {
  }

  /** And why it is refused otherwise, in the order of the checks. Only an expiry changes a row. */
  lemma ConfirmRefusedExactlyWhen(req: Request, t: Table)
    requires req.Confirm?
    ensures var (after, out) := Atomic(req, t);
            && (req.actionId !in t ==> out == Returned(false, None, Some(NotFound)) && after == t)
            && (req.actionId in t ==>
                  var r := t[req.actionId];
                  var expired := r.(status := Expired, failureReason := Some(ConfirmationWindowExpired));
                  var pending := r.status == PendingConfirmation;
                  var timely := pending && req.now <= r.expiresAt;
                  var his := timely && r.userId == req.userId;
                  var same := his && r.payloadHash == req.hash;
                  && (out == Returned(false, Some(r), Some(WrongState)) <==> !pending)
                  && (out == Returned(false, Some(expired), Some(ConfirmationExpired)) <==> pending && !timely)
                  && (out == Returned(false, Some(r), Some(WrongUser)) <==> timely && !his)
                  && (out == Returned(false, Some(r), Some(PayloadMismatch)) <==> his && !same)
                  && (out == Returned(false, Some(r), Some(NotAuthorized)) <==> same && req.ticket == NotVisible)
                  && (out == Returned(false, Some(r), Some(TargetInvalid)) <==> same && req.ticket == NoSuchTicket)
                  && (out == Returned(false, Some(r), Some(TargetStateChanged)) <==>
                        same && req.ticket.Found? && req.ticket.status != r.change.previousStatus)
                  && (pending && !timely ==> after == t[req.actionId := expired])
                  && (!(pending && !timely) && !(out.Returned? && out.success) ==> after == t))
  {
  }

  /** Exactly when an execute succeeds, and what it does: a confirmed row is executed at that
      instant, an executed one is returned as it is, and any other is refused and left alone. */
  lemma ExecuteSucceedsExactlyWhen(req: Request, t: Table)
    requires req.Execute?
    ensures var (after, out) := Atomic(req, t);
            && (out.Returned? && out.success <==>
                  req.actionId in t && t[req.actionId].status in {Confirmed, Executed})
            && (req.actionId !in t ==> out == Returned(false, None, Some(NotFound)) && after == t)
            && (req.actionId in t ==>
                  var r := t[req.actionId];
                  var done := r.(status := Executed, executedAt := Some(req.now));
                  && (r.status == Confirmed ==> out == Returned(true, Some(done), None) && after == t[req.actionId := done])
                  && (r.status != Confirmed ==> after == t)
                  && (r.status == Executed ==> out == Returned(true, Some(r), None))
                  && (r.status !in {Confirmed, Executed} ==> out == Returned(false, Some(r), Some(WrongState))))
  {
  }

  /** The window is checked before the caller is: once it has passed, a confirm by anyone,
      with any digest, expires the row, and no confirm ever succeeds after that. */
  lemma LateConfirmExpires(req: Request, again: Request, t: Table)
    requires req.Confirm? && req.actionId in t && t[req.actionId].status == PendingConfirmation
    requires req.now > t[req.actionId].expiresAt
    requires again.Confirm? && again.actionId == req.actionId
    ensures var (after, out) := Atomic(req, t);
            && after[req.actionId].status == Expired
            && out == Refusal(Some(after[req.actionId]), ConfirmationExpired)
            && Atomic(again, after) == (after, Refusal(Some(after[req.actionId]), WrongState))
  {
  }
}
