/** Any number of callers, each with its own program counter, against one actions table.
    A schedule says whose statement runs next; every interleaving is some schedule. */
module ActionProtocol {
  import opened Prelude
  import opened Enums
  import opened ActionRecords

  type CallId = nat

  /** Where a call stands. `TicketCheck` and `Swap` hold the copy of the row that the call
      read, and `Swap` also the row it is about to write. */
  datatype Pc =
    | Called
    | TicketCheck(copy: ActionRecord)
    | SlaCheck
    | Insert(proposed: ActionRecord)
    | Swap(copy: ActionRecord, next: ActionRecord)
    | Reread
    | Done(out: Outcome)

  datatype Call = Call(req: Request, pc: Pc)

  datatype System = System(table: Table, calls: map<CallId, Call>)

  datatype Event = Invoke(call: CallId, req: Request) | Step(call: CallId)

  /** UPDATE actions SET status, confirmed_at, executed_at, failure_reason ... WHERE
      action_id = ? AND status = ?, as one statement. */
  predicate UpdateMatches(t: Table, id: string, expected: ActionStatus) {
    id in t && t[id].status == expected
  }

  function Update(t: Table, next: ActionRecord): Table
    requires next.actionId in t
  {
    t[next.actionId := t[next.actionId].(
      status := next.status, confirmedAt := next.confirmedAt,
      executedAt := next.executedAt, failureReason := next.failureReason)]
  }

  function PrepareStep(req: Request, pc: Pc, t: Table): (Table, Pc)
    requires req.Prepare?
  {
    match pc
    case Called =>
      (t, if TicketRefusal(req).Some? then Done(Refusal(None, TicketRefusal(req).value)) else SlaCheck)
    case SlaCheck =>
      if TicketRefusal(req).Some? then (t, pc)
      else if EligibilityRefusal(req).Some? then
        (t, Done(Refusal(None, EligibilityRefusal(req).value)))
      else (t, Insert(Proposal(req)))
    case Insert(r) =>
      if r.actionId in t then (t, Done(Raised)) else (t[r.actionId := r], Done(Success(r)))
    case _ => (t, pc)
  }

  /** A confirm whose copy is past its window asks for EXPIRED, otherwise for CONFIRMED. */
  function ConfirmStep(req: Request, pc: Pc, t: Table): (Table, Pc)
    requires req.Confirm?
  {
    match pc
    case Called =>
      if req.actionId !in t then (t, Done(Refusal(None, NotFound)))
      else
        var r := t[req.actionId];
        if r.status != PendingConfirmation then (t, Done(Refusal(Some(r), WrongState)))
        else if req.now > r.expiresAt then (t, Swap(r, ExpiredRow(r)))
        else if r.userId != req.userId then (t, Done(Refusal(Some(r), WrongUser)))
        else if req.hash != r.payloadHash then (t, Done(Refusal(Some(r), PayloadMismatch)))
        else (t, TicketCheck(r))
    case TicketCheck(r) =>
      var refusal := TargetRefusal(req.ticket, r);
      (t, if refusal.Some? then Done(Refusal(Some(r), refusal.value))
          else Swap(r, ConfirmedRow(r, req.now)))
    case Swap(r, next) =>
      if UpdateMatches(t, next.actionId, PendingConfirmation) then
        (Update(t, next),
         Done(if next.status == Expired then Refusal(Some(next), ConfirmationExpired) else Success(next)))
      else (t, Reread)
    case Reread =>
      (t, Done(if req.actionId in t then Refusal(Some(t[req.actionId]), WrongState) else Raised))
    case _ => (t, pc)
  }

  function ExecuteStep(req: Request, pc: Pc, t: Table): (Table, Pc)
    requires req.Execute?
  {
    match pc
    case Called =>
      if req.actionId !in t then (t, Done(Refusal(None, NotFound)))
      else
        var r := t[req.actionId];
        if r.status == Executed then (t, Done(Success(r)))
        else if r.status != Confirmed then (t, Done(Refusal(Some(r), WrongState)))
        else (t, Swap(r, ExecutedRow(r, req.now)))
    case Swap(r, next) =>
      if UpdateMatches(t, next.actionId, Confirmed) then (Update(t, next), Done(Success(next)))
      else (t, Reread)
    case Reread => (t, Done(if req.actionId in t then Success(t[req.actionId]) else Raised))
    case _ => (t, pc)
  }

  function CallStep(call: Call, t: Table): (Table, Pc) {
    match call.req
    case Prepare(_, _, _, _, _, _, _, _, _) => PrepareStep(call.req, call.pc, t)
    case Confirm(_, _, _, _, _) => ConfirmStep(call.req, call.pc, t)
    case Execute(_, _) => ExecuteStep(call.req, call.pc, t)
  }

  /** One event. A call identifier is used once; a step of an unknown or finished call does
      nothing. */
  function Next(s: System, e: Event): System {
    match e
    case Invoke(c, req) =>
      if c in s.calls then s else s.(calls := s.calls[c := Call(req, Called)])
    case Step(c) =>
      if c !in s.calls || s.calls[c].pc.Done? then s
      else
        var (t, pc) := CallStep(s.calls[c], s.table);
        System(t, s.calls[c := s.calls[c].(pc := pc)])
  }

  function Run(s: System, es: seq<Event>): System {
    if es == [] then s else Next(Run(s, es[..|es| - 1]), es[|es| - 1])
  }

  function Start(t: Table): System {
    System(t, map[])
  }

  /** What a call between two of its own statements knows about the table. */
  ghost predicate CallInv(call: Call, t: Table) {
    match call.pc
    case Called => true
    case SlaCheck => call.req.Prepare? && TicketRefusal(call.req).None?
    case Insert(r) =>
      && call.req.Prepare? && TicketRefusal(call.req).None? && EligibilityRefusal(call.req).None?
      && r == Proposal(call.req)
    case TicketCheck(r) =>
      && call.req.Confirm? && Holds(call.req.actionId, r, t)
      && r.status == PendingConfirmation && call.req.now <= r.expiresAt
      && r.userId == call.req.userId && r.payloadHash == call.req.hash
    case Swap(r, next) =>
      && !call.req.Prepare? && Holds(call.req.actionId, r, t)
      && (if call.req.Confirm? then
            && r.status == PendingConfirmation
            && (if call.req.now > r.expiresAt then next == ExpiredRow(r)
                else && r.userId == call.req.userId && r.payloadHash == call.req.hash
                     && TargetRefusal(call.req.ticket, r).None?
                     && next == ConfirmedRow(r, call.req.now))
          else r.status == Confirmed && next == ExecutedRow(r, call.req.now))
    case Reread =>
      && !call.req.Prepare? && call.req.actionId in t
      && (if call.req.Confirm? then t[call.req.actionId].status != PendingConfirmation
          else t[call.req.actionId].status == Executed)
    case Done(_) => true
  }

  /** The held copy is the row, or the row has since moved strictly forward. */
  ghost predicate Holds(id: string, copy: ActionRecord, t: Table) {
    copy.actionId == id && id in t && RowEvolves(copy, t[id])
  }

  ghost predicate Inv(s: System) {
    && Keyed(s.table)
    && forall c :: c in s.calls ==> CallInv(s.calls[c], s.table)
  }

  lemma CallInvStable(call: Call, t: Table, t': Table)
    requires Keyed(t) && Keyed(t') && Evolves(t, t') && CallInv(call, t)
    ensures CallInv(call, t')
  {
  }

  lemma CallStepSafe(call: Call, t: Table)
    requires Keyed(t) && CallInv(call, t)
    ensures var (t', pc) := CallStep(call, t);
            Keyed(t') && Evolves(t, t') && CallInv(call.(pc := pc), t')
  {
  }

  lemma NextSafe(s: System, e: Event)
    requires Inv(s)
    ensures Inv(Next(s, e)) && Evolves(s.table, Next(s, e).table)
  {
    if e.Step? && e.call in s.calls && !s.calls[e.call].pc.Done? {
      CallStepSafe(s.calls[e.call], s.table);
      var s' := Next(s, e);
      forall c | c in s'.calls ensures CallInv(s'.calls[c], s'.table) {
        if c != e.call {
          CallInvStable(s.calls[c], s.table, s'.table);
        }
      }
    }
  }

  /** Every reachable state satisfies the invariant, and over any stretch of a run rows only
      move forward. */
  lemma {:induction false} RunSafe(t: Table, es: seq<Event>, i: nat)
    requires Keyed(t) && i <= |es|
    ensures Inv(Run(Start(t), es))
    ensures Evolves(Run(Start(t), es[..i]).table, Run(Start(t), es).table)
    decreases |es|
  {
    if i == |es| {
      assert es[..i] == es;
    }
    if es != [] {
      var prefix := es[..|es| - 1];
      var j := if i == |es| then 0 else i;
      RunSafe(t, prefix, j);
      NextSafe(Run(Start(t), prefix), es[|es| - 1]);
      if i < |es| {
        assert prefix[..i] == es[..i];
        EvolvesTransitive(Run(Start(t), es[..i]).table, Run(Start(t), prefix).table,
                          Run(Start(t), es).table);
      }
    }
  }

  /** No ABA: in every reachable state, a caller whose copy and the row agree on the status
      has a copy that agrees with the row on every field, so the conditional update writes
      exactly the row the caller computed. */
  lemma NoAba(t: Table, es: seq<Event>, c: CallId)
    requires Keyed(t)
    ensures var s := Run(Start(t), es);
            c in s.calls && s.calls[c].pc.Swap? ==>
              var Swap(copy, next) := s.calls[c].pc;
              && copy.actionId in s.table && next.actionId == copy.actionId
              && (s.table[copy.actionId].status == copy.status ==>
                    && s.table[copy.actionId] == copy
                    && Update(s.table, next) == s.table[copy.actionId := next])
  {
    RunSafe(t, es, 0);
    var s := Run(Start(t), es);
    if c in s.calls && s.calls[c].pc.Swap? {
      assert CallInv(s.calls[c], s.table);
    }
  }

  /** The same for the copy a confirm holds while it looks at the ticket. */
  lemma NoAbaAtTicketCheck(t: Table, es: seq<Event>, c: CallId)
    requires Keyed(t)
    ensures var s := Run(Start(t), es);
            c in s.calls && s.calls[c].pc.TicketCheck? ==>
              var copy := s.calls[c].pc.copy;
              && copy.actionId in s.table
              && (s.table[copy.actionId].status == copy.status ==> s.table[copy.actionId] == copy)
  {
    RunSafe(t, es, 0);
    var s := Run(Start(t), es);
    if c in s.calls && s.calls[c].pc.TicketCheck? {
      assert CallInv(s.calls[c], s.table);
    }
  }

  // ---- Every call finishes ----

  /** How many statements a call has left at most. */
  ghost function Remaining(call: Call): nat {
    match call.pc
    case Called => if call.req.Confirm? then 4 else 3
    case TicketCheck(_) => 3
    case SlaCheck => 2
    case Swap(_, _) => 2
    case Insert(_) => 1
    case Reread => 1
    case Done(_) => 0
  }

  /** How many statements of its own call `c` has run. */
  ghost function OwnSteps(t: Table, es: seq<Event>, c: CallId): nat {
    if es == [] then 0
    else
      var prefix := es[..|es| - 1];
      OwnSteps(t, prefix, c) + if es[|es| - 1] == Step(c) && c in Run(Start(t), prefix).calls then 1 else 0
  }

  lemma StepProgresses(call: Call, t: Table)
    requires CallInv(call, t) && !call.pc.Done?
    ensures Remaining(call.(pc := CallStep(call, t).1)) < Remaining(call)
  {
  }

  /** No call waits for another: under any schedule it is done after at most four statements of
      its own if it is a confirm, and three otherwise. */
  lemma {:induction false} CallsFinish(t: Table, es: seq<Event>, c: CallId)
    requires Keyed(t)
    ensures c !in Run(Start(t), es).calls ==> OwnSteps(t, es, c) == 0
    ensures c in Run(Start(t), es).calls ==>
              var call := Run(Start(t), es).calls[c];
              && (!call.pc.Done? ==> OwnSteps(t, es, c) + Remaining(call) <= Remaining(Call(call.req, Called)))
              && (OwnSteps(t, es, c) >= (if call.req.Confirm? then 4 else 3) ==> call.pc.Done?)
  {
    if es != [] {
      var prefix := es[..|es| - 1];
      var s := Run(Start(t), prefix);
      CallsFinish(t, prefix, c);
      RunSafe(t, prefix, 0);
      if c in s.calls && es[|es| - 1] == Step(c) && !s.calls[c].pc.Done? {
        StepProgresses(s.calls[c], s.table);
      }
    }
  }

  lemma OneMore(t: Table, es: seq<Event>, e: Event, c: CallId) returns (es': seq<Event>)
    ensures Run(Start(t), es') == Next(Run(Start(t), es), e)
    ensures OwnSteps(t, es', c)
         == OwnSteps(t, es, c) + if e == Step(c) && c in Run(Start(t), es).calls then 1 else 0
  {
    es' := es + [e];
    assert es'[..|es|] == es;
  }

  /** A confirm may need all four: one that loses its row to a late confirm has run three and has
      yet to re-read. */
  lemma FourthStatementNeeded() returns (t: Table, es: seq<Event>, c: CallId)
    ensures Keyed(t) && OwnSteps(t, es, c) == 3
    ensures c in Run(Start(t), es).calls && Run(Start(t), es).calls[c].pc == Reread
  {
    hide Run, OwnSteps;
    var change := ProposedChange(Open, P1, false);
    var row := ActionRecord("act-1", "req-1", "user-1", "TKT-1", change, "outage", High, Sha256("TKT-1", change),
                            PendingConfirmation, 0, ACTION_EXPIRY_SECONDS, None, None, "act-1", None);
    var timely := Confirm("act-1", Sha256("TKT-1", change), "user-1", Found(Open), ACTION_EXPIRY_SECONDS);
    var late := Confirm("act-1", Text(""), "user-2", NotVisible, ACTION_EXPIRY_SECONDS + 1);
    t, c, es := map["act-1" := row], 1, [];
    Empty(t, c);
    es := OneMore(t, es, Invoke(1, timely), c);
    es := OneMore(t, es, Step(1), c);
    es := OneMore(t, es, Step(1), c);
    assert Run(Start(t), es).calls[1].pc == Swap(row, ConfirmedRow(row, timely.now));
    es := OneMore(t, es, Invoke(2, late), c);
    es := OneMore(t, es, Step(2), c);
    es := OneMore(t, es, Step(2), c);
    assert Run(Start(t), es).table == map["act-1" := ExpiredRow(row)];
    es := OneMore(t, es, Step(1), c);
  }

  lemma Empty(t: Table, c: CallId)
    ensures Run(Start(t), []) == Start(t) && OwnSteps(t, [], c) == 0
  {
  }
}
