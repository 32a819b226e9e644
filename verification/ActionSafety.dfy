/** What holds over whole runs of the escalation protocol. */
module ActionSafety {
  import opened Prelude
  import opened Enums
  import opened ActionRecords
  import opened ActionProtocol

  ghost predicate Succeeded(call: Call) {
    call.pc.Done? && call.pc.out.Returned? && call.pc.out.success && call.pc.out.record.Some?
  }

  /** What a returned call still knows about the table, however far the run goes on. */
  ghost predicate OutcomeInv(call: Call, t: Table) {
    && (call.pc.Done? && !call.req.Prepare? ==> call.pc.out.Returned?)
    && (call.pc.Done? && call.pc.out.Returned? && call.pc.out.success ==> call.pc.out.record.Some?)
    && (Succeeded(call) ==>
          var r := call.pc.out.record.value;
          match call.req
          case Prepare(id, _, _, _, _, _, _, _, _) =>
            && TicketRefusal(call.req).None? && EligibilityRefusal(call.req).None?
            && r == Proposal(call.req) && Holds(id, r, t)
          case Confirm(id, hash, userId, _, now) =>
            && Holds(id, r, t) && r.status == Confirmed && r.confirmedAt == Some(now)
            && now <= r.expiresAt && r.userId == userId && r.payloadHash == hash
          case Execute(id, _) =>
            id in t && t[id] == r && r.status == Executed)
  }

  ghost predicate OutcomesInv(s: System) {
    forall c :: c in s.calls ==> OutcomeInv(s.calls[c], s.table)
  }

  ghost predicate ConfirmsAction(s: System, c: CallId, id: string) {
    c in s.calls && s.calls[c].req.Confirm? && s.calls[c].req.actionId == id && Succeeded(s.calls[c])
  }

  ghost predicate OneConfirmPerAction(s: System) {
    forall c, d, id :: ConfirmsAction(s, c, id) && ConfirmsAction(s, d, id) ==> c == d
  }

  lemma OutcomeInvStable(call: Call, t: Table, t': Table)
    requires Evolves(t, t') && OutcomeInv(call, t)
    ensures OutcomeInv(call, t')
  {
  }

  lemma CallStepOutcome(call: Call, t: Table)
    requires Keyed(t) && CallInv(call, t) && OutcomeInv(call, t) && !call.pc.Done?
    ensures var (t', pc) := CallStep(call, t); OutcomeInv(call.(pc := pc), t')
    ensures var (t', pc) := CallStep(call, t);
            call.req.Confirm? && Succeeded(call.(pc := pc)) ==>
              call.req.actionId in t && t[call.req.actionId].status == PendingConfirmation
  {
  }

  lemma NextOutcomes(s: System, e: Event)
    requires Inv(s) && OutcomesInv(s)
    ensures OutcomesInv(Next(s, e))
  {
    if e.Step? && e.call in s.calls && !s.calls[e.call].pc.Done? {
      CallStepOutcome(s.calls[e.call], s.table);
      NextSafe(s, e);
      var s' := Next(s, e);
      forall c | c in s'.calls ensures OutcomeInv(s'.calls[c], s'.table) {
        if c != e.call {
          OutcomeInvStable(s.calls[c], s.table, s'.table);
        }
      }
    }
  }

  lemma NextOneConfirm(s: System, e: Event)
    requires Inv(s) && OutcomesInv(s) && OneConfirmPerAction(s)
    ensures OneConfirmPerAction(Next(s, e))
  {
    var s' := Next(s, e);
    if e.Step? && e.call in s.calls && !s.calls[e.call].pc.Done? {
      CallStepOutcome(s.calls[e.call], s.table);
      forall c, d, id | ConfirmsAction(s', c, id) && ConfirmsAction(s', d, id) ensures c == d {
        assert c != e.call ==> ConfirmsAction(s, c, id);
        assert d != e.call ==> ConfirmsAction(s, d, id);
      }
    } else {
      forall c, id | ConfirmsAction(s', c, id) ensures ConfirmsAction(s, c, id) {
      }
    }
  }

  lemma {:induction false} RunOutcomes(t: Table, es: seq<Event>)
    requires Keyed(t)
    ensures Inv(Run(Start(t), es)) && OutcomesInv(Run(Start(t), es))
    ensures OneConfirmPerAction(Run(Start(t), es))
  {
    RunSafe(t, es, 0);
    if es != [] {
      var prefix := es[..|es| - 1];
      RunOutcomes(t, prefix);
      NextOutcomes(Run(Start(t), prefix), es[|es| - 1]);
      NextOneConfirm(Run(Start(t), prefix), es[|es| - 1]);
    }
  }

  /** One winner: of all the confirm calls ever made on an action, at most one succeeds. */
  lemma AtMostOneConfirm(t: Table, es: seq<Event>, c: CallId, d: CallId, id: string)
    requires Keyed(t)
    requires ConfirmsAction(Run(Start(t), es), c, id) && ConfirmsAction(Run(Start(t), es), d, id)
    ensures c == d
  {
    RunOutcomes(t, es);
  }

  /** No false success: whenever an execute call has returned success, lost race or not, the
      row it returned is the row in the table and is EXECUTED; so all of them return one
      record, with one `executedAt`. */
  lemma ExecuteNeverLies(t: Table, es: seq<Event>, c: CallId, d: CallId)
    requires Keyed(t)
    requires var s := Run(Start(t), es);
             && c in s.calls && s.calls[c].req.Execute? && Succeeded(s.calls[c])
             && d in s.calls && s.calls[d].req.Execute? && Succeeded(s.calls[d])
             && s.calls[c].req.actionId == s.calls[d].req.actionId
    ensures var s := Run(Start(t), es);
            var r := s.calls[c].pc.out.record.value;
            && s.calls[c].req.actionId in s.table && s.table[s.calls[c].req.actionId] == r
            && r.status == Executed && s.calls[d].pc.out == s.calls[c].pc.out
  {
    RunOutcomes(t, es);
    var s := Run(Start(t), es);
    assert OutcomeInv(s.calls[c], s.table) && OutcomeInv(s.calls[d], s.table);
    assert s.calls[d].pc.out.error == s.calls[c].pc.out.error by {
      SuccessHasNoError(t, es, c);
      SuccessHasNoError(t, es, d);
    }
  }

  lemma {:induction false} SuccessHasNoError(t: Table, es: seq<Event>, c: CallId)
    requires c in Run(Start(t), es).calls && Succeeded(Run(Start(t), es).calls[c])
    ensures Run(Start(t), es).calls[c].pc.out.error == None
  {
    if es != [] {
      var prefix, e := es[..|es| - 1], es[|es| - 1];
      var s := Run(Start(t), prefix);
      if c in s.calls && Succeeded(s.calls[c]) {
        SuccessHasNoError(t, prefix, c);
      }
    }
  }

  /** The two assertions after a lost update, that the row is still there, never fail. */
  lemma RereadNeverMisses(t: Table, es: seq<Event>, c: CallId)
    requires Keyed(t)
    requires c in Run(Start(t), es).calls && !Run(Start(t), es).calls[c].req.Prepare?
    ensures Run(Start(t), es).calls[c].pc != Done(Raised)
  {
    RunOutcomes(t, es);
  }

  /** EXPIRED and CONFIRMED exclude each other for good: no action is seen expired at one
      point of a run and confirmed or executed at another, in either order. */
  lemma ExpiredExcludesConfirmed(t: Table, es: seq<Event>, i: nat, j: nat, id: string)
    requires Keyed(t) && i <= j <= |es|
    requires id in Run(Start(t), es[..i]).table && id in Run(Start(t), es[..j]).table
    ensures var (x, y) := (Run(Start(t), es[..i]).table[id], Run(Start(t), es[..j]).table[id]);
            && (x.status == Expired ==> y == x)
            && (x.status in {Confirmed, Executed} ==> y.status in {Confirmed, Executed})
  {
    RunSafe(t, es[..j], i);
    assert es[..j][..i] == es[..i];
  }

  /** The owner check that the API makes before an execute cannot go stale. */
  lemma OwnerNeverChanges(t: Table, es: seq<Event>, i: nat, id: string)
    requires Keyed(t) && i <= |es| && id in Run(Start(t), es[..i]).table
    ensures id in Run(Start(t), es).table
    ensures Run(Start(t), es).table[id].userId == Run(Start(t), es[..i]).table[id].userId
    ensures SameProposal(Run(Start(t), es[..i]).table[id], Run(Start(t), es).table[id])
  {
    RunSafe(t, es, i);
  }

  /** How often a run moves an action from one status to another. */
  ghost function Transitions(t: Table, es: seq<Event>, id: string, from: ActionStatus, to: ActionStatus): nat {
    if es == [] then 0
    else
      var prefix := es[..|es| - 1];
      var x, y := Run(Start(t), prefix).table, Run(Start(t), es).table;
      Transitions(t, prefix, id, from, to) +
      (if id in x && id in y && x[id].status == from && y[id].status == to then 1 else 0)
  }

  ghost function Rank(status: ActionStatus): nat {
    match status
    case PendingConfirmation => 0
    case Confirmed => 1
    case _ => 2
  }

  lemma RanksGrow(x: Table, y: Table, id: string)
    requires Evolves(x, y) && id in x
    ensures id in y && Rank(x[id].status) <= Rank(y[id].status)
    ensures x[id].status != y[id].status ==> Rank(x[id].status) < Rank(y[id].status)
  {
  }

  lemma {:induction false} LeftForGood(
      t: Table, es: seq<Event>, id: string, from: ActionStatus, to: ActionStatus)
    requires Keyed(t) && from != to
    ensures Transitions(t, es, id, from, to) <= 1
    ensures Transitions(t, es, id, from, to) == 1 ==>
              id in Run(Start(t), es).table && Rank(Run(Start(t), es).table[id].status) > Rank(from)
  {
    hide Run, Evolves, Inv, Rank;
    if es != [] {
      var prefix := es[..|es| - 1];
      LeftForGood(t, prefix, id, from, to);
      RunSafe(t, es, |prefix|);
      if id in Run(Start(t), prefix).table {
        RanksGrow(Run(Start(t), prefix).table, Run(Start(t), es).table, id);
      }
    }
  }

  /** Exactly-once effect: no run moves an action from CONFIRMED to EXECUTED twice, nor makes
      any other transition twice. */
  lemma TransitionsAtMostOnce(
      t: Table, es: seq<Event>, id: string, from: ActionStatus, to: ActionStatus)
    requires Keyed(t) && from != to
    ensures Transitions(t, es, id, from, to) <= 1
  {
    LeftForGood(t, es, id, from, to);
  }

  ghost predicate PreparedBy(s: System, id: string, p: CallId) {
    && id in s.table && p in s.calls && s.calls[p].req.Prepare? && s.calls[p].req.newId == id
    && TicketRefusal(s.calls[p].req).None? && EligibilityRefusal(s.calls[p].req).None?
    && s.calls[p].pc == Done(Success(Proposal(s.calls[p].req)))
    && SameProposal(Proposal(s.calls[p].req), s.table[id])
  }

  ghost predicate ConfirmedBy(s: System, id: string, c: CallId) {
    && id in s.table && ConfirmsAction(s, c, id)
    && s.table[id].confirmedAt == Some(s.calls[c].req.now)
  }

  ghost predicate ExecutedBy(s: System, id: string, x: CallId) {
    && id in s.table && x in s.calls && s.calls[x].req.Execute? && s.calls[x].req.actionId == id
    && s.calls[x].pc == Done(Success(s.table[id]))
    && s.table[id].executedAt == Some(s.calls[x].req.now)
  }

  /** A confirm whose clock reading was past the row's window. */
  ghost predicate ExpiredBy(s: System, id: string, c: CallId) {
    && id in s.table && c in s.calls && s.calls[c].req.Confirm? && s.calls[c].req.actionId == id
    && s.calls[c].req.now > s.table[id].expiresAt
    && s.calls[c].pc == Done(Refusal(Some(s.table[id]), ConfirmationExpired))
  }

  /** The calls that brought a row to where it is. */
  ghost predicate Provenance(s: System, id: string) {
    && (exists p :: PreparedBy(s, id, p))
    && s.table[id].status in {PendingConfirmation, Confirmed, Executed, Expired}
    && (s.table[id].status in {Confirmed, Executed} ==> exists c :: ConfirmedBy(s, id, c))
    && (s.table[id].status == Executed ==> exists x :: ExecutedBy(s, id, x))
    && (s.table[id].status == Expired ==> exists c :: ExpiredBy(s, id, c))
  }

  lemma PreparedByStable(s: System, e: Event, id: string, p: CallId)
    requires Inv(s) && PreparedBy(s, id, p)
    ensures PreparedBy(Next(s, e), id, p)
  {
    NextSafe(s, e);
  }

  lemma ConfirmedByStable(s: System, e: Event, id: string, c: CallId)
    requires Inv(s) && ConfirmedBy(s, id, c) && s.table[id].status in {Confirmed, Executed}
    ensures ConfirmedBy(Next(s, e), id, c)
  {
    NextSafe(s, e);
  }

  /** The call whose step changed a row is the one the changed row is owed to. */
  lemma StepProvenance(s: System, c: CallId, id: string)
    requires Inv(s) && c in s.calls && !s.calls[c].pc.Done?
    requires id in Next(s, Step(c)).table
    requires id !in s.table || Next(s, Step(c)).table[id] != s.table[id]
    ensures var s' := Next(s, Step(c));
            match s'.table[id].status
            case PendingConfirmation => id !in s.table && PreparedBy(s', id, c)
            case Confirmed => id in s.table && ConfirmedBy(s', id, c)
            case Executed => id in s.table && s.table[id].status == Confirmed && ExecutedBy(s', id, c)
            case Expired => id in s.table && ExpiredBy(s', id, c)
            case _ => false
  {
  }

  // ---- In which order it happened ----

  /** At event `i` call `c` brought action `id` into this status. */
  ghost predicate TookEffect(es: seq<Event>, i: nat, c: CallId, id: string, status: ActionStatus) {
    && i < |es| && es[i] == Step(c)
    && var before, after := Run(Start(map[]), es[..i]).table, Run(Start(map[]), es[..i + 1]).table;
    && id in after && after[id].status == status && (id !in before || before[id] != after[id])
  }

  lemma TookEffectStable(es: seq<Event>, n: nat, i: nat, c: CallId, id: string, status: ActionStatus)
    requires n <= |es| && TookEffect(es[..n], i, c, id, status)
    ensures TookEffect(es, i, c, id, status) && i < n
  {
    assert es[..n][..i] == es[..i] && es[..n][..i + 1] == es[..i + 1];
  }

  /** The effects behind the row's status, in order: prepared at `i`, then confirmed or expired at
      `j`, then executed at `k`. */
  ghost predicate PreparedAt(es: seq<Event>, id: string, i: nat, p: CallId) {
    TookEffect(es, i, p, id, PendingConfirmation) && PreparedBy(Run(Start(map[]), es), id, p)
  }

  ghost predicate ConfirmedAt(es: seq<Event>, id: string, i: nat, p: CallId, j: nat, c: CallId) {
    && i < j && PreparedAt(es, id, i, p)
    && TookEffect(es, j, c, id, Confirmed) && ConfirmedBy(Run(Start(map[]), es), id, c)
  }

  ghost predicate ExpiredAt(es: seq<Event>, id: string, i: nat, p: CallId, j: nat, c: CallId) {
    && i < j && PreparedAt(es, id, i, p)
    && TookEffect(es, j, c, id, Expired) && ExpiredBy(Run(Start(map[]), es), id, c)
  }

  ghost predicate ExecutedAt(es: seq<Event>, id: string, i: nat, p: CallId, j: nat, c: CallId,
                             k: nat, x: CallId) {
    && j < k && ConfirmedAt(es, id, i, p, j, c)
    && TookEffect(es, k, x, id, Executed) && ExecutedBy(Run(Start(map[]), es), id, x)
  }

  ghost predicate History(es: seq<Event>, id: string) {
    var s := Run(Start(map[]), es);
    id in s.table ==>
      match s.table[id].status
      case Confirmed => exists i, p, j, c :: ConfirmedAt(es, id, i, p, j, c)
      case Executed => exists i, p, j, c, k, x :: ExecutedAt(es, id, i, p, j, c, k, x)
      case PendingConfirmation => exists i, p :: PreparedAt(es, id, i, p)
      case Expired => exists i, p, j, c :: ExpiredAt(es, id, i, p, j, c)
      case _ => false
  }

  lemma PreparedAtStable(es: seq<Event>, id: string, i: nat, p: CallId)
    requires es != [] && PreparedAt(es[..|es| - 1], id, i, p) && Inv(Run(Start(map[]), es[..|es| - 1]))
    ensures PreparedAt(es, id, i, p) && i < |es| - 1
  {
    TookEffectStable(es, |es| - 1, i, p, id, PendingConfirmation);
    PreparedByStable(Run(Start(map[]), es[..|es| - 1]), es[|es| - 1], id, p);
  }

  lemma ConfirmedAtStable(es: seq<Event>, id: string, i: nat, p: CallId, j: nat, c: CallId)
    requires es != [] && ConfirmedAt(es[..|es| - 1], id, i, p, j, c) && Inv(Run(Start(map[]), es[..|es| - 1]))
    requires Run(Start(map[]), es[..|es| - 1]).table[id].status in {Confirmed, Executed}
    ensures ConfirmedAt(es, id, i, p, j, c) && j < |es| - 1
  {
    PreparedAtStable(es, id, i, p);
    TookEffectStable(es, |es| - 1, j, c, id, Confirmed);
    ConfirmedByStable(Run(Start(map[]), es[..|es| - 1]), es[|es| - 1], id, c);
  }

  lemma ExpiredAtStable(es: seq<Event>, id: string, i: nat, p: CallId, j: nat, c: CallId)
    requires es != [] && ExpiredAt(es[..|es| - 1], id, i, p, j, c)
    requires var s := Run(Start(map[]), es[..|es| - 1]);
             && Inv(s) && id in Run(Start(map[]), es).table && Run(Start(map[]), es).table[id] == s.table[id]
    ensures ExpiredAt(es, id, i, p, j, c)
  {
    hide TookEffect;
    PreparedAtStable(es, id, i, p);
    TookEffectStable(es, |es| - 1, j, c, id, Expired);
    ExpiredByStable(Run(Start(map[]), es[..|es| - 1]), es[|es| - 1], id, c);
  }

  lemma ExpiredByStable(s: System, e: Event, id: string, c: CallId)
    requires Inv(s) && ExpiredBy(s, id, c) && id in Next(s, e).table && Next(s, e).table[id] == s.table[id]
    ensures ExpiredBy(Next(s, e), id, c)
  {
  }

  lemma ExecutedByStable(s: System, e: Event, id: string, x: CallId)
    requires Inv(s) && ExecutedBy(s, id, x) && id in Next(s, e).table && Next(s, e).table[id] == s.table[id]
    ensures ExecutedBy(Next(s, e), id, x)
  {
  }

  lemma ExecutedAtStable(es: seq<Event>, id: string, i: nat, p: CallId, j: nat, c: CallId, k: nat, x: CallId)
    requires es != [] && ExecutedAt(es[..|es| - 1], id, i, p, j, c, k, x)
    requires var s := Run(Start(map[]), es[..|es| - 1]);
             && Inv(s) && id in s.table && s.table[id].status == Executed
             && id in Run(Start(map[]), es).table && Run(Start(map[]), es).table[id] == s.table[id]
    ensures ExecutedAt(es, id, i, p, j, c, k, x)
  {
    hide TookEffect, ConfirmedAt;
    ConfirmedAtStable(es, id, i, p, j, c);
    TookEffectStable(es, |es| - 1, k, x, id, Executed);
    ExecutedByStable(Run(Start(map[]), es[..|es| - 1]), es[|es| - 1], id, x);
  }

  /** An event that leaves the row alone leaves its history alone. */
  lemma UntouchedHistory(es: seq<Event>, id: string)
    requires es != [] && History(es[..|es| - 1], id) && Inv(Run(Start(map[]), es[..|es| - 1]))
    requires var s := Run(Start(map[]), es[..|es| - 1]);
             id in s.table && id in Run(Start(map[]), es).table && Run(Start(map[]), es).table[id] == s.table[id]
    ensures History(es, id)
  {
    hide Run, PreparedAt, ConfirmedAt, ExecutedAt, ExpiredAt;
    var prefix := es[..|es| - 1];
    var s := Run(Start(map[]), prefix);
    if s.table[id].status == Confirmed {
      var i, p, j, c :| ConfirmedAt(prefix, id, i, p, j, c);
      ConfirmedAtStable(es, id, i, p, j, c);
    } else if s.table[id].status == Executed {
      var i, p, j, c, k, x :| ExecutedAt(prefix, id, i, p, j, c, k, x);
      ExecutedAtStable(es, id, i, p, j, c, k, x);
    } else if s.table[id].status == Expired {
      var i, p, j, c :| ExpiredAt(prefix, id, i, p, j, c);
      ExpiredAtStable(es, id, i, p, j, c);
    } else {
      var i, p :| PreparedAt(prefix, id, i, p);
      PreparedAtStable(es, id, i, p);
    }
  }

  /** An event that changes the row adds its own effect at the end. */
  lemma ExtendedHistory(es: seq<Event>, id: string)
    requires es != [] && History(es[..|es| - 1], id) && Inv(Run(Start(map[]), es[..|es| - 1]))
    requires var s := Run(Start(map[]), es[..|es| - 1]);
             id in Run(Start(map[]), es).table
             && (id !in s.table || Run(Start(map[]), es).table[id] != s.table[id])
    ensures History(es, id)
  {
    var n, prefix := |es| - 1, es[..|es| - 1];
    var s := Run(Start(map[]), prefix);
    assert es[..n + 1] == es;
    var c := es[n].call;
    StepProvenance(s, c, id);
    if id in s.table {
      StepOrder(s, c, id);
    }
    LastEffect(es, c, id);
    match Run(Start(map[]), es).table[id].status
    case Confirmed => ExtendConfirmed(es, c, id);
    case Executed => ExtendExecuted(es, c, id);
    case PendingConfirmation => assert PreparedAt(es, id, n, c);
    case Expired => ExtendExpired(es, c, id);
  }

  lemma LastEffect(es: seq<Event>, c: CallId, id: string)
    requires es != [] && es[|es| - 1] == Step(c)
    requires var s, s' := Run(Start(map[]), es[..|es| - 1]), Run(Start(map[]), es);
             id in s'.table && (id !in s.table || s'.table[id] != s.table[id])
    ensures TookEffect(es, |es| - 1, c, id, Run(Start(map[]), es).table[id].status)
  {
    assert es[..|es| - 1 + 1] == es;
  }

  lemma ExtendConfirmed(es: seq<Event>, c: CallId, id: string)
    requires es != [] && History(es[..|es| - 1], id) && Inv(Run(Start(map[]), es[..|es| - 1]))
    requires id in Run(Start(map[]), es[..|es| - 1]).table
    requires Run(Start(map[]), es[..|es| - 1]).table[id].status == PendingConfirmation
    requires TookEffect(es, |es| - 1, c, id, Confirmed) && ConfirmedBy(Run(Start(map[]), es), id, c)
    ensures exists i, p, j, d :: ConfirmedAt(es, id, i, p, j, d)
  {
    hide Run, TookEffect, PreparedAt;
    var i, p :| PreparedAt(es[..|es| - 1], id, i, p);
    PreparedAtStable(es, id, i, p);
    assert ConfirmedAt(es, id, i, p, |es| - 1, c);
  }

  lemma ExtendExecuted(es: seq<Event>, c: CallId, id: string)
    requires es != [] && History(es[..|es| - 1], id) && Inv(Run(Start(map[]), es[..|es| - 1]))
    requires id in Run(Start(map[]), es[..|es| - 1]).table
    requires Run(Start(map[]), es[..|es| - 1]).table[id].status == Confirmed
    requires TookEffect(es, |es| - 1, c, id, Executed) && ExecutedBy(Run(Start(map[]), es), id, c)
    ensures exists i, p, j, d, k, x :: ExecutedAt(es, id, i, p, j, d, k, x)
  {
    hide Run, TookEffect, ConfirmedAt;
    var i, p, j, d :| ConfirmedAt(es[..|es| - 1], id, i, p, j, d);
    ConfirmedAtStable(es, id, i, p, j, d);
    assert ExecutedAt(es, id, i, p, j, d, |es| - 1, c);
  }

  lemma ExtendExpired(es: seq<Event>, c: CallId, id: string)
    requires es != [] && History(es[..|es| - 1], id) && Inv(Run(Start(map[]), es[..|es| - 1]))
    requires id in Run(Start(map[]), es[..|es| - 1]).table
    requires Run(Start(map[]), es[..|es| - 1]).table[id].status == PendingConfirmation
    requires TookEffect(es, |es| - 1, c, id, Expired) && ExpiredBy(Run(Start(map[]), es), id, c)
    ensures exists i, p, j, d :: ExpiredAt(es, id, i, p, j, d)
  {
    hide Run, TookEffect, PreparedAt;
    var i, p :| PreparedAt(es[..|es| - 1], id, i, p);
    PreparedAtStable(es, id, i, p);
    assert ExpiredAt(es, id, i, p, |es| - 1, c);
  }

  /** A step confirms or expires only a pending row. */
  lemma StepOrder(s: System, c: CallId, id: string)
    requires Inv(s) && c in s.calls && !s.calls[c].pc.Done?
    requires id in s.table && id in Next(s, Step(c)).table && Next(s, Step(c)).table[id] != s.table[id]
    ensures Next(s, Step(c)).table[id].status in {Confirmed, Expired} ==> s.table[id].status == PendingConfirmation
  {
  }

  lemma {:induction false} RunHistory(es: seq<Event>, id: string)
    ensures History(es, id)
  {
    if es != [] {
      var prefix := es[..|es| - 1];
      RunHistory(prefix, id);
      RunSafe(map[], prefix, 0);
      var s, s' := Run(Start(map[]), prefix), Run(Start(map[]), es);
      if id in s'.table {
        if id in s.table && s'.table[id] == s.table[id] {
          UntouchedHistory(es, id);
        } else {
          ExtendedHistory(es, id);
        }
      }
    }
  }

  /** Every row of a run from an empty table is owed to the calls its status implies. */
  lemma RunProvenance(es: seq<Event>, id: string)
    requires id in Run(Start(map[]), es).table
    ensures Provenance(Run(Start(map[]), es), id)
  {
    hide Run, TookEffect, PreparedBy, ConfirmedBy, ExecutedBy, ExpiredBy;
    RunHistory(es, id);
    var status := Run(Start(map[]), es).table[id].status;
    if status == Confirmed {
      var i, p, j, c :| ConfirmedAt(es, id, i, p, j, c);
    } else if status == Executed {
      var i, p, j, c, k, x :| ExecutedAt(es, id, i, p, j, c, k, x);
    } else if status == Expired {
      var i, p, j, c :| ExpiredAt(es, id, i, p, j, c);
    } else {
      var i, p :| PreparedAt(es, id, i, p);
    }
  }

  /** Nothing is executed without a confirmation: behind every EXECUTED row of any run that
      began with an empty table stand, in this order, the effects of a prepare that saw an open
      ticket, P1 or breached; of a confirm by the same user, with the digest of that very
      proposal, within fifteen minutes; and of the execute whose clock reading the row carries. */
  lemma ExecutedOnlyAfterConfirmation(es: seq<Event>, id: string)
    requires id in Run(Start(map[]), es).table
    requires Run(Start(map[]), es).table[id].status == Executed
    ensures var s := Run(Start(map[]), es);
            exists p, c, x, i: nat, j: nat, k: nat ::
              && ExecutedAt(es, id, i, p, j, c, k, x) && i < j < k
              && s.calls[p].req.ticket == Found(Open)
              && s.calls[p].req.severity.Some?
              && (s.calls[p].req.severity == Some(P1) || s.calls[p].req.breached == Some(true))
              && s.calls[c].req.userId == s.calls[p].req.userId
              && s.calls[c].req.hash == Sha256(s.calls[p].req.ticketId, s.table[id].change)
              && s.calls[c].req.now <= s.calls[p].req.now + ACTION_EXPIRY_SECONDS
  {
    hide Run, ExecutedAt;
    RunHistory(es, id);
    var i, p, j, c, k, x :| ExecutedAt(es, id, i, p, j, c, k, x);
    ExecutedFacts(es, id, i, p, j, c, k, x);
  }

  lemma ExecutedFacts(es: seq<Event>, id: string, i: nat, p: CallId, j: nat, c: CallId, k: nat, x: CallId)
    requires ExecutedAt(es, id, i, p, j, c, k, x)
    ensures var s := Run(Start(map[]), es);
            && i < j < k && p in s.calls && c in s.calls && s.calls[p].req.Prepare? && s.calls[c].req.Confirm?
            && id in s.table
            && s.calls[p].req.ticket == Found(Open)
            && s.calls[p].req.severity.Some?
            && (s.calls[p].req.severity == Some(P1) || s.calls[p].req.breached == Some(true))
            && s.calls[c].req.userId == s.calls[p].req.userId
            && s.calls[c].req.hash == Sha256(s.calls[p].req.ticketId, s.table[id].change)
            && s.calls[c].req.now <= s.calls[p].req.now + ACTION_EXPIRY_SECONDS
  {
    hide Run, TookEffect;
    RunOutcomes(map[], es);
    var s := Run(Start(map[]), es);
    assert OutcomeInv(s.calls[c], s.table);
  }
}
