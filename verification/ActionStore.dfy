/** `app/actions/store.py` and `app/actions/workflow.py` as one mutable table with the calls
    that read and conditionally overwrite it. Between any two of its own statements a call
    may find that other callers have moved rows forward; `OtherCallers` is that gap. */
module ActionStore {
  import opened Prelude
  import opened Enums
  import opened ActionRecords

  class Store {
    var rows: Table

    constructor ()
      ensures rows == map[]
    {
      rows := map[];
    }

    /** Whatever other callers do meanwhile. A call is verified against this contract
        alone, so it holds under every behaviour the contract admits. */
    method OtherCallers()
      requires Keyed(rows)
      modifies this
      ensures Keyed(rows) && Evolves(old(rows), rows)
    {
    }

    method GetAction(id: string) returns (r: Option<ActionRecord>)
      ensures r == if id in rows then Some(rows[id]) else None
    {
      r := if id in rows then Some(rows[id]) else None;
    }

    /** INSERT: fails on a duplicate primary key and then changes nothing. */
    method InsertAction(r: ActionRecord) returns (inserted: bool)
      modifies this
      ensures inserted <==> r.actionId !in old(rows)
      ensures rows == if inserted then old(rows)[r.actionId := r] else old(rows)
    {
      inserted := r.actionId !in rows;
      if inserted {
        rows := rows[r.actionId := r];
      }
    }

    /** UPDATE ... WHERE action_id = ? AND status = ?: compares the status only, and writes
        only the four columns that a transition may change. */
    method SaveActionIfStatus(r: ActionRecord, expected: ActionStatus) returns (won: bool)
      modifies this
      ensures won <==> r.actionId in old(rows) && old(rows)[r.actionId].status == expected
      ensures !won ==> rows == old(rows)
      ensures won ==> rows == old(rows)[r.actionId :=
        old(rows)[r.actionId].(status := r.status, confirmedAt := r.confirmedAt,
                               executedAt := r.executedAt, failureReason := r.failureReason)]
    {
      won := r.actionId in rows && rows[r.actionId].status == expected;
      if won {
        rows := rows[r.actionId :=
          rows[r.actionId].(status := r.status, confirmedAt := r.confirmedAt,
                            executedAt := r.executedAt, failureReason := r.failureReason)];
      }
    }

    method PrepareEscalation(req: Request) returns (out: Outcome, ghost at: Table)
      requires req.Prepare? && Keyed(rows)
      modifies this
      ensures Keyed(rows) && Evolves(old(rows), at)
      ensures out == Atomic(req, at).1 && rows == Atomic(req, at).0
    {
      OtherCallers();
      at := rows;
      match req.ticket {
        case NotVisible => return Refusal(None, NotAuthorized), at;
        case NoSuchTicket => return Refusal(None, NotFound), at;
        case Found(status) =>
          if status != Open {
            return Refusal(None, InvalidTargetState), at;
          }
      }
      if req.severity.None? {
        return Refusal(None, CannotDetermineEligibility), at;
      }
      if !Eligible(req.severity, req.breached) {
        return Refusal(None, NotEscalationEligible), at;
      }
      ghost var before := rows;
      OtherCallers();
      EvolvesTransitive(old(rows), before, rows);
      at := rows;
      var inserted := InsertAction(Proposal(req));
      if !inserted {
        return Raised, at;
      }
      return Success(Proposal(req)), at;
    }

    /** The call reads, checks a copy that may be stale by then, and updates conditionally;
        still its outcome and its effect are those of the whole call at one instant `at`. */
    method ConfirmAction(req: Request) returns (out: Outcome, ghost at: Table)
      requires req.Confirm? && Keyed(rows)
      modifies this
      ensures Keyed(rows) && Evolves(old(rows), at)
      ensures out == Atomic(req, at).1 && Evolves(Atomic(req, at).0, rows)
    {
      OtherCallers();
      at := rows;
      var read := GetAction(req.actionId);
      if read.None? {
        return Refusal(None, NotFound), at;
      }
      var record := read.value;
      if record.status != PendingConfirmation {
        return Refusal(Some(record), WrongState), at;
      }
      var next, failure := ConfirmedRow(record, req.now), None;
      if req.now > record.expiresAt {
        next, failure := ExpiredRow(record), Some(ConfirmationExpired);
      } else {
        if record.userId != req.userId {
          return Refusal(Some(record), WrongUser), at;
        }
        if req.hash != record.payloadHash {
          return Refusal(Some(record), PayloadMismatch), at;
        }
        var refusal := TargetRefusal(req.ticket, record);
        if refusal.Some? {
          return Refusal(Some(record), refusal.value), at;
        }
      }
      OtherCallers();
      EvolvesTransitive(old(rows), at, rows);
      at := rows;
      var won := SaveActionIfStatus(next, PendingConfirmation);
      if won {
        if failure.Some? {
          return Refusal(Some(next), failure.value), at;
        }
        return Success(next), at;
      }
      OtherCallers();
      EvolvesTransitive(old(rows), at, rows);
      at := rows;
      var current := GetAction(req.actionId);
      return Refusal(current, WrongState), at;
    }

    method ExecuteAction(req: Request) returns (out: Outcome, ghost at: Table)
      requires req.Execute? && Keyed(rows)
      modifies this
      ensures Keyed(rows) && Evolves(old(rows), at)
      ensures out == Atomic(req, at).1 && Evolves(Atomic(req, at).0, rows)
    {
      OtherCallers();
      at := rows;
      var read := GetAction(req.actionId);
      if read.None? {
        return Refusal(None, NotFound), at;
      }
      var record := read.value;
      if record.status == Executed {
        return Success(record), at;
      }
      if record.status != Confirmed {
        return Refusal(Some(record), WrongState), at;
      }
      var next := ExecutedRow(record, req.now);
      OtherCallers();
      EvolvesTransitive(old(rows), at, rows);
      at := rows;
      var won := SaveActionIfStatus(next, Confirmed);
      if won {
        return Success(next), at;
      }
      OtherCallers();
      EvolvesTransitive(old(rows), at, rows);
      at := rows;
      var current := GetAction(req.actionId);
      return Returned(true, current, None), at;
    }
  }
}
