/** What becomes of a parsed grid when the SLA calculation uses its targets. */
module GridUse {
  import opened Prelude
  import opened Enums
  import opened Records
  import opened Repository
  import opened Applicability
  import opened SeverityVote
  import opened TextLines
  import opened SlaTable
  import opened Durations
  import Sla
  import Text

  /** Everything the calculation asks for is there, and still it fails. */
  ghost predicate FailsOnTarget(db: Database, reg: Registry, lex: Lexicon, ticketId: string, auth: Auth, now: int) {
    && ValidTables(db) && GetTicket(db, ticketId, auth).Ok?
    && var t := GetTicket(db, ticketId, auth).value;
    && GetAccount(db, t.accountId, auth).Ok? && Plurality(lex, TicketText(t)).Some?
    && ResolveApplicability(db.sources, reg, SlaFirstResponse, t.accountId, DayOf(now)).Ok?
    && Sla.CalculateSla(db, reg, lex, ticketId, auth, now) == Err(OtherError)
  }

  /** What a calculation fails on is a row of its table that says neither. */
  lemma FailureHasRow(db: Database, reg: Registry, lex: Lexicon, ticketId: string, auth: Auth, now: int)
    requires FailsOnTarget(db, reg, lex, ticketId, auth, now)
    ensures exists row :: row in db.targets && Sla.IsUnusable(Some(row))
  {
    hide Plurality, Sla.CalculateSla, ResolveApplicability;
    var t := GetTicket(db, ticketId, auth).value;
    Sla.FailsExactlyWhenUnusable(db, reg, lex, ticketId, auth, now);
    var row := Sla.GoverningTarget(db, reg, lex, t, auth, now);
    GoverningIsStored(db, reg, lex, t, auth, now);
    assert row.value in db.targets && Sla.IsUnusable(Some(row.value));
  }

  lemma GoverningIsStored(db: Database, reg: Registry, lex: Lexicon, t: Ticket, auth: Auth, now: int)
    ensures Sla.GoverningTarget(db, reg, lex, t, auth, now).Some? ==>
              Sla.GoverningTarget(db, reg, lex, t, auth, now).value in db.targets
  {
    hide Plurality, ResolveApplicability, Sla.TargetMatches;
  }

  // ---- Any cell of a grid can come to govern a ticket ----

  function PlanOf(i: nat): string
    requires i < 9
  {
    PLANS[i / 3]
  }

  function SeverityAt(i: nat): Severity
    requires i < 9
  {
    SEVERITIES[i % 3]
  }

  lemma GridShape(sourceId: string, enterprise: Row, growth: Row, standard: Row)
    ensures var targets := GridTargets(sourceId, enterprise, growth, standard);
            && |targets| == 9
            && forall i :: 0 <= i < 9 ==>
                 && targets[i].sourceId == sourceId && targets[i].plan == Some(PlanOf(i))
                 && targets[i].accountId == None && targets[i].severity == SeverityAt(i)
  {
    hide ParseDuration;
  }

  lemma CellsDiffer(i: nat, j: nat)
    requires i < 9 && j < 9 && PlanOf(i) == PlanOf(j) && SeverityAt(i) == SeverityAt(j)
    ensures i == j
  {
    assert |"Enterprise"| == 10 && |"Growth"| == 6 && |"Standard"| == 8;
    assert i / 3 == j / 3 && i % 3 == j % 3;
  }

  /** Every text has this one signal, of the severity wanted. */
  function LexiconFor(s: Severity): Lexicon {
    var always := [Signal(text => true, "always")];
    Lexicon(if s == P1 then always else [], if s == P2 then always else [], if s == P3 then always else [],
            text => {})
  }

  lemma LexiconForVotes(s: Severity, text: string)
    ensures Plurality(LexiconFor(s), text) == Some(s)
  {
    var lex := LexiconFor(s);
    var always := Signal(text => true, "always");
    var found := (sig: Signal) => if sig.matches(text) then [sig.definition] else [];
    forall o ensures |Hits(lex, o, text)| == if o == s then 1 else 0 {
      FlatMapAgree(found, (sig: Signal) => if sig.matches(text) then [sig.definition] else [], lex.Signals(o));
      if o == s {
        var sigs := lex.Signals(o);
        assert |sigs| == 1 && sigs[0].matches(text) && sigs[1..] == [];
        assert FlatMap(found, sigs) == found(sigs[0]) + FlatMap(found, []);
      } else {
        assert lex.Signals(o) == [];
      }
    }
  }

  /** A ticket of a fitting account and severity, under no agreement, comes to rest on cell `i`. */
  lemma CellGoverns(sourceId: string, enterprise: Row, growth: Row, standard: Row, i: nat)
    returns (db: Database, reg: Registry, lex: Lexicon, auth: Auth, t: Ticket)
    requires i < 9
    ensures ValidTables(db) && db.targets == GridTargets(sourceId, enterprise, growth, standard)
    ensures GetTicket(db, t.ticketId, auth) == Ok(t) && GetAccount(db, t.accountId, auth).Ok?
    ensures Plurality(lex, TicketText(t)).Some?
    ensures ResolveApplicability(db.sources, reg, SlaFirstResponse, t.accountId, 0).Ok?
    ensures |db.targets| == 9 && Sla.GoverningTarget(db, reg, lex, t, auth, 0) == Some(db.targets[i])
  {
    hide GridTargets, Plurality, PlanOf, SeverityAt;
    var a := Account("ACCT-9", "", PlanOf(i), "", "", None, false, "");
    t := Ticket("TKT-9", "ACCT-9", 0, Open, "", "", "", "", 0, None);
    auth := Auth(SupportAgent, None);
    db := Database([a], [], [t], [], GridTargets(sourceId, enterprise, growth, standard), []);
    reg := Registry([], map[SlaFirstResponse := Some(PolicyClause(sourceId, "3"))]);
    lex := LexiconFor(SeverityAt(i));
    LexiconForVotes(SeverityAt(i), TicketText(t));
    GridShape(sourceId, enterprise, growth, standard);
    assert GetAccount(db, "ACCT-9", auth) == Ok(a);
    Sla.AccountRowWins(db.targets, sourceId, a, SeverityAt(i));
    assert Sla.TargetMatches(db.targets[i], sourceId, a, SeverityAt(i));
    var found := Sla.LookupTarget(db.targets, sourceId, a, SeverityAt(i));
    var j :| 0 <= j < 9 && db.targets[j] == found.value;
    CellsDiffer(i, j);
  }

  /** For every grid: no calculation on its targets fails for want of a usable target exactly
      when every cell says when. */
  lemma GridNeverFailsExactlyWhen(sourceId: string, enterprise: Row, growth: Row, standard: Row)
    ensures (forall db: Database, reg, lex, ticketId, auth, now ::
               db.targets == GridTargets(sourceId, enterprise, growth, standard) ==>
                 !FailsOnTarget(db, reg, lex, ticketId, auth, now))
            <==> forall c :: c in Cells(enterprise) + Cells(growth) + Cells(standard) ==> SaysWhen(c)
  {
    hide GridTargets, SaysWhen, FailsOnTarget, Cells;
    var targets := GridTargets(sourceId, enterprise, growth, standard);
    UsableExactlyWhen(sourceId, enterprise, growth, standard);
    if row :| row in targets && Sla.IsUnusable(Some(row)) {
      var i :| 0 <= i < |targets| && targets[i] == row;
      GridShape(sourceId, enterprise, growth, standard);
      var db, reg, lex, auth, ticketId := CellFails(sourceId, enterprise, growth, standard, i);
    } else {
      forall db: Database, reg, lex, ticketId, auth, now | db.targets == targets
        ensures !FailsOnTarget(db, reg, lex, ticketId, auth, now)
      {
        if FailsOnTarget(db, reg, lex, ticketId, auth, now) {
          FailureHasRow(db, reg, lex, ticketId, auth, now);
        }
      }
    }
  }

  lemma CellFails(sourceId: string, enterprise: Row, growth: Row, standard: Row, i: nat)
    returns (db: Database, reg: Registry, lex: Lexicon, auth: Auth, ticketId: string)
    requires i < |GridTargets(sourceId, enterprise, growth, standard)|
    requires Sla.IsUnusable(Some(GridTargets(sourceId, enterprise, growth, standard)[i]))
    ensures db.targets == GridTargets(sourceId, enterprise, growth, standard)
    ensures FailsOnTarget(db, reg, lex, ticketId, auth, 0)
  {
    hide GridTargets, Plurality, ResolveApplicability, Sla.CalculateSla, Sla.GoverningTarget;
    GridShape(sourceId, enterprise, growth, standard);
    var t;
    db, reg, lex, auth, t := CellGoverns(sourceId, enterprise, growth, standard, i);
    ticketId := t.ticketId;
    assert DayOf(0) == 0;
    Sla.FailsExactlyWhenUnusable(db, reg, lex, ticketId, auth, 0);
  }

  /** A text the grid parser accepts, with a ticket whose SLA calculation then fails on the
      parsed targets. */
  lemma AcceptedGridFails(sourceId: string)
    returns (text: string, db: Database, reg: Registry, lex: Lexicon, auth: Auth, ticketId: string)
    ensures GridOf(sourceId, CleanLines(text)) == Ok(db.targets)
    ensures FailsOnTarget(db, reg, lex, ticketId, auth, 0)
  {
    hide GridOf, GridTargets, CleanLines, ParseDuration, FailsOnTarget;
    var row := Row("soon", "soon", "soon");
    text := Text.Join('\n', [] + GridLines(row, row, row));
    assert IsClean("soon");
    assert forall c :: c in Cells(row) + Cells(row) + Cells(row) ==> c == "soon";
    GridTextRoundTrip(sourceId, [], row, row, row);
    GridShape(sourceId, row, row, row);
    SoonIsUnusable(sourceId);
    db, reg, lex, auth, ticketId := CellFails(sourceId, row, row, row, 0);
  }

  lemma SoonIsUnusable(sourceId: string)
    ensures var row := Row("soon", "soon", "soon");
            && GridTargets(sourceId, row, row, row) != []
            && Sla.IsUnusable(Some(GridTargets(sourceId, row, row, row)[0]))
  {
    hide ParseDuration;
    SoonSaysNothing();
  }
}
