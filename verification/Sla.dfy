/** `app/domain/sla.py`: first-response deadlines. */
module Sla {
  import opened Prelude
  import opened Enums
  import opened Records
  import opened Repository
  import opened Applicability
  import opened SeverityVote

  datatype SlaOutcome = SlaOutcome(
    severity: Severity, sourceId: string, text: string, targetMinutes: Option<int>, is24x7: bool,
    deadline: Option<int>, elapsedMinutes: Option<real>, breached: Option<bool>)

  const NO_BUSINESS_CALENDAR := "business-hour targets need a business calendar"

  /** source_id, severity, and either the account's plan or the account itself. */
  predicate TargetMatches(t: SlaTarget, sourceId: string, a: Account, s: Severity) {
    && t.sourceId == sourceId && t.severity == s
    && (t.plan == Some(a.plan) || t.accountId == Some(a.accountId))
  }

  /** Rows with an account come before rows without one; LIMIT 1. */
  function LookupTarget(targets: seq<SlaTarget>, sourceId: string, a: Account, s: Severity)
    : Option<SlaTarget>
  {
    var specific :=
      First((t: SlaTarget) => TargetMatches(t, sourceId, a, s) && t.accountId.Some?, targets);
    if specific.Some? then specific
    else First((t: SlaTarget) => TargetMatches(t, sourceId, a, s), targets)
  }

  /** An account row wins over a plan row whatever the scan order; nothing is found exactly
      when nothing matches. */
  lemma AccountRowWins(targets: seq<SlaTarget>, sourceId: string, a: Account, s: Severity)
    ensures var r := LookupTarget(targets, sourceId, a, s);
            && (r.None? <==> forall t :: t in targets ==> !TargetMatches(t, sourceId, a, s))
            && (r.Some? ==>
                 && r.value in targets && TargetMatches(r.value, sourceId, a, s)
                 && (r.value.accountId.None? ==>
                      forall t :: t in targets && TargetMatches(t, sourceId, a, s) ==> t.accountId.None?))
  {
  }

  /** A matching row that names another account: it matches by its plan. */
  predicate Foreign(t: SlaTarget, sourceId: string, a: Account, s: Severity) {
    TargetMatches(t, sourceId, a, s) && t.accountId.Some? && t.accountId != Some(a.accountId)
  }

  predicate Own(t: SlaTarget, sourceId: string, a: Account, s: Severity) {
    TargetMatches(t, sourceId, a, s) && t.accountId == Some(a.accountId)
  }

  /** The precedence is meant to be independent of the order in which rows are scanned. An
      account's own row wins in every order exactly when no matching row names another account;
      such a row counts as account-specific too. */
  lemma OwnRowWins(targets: seq<SlaTarget>, sourceId: string, a: Account, s: Severity)
    requires exists t :: t in targets && Own(t, sourceId, a, s)
    ensures (forall rows: seq<SlaTarget> :: multiset(rows) == multiset(targets) ==>
               LookupTarget(rows, sourceId, a, s).Some?
               && Own(LookupTarget(rows, sourceId, a, s).value, sourceId, a, s))
            <==> !exists t :: t in targets && Foreign(t, sourceId, a, s)
  {
    if t :| t in targets && Foreign(t, sourceId, a, s) {
      ForeignRowFirst(targets, sourceId, a, s, t);
    } else {
      forall rows: seq<SlaTarget> | multiset(rows) == multiset(targets)
        ensures LookupTarget(rows, sourceId, a, s).Some?
        ensures Own(LookupTarget(rows, sourceId, a, s).value, sourceId, a, s)
      {
        SameRows(rows, targets);
        var own :| own in targets && Own(own, sourceId, a, s);
        assert own in rows;
        AccountRowWins(rows, sourceId, a, s);
        var r := LookupTarget(rows, sourceId, a, s);
        assert r.Some? && r.value in targets && !Foreign(r.value, sourceId, a, s);
      }
    }
  }

  lemma SameRows(rows: seq<SlaTarget>, targets: seq<SlaTarget>)
    requires multiset(rows) == multiset(targets)
    ensures forall t :: t in rows <==> t in targets
  {
    forall t ensures t in rows <==> t in targets {
      assert t in rows <==> t in multiset(rows);
      assert t in targets <==> t in multiset(targets);
    }
  }

  /** Scanned first, a foreign row wins. */
  lemma ForeignRowFirst(targets: seq<SlaTarget>, sourceId: string, a: Account, s: Severity, t: SlaTarget)
    requires t in targets && Foreign(t, sourceId, a, s)
    ensures exists rows: seq<SlaTarget> :: multiset(rows) == multiset(targets)
              && LookupTarget(rows, sourceId, a, s) == Some(t)
  {
    var i :| 0 <= i < |targets| && targets[i] == t;
    var rows := [t] + (targets[..i] + targets[i + 1..]);
    assert targets == targets[..i] + [t] + targets[i + 1..];
    assert multiset(rows) == multiset(targets);
    assert rows[0] == t;
    assert LookupTarget(rows, sourceId, a, s) == Some(t);
  }

  /** The table accepts such rows: an account with a target of its own can be given another
      account's. */
  lemma ForeignRowWins()
    returns (targets: seq<SlaTarget>, sourceId: string, a: Account, s: Severity)
    ensures exists t :: t in targets && Own(t, sourceId, a, s)
    ensures var r := LookupTarget(targets, sourceId, a, s); r.Some? && Foreign(r.value, sourceId, a, s)
  {
    sourceId, s := "SRC-01", P1;
    a := Account("ACCT-001", "", "Growth", "", "", None, false, "");
    var foreign := SlaTarget(sourceId, Some("Growth"), Some("ACCT-002"), s, "1 hour", Some(60), false, false);
    var own := SlaTarget(sourceId, None, Some("ACCT-001"), s, "15 minutes", Some(15), false, false);
    targets := [foreign, own];
    assert own in targets && Own(own, sourceId, a, s);
    assert targets[0] == foreign && Foreign(foreign, sourceId, a, s);
    assert LookupTarget(targets, sourceId, a, s) == Some(foreign);
  }

  /** The deadline arithmetic for a clock target. */
  function Elapsed(t: Ticket, minutes: int, now: int): real {
    (now - (t.createdAt + minutes * 60)) as real / 60.0
  }

  function ClockOutcome(t: Ticket, s: Severity, target: SlaTarget, sourceId: string, minutes: int, now: int)
    : SlaOutcome
  {
    SlaOutcome(s, sourceId, target.text, Some(minutes), target.is24x7, Some(t.createdAt + minutes * 60),
               Some(Elapsed(t, minutes, now)), Some(Elapsed(t, minutes, now) > 0.0))
  }

  /** The calculation once the ticket and its account are read. A target that is neither a
      clock duration nor marked business-calendar makes the addition fail. */
  function SlaFor(db: Database, reg: Registry, lex: Lexicon, t: Ticket, a: Account, now: int)
    : Result<Decision<SlaOutcome>, Exn>
  {
    var cite := CiteStructured("tickets", t.ticketId);
    var definition := CiteDocument(db.chunks, "SRC-01", "2");
    var severity := Plurality(lex, TicketText(t));
    if severity.None? then Ok(Decision(None, Uncertain, [cite, definition], [], [], true))
    else
      var ap := ResolveApplicability(db.sources, reg, SlaFirstResponse, a.accountId, DayOf(now));
      if ap.Err? then Err(ap.error)
      else
        var source := ap.value.winner.sourceId;
        var target := LookupTarget(db.targets, source, a, severity.value);
        if target.None? then Ok(Decision(None, Uncertain, [cite], [], [], true))
        else
          var evidence := [cite, definition, CiteDocument(db.chunks, source, ap.value.winner.section)];
          var conflicts := Conflicts(ap.value, a.accountId);
          if target.value.businessCalendar then
            Ok(Decision(Some(SlaOutcome(severity.value, source, target.value.text, None, false, None, None, None)),
                        Conditional, evidence, [NO_BUSINESS_CALENDAR], conflicts, ap.value.review))
          else if target.value.minutes.None? then Err(OtherError)
          else
            var outcome := ClockOutcome(t, severity.value, target.value, source, target.value.minutes.value, now);
            Ok(Decision(Some(outcome), Confident, evidence, [], conflicts,
                        ap.value.review || (outcome.breached == Some(true) && severity.value == P1)))
  }

  function CalculateSla(db: Database, reg: Registry, lex: Lexicon, ticketId: string, auth: Auth, now: int)
    : Result<Decision<SlaOutcome>, Exn>
  {
    var ticket := GetTicket(db, ticketId, auth);
    if ticket.Err? then Err(ticket.error)
    else
      var account := GetAccount(db, ticket.value.accountId, auth);
      if account.Err? then Err(account.error)
      else SlaFor(db, reg, lex, ticket.value, account.value, now)
  }

  /** A breach is a clock target whose deadline is strictly past; the trust state is CONFIDENT
      exactly for a clock target, and never ESCALATE, not even when the agreement is out of
      term. */
  lemma TrustExactly(db: Database, reg: Registry, lex: Lexicon, ticketId: string, auth: Auth, now: int)
    requires CalculateSla(db, reg, lex, ticketId, auth, now).Ok?
    ensures var d := CalculateSla(db, reg, lex, ticketId, auth, now).value;
            && d.trust != Escalate
            && (d.trust == Confident <==> d.result.Some? && d.result.value.breached.Some?)
            && (d.trust == Conditional <==> d.result.Some? && d.result.value.breached.None?)
            && (d.result.Some? && d.result.value.breached.Some? ==>
                 var r := d.result.value;
                 && r.deadline.Some? && (r.breached == Some(true) <==> now > r.deadline.value))
  {
  }

  /** The target row the calculation comes to rest on: that of the plurality severity, the
      governing source and the account, if the ticket gets that far. */
  function GoverningTarget(db: Database, reg: Registry, lex: Lexicon, t: Ticket, auth: Auth, now: int)
    : Option<SlaTarget>
  {
    var a := GetAccount(db, t.accountId, auth);
    var s := Plurality(lex, TicketText(t));
    var ap := ResolveApplicability(db.sources, reg, SlaFirstResponse, t.accountId, DayOf(now));
    if a.Err? || s.None? || ap.Err? then None
    else LookupTarget(db.targets, ap.value.winner.sourceId, a.value, s.value)
  }

  /** A row with a clock duration that is not subject to business hours. */
  predicate IsClock(row: Option<SlaTarget>) {
    row.Some? && !row.value.businessCalendar && row.value.minutes.Some?
  }

  /** A row that says neither a clock duration nor business hours. */
  predicate IsUnusable(row: Option<SlaTarget>) {
    row.Some? && !row.value.businessCalendar && row.value.minutes.None?
  }

  /** Once ticket and account are read, the severity is settled and the clause resolved, the
      calculation fails exactly when it comes to rest on an unusable row. */
  lemma FailsExactlyWhenUnusable(db: Database, reg: Registry, lex: Lexicon, ticketId: string, auth: Auth, now: int)
    requires GetTicket(db, ticketId, auth).Ok?
    requires var t := GetTicket(db, ticketId, auth).value;
             && GetAccount(db, t.accountId, auth).Ok? && Plurality(lex, TicketText(t)).Some?
             && ResolveApplicability(db.sources, reg, SlaFirstResponse, t.accountId, DayOf(now)).Ok?
    ensures var t := GetTicket(db, ticketId, auth).value;
            && (CalculateSla(db, reg, lex, ticketId, auth, now).Err? <==>
                  IsUnusable(GoverningTarget(db, reg, lex, t, auth, now)))
            && (CalculateSla(db, reg, lex, ticketId, auth, now).Err? ==>
                  CalculateSla(db, reg, lex, ticketId, auth, now) == Err(OtherError))
  {
    hide Plurality, ResolveApplicability, LookupTarget, Conflicts, CiteDocument, CiteStructured;
    var t := GetTicket(db, ticketId, auth).value;
    assert GetAccount(db, t.accountId, auth).value.accountId == t.accountId;
  }

  /** The account has an agreement on first responses, and its term does not cover the day. */
  ghost predicate AgreementOutOfTerm(db: Database, reg: Registry, accountId: string, now: int) {
    var o := OverrideFor(reg, SlaFirstResponse, accountId);
    && o.Some? && GetSource(db.sources, o.value.sourceId).Ok?
    && !ActiveAt(GetSource(db.sources, o.value.sourceId).value, DayOf(now))
  }

  /** A result is CONFIDENT exactly when the governing row is a clock target, in or out of term;
      an agreement out of term, like a late P1, only sets the review flag. So a result is
      CONFIDENT with its agreement out of term exactly when the default has a clock target. */
  lemma OutOfTermStaysConfident(db: Database, reg: Registry, lex: Lexicon, ticketId: string, auth: Auth, now: int)
    requires GetTicket(db, ticketId, auth).Ok?
    ensures var t := GetTicket(db, ticketId, auth).value;
            var row := GoverningTarget(db, reg, lex, t, auth, now);
            var d := CalculateSla(db, reg, lex, ticketId, auth, now);
            && ((d.Ok? && d.value.trust == Confident) <==> IsClock(row))
            && (IsClock(row) ==>
                  (d.value.review <==>
                   || AgreementOutOfTerm(db, reg, t.accountId, now)
                   || (Plurality(lex, TicketText(t)) == Some(P1) && now > t.createdAt + 60 * row.value.minutes.value)))
  {
    var t := GetTicket(db, ticketId, auth).value;
    var a := GetAccount(db, t.accountId, auth);
    assert a.Ok? ==> a.value.accountId == t.accountId;
    if IsClock(GoverningTarget(db, reg, lex, t, auth, now)) {
      LateExactlyWhen(t, GoverningTarget(db, reg, lex, t, auth, now).value.minutes.value, now);
    }
  }

  lemma LateExactlyWhen(t: Ticket, minutes: int, now: int)
    ensures Elapsed(t, minutes, now) > 0.0 <==> now > t.createdAt + 60 * minutes
  {
  }

  /** Such results exist: an agreement that expired a week ago, and a default target of an hour. */
  lemma ConfidentOutOfTerm()
    returns (db: Database, reg: Registry, lex: Lexicon, auth: Auth, ticketId: string, now: int)
    ensures ValidTables(db) && GetTicket(db, ticketId, auth).Ok?
    ensures AgreementOutOfTerm(db, reg, GetTicket(db, ticketId, auth).value.accountId, now)
    ensures var d := CalculateSla(db, reg, lex, ticketId, auth, now);
            d.Ok? && d.value.trust == Confident && d.value.review
  {
    ticketId, now, auth := "T", 8 * 86400, Auth(SupportAgent, None);
    var a := Account("A", "", "Growth", "", "", None, false, "");
    var t := Ticket("T", "A", now, Open, "", "", "", "", now, None);
    var row := SlaTarget("POLICY", Some("Growth"), None, P2, "1 hour", Some(60), false, false);
    db := Database([a], [], [t], [Source("AGREEMENT", 0, Some(1))], [row], []);
    reg := Registry([AgreementOverride("A", "AGREEMENT", "1", SlaFirstResponse)],
                    map[SlaFirstResponse := Some(PolicyClause("POLICY", "3"))]);
    var always := Signal(text => true, "always");
    lex := Lexicon([], [always], [], text => {});
    assert GetTicket(db, ticketId, auth) == Ok(t) && GetAccount(db, "A", auth) == Ok(a);
    assert Plurality(lex, TicketText(t)) == Some(P2) by {
      OneHit(lex, TicketText(t), always);
    }
    assert OverrideFor(reg, SlaFirstResponse, "A") == Some(reg.overrides[0]);
    assert GetSource(db.sources, "AGREEMENT") == Ok(db.sources[0]);
    assert TargetMatches(row, "POLICY", a, P2);
    AccountRowWins(db.targets, "POLICY", a, P2);
    assert GoverningTarget(db, reg, lex, t, auth, now) == Some(row);
    OutOfTermStaysConfident(db, reg, lex, ticketId, auth, now);
  }

  lemma OneHit(lex: Lexicon, text: string, sig: Signal)
    requires lex.p1 == [] && lex.p2 == [sig] && lex.p3 == [] && sig.matches(text)
    ensures Plurality(lex, text) == Some(P2)
  {
    var found := (sig: Signal) => if sig.matches(text) then [sig.definition] else [];
    FlatMapAgree(found, (sig: Signal) => if sig.matches(text) then [sig.definition] else [], [sig]);
    assert [sig][1..] == [];
    assert FlatMap(found, [sig]) == found(sig) + FlatMap(found, []) == [sig.definition];
  }

  /** Overrides for other accounts or other topics change no deadline. */
  lemma IgnoresOtherOverrides(db: Database, reg: Registry, reg': Registry, lex: Lexicon,
                              ticketId: string, auth: Auth, now: int)
    requires reg.defaults == reg'.defaults
    requires var t := GetTicket(db, ticketId, auth);
             t.Ok? ==>
               var p := (v: AgreementOverride) => Governs(v, SlaFirstResponse, t.value.accountId);
               Filter(p, reg.overrides) == Filter(p, reg'.overrides)
    ensures CalculateSla(db, reg, lex, ticketId, auth, now) == CalculateSla(db, reg', lex, ticketId, auth, now)
  {
    var t := GetTicket(db, ticketId, auth);
    if t.Ok? {
      OtherOverridesIrrelevant(db.sources, reg, reg', SlaFirstResponse, t.value.accountId, DayOf(now));
    }
  }

  /** The second lookup, of the ticket's account, is never refused once the ticket was seen. */
  lemma SecondLookupNotRefused(db: Database, reg: Registry, lex: Lexicon, ticketId: string, auth: Auth, now: int)
    requires GetTicket(db, ticketId, auth).Ok?
    ensures CalculateSla(db, reg, lex, ticketId, auth, now) != Err(NotAuthorizedError)
  {
  }

  /** Once ticket and account are read, only policy and document tables matter. */
  lemma SlaForReadsPoliciesOnly(db: Database, db': Database, reg: Registry, lex: Lexicon,
                                t: Ticket, a: Account, now: int)
    requires db.sources == db'.sources && db.targets == db'.targets && db.chunks == db'.chunks
    ensures SlaFor(db, reg, lex, t, a, now) == SlaFor(db', reg, lex, t, a, now)
  {
  }

  lemma SameReadsSameSla(db: Database, db': Database, reg: Registry, lex: Lexicon,
                         id: string, auth: Auth, now: int)
    requires db.sources == db'.sources && db.targets == db'.targets && db.chunks == db'.chunks
    requires GetTicket(db, id, auth) == GetTicket(db', id, auth)
    requires GetTicket(db, id, auth).Ok? ==>
               GetAccount(db, GetTicket(db, id, auth).value.accountId, auth)
               == GetAccount(db', GetTicket(db, id, auth).value.accountId, auth)
    ensures CalculateSla(db, reg, lex, id, auth, now) == CalculateSla(db', reg, lex, id, auth, now)
  {
    var t := GetTicket(db, id, auth);
    if t.Ok? {
      var a := GetAccount(db, t.value.accountId, auth);
      if a.Ok? {
        SlaForReadsPoliciesOnly(db, db', reg, lex, t.value, a.value, now);
      }
    }
  }

  /** The row that governs a ticket: of the governing source, for the severity, and for the account
      or its plan; there is none exactly when no row matches. */
  lemma GoverningExactly(db: Database, reg: Registry, lex: Lexicon, t: Ticket, auth: Auth, now: int)
    requires GetAccount(db, t.accountId, auth).Ok? && Plurality(lex, TicketText(t)).Some?
    requires ResolveApplicability(db.sources, reg, SlaFirstResponse, t.accountId, DayOf(now)).Ok?
    ensures var row := GoverningTarget(db, reg, lex, t, auth, now);
            var a := GetAccount(db, t.accountId, auth).value;
            var s := Plurality(lex, t.subject + " " + t.description).value;
            var source := ResolveApplicability(db.sources, reg, SlaFirstResponse, t.accountId, DayOf(now)).value.winner.sourceId;
            && (row.Some? ==>
                  && row.value in db.targets && row.value.sourceId == source && row.value.severity == s
                  && (row.value.plan == Some(a.plan) || row.value.accountId == Some(a.accountId)))
            && (row.None? ==>
                  forall x :: x in db.targets && x.sourceId == source && x.severity == s ==>
                    x.plan != Some(a.plan) && x.accountId != Some(a.accountId))
  {
    hide Plurality, ResolveApplicability;
    var a := GetAccount(db, t.accountId, auth).value;
    var source := ResolveApplicability(db.sources, reg, SlaFirstResponse, t.accountId, DayOf(now)).value.winner.sourceId;
    AccountRowWins(db.targets, source, a, Plurality(lex, TicketText(t)).value);
  }

  /** An agreement of the ticket's account is in force. */
  ghost predicate InForce(db: Database, reg: Registry, accountId: string, now: int) {
    var v := OverrideFor(reg, SlaFirstResponse, accountId);
    && v.Some? && GetSource(db.sources, v.value.sourceId).Ok?
    && ActiveAt(GetSource(db.sources, v.value.sourceId).value, DayOf(now))
  }

  /** Without a severity, or without a row for it, there is no outcome: the ticket is cited, with
      the definitions if they settle nothing, and a person has to look. */
  lemma NoOutcomeExactly(db: Database, reg: Registry, lex: Lexicon, id: string, auth: Auth, now: int)
    requires CalculateSla(db, reg, lex, id, auth, now).Ok?
    ensures var d := CalculateSla(db, reg, lex, id, auth, now).value;
            var t := GetTicket(db, id, auth).value;
            var s := Plurality(lex, t.subject + " " + t.description);
            && (d.result.None? <==> GoverningTarget(db, reg, lex, t, auth, now) == None)
            && (s == None ==> d.result == None)
            && (d.result.None? ==>
                  d == Decision(None, Uncertain,
                                [CiteStructured("tickets", t.ticketId)]
                                + (if s == None then [CiteDocument(db.chunks, "SRC-01", "2")] else []),
                                [], [], true))
  {
    hide CiteDocument, CiteStructured, Plurality, ResolveApplicability, LookupTarget, Conflicts;
    var t := GetTicket(db, id, auth).value;
    assert GetAccount(db, t.accountId, auth).value.accountId == t.accountId;
  }

  /** Otherwise the outcome says what the governing row says: a clock target has a deadline, the
      ticket's creation plus the row's minutes, and is breached exactly after it; business time has
      neither. The ticket, the definitions and the clause are cited; an agreement that displaces
      the default is a conflict, and one out of force, like a late P1, needs a review. */
  lemma DeadlineExactly(db: Database, reg: Registry, lex: Lexicon, id: string, auth: Auth, now: int)
    requires CalculateSla(db, reg, lex, id, auth, now).Ok?
    requires CalculateSla(db, reg, lex, id, auth, now).value.result.Some?
    ensures var d := CalculateSla(db, reg, lex, id, auth, now).value;
            var t := GetTicket(db, id, auth).value;
            var row := GoverningTarget(db, reg, lex, t, auth, now);
            var a := ResolveApplicability(db.sources, reg, SlaFirstResponse, t.accountId, DayOf(now));
            var r := d.result.value;
            && row.Some? && a.Ok?
            && Plurality(lex, t.subject + " " + t.description) == Some(r.severity)
            && r.sourceId == a.value.winner.sourceId && r.text == row.value.text
            && (row.value.businessCalendar ==>
                  && r.targetMinutes == r.deadline == None && !r.is24x7
                  && r.elapsedMinutes == None && r.breached == None
                  && d.trust == Conditional && d.assumptions == [NO_BUSINESS_CALENDAR])
            && (!row.value.businessCalendar ==>
                  && row.value.minutes.Some? && r.targetMinutes == row.value.minutes && r.is24x7 == row.value.is24x7
                  && var deadline := t.createdAt + 60 * row.value.minutes.value;
                  && r.deadline == Some(deadline) && r.breached == Some(now > deadline)
                  && r.elapsedMinutes == Some((now - deadline) as real / 60.0)
                  && d.trust == Confident && d.assumptions == [])
            && d.evidence == [CiteStructured("tickets", t.ticketId), CiteDocument(db.chunks, "SRC-01", "2"),
                              CiteDocument(db.chunks, r.sourceId, a.value.winner.section)]
            && (d.review <==> a.value.review || (r.severity == P1 && r.breached == Some(true)))
            && d.conflicts == if InForce(db, reg, t.accountId, now) && reg.defaults[SlaFirstResponse].Some?
                                 && reg.defaults[SlaFirstResponse].value.sourceId != ""
                              then [Conflict(r.sourceId, reg.defaults[SlaFirstResponse].value.sourceId, t.accountId, false)]
                              else []
  {
    hide CiteDocument, CiteStructured, Plurality, ResolveApplicability, LookupTarget, Conflicts;
    var t := GetTicket(db, id, auth).value;
    assert GetAccount(db, t.accountId, auth).value.accountId == t.accountId;
    GovernsExactly(db.sources, reg, SlaFirstResponse, t.accountId, DayOf(now));
    var row := GoverningTarget(db, reg, lex, t, auth, now);
    if row.Some? && row.value.minutes.Some? {
      LateExactlyWhen(t, row.value.minutes.value, now);
    }
  }

  /** What fails before a row is looked up fails the calculation. */
  lemma EarlierFailures(db: Database, reg: Registry, lex: Lexicon, id: string, auth: Auth, now: int)
    ensures var d := CalculateSla(db, reg, lex, id, auth, now);
            var ticket := GetTicket(db, id, auth);
            && (ticket.Err? ==> d == Err(ticket.error))
            && (ticket.Ok? ==>
                  var t := ticket.value;
                  var account := GetAccount(db, t.accountId, auth);
                  var a := ResolveApplicability(db.sources, reg, SlaFirstResponse, t.accountId, DayOf(now));
                  && (account.Err? ==> d == Err(account.error))
                  && (account.Ok? && Plurality(lex, TicketText(t)).Some? && a.Err? ==> d == Err(a.error)))
  {
    hide CiteDocument, CiteStructured, Plurality, ResolveApplicability, LookupTarget, Conflicts;
  }

  /** A confident outcome is clock arithmetic on the ticket's creation. */
  lemma ConfidentIsClock(db: Database, reg: Registry, lex: Lexicon, id: string, auth: Auth, now: int)
    requires CalculateSla(db, reg, lex, id, auth, now).Ok?
    requires CalculateSla(db, reg, lex, id, auth, now).value.trust == Confident
    ensures var r := CalculateSla(db, reg, lex, id, auth, now).value.result;
            && GetTicket(db, id, auth).Ok? && r.Some? && r.value.targetMinutes.Some?
            && var elapsed := Elapsed(GetTicket(db, id, auth).value, r.value.targetMinutes.value, now);
            && r.value.elapsedMinutes == Some(elapsed) && r.value.breached == Some(elapsed > 0.0)
  {
  }
}
