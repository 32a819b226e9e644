/** What each rule of the radar reports, in terms of the stored rows. */
module RadarExact {
  import opened Prelude
  import opened Enums
  import opened Ordering
  import opened Records
  import opened Repository
  import opened SeverityVote
  import opened Sla
  import opened Fingerprint
  import opened RadarRules
  import opened KnownIssues
  import opened RadarService
  import opened RadarLaws
  import Text

  /** An open ticket in the caller's scope. */
  ghost predicate IsOpen(db: Database, auth: Auth, t: Ticket) {
    t in db.tickets && auth.Allows(t.accountId) && t.status == Open
  }

  lemma OpenTicketsExactly(db: Database, auth: Auth)
    requires ValidTables(db)
    ensures Sorted(TicketBefore, OpenTickets(db, auth))
    ensures forall t :: t in OpenTickets(db, auth) <==> IsOpen(db, auth, t)
  {
    TicketSearchExactly(db, auth, None, Some(Open));
  }

  /** The calculation settles an urgent severity on a clock target. */
  ghost predicate SettlesUrgent(d: Result<Decision<SlaOutcome>, Exn>) {
    && d.Ok? && d.value.trust == Confident && d.value.result.Some?
    && d.value.result.value.severity in {P1, P2}
  }

  /** The alert a rule about one ticket gives. */
  ghost predicate IsTicketAlert(a: Alert, cfg: Config, kind: AlertType, severity: AlertSeverity, t: Ticket,
                                evidence: seq<EvidenceRef>) {
    && a.kind == kind && a.severity == severity && a.subject == t.ticketId
    && a.id == AlertId(cfg.digest, kind, "point-in-time", VERSION, [t.ticketId])
    && a.count == a.threshold == 1 && a.window == "point-in-time"
    && a.records == [t.ticketId] && a.accounts == [t.accountId] && a.trust == Confident
    && a.evidence == [CiteStructured("tickets", t.ticketId, Some(t.subject))] + evidence
  }

  /** A breach is reported exactly for an open ticket in scope whose deadline is settled, for P1 or
      P2, and past: CRITICAL for P1 and HIGH for P2. */
  lemma BreachesExactly(db: Database, auth: Auth, cfg: Config, a: Alert)
    requires ValidTables(db) && Breaches(db, auth, cfg).Ok?
    ensures a in Breaches(db, auth, cfg).value <==>
              exists t ::
                && IsOpen(db, auth, t)
                && var d := CalculateSla(db, cfg.reg, cfg.lex, t.ticketId, auth, cfg.now);
                && SettlesUrgent(d) && d.value.result.value.breached == Some(true)
                && IsTicketAlert(a, cfg, SlaBreach, if d.value.result.value.severity == P1 then Critical else High,
                                 t, d.value.evidence)
  {
    hide AlertId, CalculateSla;
    var rule := (t: Ticket) => BreachAlerts(cfg, t, SlaOf(db, auth, cfg, t));
    OpenTicketsExactly(db, auth);
    FlatMapMember(rule, OpenTickets(db, auth), a);
    forall t ensures a in rule(t) <==>
        && var d := CalculateSla(db, cfg.reg, cfg.lex, t.ticketId, auth, cfg.now);
        && SettlesUrgent(d) && d.value.result.value.breached == Some(true)
        && IsTicketAlert(a, cfg, SlaBreach, if d.value.result.value.severity == P1 then Critical else High,
                         t, d.value.evidence)
    {
      UrgentIsAlertable(CalculateSla(db, cfg.reg, cfg.lex, t.ticketId, auth, cfg.now));
    }
  }

  lemma UrgentIsAlertable(d: Result<Decision<SlaOutcome>, Exn>)
    ensures Alertable(d).Some? <==> SettlesUrgent(d)
    ensures SettlesUrgent(d) ==> Alertable(d) == d.value.result
  {
    if d.Ok? && d.value.result.Some? {
      var s := d.value.result.value.severity;
      assert s == P1 || s == P2 || s == P3;
    }
  }

  /** A ticket is reported as approaching exactly when it is not late and no more than the warning
      share of its window is left: HIGH for P1 and MEDIUM for P2. */
  lemma ApproachingExactly(db: Database, auth: Auth, cfg: Config, a: Alert)
    requires ValidTables(db) && Approaching(db, auth, cfg).Ok?
    ensures a in Approaching(db, auth, cfg).value <==>
              exists t ::
                && IsOpen(db, auth, t)
                && var d := CalculateSla(db, cfg.reg, cfg.lex, t.ticketId, auth, cfg.now);
                && IsNear(cfg.ratio, d)
                && IsTicketAlert(a, cfg, SlaApproaching,
                                 if d.value.result.value.severity == P1 then High else Medium, t, d.value.evidence)
  {
    hide AlertId, CalculateSla, ApproachAlerts, IsTicketAlert;
    var rule := (t: Ticket) => ApproachAlerts(cfg, t, SlaOf(db, auth, cfg, t));
    OpenTicketsExactly(db, auth);
    FlatMapMember(rule, OpenTickets(db, auth), a);
    forall t | IsOpen(db, auth, t)
      ensures a in rule(t) <==>
                var d := CalculateSla(db, cfg.reg, cfg.lex, t.ticketId, auth, cfg.now);
                IsNear(cfg.ratio, d) && IsTicketAlert(a, cfg, SlaApproaching,
                  if d.value.result.value.severity == P1 then High else Medium, t, d.value.evidence)
    {
      UrgentHasBreach(db, auth, cfg, t);
      NearAlert(cfg, t, SlaOf(db, auth, cfg, t), a);
    }
  }

  /** No more than the warning share of a settled window is left, and it is not over. */
  ghost predicate IsNear(ratio: real, d: Result<Decision<SlaOutcome>, Exn>) {
    && SettlesUrgent(d)
    && var r := d.value.result.value;
    && r.breached == Some(false) && r.targetMinutes.Some? && r.elapsedMinutes.Some?
    && -r.elapsedMinutes.value <= r.targetMinutes.value as real * ratio
  }

  lemma NearAlert(cfg: Config, t: Ticket, d: Result<Decision<SlaOutcome>, Exn>, a: Alert)
    requires SettlesUrgent(d) ==> d.value.result.value.breached.Some?
    ensures a in ApproachAlerts(cfg, t, d) <==>
              IsNear(cfg.ratio, d) && IsTicketAlert(a, cfg, SlaApproaching,
                if d.value.result.value.severity == P1 then High else Medium, t, d.value.evidence)
  {
    hide AlertId, CiteStructured;
    UrgentIsAlertable(d);
    if SettlesUrgent(d) {
      var r := d.value.result.value;
      assert r.breached == Some(if r.breached.value then true else false);
    }
    assert IsApproaching(cfg.ratio, d) <==> IsNear(cfg.ratio, d);
  }

  lemma UrgentHasBreach(db: Database, auth: Auth, cfg: Config, t: Ticket)
    ensures var d := CalculateSla(db, cfg.reg, cfg.lex, t.ticketId, auth, cfg.now);
            SettlesUrgent(d) ==> d.value.result.value.breached.Some?
  {
    var d := CalculateSla(db, cfg.reg, cfg.lex, t.ticketId, auth, cfg.now);
    if d.Ok? {
      TrustExactly(db, cfg.reg, cfg.lex, t.ticketId, auth, cfg.now);
    }
  }

  /** The two rules fail with the first calculation that fails, and otherwise run. */
  lemma SlaRulesFailExactly(db: Database, auth: Auth, cfg: Config, i: nat)
    requires var ts := OpenTickets(db, auth);
             && i <= |ts|
             && (forall j :: 0 <= j < i ==> CalculateSla(db, cfg.reg, cfg.lex, ts[j].ticketId, auth, cfg.now).Ok?)
             && (i < |ts| ==> CalculateSla(db, cfg.reg, cfg.lex, ts[i].ticketId, auth, cfg.now).Err?)
    ensures var ts := OpenTickets(db, auth);
            && (i == |ts| ==> Breaches(db, auth, cfg).Ok? && Approaching(db, auth, cfg).Ok?)
            && (i < |ts| ==>
                  var failure := CalculateSla(db, cfg.reg, cfg.lex, ts[i].ticketId, auth, cfg.now).error;
                  Breaches(db, auth, cfg) == Err(failure) && Approaching(db, auth, cfg) == Err(failure))
  {
    hide CalculateSla;
    FirstErrIs((t: Ticket) => SlaOf(db, auth, cfg, t), OpenTickets(db, auth), i);
  }

  /** So does the recurring rule, but only tickets within the window are calculated. */
  lemma RecurringFailsExactly(db: Database, auth: Auth, cfg: Config)
    requires ValidTables(db)
    ensures Recurring(db, auth, cfg).Ok? <==>
              forall t :: IsOpen(db, auth, t) && InWindow(cfg, t.createdAt) ==>
                CalculateSla(db, cfg.reg, cfg.lex, t.ticketId, auth, cfg.now).Ok?
  {
    hide CalculateSla;
    OpenTicketsExactly(db, auth);
    var recent := (t: Ticket) => t.createdAt >= Cutoff(cfg);
    forall t ensures t in Recent(db, auth, cfg) <==> IsOpen(db, auth, t) && InWindow(cfg, t.createdAt) {
      FilterMember(recent, OpenTickets(db, auth), t);
    }
    var sla := (t: Ticket) => SlaOf(db, auth, cfg, t);
    if Recurring(db, auth, cfg).Ok? {
      assert FirstErr(sla, Recent(db, auth, cfg)) == None;
    }
  }

  /** An overdue pickup is reported exactly for a booked order in scope without a pickup and past
      its window: HIGH when the carrier is at fault, MEDIUM otherwise. */
  lemma OverdueAlertsExactly(db: Database, auth: Auth, cfg: Config, a: Alert)
    requires ValidTables(db)
    ensures a in OverduePickups(db, auth, cfg) <==>
              exists o ::
                && o in db.orders && auth.Allows(o.accountId) && o.status == Booked
                && o.pickupActualAt == None && o.pickupWindowEnd < cfg.now
                && a == Alert(AlertId(cfg.digest, OverduePickup, "point-in-time", VERSION, [o.orderId]), OverduePickup,
                              if o.carrierFault then High else Medium, o.orderId, 1, 1, "point-in-time",
                              [o.orderId], [o.accountId], [CiteStructured("orders", o.orderId)], Confident)
  {
    hide AlertId, CiteStructured;
    OrderSearchExactly(db, auth, None, Some(Booked), None);
    FlatMapMember((o: Records.Order) => OverdueAlerts(cfg, o), Orders(db, auth, Some(Booked)), a);
  }

  /** The rest of what an aggregate says; its records are characterised rule by rule. */
  ghost predicate SaysAggregate(cfg: Config, a: Alert, kind: AlertType, table: string) {
    && a.kind == kind && a.window == cfg.windowName && a.trust == Confident
    && |a.evidence| == |a.records|
    && forall i :: 0 <= i < |a.records| ==> a.evidence[i] == CiteStructured(table, a.records[i])
  }

  lemma RecurringSays(db: Database, auth: Auth, cfg: Config, a: Alert)
    requires Recurring(db, auth, cfg).Ok? && a in Recurring(db, auth, cfg).value
    ensures SaysAggregate(cfg, a, RecurringIssue, "tickets")
  {
    hide AlertId, SlaOf, Counted, SortDistinct, CiteStructured;
  }

  lemma CarrierSays(db: Database, auth: Auth, cfg: Config, a: Alert)
    requires a in CarrierPatterns(db, auth, cfg)
    ensures SaysAggregate(cfg, a, CarrierPattern, "orders") && a.severity == Medium
  {
    hide AlertId, FaultyOrders, Carriers, OfCarrier, SortDistinct, CiteStructured;
    var os := FaultyOrders(db, auth, cfg);
    FlatMapMember((carrier: string) => CarrierAlerts(cfg, carrier, OfCarrier(carrier, os)), Carriers(os), a);
  }

  /** A known-issue alert cites the document of its issue first. */
  lemma KnownIssueSays(db: Database, auth: Auth, cfg: Config, a: Alert)
    requires a in KnownIssuePatterns(db, auth, cfg)
    ensures a.kind == KnownIssuePattern && a.window == cfg.windowName && a.trust == Confident && a.severity == Medium
    ensures exists i :: i in ActiveIssues(db, cfg) && a.evidence != [] && a.subject == i.kiId
              && a.evidence[0] == CiteDocument(db.chunks, i.sourceId, i.section, Some(i.kiId))
  {
    hide AlertId, ActiveIssues, Candidates, Matching, SortDistinct, CiteStructured, CiteDocument;
    var rule := (i: Issue) => KnownIssueAlerts(db.chunks, cfg, i, Matching(cfg, i, Candidates(db, auth, cfg)));
    FlatMapMember(rule, ActiveIssues(db, cfg), a);
  }

  /** A ticket shares an issue's vocabulary when two significant words of its text are words of the
      issue's piece. */
  lemma SharesExactly(lex: Lexicon, i: Issue, t: Ticket)
    ensures SharesVocabulary(lex, i, t) <==> |lex.tokens(t.subject + " " + t.description) * i.tokens| >= 2
  {
  }

  // ---- The run ----

  ghost predicate IsFirstFailure(db: Database, auth: Auth, cfg: Config, kinds: seq<AlertType>, i: nat)
    requires i < |kinds|
  {
    Rule(db, auth, cfg, kinds[i]).Err? && forall j :: 0 <= j < i ==> Rule(db, auth, cfg, kinds[j]).Ok?
  }

  /** A restricted caller is refused, whatever is stored and asked for; every other caller gets a
      list exactly when every requested rule gives one, and otherwise the first failure. */
  lemma RadarRunsExactlyWhen(db: Database, auth: Auth, cfg: Config, types: Option<seq<AlertType>>)
    ensures auth.role == RestrictedSupport ==> Radar(db, auth, cfg, types) == Err(NotAuthorizedError)
    ensures auth.role != RestrictedSupport ==>
              (Radar(db, auth, cfg, types).Ok? <==> forall k :: k in Requested(types) ==> Rule(db, auth, cfg, k).Ok?)
    ensures auth.role != RestrictedSupport ==>
              forall i :: 0 <= i < |Requested(types)| && IsFirstFailure(db, auth, cfg, Requested(types), i) ==>
                Radar(db, auth, cfg, types) == Err(Rule(db, auth, cfg, Requested(types)[i]).error)
  {
    hide Rule, Canonical;
    var kinds, run := Requested(types), (k: AlertType) => Rule(db, auth, cfg, k);
    forall i | 0 <= i < |kinds| && IsFirstFailure(db, auth, cfg, kinds, i)
      ensures FirstErr(run, kinds) == Some(run(kinds[i]).error)
    {
      FirstErrIs(run, kinds, i);
    }
  }

  /** No list and the empty list request all six types; any other list requests what it names. */
  lemma RequestedExactly(types: Option<seq<AlertType>>)
    ensures types == None || types == Some([]) ==> forall k :: k in Requested(types)
    ensures types.Some? && types.value != [] ==> Requested(types) == types.value
  {
    forall k ensures k in ALL_RULES {
      assert k == ALL_RULES[0] || k == ALL_RULES[1] || k == ALL_RULES[2] || k == ALL_RULES[3] || k == ALL_RULES[4]
          || k == ALL_RULES[5];
    }
  }

  /** How urgent an alert is, from the top. */
  predicate MoreUrgent(s: AlertSeverity, s': AlertSeverity) {
    || (s == Critical && s' in {High, Medium, Low})
    || (s == High && s' in {Medium, Low})
    || (s == Medium && s' == Low)
  }

  /** The most severe alerts come first, and among equals the smaller id. */
  lemma RadarOrder(db: Database, auth: Auth, cfg: Config, types: Option<seq<AlertType>>, i: nat, j: nat)
    requires Radar(db, auth, cfg, types).Ok? && i < j < |Radar(db, auth, cfg, types).value|
    ensures var r := Radar(db, auth, cfg, types).value;
            || MoreUrgent(r[i].severity, r[j].severity)
            || (r[i].severity == r[j].severity && Text.Less(r[i].id, r[j].id))
  {
    hide Radar;
    RadarSorted(db, auth, cfg, types);
  }
}
