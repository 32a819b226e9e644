/** What every single alert of the radar is worth to its reader. */
module RadarAlerts {
  import opened Prelude
  import opened Enums
  import opened Ordering
  import opened Records
  import opened Repository
  import opened Sla
  import opened Fingerprint
  import opened RadarRules
  import opened KnownIssues
  import opened RadarService
  import opened RadarLaws
  import Text

  predicate AboutOrders(kind: AlertType) {
    kind in {CarrierPattern, OverduePickup}
  }

  /** A record with this id, in the table alerts of this type are about, belongs to `owner`. */
  ghost predicate Owned(db: Database, kind: AlertType, id: string, owner: string) {
    if AboutOrders(kind) then exists o :: o in db.orders && o.orderId == id && o.accountId == owner
    else exists t :: t in db.tickets && t.ticketId == id && t.accountId == owner
  }

  /** The alert names exactly the owners of its records, all of them in the caller's scope, and
      cites every record. */
  ghost predicate Accountable(db: Database, auth: Auth, a: Alert) {
    && (forall id :: id in a.records ==> exists owner :: owner in a.accounts && Owned(db, a.kind, id, owner))
    && (forall owner :: owner in a.accounts ==>
          auth.Allows(owner) && exists id :: id in a.records && Owned(db, a.kind, id, owner))
    && (forall id :: id in a.records ==>
          Cites(a.evidence, if AboutOrders(a.kind) then "orders" else "tickets", id))
  }

  /** A citation of this record, with or without a note. */
  ghost predicate Cites(evidence: seq<EvidenceRef>, table: string, id: string) {
    exists note :: CiteStructured(table, id, note) in evidence
  }

  function ThresholdOf(cfg: Config, kind: AlertType): int {
    match kind
    case RecurringIssue => cfg.recurringThreshold
    case CarrierPattern => cfg.carrierThreshold
    case KnownIssuePattern => cfg.knownIssueMinimum
    case _ => 1
  }

  /** Its count is the number of its distinct records and reaches its threshold, and its id is
      the fingerprint of exactly those records (and of the issue, for a known issue). */
  ghost predicate Counted(cfg: Config, a: Alert) {
    && a.count == |a.records| >= a.threshold == ThresholdOf(cfg, a.kind)
    && Sorted(Text.Less, a.records) && Sorted(Text.Less, a.accounts)
    && a.id == AlertId(cfg.digest, a.kind, a.window, VERSION,
                       if a.kind == KnownIssuePattern then [a.subject] + a.records else a.records)
  }

  ghost predicate Sound(db: Database, auth: Auth, cfg: Config, a: Alert) {
    Accountable(db, auth, a) && Counted(cfg, a)
  }

  // ---- Groups of rows ----

  lemma TicketGroup(db: Database, auth: Auth, ts: seq<Ticket>, kind: AlertType)
    requires !AboutOrders(kind)
    requires forall t :: t in ts ==> t in db.tickets && auth.Allows(t.accountId)
    ensures var records := SortDistinct(Text.Less, Map((t: Ticket) => t.ticketId, ts));
            var accounts := SortDistinct(Text.Less, Map((t: Ticket) => t.accountId, ts));
            && Sorted(Text.Less, records) && Sorted(Text.Less, accounts)
            && (forall id :: id in records ==> exists owner :: owner in accounts && Owned(db, kind, id, owner))
            && (forall owner :: owner in accounts ==>
                  auth.Allows(owner) && exists id :: id in records && Owned(db, kind, id, owner))
  {
    var ids, owners := Map((t: Ticket) => t.ticketId, ts), Map((t: Ticket) => t.accountId, ts);
    Text.LessStrictTotal();
    SortDistinctSorts(Text.Less, ids);
    SortDistinctSorts(Text.Less, owners);
    forall id | id in ids ensures exists owner :: owner in owners && Owned(db, kind, id, owner) {
      var i :| 0 <= i < |ts| && ids[i] == id;
      assert ts[i] in ts && owners[i] in owners && Owned(db, kind, id, owners[i]);
    }
    forall owner | owner in owners
      ensures auth.Allows(owner) && exists id :: id in ids && Owned(db, kind, id, owner)
    {
      var i :| 0 <= i < |ts| && owners[i] == owner;
      assert ts[i] in ts && ids[i] in ids && Owned(db, kind, ids[i], owner);
    }
  }

  lemma OrderGroup(db: Database, auth: Auth, os: seq<Records.Order>, kind: AlertType)
    requires AboutOrders(kind)
    requires forall o :: o in os ==> o in db.orders && auth.Allows(o.accountId)
    ensures var records := SortDistinct(Text.Less, Map((o: Records.Order) => o.orderId, os));
            var accounts := SortDistinct(Text.Less, Map((o: Records.Order) => o.accountId, os));
            && Sorted(Text.Less, records) && Sorted(Text.Less, accounts)
            && (forall id :: id in records ==> exists owner :: owner in accounts && Owned(db, kind, id, owner))
            && (forall owner :: owner in accounts ==>
                  auth.Allows(owner) && exists id :: id in records && Owned(db, kind, id, owner))
  {
    var ids, owners := Map((o: Records.Order) => o.orderId, os), Map((o: Records.Order) => o.accountId, os);
    Text.LessStrictTotal();
    SortDistinctSorts(Text.Less, ids);
    SortDistinctSorts(Text.Less, owners);
    forall id | id in ids ensures exists owner :: owner in owners && Owned(db, kind, id, owner) {
      var i :| 0 <= i < |os| && ids[i] == id;
      assert os[i] in os && owners[i] in owners && Owned(db, kind, id, owners[i]);
    }
    forall owner | owner in owners
      ensures auth.Allows(owner) && exists id :: id in ids && Owned(db, kind, id, owner)
    {
      var i :| 0 <= i < |os| && owners[i] == owner;
      assert os[i] in os && ids[i] in ids && Owned(db, kind, ids[i], owner);
    }
  }

  lemma CitesAll(table: string, ids: seq<string>, id: string)
    requires id in ids
    ensures CiteStructured(table, id) in Map((id: string) => CiteStructured(table, id), ids)
  {
    MapMember((id: string) => CiteStructured(table, id), ids, CiteStructured(table, id));
  }

  // ---- Rule by rule ----

  lemma TicketAlertSound(db: Database, auth: Auth, cfg: Config, kind: AlertType, severity: AlertSeverity,
                         t: Ticket, d: Decision<SlaOutcome>)
    requires kind in {SlaBreach, SlaApproaching} && t in db.tickets && auth.Allows(t.accountId)
    ensures Sound(db, auth, cfg, TicketAlert(cfg, kind, severity, t, d))
  {
    hide AlertId;
    assert Owned(db, kind, t.ticketId, t.accountId);
    var a := TicketAlert(cfg, kind, severity, t, d);
    assert a.evidence[0] == CiteStructured("tickets", t.ticketId, Some(t.subject));
  }

  lemma BreachSound(db: Database, auth: Auth, cfg: Config, a: Alert)
    requires Breaches(db, auth, cfg).Ok? && a in Breaches(db, auth, cfg).value
    ensures Sound(db, auth, cfg, a)
  {
    hide Sound, IsBreached, SlaOf;
    var rule := (t: Ticket) => BreachAlerts(cfg, t, SlaOf(db, auth, cfg, t));
    FlatMapMember(rule, OpenTickets(db, auth), a);
    var t :| t in OpenTickets(db, auth) && a in rule(t);
    OpenTicketIsInScope(db, auth, t);
    TicketAlertSound(db, auth, cfg, SlaBreach, a.severity, t, SlaOf(db, auth, cfg, t).value);
  }

  lemma ApproachSound(db: Database, auth: Auth, cfg: Config, a: Alert)
    requires Approaching(db, auth, cfg).Ok? && a in Approaching(db, auth, cfg).value
    ensures Sound(db, auth, cfg, a)
  {
    hide Sound, IsApproaching, SlaOf;
    var rule := (t: Ticket) => ApproachAlerts(cfg, t, SlaOf(db, auth, cfg, t));
    FlatMapMember(rule, OpenTickets(db, auth), a);
    var t :| t in OpenTickets(db, auth) && a in rule(t);
    OpenTicketIsInScope(db, auth, t);
    TicketAlertSound(db, auth, cfg, SlaApproaching, a.severity, t, SlaOf(db, auth, cfg, t).value);
  }

  lemma RecurringAlertSound(db: Database, auth: Auth, cfg: Config, s: Severity, ts: seq<Ticket>, a: Alert)
    requires a in RecurringAlerts(cfg, s, ts) && Sorted(TicketBefore, ts)
    requires forall t :: t in ts ==> t in db.tickets && auth.Allows(t.accountId)
    ensures Sound(db, auth, cfg, a)
  {
    hide AlertId, Owned, SortDistinct, Sorted, CiteStructured;
    TicketGroup(db, auth, ts, RecurringIssue);
    TicketIdsSorted(ts);
    forall id | id in a.records ensures Cites(a.evidence, "tickets", id) {
      CitesAll("tickets", a.records, id);
    }
  }

  lemma RecurringSound(db: Database, auth: Auth, cfg: Config, a: Alert)
    requires ValidTables(db) && Recurring(db, auth, cfg).Ok? && a in Recurring(db, auth, cfg).value
    ensures Sound(db, auth, cfg, a)
  {
    hide Sound, RecurringAlerts, RadarRules.Counted, Recurs;
    var s := if a in RecurringAlerts(cfg, P1, RadarRules.Counted(db, auth, cfg, P1)) then P1 else P2;
    CountedExactly(db, auth, cfg, s);
    assert forall t :: Recurs(db, auth, cfg, s, t) ==> t in db.tickets && auth.Allows(t.accountId) by {
      RecursIsVisible(db, auth, cfg, s);
    }
    RecurringAlertSound(db, auth, cfg, s, RadarRules.Counted(db, auth, cfg, s), a);
  }

  lemma RecursIsVisible(db: Database, auth: Auth, cfg: Config, s: Severity)
    ensures forall t :: Recurs(db, auth, cfg, s, t) ==> t in db.tickets && auth.Allows(t.accountId)
  {
  }

  lemma KnownIssueAlertSound(db: Database, auth: Auth, cfg: Config, i: Issue, ts: seq<Ticket>, a: Alert)
    requires a in KnownIssueAlerts(db.chunks, cfg, i, ts) && Sorted(TicketBefore, ts)
    requires forall t :: t in ts ==> t in db.tickets && auth.Allows(t.accountId)
    ensures Sound(db, auth, cfg, a)
  {
    hide AlertId, Owned, SortDistinct, Sorted, CiteStructured, CiteDocument;
    TicketGroup(db, auth, ts, KnownIssuePattern);
    TicketIdsSorted(ts);
    forall id | id in a.records ensures Cites(a.evidence, "tickets", id) {
      CitesAll("tickets", a.records, id);
    }
  }

  lemma KnownIssueSound(db: Database, auth: Auth, cfg: Config, a: Alert)
    requires ValidTables(db) && a in KnownIssuePatterns(db, auth, cfg)
    ensures Sound(db, auth, cfg, a)
  {
    hide Sound, KnownIssueAlerts, Matching, Candidates, ActiveIssues, SharesVocabulary;
    var rule := (i: Issue) =>
      KnownIssueAlerts(db.chunks, cfg, i, Matching(cfg, i, Candidates(db, auth, cfg)));
    FlatMapMember(rule, ActiveIssues(db, cfg), a);
    var i :| i in ActiveIssues(db, cfg) && a in rule(i);
    MatchingExactly(db, auth, cfg, i);
    KnownIssueAlertSound(db, auth, cfg, i, Matching(cfg, i, Candidates(db, auth, cfg)), a);
  }

  lemma CarrierAlertSound(db: Database, auth: Auth, cfg: Config, carrier: string, os: seq<Records.Order>, a: Alert)
    requires a in CarrierAlerts(cfg, carrier, os) && Sorted(OrderBefore, os)
    requires forall o :: o in os ==> o in db.orders && auth.Allows(o.accountId)
    ensures Sound(db, auth, cfg, a)
  {
    hide AlertId, Owned, SortDistinct, Sorted, CiteStructured;
    OrderGroup(db, auth, os, CarrierPattern);
    OrderIdsSorted(os);
    forall id | id in a.records ensures Cites(a.evidence, "orders", id) {
      CitesAll("orders", a.records, id);
    }
  }

  lemma OrderInScope(db: Database, auth: Auth, status: Option<OrderStatus>, o: Records.Order)
    requires o in Orders(db, auth, status)
    ensures o in db.orders && auth.Allows(o.accountId)
  {
    FilterMember((o: Records.Order) => OrderWanted(auth, None, status, None, o), db.orders, o);
  }

  lemma CarrierSound(db: Database, auth: Auth, cfg: Config, a: Alert)
    requires ValidTables(db) && a in CarrierPatterns(db, auth, cfg)
    ensures Sound(db, auth, cfg, a)
  {
    hide Sound, CarrierAlerts, Carriers;
    var all := FaultyOrders(db, auth, cfg);
    var rule := (carrier: string) => CarrierAlerts(cfg, carrier, OfCarrier(carrier, all));
    FlatMapMember(rule, Carriers(all), a);
    var carrier :| carrier in Carriers(all) && a in rule(carrier);
    OfCarrierExactly(db, auth, cfg, carrier);
    CarrierAlertSound(db, auth, cfg, carrier, OfCarrier(carrier, all), a);
  }

  lemma OverdueSound(db: Database, auth: Auth, cfg: Config, a: Alert)
    requires a in OverduePickups(db, auth, cfg)
    ensures Sound(db, auth, cfg, a)
  {
    hide AlertId;
    var rule := (o: Records.Order) => OverdueAlerts(cfg, o);
    FlatMapMember(rule, Orders(db, auth, Some(Booked)), a);
    var o :| o in Orders(db, auth, Some(Booked)) && a in rule(o);
    OrderInScope(db, auth, Some(Booked), o);
    assert Owned(db, OverduePickup, o.orderId, o.accountId);
  }

  lemma RuleSound(db: Database, auth: Auth, cfg: Config, kind: AlertType, a: Alert)
    requires ValidTables(db) && Rule(db, auth, cfg, kind).Ok? && a in Rule(db, auth, cfg, kind).value
    ensures Sound(db, auth, cfg, a)
  {
    hide Sound;
    match kind
    case SlaBreach => BreachSound(db, auth, cfg, a);
    case SlaApproaching => ApproachSound(db, auth, cfg, a);
    case RecurringIssue => RecurringSound(db, auth, cfg, a);
    case KnownIssuePattern => KnownIssueSound(db, auth, cfg, a);
    case CarrierPattern => CarrierSound(db, auth, cfg, a);
    case OverduePickup => OverdueSound(db, auth, cfg, a);
  }

  /** Whatever was asked for, every alert a caller gets names only accounts in the caller's
      scope, exactly the owners of its records, cites every record, counts them exactly, and is
      identified by them. */
  lemma EveryAlertSound(db: Database, auth: Auth, cfg: Config, types: Option<seq<AlertType>>, a: Alert)
    requires ValidTables(db) && Radar(db, auth, cfg, types).Ok?
    requires a in Radar(db, auth, cfg, types).value
    ensures Sound(db, auth, cfg, a)
  {
    hide Sound, Rule, Canonical;
    var kinds := Requested(types);
    var found := (k: AlertType) => Produced(Rule(db, auth, cfg, k));
    CanonicalKeeps(Gathered(db, auth, cfg, kinds), a);
    FlatMapMember(found, kinds, a);
    var k :| k in kinds && a in found(k);
    RuleSound(db, auth, cfg, k, a);
  }

  lemma CanonicalKeeps(alerts: seq<Alert>, a: Alert)
    requires a in Canonical(alerts)
    ensures a in alerts
  {
    SortedKeysKnown(alerts);
    SeenKeys(alerts);
    var sorted := SortDistinct(KeyLess, SortKeys(alerts));
    var i :| 0 <= i < |sorted| && Canonical(alerts)[i] == a;
    assert sorted[i] in sorted;
  }

  /** Urgency follows severity: P1 ranks before P2 in each SLA rule, and a breach before a
      warning of the same severity. */
  lemma UrgencyOrdered(cfg: Config, t: Ticket, d: Result<Decision<SlaOutcome>, Exn>, t': Ticket,
                       d': Result<Decision<SlaOutcome>, Exn>, a: Alert, b: Alert)
    requires a in BreachAlerts(cfg, t, d) + ApproachAlerts(cfg, t, d)
    requires b in BreachAlerts(cfg, t', d') + ApproachAlerts(cfg, t', d')
    ensures Alertable(d).Some? && Alertable(d').Some?
    ensures a.kind == b.kind ==>
              (SeverityRank(a.severity) < SeverityRank(b.severity) <==>
               Alertable(d).value.severity == P1 && Alertable(d').value.severity == P2)
    ensures a.kind == SlaBreach && b.kind == SlaApproaching
            && Alertable(d).value.severity == Alertable(d').value.severity ==>
              SeverityRank(a.severity) < SeverityRank(b.severity)
  {
    hide AlertId;
  }
}
