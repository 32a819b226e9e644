/** Relational laws of the radar: two databases, two scopes, two instants. */
module RadarLaws {
  import opened Prelude
  import opened Enums
  import opened Ordering
  import opened Records
  import opened Repository
  import opened Applicability
  import opened SeverityVote
  import opened Sla
  import opened Fingerprint
  import opened RadarRules
  import opened KnownIssues
  import opened RadarService
  import Text

  // ---- Non-interference ----

  lemma SlaIgnoresOutOfScope(db: Database, db': Database, auth: Auth, cfg: Config, t: Ticket)
    requires ValidTables(db) && ValidTables(db') && AgreeInScope(db, db', auth)
    requires t in db.tickets && auth.Allows(t.accountId)
    ensures SlaOf(db, auth, cfg, t) == SlaOf(db', auth, cfg, t)
  {
    TicketByKey(db.tickets, t);
    TicketByKey(db'.tickets, t);
    GetAccountIgnoresOutOfScope(db, db', auth, t.accountId);
    SameReadsSameSla(db, db', cfg.reg, cfg.lex, t.ticketId, auth, cfg.now);
  }

  lemma OpenTicketIsInScope(db: Database, auth: Auth, t: Ticket)
    requires t in OpenTickets(db, auth)
    ensures t in db.tickets && auth.Allows(t.accountId) && t.status == Open
  {
    FilterMember((t: Ticket) => TicketWanted(auth, None, Some(Open), t), db.tickets, t);
  }

  lemma SlaRulesIgnoreOutOfScope(db: Database, db': Database, auth: Auth, cfg: Config)
    requires ValidTables(db) && ValidTables(db') && AgreeInScope(db, db', auth)
    ensures Breaches(db, auth, cfg) == Breaches(db', auth, cfg)
    ensures Approaching(db, auth, cfg) == Approaching(db', auth, cfg)
  {
    SearchesIgnoreOutOfScope(db, db', auth, None, None, Some(Open), None);
    var ts := OpenTickets(db, auth);
    forall t | t in ts ensures SlaOf(db, auth, cfg, t) == SlaOf(db', auth, cfg, t) {
      OpenTicketIsInScope(db, auth, t);
      SlaIgnoresOutOfScope(db, db', auth, cfg, t);
    }
    FirstErrAgree((t: Ticket) => SlaOf(db, auth, cfg, t), (t: Ticket) => SlaOf(db', auth, cfg, t), ts);
    FlatMapAgree((t: Ticket) => BreachAlerts(cfg, t, SlaOf(db, auth, cfg, t)),
                 (t: Ticket) => BreachAlerts(cfg, t, SlaOf(db', auth, cfg, t)), ts);
    FlatMapAgree((t: Ticket) => ApproachAlerts(cfg, t, SlaOf(db, auth, cfg, t)),
                 (t: Ticket) => ApproachAlerts(cfg, t, SlaOf(db', auth, cfg, t)), ts);
  }

  lemma RecurringIgnoresOutOfScope(db: Database, db': Database, auth: Auth, cfg: Config)
    requires ValidTables(db) && ValidTables(db') && AgreeInScope(db, db', auth)
    ensures Recurring(db, auth, cfg) == Recurring(db', auth, cfg)
  {
    SearchesIgnoreOutOfScope(db, db', auth, None, None, Some(Open), None);
    var ts := OpenTickets(db, auth);
    forall t | t in ts ensures SlaOf(db, auth, cfg, t) == SlaOf(db', auth, cfg, t) {
      OpenTicketIsInScope(db, auth, t);
      SlaIgnoresOutOfScope(db, db', auth, cfg, t);
    }
    forall t | t in Recent(db, auth, cfg) ensures SlaOf(db, auth, cfg, t) == SlaOf(db', auth, cfg, t) {
      FilterMember((t: Ticket) => t.createdAt >= Cutoff(cfg), ts, t);
    }
    FirstErrAgree((t: Ticket) => SlaOf(db, auth, cfg, t), (t: Ticket) => SlaOf(db', auth, cfg, t),
                  Recent(db, auth, cfg));
    forall s ensures Counted(db, auth, cfg, s) == Counted(db', auth, cfg, s) {
      FilterAgree((t: Ticket) => CountsTowards(cfg, s, t, SlaOf(db, auth, cfg, t)),
                  (t: Ticket) => CountsTowards(cfg, s, t, SlaOf(db', auth, cfg, t)), ts);
    }
  }

  lemma RuleIgnoresOutOfScope(db: Database, db': Database, auth: Auth, cfg: Config, kind: AlertType)
    requires ValidTables(db) && ValidTables(db') && AgreeInScope(db, db', auth)
    ensures Rule(db, auth, cfg, kind) == Rule(db', auth, cfg, kind)
  {
    match kind
    case SlaBreach => SlaRulesIgnoreOutOfScope(db, db', auth, cfg);
    case SlaApproaching => SlaRulesIgnoreOutOfScope(db, db', auth, cfg);
    case RecurringIssue => RecurringIgnoresOutOfScope(db, db', auth, cfg);
    case KnownIssuePattern =>
      SearchesIgnoreOutOfScope(db, db', auth, None, None, None, None);
      FlatMapAgree(
        (i: Issue) => KnownIssueAlerts(db.chunks, cfg, i, Matching(cfg, i, Candidates(db, auth, cfg))),
        (i: Issue) => KnownIssueAlerts(db'.chunks, cfg, i, Matching(cfg, i, Candidates(db', auth, cfg))),
        ActiveIssues(db, cfg));
    case CarrierPattern => SearchesIgnoreOutOfScope(db, db', auth, None, None, None, None);
    case OverduePickup => SearchesIgnoreOutOfScope(db, db', auth, None, Some(Booked), None, None);
  }

  /** Non-interference: whatever the out-of-scope rows are, a scoped caller gets the same
      alerts, counts and ids in the same order, or the same exception. */
  lemma RadarIgnoresOutOfScope(db: Database, db': Database, auth: Auth, cfg: Config,
                               types: Option<seq<AlertType>>)
    requires ValidTables(db) && ValidTables(db') && AgreeInScope(db, db', auth)
    ensures Radar(db, auth, cfg, types) == Radar(db', auth, cfg, types)
  {
    var kinds := Requested(types);
    forall k ensures Rule(db, auth, cfg, k) == Rule(db', auth, cfg, k) {
      RuleIgnoresOutOfScope(db, db', auth, cfg, k);
    }
    FirstErrAgree((k: AlertType) => Rule(db, auth, cfg, k), (k: AlertType) => Rule(db', auth, cfg, k), kinds);
    FlatMapAgree((k: AlertType) => Produced(Rule(db, auth, cfg, k)),
                 (k: AlertType) => Produced(Rule(db', auth, cfg, k)), kinds);
  }

  // ---- Two scopes ----

  ghost predicate Within(narrow: Auth, wide: Auth) {
    forall account :: narrow.Allows(account) ==> wide.Allows(account)
  }

  /** An alert about one record belongs to a scope with the record's account. */
  predicate Visible(auth: Auth, a: Alert) {
    a.accounts != [] && auth.Allows(a.accounts[0])
  }

  lemma NarrowTickets(db: Database, narrow: Auth, wide: Auth, status: Option<TicketStatus>)
    requires Within(narrow, wide)
    ensures Tickets(db, narrow, status) ==
            Filter((t: Ticket) => narrow.Allows(t.accountId), Tickets(db, wide, status))
  {
    FilterTwice((t: Ticket) => narrow.Allows(t.accountId),
                (t: Ticket) => TicketWanted(wide, None, status, t),
                (t: Ticket) => TicketWanted(narrow, None, status, t), db.tickets);
  }

  lemma NarrowOrders(db: Database, narrow: Auth, wide: Auth, status: Option<OrderStatus>)
    requires Within(narrow, wide)
    ensures Orders(db, narrow, status) ==
            Filter((o: Records.Order) => narrow.Allows(o.accountId), Orders(db, wide, status))
  {
    FilterTwice((o: Records.Order) => narrow.Allows(o.accountId),
                (o: Records.Order) => OrderWanted(wide, None, status, None, o),
                (o: Records.Order) => OrderWanted(narrow, None, status, None, o), db.orders);
  }

  /** The deadline of a visible ticket does not depend on how much else the caller sees. */
  lemma SlaSameInEveryScope(db: Database, narrow: Auth, wide: Auth, cfg: Config, t: Ticket)
    requires ValidTables(db) && Within(narrow, wide)
    requires t in db.tickets && narrow.Allows(t.accountId)
    ensures SlaOf(db, narrow, cfg, t) == SlaOf(db, wide, cfg, t)
  {
    TicketByKey(db.tickets, t);
  }

  lemma OpenTicketsNarrow(db: Database, narrow: Auth, wide: Auth, cfg: Config)
    requires ValidTables(db) && Within(narrow, wide)
    ensures forall t :: t in OpenTickets(db, narrow) ==>
              t in OpenTickets(db, wide) && SlaOf(db, narrow, cfg, t) == SlaOf(db, wide, cfg, t)
  {
    NarrowTickets(db, narrow, wide, Some(Open));
    forall t | t in OpenTickets(db, narrow)
      ensures t in OpenTickets(db, wide) && SlaOf(db, narrow, cfg, t) == SlaOf(db, wide, cfg, t)
    {
      OpenTicketIsInScope(db, narrow, t);
      FilterMember((t: Ticket) => narrow.Allows(t.accountId), OpenTickets(db, wide), t);
      SlaSameInEveryScope(db, narrow, wide, cfg, t);
    }
  }

  /** Per-record alerts under a scope are the wider caller's alerts about that scope's records,
      in the same order. */
  lemma PerRecordScopeLaw(db: Database, narrow: Auth, wide: Auth, cfg: Config)
    requires ValidTables(db) && Within(narrow, wide)
    ensures Breaches(db, wide, cfg).Ok? ==>
              Breaches(db, narrow, cfg) ==
                Ok(Filter((a: Alert) => Visible(narrow, a), Breaches(db, wide, cfg).value))
    ensures Approaching(db, wide, cfg).Ok? ==>
              Approaching(db, narrow, cfg) ==
                Ok(Filter((a: Alert) => Visible(narrow, a), Approaching(db, wide, cfg).value))
    ensures OverduePickups(db, narrow, cfg) ==
              Filter((a: Alert) => Visible(narrow, a), OverduePickups(db, wide, cfg))
  {
    NarrowTickets(db, narrow, wide, Some(Open));
    OpenTicketsNarrow(db, narrow, wide, cfg);
    var ts, all := OpenTickets(db, narrow), OpenTickets(db, wide);
    var mine := (t: Ticket) => narrow.Allows(t.accountId);
    var visible := (a: Alert) => Visible(narrow, a);
    var breach := (t: Ticket) => BreachAlerts(cfg, t, SlaOf(db, wide, cfg, t));
    var approach := (t: Ticket) => ApproachAlerts(cfg, t, SlaOf(db, wide, cfg, t));
    FlatMapAgree((t: Ticket) => BreachAlerts(cfg, t, SlaOf(db, narrow, cfg, t)), breach, ts);
    FlatMapAgree((t: Ticket) => ApproachAlerts(cfg, t, SlaOf(db, narrow, cfg, t)), approach, ts);
    FilterFlatMap(breach, mine, visible, all);
    FilterFlatMap(approach, mine, visible, all);
    NarrowOrders(db, narrow, wide, Some(Booked));
    FilterFlatMap((o: Records.Order) => OverdueAlerts(cfg, o),
                  (o: Records.Order) => narrow.Allows(o.accountId), visible, Orders(db, wide, Some(Booked)));
  }

  /** Ids of rows listed in key order are already sorted and distinct. */
  lemma TicketIdsSorted(ts: seq<Ticket>)
    requires Sorted(TicketBefore, ts)
    ensures SortDistinct(Text.Less, Map((t: Ticket) => t.ticketId, ts)) == Map((t: Ticket) => t.ticketId, ts)
  {
    var ids := Map((t: Ticket) => t.ticketId, ts);
    Text.LessStrictTotal();
    assert forall i, j :: 0 <= i < j < |ts| ==> TicketBefore(ts[i], ts[j]);
    SortDistinctSorts(Text.Less, ids);
    SortedUnique(Text.Less, SortDistinct(Text.Less, ids), ids);
  }

  lemma OrderIdsSorted(os: seq<Records.Order>)
    requires Sorted(OrderBefore, os)
    ensures SortDistinct(Text.Less, Map((o: Records.Order) => o.orderId, os))
         == Map((o: Records.Order) => o.orderId, os)
  {
    var ids := Map((o: Records.Order) => o.orderId, os);
    Text.LessStrictTotal();
    assert forall i, j :: 0 <= i < j < |os| ==> OrderBefore(os[i], os[j]);
    SortDistinctSorts(Text.Less, ids);
    SortedUnique(Text.Less, SortDistinct(Text.Less, ids), ids);
  }

  /** No older than the window, counted in days of seconds. */
  predicate InWindow(cfg: Config, at: int) {
    cfg.now - at <= cfg.windowDays * 86400
  }

  /** What makes a ticket count towards a severity: open, in scope, recent, and with a severity
      that is not in doubt. */
  ghost predicate Recurs(db: Database, auth: Auth, cfg: Config, s: Severity, t: Ticket) {
    && t in db.tickets && auth.Allows(t.accountId) && t.status == Open && InWindow(cfg, t.createdAt)
    && var d := CalculateSla(db, cfg.reg, cfg.lex, t.ticketId, auth, cfg.now);
    d.Ok? && d.value.result.Some? && d.value.result.value.severity == s && d.value.trust in {Confident, Conditional}
  }

  lemma CountedExactly(db: Database, auth: Auth, cfg: Config, s: Severity)
    requires ValidTables(db)
    ensures Sorted(TicketBefore, Counted(db, auth, cfg, s))
    ensures forall t :: t in Counted(db, auth, cfg, s) <==> Recurs(db, auth, cfg, s, t)
  {
    hide CalculateSla;
    var open := (t: Ticket) => TicketWanted(auth, None, Some(Open), t);
    var counts := (t: Ticket) => CountsTowards(cfg, s, t, SlaOf(db, auth, cfg, t));
    FilterSorted(TicketBefore, open, db.tickets);
    FilterSorted(TicketBefore, counts, OpenTickets(db, auth));
    forall t ensures t in Counted(db, auth, cfg, s) <==> Recurs(db, auth, cfg, s, t) {
      FilterMember(counts, OpenTickets(db, auth), t);
      FilterMember(open, db.tickets, t);
    }
  }

  lemma RecurringRecords(cfg: Config, s: Severity, ts: seq<Ticket>, a: Alert)
    requires a in RecurringAlerts(cfg, s, ts) && s in {P1, P2} && Sorted(TicketBefore, ts)
    ensures a.subject == (if s == P1 then "P1" else "P2") && a.severity == (if s == P1 then High else Medium)
    ensures a.count == |a.records| == |ts| >= cfg.recurringThreshold
    ensures forall id :: id in a.records <==> exists t :: t in ts && t.ticketId == id
  {
    hide AlertId;
    TicketIdsSorted(ts);
    forall id ensures id in a.records <==> exists t :: t in ts && t.ticketId == id {
      MapMember((t: Ticket) => t.ticketId, ts, id);
    }
  }

  /** A recurring alert is about one of the two urgent severities, and its records are exactly
      the tickets that recur with it. */
  lemma RecurringCountsExactly(db: Database, auth: Auth, cfg: Config, a: Alert) returns (s: Severity)
    requires ValidTables(db) && Recurring(db, auth, cfg).Ok? && a in Recurring(db, auth, cfg).value
    ensures s in {P1, P2} && a.subject == (if s == P1 then "P1" else "P2")
    ensures a.severity == if s == P1 then High else Medium
    ensures a.count == |a.records| >= cfg.recurringThreshold
    ensures forall id :: id in a.records <==>
              exists t: Ticket :: t.ticketId == id && Recurs(db, auth, cfg, s, t)
  {
    hide Recurs, Counted, RecurringAlerts, Sorted;
    s := if a in RecurringAlerts(cfg, P1, Counted(db, auth, cfg, P1)) then P1 else P2;
    CountedExactly(db, auth, cfg, s);
    RecurringRecords(cfg, s, Counted(db, auth, cfg, s), a);
  }

  /** And a severity is alerted on whenever enough tickets recur with it. */
  lemma RecurringAlertedWhenever(db: Database, auth: Auth, cfg: Config, s: Severity)
    requires ValidTables(db) && Recurring(db, auth, cfg).Ok? && s in {P1, P2}
    requires |Counted(db, auth, cfg, s)| >= cfg.recurringThreshold
    ensures exists a :: a in Recurring(db, auth, cfg).value && a.subject == (if s == P1 then "P1" else "P2")
              && a.count == |Counted(db, auth, cfg, s)|
  {
    hide Counted, AlertId;
    var alerts := RecurringAlerts(cfg, s, Counted(db, auth, cfg, s));
    assert alerts[0] in alerts && alerts[0] in Recurring(db, auth, cfg).value;
  }

  /** Seeing more never removes a recurring alert and never lowers its count. */
  lemma WideningKeepsRecurring(db: Database, narrow: Auth, wide: Auth, cfg: Config, a: Alert)
    requires ValidTables(db) && Within(narrow, wide) && Recurring(db, wide, cfg).Ok?
    requires Recurring(db, narrow, cfg).Ok? && a in Recurring(db, narrow, cfg).value
    ensures exists b :: b in Recurring(db, wide, cfg).value
              && b.subject == a.subject && b.severity == a.severity && b.count >= a.count
  {
    hide AlertId, SlaOf, SortDistinct, Filter;
    var s := if a in RecurringAlerts(cfg, P1, Counted(db, narrow, cfg, P1)) then P1 else P2;
    NarrowTickets(db, narrow, wide, Some(Open));
    OpenTicketsNarrow(db, narrow, wide, cfg);
    var counts := (t: Ticket) => CountsTowards(cfg, s, t, SlaOf(db, wide, cfg, t));
    var mine := (t: Ticket) => narrow.Allows(t.accountId);
    FilterAgree((t: Ticket) => CountsTowards(cfg, s, t, SlaOf(db, narrow, cfg, t)), counts,
                OpenTickets(db, narrow));
    FilterTwice(counts, mine, (t: Ticket) => counts(t) && mine(t), OpenTickets(db, wide));
    FilterShrinks((t: Ticket) => counts(t) && mine(t), counts, OpenTickets(db, wide));
    var b := RecurringAlerts(cfg, s, Counted(db, wide, cfg, s))[0];
    assert b in RecurringAlerts(cfg, s, Counted(db, wide, cfg, s));
  }

  /** Whether an exception-free wider run implies an exception-free narrower one. */
  lemma NarrowRunsWhenWideRuns(db: Database, narrow: Auth, wide: Auth, cfg: Config)
    requires ValidTables(db) && Within(narrow, wide) && Recurring(db, wide, cfg).Ok?
    ensures Recurring(db, narrow, cfg).Ok?
  {
    OpenTicketsNarrow(db, narrow, wide, cfg);
    var recent := (t: Ticket) => t.createdAt >= Cutoff(cfg);
    forall t | t in Recent(db, narrow, cfg) ensures SlaOf(db, narrow, cfg, t).Ok? {
      FilterMember(recent, OpenTickets(db, narrow), t);
      FilterMember(recent, OpenTickets(db, wide), t);
    }
  }

  lemma FaultyOrdersNarrow(db: Database, narrow: Auth, wide: Auth, cfg: Config, carrier: string)
    requires Within(narrow, wide)
    ensures |OfCarrier(carrier, FaultyOrders(db, narrow, cfg))| <= |OfCarrier(carrier, FaultyOrders(db, wide, cfg))|
  {
    NarrowOrders(db, narrow, wide, None);
    var all := Orders(db, wide, None);
    var mine := (o: Records.Order) => narrow.Allows(o.accountId);
    var faulty := (o: Records.Order) => CarrierFaulty(cfg, o);
    var his := (o: Records.Order) => o.carrier == carrier;
    var both := (o: Records.Order) => CarrierFaulty(cfg, o) && o.carrier == carrier;
    FilterTwice(his, faulty, both, all);
    FilterTwice(his, faulty, both, Orders(db, narrow, None));
    FilterTwice(both, mine, (o: Records.Order) => both(o) && mine(o), all);
    FilterShrinks((o: Records.Order) => both(o) && mine(o), both, all);
  }

  lemma CarrierHasOrders(os: seq<Records.Order>, carrier: string)
    requires carrier in Carriers(os)
    ensures OfCarrier(carrier, os) != []
  {
    var names := Map((o: Records.Order) => o.carrier, os);
    DedupDistinct(Identity, names);
    var i :| 0 <= i < |os| && names[i] == carrier;
    FilterMember((o: Records.Order) => o.carrier == carrier, os, os[i]);
  }

  /** Carriers that reach the threshold are exactly those alerted on, with the exact number of
      recent in-scope carrier-fault orders. */
  lemma CarrierAlertedExactlyWhen(db: Database, auth: Auth, cfg: Config, carrier: string)
    ensures (exists a :: a in CarrierPatterns(db, auth, cfg) && a.subject == carrier) <==>
              && OfCarrier(carrier, FaultyOrders(db, auth, cfg)) != []
              && |OfCarrier(carrier, FaultyOrders(db, auth, cfg))| >= cfg.carrierThreshold
    ensures forall a :: a in CarrierPatterns(db, auth, cfg) && a.subject == carrier ==>
              a.count == |OfCarrier(carrier, FaultyOrders(db, auth, cfg))|
  {
    var os := FaultyOrders(db, auth, cfg);
    var rule := (carrier: string) => CarrierAlerts(cfg, carrier, OfCarrier(carrier, os));
    forall a | a in CarrierPatterns(db, auth, cfg) && a.subject == carrier
      ensures a.count == |OfCarrier(carrier, os)| >= cfg.carrierThreshold && OfCarrier(carrier, os) != []
    {
      FlatMapMember(rule, Carriers(os), a);
      var c :| c in Carriers(os) && a in rule(c);
      assert c == a.subject;
      CarrierHasOrders(os, c);
    }
    var hers := OfCarrier(carrier, os);
    if hers != [] && |hers| >= cfg.carrierThreshold {
      assert hers[0] in hers;
      FilterMember((o: Records.Order) => o.carrier == carrier, os, hers[0]);
      var names := Map((o: Records.Order) => o.carrier, os);
      MapMember((o: Records.Order) => o.carrier, os, carrier);
      DedupKeepsFirst(Identity, names);
      assert carrier in names && Identity(carrier) in Map(Identity, Carriers(os));
      assert Map(Identity, Carriers(os)) == Carriers(os);
      var a := rule(carrier)[0];
      assert a in rule(carrier) && a.subject == carrier;
      FlatMapMember(rule, Carriers(os), a);
    }
  }

  /** A carrier alert's records are exactly the in-scope orders of that carrier, at fault and
      booked within the window. */
  lemma CarrierCountsExactly(db: Database, auth: Auth, cfg: Config, a: Alert)
    requires ValidTables(db) && a in CarrierPatterns(db, auth, cfg)
    ensures a.count == |a.records| >= cfg.carrierThreshold
    ensures forall id :: id in a.records <==>
              exists o :: o in db.orders && o.orderId == id && auth.Allows(o.accountId)
                && o.carrier == a.subject && o.carrierFault && InWindow(cfg, o.bookedAt)
  {
    hide AlertId, Carriers;
    var all := FaultyOrders(db, auth, cfg);
    var rule := (carrier: string) => CarrierAlerts(cfg, carrier, OfCarrier(carrier, all));
    FlatMapMember(rule, Carriers(all), a);
    var carrier :| carrier in Carriers(all) && a in rule(carrier);
    assert a.subject == carrier;
    OfCarrierExactly(db, auth, cfg, carrier);
    OrderIdsSorted(OfCarrier(carrier, all));
    forall id ensures id in a.records <==> exists o :: o in OfCarrier(carrier, all) && o.orderId == id {
      MapMember((o: Records.Order) => o.orderId, OfCarrier(carrier, all), id);
    }
  }

  lemma OfCarrierExactly(db: Database, auth: Auth, cfg: Config, carrier: string)
    requires ValidTables(db)
    ensures Sorted(OrderBefore, OfCarrier(carrier, FaultyOrders(db, auth, cfg)))
    ensures forall o :: o in OfCarrier(carrier, FaultyOrders(db, auth, cfg)) <==>
              && o in db.orders && auth.Allows(o.accountId) && o.carrier == carrier && o.carrierFault
              && InWindow(cfg, o.bookedAt)
  {
    var seen := (o: Records.Order) => OrderWanted(auth, None, None, None, o);
    var faulty := (o: Records.Order) => CarrierFaulty(cfg, o);
    var hers := (o: Records.Order) => o.carrier == carrier;
    FilterSorted(OrderBefore, seen, db.orders);
    FilterSorted(OrderBefore, faulty, Orders(db, auth, None));
    FilterSorted(OrderBefore, hers, FaultyOrders(db, auth, cfg));
    forall o ensures o in OfCarrier(carrier, FaultyOrders(db, auth, cfg)) <==>
      o in db.orders && auth.Allows(o.accountId) && o.carrier == carrier && o.carrierFault && InWindow(cfg, o.bookedAt)
    {
      FilterMember(hers, FaultyOrders(db, auth, cfg), o);
      FilterMember(faulty, Orders(db, auth, None), o);
      FilterMember(seen, db.orders, o);
    }
  }

  /** Seeing more never removes a carrier alert and never lowers its count. */
  lemma WideningKeepsCarriers(db: Database, narrow: Auth, wide: Auth, cfg: Config, a: Alert)
    requires Within(narrow, wide) && a in CarrierPatterns(db, narrow, cfg)
    ensures exists b :: b in CarrierPatterns(db, wide, cfg) && b.subject == a.subject && b.count >= a.count
  {
    CarrierAlertedExactlyWhen(db, narrow, cfg, a.subject);
    CarrierAlertedExactlyWhen(db, wide, cfg, a.subject);
    FaultyOrdersNarrow(db, narrow, wide, cfg, a.subject);
  }

  lemma MatchingExactly(db: Database, auth: Auth, cfg: Config, i: Issue)
    requires ValidTables(db)
    ensures Sorted(TicketBefore, Matching(cfg, i, Candidates(db, auth, cfg)))
    ensures forall t :: t in Matching(cfg, i, Candidates(db, auth, cfg)) <==>
              && t in db.tickets && auth.Allows(t.accountId) && InWindow(cfg, t.createdAt)
              && SharesVocabulary(cfg.lex, i, t)
  {
    hide SharesVocabulary;
    var seen := (t: Ticket) => TicketWanted(auth, None, None, t);
    var recent := (t: Ticket) => t.createdAt >= Cutoff(cfg);
    var shares := (t: Ticket) => SharesVocabulary(cfg.lex, i, t);
    FilterSorted(TicketBefore, seen, db.tickets);
    FilterSorted(TicketBefore, recent, Tickets(db, auth, None));
    FilterSorted(TicketBefore, shares, Candidates(db, auth, cfg));
    forall t ensures t in Matching(cfg, i, Candidates(db, auth, cfg)) <==>
      t in db.tickets && auth.Allows(t.accountId) && recent(t) && shares(t)
    {
      FilterMember(shares, Candidates(db, auth, cfg), t);
      FilterMember(recent, Tickets(db, auth, None), t);
      FilterMember(seen, db.tickets, t);
    }
  }

  lemma KnownIssueRecords(chunks: seq<Chunk>, cfg: Config, i: Issue, ts: seq<Ticket>, a: Alert)
    requires a in KnownIssueAlerts(chunks, cfg, i, ts) && Sorted(TicketBefore, ts)
    ensures a.subject == i.kiId && a.count == |a.records| >= cfg.knownIssueMinimum
    ensures forall id :: id in a.records <==> exists t :: t in ts && t.ticketId == id
  {
    hide AlertId, CiteDocument;
    TicketIdsSorted(ts);
    forall id ensures id in a.records <==> exists t :: t in ts && t.ticketId == id {
      MapMember((t: Ticket) => t.ticketId, ts, id);
    }
  }

  /** Behind every known-issue alert stands an unresolved issue, and the alert's records are
      exactly the recent in-scope tickets that share enough of its vocabulary. */
  lemma KnownIssueCountsExactly(db: Database, auth: Auth, cfg: Config, a: Alert)
    requires ValidTables(db) && a in KnownIssuePatterns(db, auth, cfg)
    ensures exists i ::
              && i in ParsedIssues(db.chunks, cfg.lex) && !i.resolved && a.subject == i.kiId
              && a.count == |a.records| >= cfg.knownIssueMinimum
              && forall id :: id in a.records <==>
                   exists t :: t in db.tickets && t.ticketId == id && auth.Allows(t.accountId)
                     && InWindow(cfg, t.createdAt) && SharesVocabulary(cfg.lex, i, t)
  {
    hide SharesVocabulary, KnownIssueAlerts, Matching, Candidates, ParsedIssues, Sorted, FlatMap;
    var rule := (i: Issue) =>
      KnownIssueAlerts(db.chunks, cfg, i, Matching(cfg, i, Candidates(db, auth, cfg)));
    FlatMapMember(rule, ActiveIssues(db, cfg), a);
    var i :| i in ActiveIssues(db, cfg) && a in rule(i);
    FilterMember((i: Issue) => !i.resolved, ParsedIssues(db.chunks, cfg.lex), i);
    MatchingExactly(db, auth, cfg, i);
    KnownIssueRecords(db.chunks, cfg, i, Matching(cfg, i, Candidates(db, auth, cfg)), a);
  }

  /** And an unresolved issue is alerted on whenever enough tickets match it, with their number. */
  lemma KnownIssueAlertedWhenever(db: Database, auth: Auth, cfg: Config, i: Issue)
    requires i in ParsedIssues(db.chunks, cfg.lex) && !i.resolved
    requires |Matching(cfg, i, Candidates(db, auth, cfg))| >= cfg.knownIssueMinimum
    ensures exists a :: a in KnownIssuePatterns(db, auth, cfg) && a.subject == i.kiId
              && a.count == |Matching(cfg, i, Candidates(db, auth, cfg))|
  {
    hide Matching, Candidates, ParsedIssues, AlertId, CiteDocument;
    var rule := (i: Issue) =>
      KnownIssueAlerts(db.chunks, cfg, i, Matching(cfg, i, Candidates(db, auth, cfg)));
    FilterMember((i: Issue) => !i.resolved, ParsedIssues(db.chunks, cfg.lex), i);
    var a := rule(i)[0];
    assert a in rule(i);
    FlatMapMember(rule, ActiveIssues(db, cfg), a);
  }

  /** Seeing more never removes a known-issue alert and never lowers its count. */
  lemma WideningKeepsKnownIssues(db: Database, narrow: Auth, wide: Auth, cfg: Config, a: Alert)
    requires Within(narrow, wide) && a in KnownIssuePatterns(db, narrow, cfg)
    ensures exists b :: b in KnownIssuePatterns(db, wide, cfg) && b.subject == a.subject && b.count >= a.count
  {
    hide ActiveIssues, AlertId, SharesVocabulary, CiteDocument, SortDistinct, FlatMap;
    var rule := (i: Issue) =>
      KnownIssueAlerts(db.chunks, cfg, i, Matching(cfg, i, Candidates(db, narrow, cfg)));
    var rule' := (i: Issue) =>
      KnownIssueAlerts(db.chunks, cfg, i, Matching(cfg, i, Candidates(db, wide, cfg)));
    FlatMapMember(rule, ActiveIssues(db, cfg), a);
    var i :| i in ActiveIssues(db, cfg) && a in rule(i);
    NarrowTickets(db, narrow, wide, None);
    var all := Tickets(db, wide, None);
    var mine := (t: Ticket) => narrow.Allows(t.accountId);
    var recent := (t: Ticket) => t.createdAt >= Cutoff(cfg);
    var shares := (t: Ticket) => SharesVocabulary(cfg.lex, i, t);
    var both := (t: Ticket) => recent(t) && shares(t);
    FilterTwice(shares, recent, both, all);
    FilterTwice(shares, recent, both, Tickets(db, narrow, None));
    FilterTwice(both, mine, (t: Ticket) => both(t) && mine(t), all);
    FilterShrinks((t: Ticket) => both(t) && mine(t), both, all);
    assert |rule'(i)| == 1;
    var b := rule'(i)[0];
    assert b in rule'(i);
    FlatMapMember(rule', ActiveIssues(db, cfg), b);
  }

  /** An order is reported overdue exactly when it is in scope, booked, not picked up, and past
      its window. */
  lemma OverdueExactly(db: Database, auth: Auth, cfg: Config, id: string)
    ensures (exists a :: a in OverduePickups(db, auth, cfg) && a.records == [id]) <==>
              exists o :: o in db.orders && o.orderId == id && auth.Allows(o.accountId)
                && o.status == Booked && o.pickupActualAt.None? && o.pickupWindowEnd < cfg.now
  {
    hide AlertId;
    var rule := (o: Records.Order) => OverdueAlerts(cfg, o);
    var seen := (o: Records.Order) => OrderWanted(auth, None, Some(Booked), None, o);
    if a :| a in OverduePickups(db, auth, cfg) && a.records == [id] {
      FlatMapMember(rule, Orders(db, auth, Some(Booked)), a);
      var o :| o in Orders(db, auth, Some(Booked)) && a in rule(o);
      FilterMember(seen, db.orders, o);
      assert a.records[0] == o.orderId;
    }
    if o :| o in db.orders && o.orderId == id && auth.Allows(o.accountId)
            && o.status == Booked && o.pickupActualAt.None? && o.pickupWindowEnd < cfg.now
    {
      FilterMember(seen, db.orders, o);
      var a := rule(o)[0];
      assert a in rule(o);
      FlatMapMember(rule, Orders(db, auth, Some(Booked)), a);
    }
  }

  /** The order is in scope, booked, not picked up, and past its window. */
  ghost predicate IsLate(db: Database, auth: Auth, cfg: Config, o: Records.Order) {
    && o in db.orders && auth.Allows(o.accountId)
    && o.status == Booked && o.pickupActualAt.None? && o.pickupWindowEnd < cfg.now
  }

  /** Some overdue alert is about this order. */
  ghost predicate Reported(db: Database, auth: Auth, cfg: Config, o: Records.Order) {
    o in db.orders && exists a :: a in OverduePickups(db, auth, cfg) && a.records == [o.orderId]
  }

  lemma ReportedExactly(db: Database, auth: Auth, cfg: Config, o: Records.Order)
    requires ValidTables(db)
    ensures Reported(db, auth, cfg, o) <==> IsLate(db, auth, cfg, o)
  {
    hide OverduePickups;
    OverdueExactly(db, auth, cfg, o.orderId);
    if Reported(db, auth, cfg, o) {
      var p :| p in db.orders && p.orderId == o.orderId && auth.Allows(p.accountId)
               && p.status == Booked && p.pickupActualAt.None? && p.pickupWindowEnd < cfg.now;
      OrderByKey(db.orders, p);
      OrderByKey(db.orders, o);
    }
  }

  /** The rule is described as reporting orders with no cancellation. It keeps to that on exactly
      those inputs where no late order has a cancellation requested. */
  lemma OverdueDescriptionHoldsExactlyWhen(db: Database, auth: Auth, cfg: Config)
    requires ValidTables(db)
    ensures (forall o :: Reported(db, auth, cfg, o) ==> o.cancellationRequestedAt.None?) <==>
            !exists o :: IsLate(db, auth, cfg, o) && o.cancellationRequestedAt.Some?
  {
    hide Reported, IsLate;
    forall o ensures Reported(db, auth, cfg, o) <==> IsLate(db, auth, cfg, o) {
      ReportedExactly(db, auth, cfg, o);
    }
  }

  /** And there are other inputs: one booked order, cancelled before its window ended. */
  lemma CancelledOrderReported()
    returns (db: Database, auth: Auth, cfg: Config, o: Records.Order)
    ensures ValidTables(db) && Reported(db, auth, cfg, o) && o.cancellationRequestedAt.Some?
  {
    o := Records.Order("ORD-1", "A", "carrier", Booked, 0, 100, 200, None, 10.0, false, false, Some(50), "");
    db, auth := Database([], [o], [], [], [], []), Auth(SupportAgent, None);
    cfg := Config(Registry([], map[]), Lexicon([], [], [], text => {}), key => key, DEFAULT_WARNING_RATIO,
                  DEFAULT_RECURRING_THRESHOLD, DEFAULT_CARRIER_THRESHOLD, DEFAULT_KNOWN_ISSUE_MINIMUM,
                  30, "30d", 300);
    assert IsLate(db, auth, cfg, o);
    ReportedExactly(db, auth, cfg, o);
  }

  function Recancelled(requested: Records.Order -> Option<int>, os: seq<Records.Order>): seq<Records.Order> {
    Map((o: Records.Order) => o.(cancellationRequestedAt := requested(o)), os)
  }

  /** The rule never looks at them: whatever cancellations are requested or withdrawn, on however
      many orders, its alerts stay the same. */
  lemma OverdueIgnoresCancellation(db: Database, auth: Auth, cfg: Config, requested: Records.Order -> Option<int>)
    ensures OverduePickups(db.(orders := Recancelled(requested, db.orders)), auth, cfg)
         == OverduePickups(db, auth, cfg)
  {
    FlatMapUnchanged((o: Records.Order) => OverdueAlerts(cfg, o),
                     (o: Records.Order) => OrderWanted(auth, None, Some(Booked), None, o),
                     (o: Records.Order) => o.(cancellationRequestedAt := requested(o)), db.orders);
  }

  // ---- Two instants ----

  datatype Stage = Quiet | Warned | Late

  /** Where a ticket stands against a clock target of `minutes`: late strictly after the
      deadline, warned from the moment the warning share of the window is all that is left. */
  function StageAt(t: Ticket, minutes: int, ratio: real, now: int): Stage {
    StageWithin(t.createdAt + minutes * 60, minutes as real * ratio, now)
  }

  /** The same, by deadline and by how many minutes before it the warning begins. */
  function StageWithin(deadline: int, share: real, now: int): Stage {
    if now > deadline then Late
    else if now as real >= deadline as real - 60.0 * share then Warned
    else Quiet
  }

  function StageRank(s: Stage): nat {
    match s case Quiet => 0 case Warned => 1 case Late => 2
  }

  /** The two rules report exactly the stage. */
  lemma AlertsTellTheStage(db: Database, auth: Auth, cfg: Config, t: Ticket)
    requires ValidTables(db) && t in OpenTickets(db, auth)
    requires Alertable(SlaOf(db, auth, cfg, t)).Some?
    ensures var d := SlaOf(db, auth, cfg, t);
            var o := Alertable(d).value;
            && o.targetMinutes.Some?
            && var stage := StageAt(t, o.targetMinutes.value, cfg.ratio, cfg.now);
            && (BreachAlerts(cfg, t, d) != [] <==> stage == Late)
            && (ApproachAlerts(cfg, t, d) != [] <==> stage == Warned)
  {
    OpenTicketIsInScope(db, auth, t);
    TicketByKey(db.tickets, t);
    ConfidentIsClock(db, cfg.reg, cfg.lex, t.ticketId, auth, cfg.now);
    ClockTellsTheStage(cfg, t, SlaOf(db, auth, cfg, t));
  }

  lemma ClockTellsTheStage(cfg: Config, t: Ticket, d: Result<Decision<SlaOutcome>, Exn>)
    requires Alertable(d).Some? && Alertable(d).value.targetMinutes.Some?
    requires var o := Alertable(d).value;
             var elapsed := Elapsed(t, o.targetMinutes.value, cfg.now);
             o.elapsedMinutes == Some(elapsed) && o.breached == Some(elapsed > 0.0)
    ensures var stage := StageAt(t, Alertable(d).value.targetMinutes.value, cfg.ratio, cfg.now);
            && (BreachAlerts(cfg, t, d) != [] <==> stage == Late)
            && (ApproachAlerts(cfg, t, d) != [] <==> stage == Warned)
  {
    var minutes := Alertable(d).value.targetMinutes.value;
    ElapsedInSeconds(t, minutes, cfg.now, minutes as real * cfg.ratio);
  }

  lemma ElapsedInSeconds(t: Ticket, minutes: int, now: int, share: real)
    ensures Elapsed(t, minutes, now) > 0.0 <==> now > t.createdAt + minutes * 60
    ensures -Elapsed(t, minutes, now) <= share <==>
              now as real >= (t.createdAt + minutes * 60) as real - 60.0 * share
  {
    var past := now - (t.createdAt + minutes * 60);
    assert past as real / 60.0 * 60.0 == past as real;
  }

  /** Time moves a ticket from quiet to warned to late and never back. */
  lemma StageOnlyAdvances(t: Ticket, minutes: int, ratio: real, now: int, later: int)
    requires now <= later
    ensures StageRank(StageAt(t, minutes, ratio, now)) <= StageRank(StageAt(t, minutes, ratio, later))
  {
  }

  /** All three stages occur, in this order, for a ratio of at least 0 and below 1 and a target of
      at least a minute: quiet at creation, warned at the deadline, late a second after it. */
  lemma EveryStageOccurs(t: Ticket, minutes: int, ratio: real)
    requires minutes >= 1 && 0.0 <= ratio < 1.0
    ensures StageAt(t, minutes, ratio, t.createdAt) == Quiet
    ensures StageAt(t, minutes, ratio, t.createdAt + minutes * 60) == Warned
    ensures StageAt(t, minutes, ratio, t.createdAt + minutes * 60 + 1) == Late
  {
    ShareOfWindow(minutes as real, ratio);
    StagesInTurn(t.createdAt, minutes, minutes as real * ratio);
  }

  lemma StagesInTurn(created: int, minutes: int, share: real)
    requires 0.0 <= share < minutes as real
    ensures StageWithin(created + minutes * 60, share, created) == Quiet
    ensures StageWithin(created + minutes * 60, share, created + minutes * 60) == Warned
    ensures StageWithin(created + minutes * 60, share, created + minutes * 60 + 1) == Late
  {
    assert (created + minutes * 60) as real == created as real + 60.0 * minutes as real;
  }

  lemma ShareOfWindow(window: real, ratio: real)
    requires window > 0.0 && 0.0 <= ratio < 1.0
    ensures 0.0 <= window * ratio < window
  {
  }

  /** The alerts themselves never go back: with the same winning target, a breach stays a breach
      and an approaching ticket stays approaching or becomes a breach. */
  lemma AlertsNeverGoBack(db: Database, auth: Auth, cfg: Config, later: int, t: Ticket)
    requires ValidTables(db) && t in OpenTickets(db, auth) && cfg.now <= later
    requires var d := SlaOf(db, auth, cfg, t);
             var d' := SlaOf(db, auth, cfg.(now := later), t);
             && Alertable(d).Some? && Alertable(d').Some?
             && Alertable(d).value.targetMinutes == Alertable(d').value.targetMinutes
    ensures var d := SlaOf(db, auth, cfg, t);
            var d' := SlaOf(db, auth, cfg.(now := later), t);
            && (BreachAlerts(cfg, t, d) != [] ==> BreachAlerts(cfg.(now := later), t, d') != [])
            && (ApproachAlerts(cfg, t, d) != [] ==>
                  || ApproachAlerts(cfg.(now := later), t, d') != []
                  || BreachAlerts(cfg.(now := later), t, d') != [])
  {
    AlertsTellTheStage(db, auth, cfg, t);
    AlertsTellTheStage(db, auth, cfg.(now := later), t);
    StageOnlyAdvances(t, Alertable(SlaOf(db, auth, cfg, t)).value.targetMinutes.value, cfg.ratio, cfg.now, later);
  }

  /** No ticket is in both lists. */
  lemma NeverBothLists(db: Database, auth: Auth, cfg: Config, a: Alert, b: Alert)
    requires Breaches(db, auth, cfg).Ok? && a in Breaches(db, auth, cfg).value
    requires Approaching(db, auth, cfg).Ok? && b in Approaching(db, auth, cfg).value
    ensures a.subject != b.subject
  {
    var breach := (t: Ticket) => BreachAlerts(cfg, t, SlaOf(db, auth, cfg, t));
    var approach := (t: Ticket) => ApproachAlerts(cfg, t, SlaOf(db, auth, cfg, t));
    FlatMapMember(breach, OpenTickets(db, auth), a);
    FlatMapMember(approach, OpenTickets(db, auth), b);
    var t :| t in OpenTickets(db, auth) && a in breach(t);
    var u :| u in OpenTickets(db, auth) && b in approach(u);
    assert t.ticketId == u.ticketId ==> SlaOf(db, auth, cfg, t) == SlaOf(db, auth, cfg, u);
  }
}
