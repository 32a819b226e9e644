/** `app/detection/rules.py`: the six detection rules over scope-filtered rows. */
module RadarRules {
  import opened Prelude
  import opened Enums
  import opened Ordering
  import opened Records
  import opened Repository
  import opened Applicability
  import opened SeverityVote
  import opened Sla
  import opened Fingerprint
  import Text

  datatype AlertSeverity = Low | Medium | High | Critical

  /** `subject` is what the title names: a ticket, an order, a severity, an issue, a carrier. */
  datatype Alert = Alert(
    id: string, kind: AlertType, severity: AlertSeverity, subject: string, count: nat, threshold: int,
    window: string, records: seq<string>, accounts: seq<string>,
    evidence: seq<EvidenceRef>, trust: TrustState)

  /** What a rule run takes besides the database and the caller: registries, the text lexicon,
      the digest, the warning ratio, the thresholds, the window, and the snapshot. A radar run
      leaves ratio and thresholds at their defaults; the rules take any. */
  datatype Config = Config(
    reg: Registry, lex: Lexicon, digest: string -> string, ratio: real, recurringThreshold: int,
    carrierThreshold: int, knownIssueMinimum: int, windowDays: nat, windowName: string, now: int)

  const VERSION := "v1"
  const POINT_IN_TIME := "point-in-time"
  const DEFAULT_WARNING_RATIO := 0.25
  const DEFAULT_RECURRING_THRESHOLD := 2
  const DEFAULT_CARRIER_THRESHOLD := 2
  const DEFAULT_KNOWN_ISSUE_MINIMUM := 1
  const MIN_SHARED_TOKENS := 2

  function Cutoff(cfg: Config): int {
    cfg.now - cfg.windowDays * 86400
  }

  function SlaOf(db: Database, auth: Auth, cfg: Config, t: Ticket): Result<Decision<SlaOutcome>, Exn> {
    CalculateSla(db, cfg.reg, cfg.lex, t.ticketId, auth, cfg.now)
  }

  /** A confidently computed outcome of a severity that is alerted on. */
  function Alertable(d: Result<Decision<SlaOutcome>, Exn>): Option<SlaOutcome> {
    if d.Err? || d.value.result.None? || d.value.result.value.severity == P3 || d.value.trust != Confident
    then None else d.value.result
  }

  predicate IsBreached(d: Result<Decision<SlaOutcome>, Exn>) {
    Alertable(d).Some? && Alertable(d).value.breached == Some(true)
  }

  predicate IsApproaching(ratio: real, d: Result<Decision<SlaOutcome>, Exn>) {
    Alertable(d).Some? &&
    var o := Alertable(d).value;
    && o.breached != Some(true) && o.targetMinutes.Some? && o.elapsedMinutes.Some?
    && -o.elapsedMinutes.value <= o.targetMinutes.value as real * ratio
  }

  function TicketAlert(cfg: Config, kind: AlertType, severity: AlertSeverity, t: Ticket,
                       d: Decision<SlaOutcome>): Alert {
    Alert(AlertId(cfg.digest, kind, POINT_IN_TIME, VERSION, [t.ticketId]), kind, severity,
          t.ticketId, 1, 1,
          POINT_IN_TIME, [t.ticketId], [t.accountId],
          [CiteStructured("tickets", t.ticketId, Some(t.subject))] + d.evidence, d.trust)
  }

  function BreachAlerts(cfg: Config, t: Ticket, d: Result<Decision<SlaOutcome>, Exn>): seq<Alert> {
    if IsBreached(d) then
      [TicketAlert(cfg, SlaBreach, if Alertable(d).value.severity == P1 then Critical else High, t, d.value)]
    else []
  }

  function ApproachAlerts(cfg: Config, t: Ticket, d: Result<Decision<SlaOutcome>, Exn>): seq<Alert> {
    if IsApproaching(cfg.ratio, d) then
      [TicketAlert(cfg, SlaApproaching, if Alertable(d).value.severity == P1 then High else Medium, t, d.value)]
    else []
  }

  function OpenTickets(db: Database, auth: Auth): seq<Ticket> {
    Tickets(db, auth, Some(Open))
  }

  /** A rule that looks at each open ticket's deadline: the first failing calculation stops
      it, otherwise the alerts of the tickets in order. */
  function Breaches(db: Database, auth: Auth, cfg: Config): Result<seq<Alert>, Exn> {
    var stop := FirstErr((t: Ticket) => SlaOf(db, auth, cfg, t), OpenTickets(db, auth));
    if stop.Some? then Err(stop.value)
    else Ok(FlatMap((t: Ticket) => BreachAlerts(cfg, t, SlaOf(db, auth, cfg, t)), OpenTickets(db, auth)))
  }

  function Approaching(db: Database, auth: Auth, cfg: Config): Result<seq<Alert>, Exn> {
    var stop := FirstErr((t: Ticket) => SlaOf(db, auth, cfg, t), OpenTickets(db, auth));
    if stop.Some? then Err(stop.value)
    else Ok(FlatMap((t: Ticket) => ApproachAlerts(cfg, t, SlaOf(db, auth, cfg, t)), OpenTickets(db, auth)))
  }

  /** The body of the breach loop, for one ticket. */
  method BreachOf(cfg: Config, t: Ticket, d: Decision<SlaOutcome>) returns (alerts: seq<Alert>)
    ensures alerts == BreachAlerts(cfg, t, Ok(d))
  {
    if d.result.None? || d.result.value.severity !in {P1, P2} {
      return [];
    }
    if d.trust != Confident {
      return [];
    }
    var outcome := d.result.value;
    if outcome.breached != Some(true) {
      return [];
    }
    return [TicketAlert(cfg, SlaBreach, if outcome.severity == P1 then Critical else High, t, d)];
  }

  method ApproachOf(cfg: Config, t: Ticket, d: Decision<SlaOutcome>) returns (alerts: seq<Alert>)
    ensures alerts == ApproachAlerts(cfg, t, Ok(d))
  {
    if d.result.None? || d.result.value.severity !in {P1, P2} {
      return [];
    }
    if d.trust != Confident {
      return [];
    }
    var outcome := d.result.value;
    if outcome.breached == Some(true) || outcome.targetMinutes.None? {
      return [];
    }
    if outcome.elapsedMinutes.None? {
      return [];
    }
    var remaining := -outcome.elapsedMinutes.value;
    if remaining > outcome.targetMinutes.value as real * cfg.ratio {
      return [];
    }
    return [TicketAlert(cfg, SlaApproaching, if outcome.severity == P1 then High else Medium, t, d)];
  }

  method DetectSlaBreaches(db: Database, auth: Auth, cfg: Config) returns (r: Result<seq<Alert>, Exn>)
    ensures r == Breaches(db, auth, cfg)
  {
    var found := SearchTickets(db, auth, None, Some(Open));
    var tickets := found.value;
    assert tickets == OpenTickets(db, auth);
    var sla := (t: Ticket) => SlaOf(db, auth, cfg, t);
    var rule := (t: Ticket) => BreachAlerts(cfg, t, SlaOf(db, auth, cfg, t));
    var alerts: seq<Alert> := [];
    for i := 0 to |tickets|
      invariant FirstErr(sla, tickets[..i]) == None
      invariant alerts == FlatMap(rule, tickets[..i])
    {
      FirstErrStep(sla, tickets, i);
      FlatMapStep(rule, tickets, i);
      var d := sla(tickets[i]);
      if d.Err? {
        return Err(d.error);
      }
      var more := BreachOf(cfg, tickets[i], d.value);
      alerts := alerts + more;
    }
    assert tickets[..|tickets|] == tickets;
    return Ok(alerts);
  }

  method DetectSlaApproaching(db: Database, auth: Auth, cfg: Config) returns (r: Result<seq<Alert>, Exn>)
    ensures r == Approaching(db, auth, cfg)
  {
    var found := SearchTickets(db, auth, None, Some(Open));
    var tickets := found.value;
    assert tickets == OpenTickets(db, auth);
    var sla := (t: Ticket) => SlaOf(db, auth, cfg, t);
    var rule := (t: Ticket) => ApproachAlerts(cfg, t, SlaOf(db, auth, cfg, t));
    var alerts: seq<Alert> := [];
    for i := 0 to |tickets|
      invariant FirstErr(sla, tickets[..i]) == None
      invariant alerts == FlatMap(rule, tickets[..i])
    {
      FirstErrStep(sla, tickets, i);
      FlatMapStep(rule, tickets, i);
      var d := sla(tickets[i]);
      if d.Err? {
        return Err(d.error);
      }
      var more := ApproachOf(cfg, tickets[i], d.value);
      alerts := alerts + more;
    }
    assert tickets[..|tickets|] == tickets;
    return Ok(alerts);
  }

  /** A recent ticket counts towards its severity unless that severity is uncertain. */
  predicate CountsTowards(cfg: Config, s: Severity, t: Ticket, d: Result<Decision<SlaOutcome>, Exn>) {
    && t.createdAt >= Cutoff(cfg) && d.Ok? && d.value.result.Some?
    && d.value.result.value.severity == s && d.value.trust in {Confident, Conditional}
  }

  function Recent(db: Database, auth: Auth, cfg: Config): seq<Ticket> {
    Filter((t: Ticket) => t.createdAt >= Cutoff(cfg), OpenTickets(db, auth))
  }

  function Counted(db: Database, auth: Auth, cfg: Config, s: Severity): seq<Ticket> {
    Filter((t: Ticket) => CountsTowards(cfg, s, t, SlaOf(db, auth, cfg, t)), OpenTickets(db, auth))
  }

  function RecurringAlerts(cfg: Config, s: Severity, ts: seq<Ticket>): seq<Alert> {
    var ids := Map((t: Ticket) => t.ticketId, ts);
    if |ids| < cfg.recurringThreshold then []
    else
      [Alert(AlertId(cfg.digest, RecurringIssue, cfg.windowName, VERSION, ids), RecurringIssue,
             if s == P1 then High else Medium, if s == P1 then "P1" else "P2", |ids|, cfg.recurringThreshold, cfg.windowName,
             SortDistinct(Text.Less, ids),
             SortDistinct(Text.Less, Map((t: Ticket) => t.accountId, ts)),
             Map((id: string) => CiteStructured("tickets", id), SortDistinct(Text.Less, ids)), Confident)]
  }

  function Recurring(db: Database, auth: Auth, cfg: Config): Result<seq<Alert>, Exn> {
    var stop := FirstErr((t: Ticket) => SlaOf(db, auth, cfg, t), Recent(db, auth, cfg));
    if stop.Some? then Err(stop.value)
    else Ok(RecurringAlerts(cfg, P1, Counted(db, auth, cfg, P1))
            + RecurringAlerts(cfg, P2, Counted(db, auth, cfg, P2)))
  }

  /** The severity a recent ticket counts towards, as the loop decides it. */
  method CountedSeverity(cfg: Config, t: Ticket, d: Decision<SlaOutcome>) returns (s: Option<Severity>)
    requires t.createdAt >= Cutoff(cfg)
    ensures s.Some? ==> s.value in {P1, P2}
    ensures forall x :: x in {P1, P2} ==> (s == Some(x) <==> CountsTowards(cfg, x, t, Ok(d)))
  {
    if d.result.None? || d.result.value.severity !in {P1, P2} {
      return None;
    }
    if d.trust !in {Confident, Conditional} {
      return None;
    }
    return Some(d.result.value.severity);
  }

  method DetectRecurringSeverity(db: Database, auth: Auth, cfg: Config) returns (r: Result<seq<Alert>, Exn>)
    ensures r == Recurring(db, auth, cfg)
  {
    hide RecurringAlerts, SlaOf;
    var found := SearchTickets(db, auth, None, Some(Open));
    var tickets := found.value;
    assert tickets == OpenTickets(db, auth);
    var sla := (t: Ticket) => SlaOf(db, auth, cfg, t);
    var recent := (t: Ticket) => t.createdAt >= Cutoff(cfg);
    var p1 := (t: Ticket) => CountsTowards(cfg, P1, t, SlaOf(db, auth, cfg, t));
    var p2 := (t: Ticket) => CountsTowards(cfg, P2, t, SlaOf(db, auth, cfg, t));
    var bySeverity: map<Severity, seq<Ticket>> := map[P1 := [], P2 := []];
    for i := 0 to |tickets|
      invariant bySeverity.Keys == {P1, P2}
      invariant bySeverity[P1] == Filter(p1, tickets[..i]) && bySeverity[P2] == Filter(p2, tickets[..i])
      invariant FirstErr(sla, Filter(recent, tickets[..i])) == None
    {
      var t := tickets[i];
      FilterStep(p1, tickets, i);
      FilterStep(p2, tickets, i);
      FilteredErrStep(sla, recent, tickets, i);
      var before := bySeverity;
      if t.createdAt < Cutoff(cfg) {
        assert !p1(t) && !p2(t);
        continue;
      }
      var d := sla(t);
      if d.Err? {
        return Err(d.error);
      }
      var s := CountedSeverity(cfg, t, d.value);
      assert (s == Some(P1) <==> p1(t)) && (s == Some(P2) <==> p2(t));
      if s.Some? {
        bySeverity := bySeverity[s.value := bySeverity[s.value] + [t]];
      }
      assert bySeverity[P1] == before[P1] + if p1(t) then [t] else [];
      assert bySeverity[P2] == before[P2] + if p2(t) then [t] else [];
    }
    assert tickets[..|tickets|] == tickets;
    var alerts := RecurringAlerts(cfg, P1, bySeverity[P1]);
    alerts := alerts + RecurringAlerts(cfg, P2, bySeverity[P2]);
    return Ok(alerts);
  }

  /** One more turn of a loop that skips some elements and stops at the first exception. */
  lemma FilteredErrStep<T, U, E>(f: T -> Result<U, E>, p: T -> bool, xs: seq<T>, i: nat)
    requires i < |xs| && FirstErr(f, Filter(p, xs[..i])) == None
    ensures (p(xs[i]) ==> f(xs[i]).Ok?) ==> FirstErr(f, Filter(p, xs[..i + 1])) == None
    ensures p(xs[i]) && f(xs[i]).Err? ==> FirstErr(f, Filter(p, xs)) == Some(f(xs[i]).error)
  {
    FilterStep(p, xs, i);
    assert [xs[i]][1..] == [];
    FirstErrConcat(f, Filter(p, xs[..i]), if p(xs[i]) then [xs[i]] else []);
    assert xs == xs[..i + 1] + xs[i + 1..];
    FilterConcat(p, xs[..i + 1], xs[i + 1..]);
    FirstErrConcat(f, Filter(p, xs[..i + 1]), Filter(p, xs[i + 1..]));
  }

  predicate CarrierFaulty(cfg: Config, o: Order) {
    o.carrierFault && o.bookedAt >= Cutoff(cfg)
  }

  function FaultyOrders(db: Database, auth: Auth, cfg: Config): seq<Order> {
    Filter((o: Order) => CarrierFaulty(cfg, o), Orders(db, auth, None))
  }

  function OfCarrier(carrier: string, os: seq<Order>): seq<Order> {
    Filter((o: Order) => o.carrier == carrier, os)
  }

  function CarrierAlerts(cfg: Config, carrier: string, os: seq<Order>): seq<Alert> {
    var ids := Map((o: Order) => o.orderId, os);
    if |ids| < cfg.carrierThreshold then []
    else
      [Alert(AlertId(cfg.digest, CarrierPattern, cfg.windowName, VERSION, ids), CarrierPattern,
             Medium, carrier, |ids|, cfg.carrierThreshold, cfg.windowName,
             SortDistinct(Text.Less, ids),
             SortDistinct(Text.Less, Map((o: Order) => o.accountId, os)),
             Map((id: string) => CiteStructured("orders", id), SortDistinct(Text.Less, ids)), Confident)]
  }

  function Identity(s: string): string {
    s
  }

  /** Carriers come in the order of their first faulty order. */
  function Carriers(os: seq<Order>): seq<string> {
    DedupBy(Identity, Map((o: Order) => o.carrier, os))
  }

  function CarrierPatterns(db: Database, auth: Auth, cfg: Config): seq<Alert> {
    var os := FaultyOrders(db, auth, cfg);
    FlatMap((carrier: string) => CarrierAlerts(cfg, carrier, OfCarrier(carrier, os)), Carriers(os))
  }

  ghost predicate Grouped(carriers: seq<string>, byCarrier: map<string, seq<Order>>, os: seq<Order>) {
    && carriers == Carriers(os)
    && (forall c :: c in byCarrier <==> c in carriers)
    && (forall c :: c in byCarrier ==> byCarrier[c] == OfCarrier(c, os))
  }

  /** `setdefault(carrier, []).append(order)`. */
  method AddOrder(carriers: seq<string>, byCarrier: map<string, seq<Order>>, o: Order, ghost os: seq<Order>)
    returns (carriers': seq<string>, byCarrier': map<string, seq<Order>>)
    requires Grouped(carriers, byCarrier, os)
    ensures Grouped(carriers', byCarrier', os + [o])
  {
    CarrierStep(os, o);
    carriers', byCarrier' := carriers, byCarrier;
    if o.carrier !in byCarrier {
      carriers' := carriers + [o.carrier];
      byCarrier' := byCarrier'[o.carrier := []];
    }
    byCarrier' := byCarrier'[o.carrier := byCarrier'[o.carrier] + [o]];
  }

  method DetectCarrierPatterns(db: Database, auth: Auth, cfg: Config) returns (alerts: seq<Alert>)
    ensures alerts == CarrierPatterns(db, auth, cfg)
  {
    var found := SearchOrders(db, auth, None, None, None);
    var orders := found.value;
    assert orders == Orders(db, auth, None);
    var faulty := (o: Order) => CarrierFaulty(cfg, o);
    var carriers: seq<string> := [];
    var byCarrier: map<string, seq<Order>> := map[];
    for i := 0 to |orders|
      invariant Grouped(carriers, byCarrier, Filter(faulty, orders[..i]))
    {
      FilterStep(faulty, orders, i);
      if !orders[i].carrierFault || orders[i].bookedAt < Cutoff(cfg) {
        continue;
      }
      carriers, byCarrier := AddOrder(carriers, byCarrier, orders[i], Filter(faulty, orders[..i]));
    }
    assert orders[..|orders|] == orders;
    alerts := AlertsByCarrier(cfg, carriers, byCarrier, FaultyOrders(db, auth, cfg));
  }

  method AlertsByCarrier(cfg: Config, carriers: seq<string>, byCarrier: map<string, seq<Order>>,
                         ghost os: seq<Order>) returns (alerts: seq<Alert>)
    requires Grouped(carriers, byCarrier, os)
    ensures alerts ==
            FlatMap((carrier: string) => CarrierAlerts(cfg, carrier, OfCarrier(carrier, os)), Carriers(os))
  {
    ghost var rule := (carrier: string) => CarrierAlerts(cfg, carrier, OfCarrier(carrier, os));
    alerts := [];
    for k := 0 to |carriers|
      invariant alerts == FlatMap(rule, carriers[..k])
    {
      FlatMapStep(rule, carriers, k);
      assert carriers[k] in byCarrier;
      alerts := alerts + CarrierAlerts(cfg, carriers[k], byCarrier[carriers[k]]);
    }
    assert carriers[..|carriers|] == carriers;
  }

  lemma CarrierStep(os: seq<Order>, o: Order)
    ensures Carriers(os + [o]) == Carriers(os) + if o.carrier in Carriers(os) then [] else [o.carrier]
    ensures forall c :: OfCarrier(c, os + [o]) == OfCarrier(c, os) + if o.carrier == c then [o] else []
    ensures o.carrier !in Carriers(os) ==> OfCarrier(o.carrier, os) == []
  {
    var f := (o: Order) => o.carrier;
    MapStep(f, os, o);
    assert (Map(f, os) + [o.carrier])[..|os|] == Map(f, os);
    assert Map(Identity, Carriers(os)) == Carriers(os);
    forall c ensures OfCarrier(c, os + [o]) == OfCarrier(c, os) + if o.carrier == c then [o] else [] {
      FilterConcat((o: Order) => o.carrier == c, os, [o]);
      assert [o][1..] == [];
    }
    assert OfCarrier(o.carrier, os) != [] ==> OfCarrier(o.carrier, os)[0] in OfCarrier(o.carrier, os);
    if o.carrier !in Carriers(os) {
      DedupKeepsFirst(Identity, Map(f, os));
      forall x ensures x !in OfCarrier(o.carrier, os) {
        FilterMember((x: Order) => x.carrier == o.carrier, os, x);
        if x in os {
          assert f(x) in Map(f, os);
        }
      }
    }
  }

  /** A booked order whose window has ended without a pickup. A requested cancellation is not
      looked at. */
  predicate IsOverdue(cfg: Config, o: Order) {
    o.pickupActualAt.None? && o.pickupWindowEnd < cfg.now
  }

  function OverdueAlerts(cfg: Config, o: Order): seq<Alert> {
    if !IsOverdue(cfg, o) then []
    else
      [Alert(AlertId(cfg.digest, OverduePickup, POINT_IN_TIME, VERSION, [o.orderId]), OverduePickup,
             if o.carrierFault then High else Medium, o.orderId, 1, 1, POINT_IN_TIME,
             [o.orderId], [o.accountId], [CiteStructured("orders", o.orderId)], Confident)]
  }

  function OverduePickups(db: Database, auth: Auth, cfg: Config): seq<Alert> {
    FlatMap((o: Order) => OverdueAlerts(cfg, o), Orders(db, auth, Some(Booked)))
  }

  method DetectOverduePickups(db: Database, auth: Auth, cfg: Config) returns (alerts: seq<Alert>)
    ensures alerts == OverduePickups(db, auth, cfg)
  {
    var found := SearchOrders(db, auth, None, Some(Booked), None);
    var orders := found.value;
    assert orders == Orders(db, auth, Some(Booked));
    var rule := (o: Order) => OverdueAlerts(cfg, o);
    alerts := [];
    for i := 0 to |orders|
      invariant alerts == FlatMap(rule, orders[..i])
    {
      FlatMapStep(rule, orders, i);
      if orders[i].pickupActualAt.Some? {
        continue;
      }
      if orders[i].pickupWindowEnd >= cfg.now {
        continue;
      }
      alerts := alerts + OverdueAlerts(cfg, orders[i]);
    }
    assert orders[..|orders|] == orders;
  }
}
