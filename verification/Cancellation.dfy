/** `app/domain/cancellation.py`: may an order be cancelled, and for what fee. */
module Cancellation {
  import opened Prelude
  import opened Enums
  import opened Records
  import opened Repository
  import opened Applicability
  import Trust

  datatype FeeRule = FullWaiver | ThresholdFee(thresholdMinutes: int, fee: real)

  datatype CancellationDecision = CanCancel | CannotCancel | NoActionNeeded

  datatype CancellationOutcome = CancellationOutcome(
    decision: CancellationDecision, fee: Option<real>, rule: PolicyClause, status: OrderStatus,
    minutes: Option<real>)

  const SHIPPED_FEE_RULES: map<string, FeeRule> :=
    map["SRC-03" := ThresholdFee(30, 250.0), "SRC-05" := FullWaiver]

  function ApplyFeeRule(rule: FeeRule, minutes: real): real {
    match rule
    case FullWaiver => 0.0
    case ThresholdFee(threshold, fee) => if minutes <= threshold as real then 0.0 else fee
  }

  function MinutesSinceBooking(o: Order): real
    requires o.cancellationRequestedAt.Some?
  {
    (o.cancellationRequestedAt.value - o.bookedAt) as real / 60.0
  }

  /** The part that agreements have a say in: a BOOKED order with a request on it. */
  function BookedFee(db: Database, reg: Registry, rules: map<string, FeeRule>, o: Order, now: int)
    : Result<Decision<CancellationOutcome>, Exn>
    requires o.cancellationRequestedAt.Some?
  {
    var a := ResolveApplicability(db.sources, reg, CancellationFee, o.accountId, DayOf(now));
    if a.Err? then Err(a.error)
    else if a.value.winner.sourceId !in rules then Err(OtherError)
    else
      var minutes := MinutesSinceBooking(o);
      var fee := ApplyFeeRule(rules[a.value.winner.sourceId], minutes);
      Ok(Decision(
        Some(CancellationOutcome(CanCancel, Some(fee), a.value.winner, o.status, Some(minutes))),
        Trust.From(a.value.review, false),
        [CiteStructured("orders", o.orderId),
         CiteDocument(db.chunks, a.value.winner.sourceId, a.value.winner.section)],
        [], Conflicts(a.value, o.accountId), a.value.review))
  }

  function EvaluateCancellation(db: Database, reg: Registry, rules: map<string, FeeRule>,
                                orderId: string, auth: Auth, now: int)
    : Result<Decision<CancellationOutcome>, Exn>
  {
    var order := GetOrder(db, orderId, auth);
    if order.Err? then Err(order.error)
    else if CancellationFee !in reg.defaults || reg.defaults[CancellationFee].None? then Err(OtherError)
    else
      var o := order.value;
      var standard := reg.defaults[CancellationFee].value;
      var cite := CiteStructured("orders", o.orderId);
      var policy := CiteDocument(db.chunks, standard.sourceId, standard.section);
      var plain := (decision, fee, evidence) =>
        Ok(Decision(Some(CancellationOutcome(decision, fee, standard, o.status, None)),
                    Confident, evidence, [], [], false));
      match o.status
      case Delivered => plain(CannotCancel, None, [cite, policy])
      case PickedUp => plain(CannotCancel, None, [cite, policy])
      case Draft => plain(CanCancel, Some(0.0), [cite, policy])
      case Booked =>
        if o.cancellationRequestedAt.None? then plain(NoActionNeeded, None, [cite])
        else BookedFee(db, reg, rules, o, now)
  }

  /** An agreement changes nothing but the fee of a requested, still booked cancellation: on
      every other order, any two registries with one default give one result. */
  lemma AgreementsReachOnlyRequestedBookings(
      db: Database, reg: Registry, reg': Registry, rules: map<string, FeeRule>,
      rules': map<string, FeeRule>, orderId: string, auth: Auth, now: int)
    requires CancellationFee in reg.defaults && CancellationFee in reg'.defaults
    requires reg.defaults[CancellationFee] == reg'.defaults[CancellationFee]
    requires var o := GetOrder(db, orderId, auth);
             o.Ok? ==> o.value.status != Booked || o.value.cancellationRequestedAt.None?
    ensures EvaluateCancellation(db, reg, rules, orderId, auth, now)
         == EvaluateCancellation(db, reg', rules', orderId, auth, now)
  {
  }

  /** A decision escalates exactly when the account's agreement is out of term. */
  lemma EscalatesExactlyWhenOutOfTerm(db: Database, reg: Registry, rules: map<string, FeeRule>,
                                      orderId: string, auth: Auth, now: int)
    requires EvaluateCancellation(db, reg, rules, orderId, auth, now).Ok?
    ensures var d := EvaluateCancellation(db, reg, rules, orderId, auth, now).value;
            var o := GetOrder(db, orderId, auth).value;
            && (d.trust == Escalate <==>
                 && o.status == Booked && o.cancellationRequestedAt.Some?
                 && var a := OverrideFor(reg, CancellationFee, o.accountId);
                 && a.Some? && !ActiveAt(GetSource(db.sources, a.value.sourceId).value, DayOf(now)))
            && d.trust in {Confident, Escalate} && (d.review <==> d.trust == Escalate)
  {
  }

  /** An agreement of the order's account is in force. */
  ghost predicate InForce(db: Database, reg: Registry, o: Order, now: int) {
    var v := OverrideFor(reg, CancellationFee, o.accountId);
    && v.Some? && GetSource(db.sources, v.value.sourceId).Ok?
    && ActiveAt(GetSource(db.sources, v.value.sourceId).value, DayOf(now))
  }

  /** What a decision says: which orders may be cancelled, under which clause, for what fee, what it
      cites, and the conflict it reports. */
  lemma DecisionExactly(db: Database, reg: Registry, rules: map<string, FeeRule>,
                        orderId: string, auth: Auth, now: int)
    requires EvaluateCancellation(db, reg, rules, orderId, auth, now).Ok?
    ensures var d := EvaluateCancellation(db, reg, rules, orderId, auth, now).value;
            var o := GetOrder(db, orderId, auth).value;
            var asked := o.status == Booked && o.cancellationRequestedAt.Some?;
            var agreed := asked && InForce(db, reg, o, now);
            var standard := reg.defaults[CancellationFee].value;
            && d.result.Some? && d.assumptions == []
            && var r := d.result.value;
            && (r.decision == CanCancel <==> o.status == Draft || asked)
            && (r.decision == CannotCancel <==> o.status in {PickedUp, Delivered})
            && r.status == o.status
            && (agreed ==> var v := OverrideFor(reg, CancellationFee, o.accountId).value;
                           r.rule == PolicyClause(v.sourceId, v.section))
            && (!agreed ==> r.rule == standard)
            && (r.fee.Some? <==> r.decision == CanCancel) && (r.minutes.Some? <==> asked)
            && (o.status == Draft ==> r.fee == Some(0.0))
            && (asked ==>
                  var seconds := o.cancellationRequestedAt.value - o.bookedAt;
                  && r.minutes == Some(seconds as real / 60.0)
                  && r.rule.sourceId in rules
                  && r.fee.value == match rules[r.rule.sourceId]
                                    case FullWaiver => 0.0
                                    case ThresholdFee(minutes, fee) => if seconds <= 60 * minutes then 0.0 else fee)
            && d.evidence == [CiteStructured("orders", o.orderId)]
                             + (if r.decision == NoActionNeeded then []
                                else [CiteDocument(db.chunks, r.rule.sourceId, r.rule.section)])
            && d.conflicts == if agreed && standard.sourceId != ""
                              then [Conflict(r.rule.sourceId, standard.sourceId, o.accountId, false)] else []
  {
    hide CiteDocument, CiteStructured, ResolveApplicability, Conflicts;
    var o := GetOrder(db, orderId, auth).value;
    if o.status == Booked && o.cancellationRequestedAt.Some? {
      GovernsExactly(db.sources, reg, CancellationFee, o.accountId, DayOf(now));
      MinutesExactly(o);
    }
  }

  lemma MinutesExactly(o: Order)
    requires o.cancellationRequestedAt.Some?
    ensures var seconds := o.cancellationRequestedAt.value - o.bookedAt;
            forall m: int :: MinutesSinceBooking(o) <= m as real <==> seconds <= 60 * m
  {
    var seconds := o.cancellationRequestedAt.value - o.bookedAt;
    forall m: int ensures seconds as real / 60.0 <= m as real <==> seconds <= 60 * m {
      assert seconds as real / 60.0 * 60.0 == seconds as real;
    }
  }

  /** And how it fails. */
  lemma FailsExactlyWhen(db: Database, reg: Registry, rules: map<string, FeeRule>, orderId: string, auth: Auth, now: int)
    ensures var d := EvaluateCancellation(db, reg, rules, orderId, auth, now);
            var order := GetOrder(db, orderId, auth);
            && (order.Err? ==> d == Err(order.error))
            && (order.Ok? ==>
                  var o := order.value;
                  var a := ResolveApplicability(db.sources, reg, CancellationFee, o.accountId, DayOf(now));
                  var asked := o.status == Booked && o.cancellationRequestedAt.Some?;
                  if CancellationFee !in reg.defaults || reg.defaults[CancellationFee] == None then d == Err(OtherError)
                  else if asked && a.Err? then d == Err(a.error)
                  else if asked && a.value.winner.sourceId !in rules then d == Err(OtherError)
                  else d.Ok?)
  {
    hide ResolveApplicability, CiteDocument, CiteStructured, Conflicts;
  }

  /** The shipped rules in closed form, on every order, account and date. */
  lemma ShippedFee(db: Database, orderId: string, auth: Auth, now: int)
    requires GetOrder(db, orderId, auth).Ok? && GetSource(db.sources, "SRC-05").Ok?
    ensures var d := EvaluateCancellation(db, SHIPPED_REGISTRY, SHIPPED_FEE_RULES, orderId, auth, now);
            var o := GetOrder(db, orderId, auth).value;
            var northstar := o.accountId == "ACCT-001";
            var inTerm := ActiveAt(GetSource(db.sources, "SRC-05").value, DayOf(now));
            && d.Ok? && d.value.result.Some?
            && d.value.result.value.fee ==
                 (match o.status
                  case Draft => Some(0.0)
                  case Booked =>
                    if o.cancellationRequestedAt.None? then None
                    else if northstar && inTerm then Some(0.0)
                    else if o.cancellationRequestedAt.value - o.bookedAt <= 30 * 60 then Some(0.0)
                    else Some(250.0)
                  case _ => None)
            && (d.value.trust == Escalate <==>
                 o.status == Booked && o.cancellationRequestedAt.Some? && northstar && !inTerm)
  {
    var o := GetOrder(db, orderId, auth).value;
    ShippedOverrides(CancellationFee, o.accountId);
    if o.cancellationRequestedAt.Some? {
      var seconds := o.cancellationRequestedAt.value - o.bookedAt;
      assert seconds as real / 60.0 <= 30.0 <==> seconds <= 1800;
    }
  }

  /** Waiting longer never makes a cancellation cheaper. */
  lemma FeeMonotone(rule: FeeRule, minutes: real, later: real)
    requires minutes <= later && (rule.ThresholdFee? ==> rule.fee >= 0.0)
    ensures 0.0 <= ApplyFeeRule(rule, minutes) <= ApplyFeeRule(rule, later)
  {
  }

  /** Overrides for other accounts or other topics change no cancellation. */
  lemma IgnoresOtherOverrides(db: Database, reg: Registry, reg': Registry, rules: map<string, FeeRule>,
                              orderId: string, auth: Auth, now: int)
    requires reg.defaults == reg'.defaults
    requires var o := GetOrder(db, orderId, auth);
             o.Ok? ==>
               var p := (v: AgreementOverride) => Governs(v, CancellationFee, o.value.accountId);
               Filter(p, reg.overrides) == Filter(p, reg'.overrides)
    ensures EvaluateCancellation(db, reg, rules, orderId, auth, now)
         == EvaluateCancellation(db, reg', rules, orderId, auth, now)
  {
    var o := GetOrder(db, orderId, auth);
    if o.Ok? {
      OtherOverridesIrrelevant(db.sources, reg, reg', CancellationFee, o.value.accountId, DayOf(now));
    }
  }
}
