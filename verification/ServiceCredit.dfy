/** `app/domain/service_credit.py`: is a failed pickup owed a credit, and how much. */
module ServiceCredit {
  import opened Prelude
  import opened Enums
  import opened Records
  import opened Repository
  import opened Applicability
  import Trust

  const MANAGER_APPROVAL_THRESHOLD := 1000.0

  datatype CreditRule =
    | PercentageWithCap(thresholdHours: real, cap: real, percentage: real)
    | FixedAmount(thresholdHours: real, amount: real)

  datatype DelayReference = PickupActual | SnapshotTime

  /** An order is eligible exactly when it has a credit. */
  datatype CreditOutcome = CreditOutcome(
    credit: Option<real>, rule: PolicyClause, delayHours: Option<real>,
    reference: Option<DelayReference>, managerApproval: bool)

  const SHIPPED_CREDIT_RULES: map<string, CreditRule> :=
    map["SRC-03" := PercentageWithCap(2.0, 500.0, 0.10), "SRC-06" := FixedAmount(4.0, 300.0)]

  const STILL_ACCRUING := "pickup_actual_at is null"

  function Min(x: real, y: real): real {
    if y < x then y else x
  }

  function ApplyCreditRule(rule: CreditRule, delayHours: real, fee: real): Option<real> {
    if delayHours <= rule.thresholdHours then None
    else
      match rule
      case FixedAmount(_, amount) => Some(amount)
      case PercentageWithCap(_, cap, percentage) => Some(Min(cap, percentage * fee))
  }

  function DelayHours(o: Order, now: int): real {
    ((if o.pickupActualAt.Some? then o.pickupActualAt.value else now) - o.pickupWindowEnd) as real / 3600.0
  }

  predicate AtFault(o: Order) {
    o.carrierFault && !o.customerFault
  }

  predicate OverLimit(credit: Option<real>) {
    credit.Some? && credit.value > MANAGER_APPROVAL_THRESHOLD
  }

  function EvaluateServiceCredit(db: Database, reg: Registry, rules: map<string, CreditRule>,
                                 orderId: string, auth: Auth, now: int)
    : Result<Decision<CreditOutcome>, Exn>
  {
    var order := GetOrder(db, orderId, auth);
    if order.Err? then Err(order.error)
    else if ServiceCreditThresholdAndAmount !in reg.defaults
         || reg.defaults[ServiceCreditThresholdAndAmount].None? then Err(OtherError)
    else
      var o := order.value;
      var standard := reg.defaults[ServiceCreditThresholdAndAmount].value;
      var cite := CiteStructured("orders", o.orderId);
      if !AtFault(o) then
        Ok(Decision(Some(CreditOutcome(None, standard, None, None, false)), Confident,
                    [cite, CiteDocument(db.chunks, standard.sourceId, standard.section)],
                    [], [], false))
      else
        var a := ResolveApplicability(
          db.sources, reg, ServiceCreditThresholdAndAmount, o.accountId, DayOf(now));
        if a.Err? then Err(a.error)
        else if a.value.winner.sourceId !in rules then Err(OtherError)
        else
          var delay := DelayHours(o, now);
          var assumptions := if o.pickupActualAt.None? then [STILL_ACCRUING] else [];
          var credit := ApplyCreditRule(rules[a.value.winner.sourceId], delay, o.fee);
          var review := a.value.review || OverLimit(credit);
          Ok(Decision(
            Some(CreditOutcome(credit, a.value.winner, Some(delay),
              Some(if o.pickupActualAt.Some? then PickupActual else SnapshotTime), OverLimit(credit))),
            Trust.From(review, assumptions != []),
            [cite, CiteDocument(db.chunks, a.value.winner.sourceId, a.value.winner.section)],
            assumptions, Conflicts(a.value, o.accountId), review))
  }

  /** A decision escalates exactly when the agreement is out of term or the credit is above a
      manager's threshold. */
  lemma EscalatesExactlyWhen(db: Database, reg: Registry, rules: map<string, CreditRule>,
                             orderId: string, auth: Auth, now: int)
    requires EvaluateServiceCredit(db, reg, rules, orderId, auth, now).Ok?
    ensures var d := EvaluateServiceCredit(db, reg, rules, orderId, auth, now).value;
            var o := GetOrder(db, orderId, auth).value;
            var a := OverrideFor(reg, ServiceCreditThresholdAndAmount, o.accountId);
            && d.result.Some?
            && (d.trust == Escalate <==>
                 && AtFault(o)
                 && (|| (a.Some? && !ActiveAt(GetSource(db.sources, a.value.sourceId).value, DayOf(now)))
                     || d.result.value.managerApproval))
            && (d.result.value.managerApproval <==> OverLimit(d.result.value.credit))
  {
  }

  /** An agreement of the order's account is in force. */
  ghost predicate InForce(db: Database, reg: Registry, o: Order, now: int) {
    var v := OverrideFor(reg, ServiceCreditThresholdAndAmount, o.accountId);
    && v.Some? && GetSource(db.sources, v.value.sourceId).Ok?
    && ActiveAt(GetSource(db.sources, v.value.sourceId).value, DayOf(now))
  }

  /** What a decision says: when a delay is measured and from what, what it is worth under which
      clause, when a manager has to approve, what it cites, and the conflict it reports. */
  lemma DecisionExactly(db: Database, reg: Registry, rules: map<string, CreditRule>,
                        orderId: string, auth: Auth, now: int)
    requires EvaluateServiceCredit(db, reg, rules, orderId, auth, now).Ok?
    ensures var d := EvaluateServiceCredit(db, reg, rules, orderId, auth, now).value;
            var o := GetOrder(db, orderId, auth).value;
            var atFault := o.carrierFault && !o.customerFault;
            var agreed := atFault && InForce(db, reg, o, now);
            var standard := reg.defaults[ServiceCreditThresholdAndAmount].value;
            && d.result.Some?
            && var r := d.result.value;
            && (agreed ==> var v := OverrideFor(reg, ServiceCreditThresholdAndAmount, o.accountId).value;
                           r.rule == PolicyClause(v.sourceId, v.section))
            && (!agreed ==> r.rule == standard)
            && (r.reference == Some(PickupActual) <==> atFault && o.pickupActualAt.Some?)
            && (r.reference == Some(SnapshotTime) <==> atFault && o.pickupActualAt.None?)
            && d.assumptions == (if r.reference == Some(SnapshotTime) then [STILL_ACCRUING] else [])
            && (d.trust == Conditional <==> d.assumptions != [] && !d.review)
            && (!atFault ==> r.credit == None && r.delayHours == None)
            && (atFault ==>
                  var until := if o.pickupActualAt.Some? then o.pickupActualAt.value else now;
                  && r.delayHours == Some((until - o.pickupWindowEnd) as real / 3600.0)
                  && r.rule.sourceId in rules
                  && var rule := rules[r.rule.sourceId];
                  && (r.credit.Some? <==> r.delayHours.value > rule.thresholdHours)
                  && (r.credit.Some? ==>
                        match rule
                        case FixedAmount(_, amount) => r.credit.value == amount
                        case PercentageWithCap(_, cap, percentage) =>
                          && r.credit.value in {cap, percentage * o.fee}
                          && r.credit.value <= cap && r.credit.value <= percentage * o.fee))
            && (r.managerApproval <==> r.credit.Some? && r.credit.value > 1000.0)
            && (d.review <==> d.trust == Escalate)
            && d.evidence == [CiteStructured("orders", o.orderId),
                              CiteDocument(db.chunks, r.rule.sourceId, r.rule.section)]
            && d.conflicts == if agreed && standard.sourceId != ""
                              then [Conflict(r.rule.sourceId, standard.sourceId, o.accountId, false)] else []
  {
    hide CiteDocument, CiteStructured, ResolveApplicability, Conflicts;
    var o := GetOrder(db, orderId, auth).value;
    if AtFault(o) {
      GovernsExactly(db.sources, reg, ServiceCreditThresholdAndAmount, o.accountId, DayOf(now));
    }
  }

  /** And how it fails. */
  lemma FailsExactlyWhen(db: Database, reg: Registry, rules: map<string, CreditRule>, orderId: string, auth: Auth, now: int)
    ensures var d := EvaluateServiceCredit(db, reg, rules, orderId, auth, now);
            var order := GetOrder(db, orderId, auth);
            var topic := ServiceCreditThresholdAndAmount;
            && (order.Err? ==> d == Err(order.error))
            && (order.Ok? ==>
                  var o := order.value;
                  var a := ResolveApplicability(db.sources, reg, topic, o.accountId, DayOf(now));
                  var atFault := o.carrierFault && !o.customerFault;
                  if topic !in reg.defaults || reg.defaults[topic] == None then d == Err(OtherError)
                  else if atFault && a.Err? then d == Err(a.error)
                  else if atFault && a.value.winner.sourceId !in rules then d == Err(OtherError)
                  else d.Ok?)
  {
    hide ResolveApplicability, CiteDocument, CiteStructured, Conflicts;
  }

  /** The shipped rules in closed form: on every order with a non-negative fee the credit lies
      in [0, 500], needs no manager, and the decision escalates exactly for an order at fault
      whose account's agreement is out of term. */
  lemma ShippedCredit(db: Database, orderId: string, auth: Auth, now: int)
    requires GetOrder(db, orderId, auth).Ok? && GetSource(db.sources, "SRC-06").Ok?
    requires GetOrder(db, orderId, auth).value.fee >= 0.0
    ensures var d := EvaluateServiceCredit(db, SHIPPED_REGISTRY, SHIPPED_CREDIT_RULES, orderId, auth, now);
            var o := GetOrder(db, orderId, auth).value;
            var lumenWorks := o.accountId == "ACCT-002";
            var inTerm := ActiveAt(GetSource(db.sources, "SRC-06").value, DayOf(now));
            && d.Ok? && d.value.result.Some?
            && var r := d.value.result.value;
            && r.credit ==
                 (if !AtFault(o) then None
                  else if lumenWorks && inTerm then
                    (if DelayHours(o, now) <= 4.0 then None else Some(300.0))
                  else if DelayHours(o, now) <= 2.0 then None
                  else Some(Min(500.0, 0.10 * o.fee)))
            && (r.credit.Some? ==> 0.0 <= r.credit.value <= 500.0)
            && !r.managerApproval
            && d.value.trust == (if !AtFault(o) then Confident
                                 else if lumenWorks && !inTerm then Escalate
                                 else if o.pickupActualAt.None? then Conditional else Confident)
  {
    hide CiteDocument, CiteStructured, Conflicts, OverrideFor, DayOf;
    ShippedOverrides(ServiceCreditThresholdAndAmount, GetOrder(db, orderId, auth).value.accountId);
  }

  function Owed(credit: Option<real>): real {
    if credit.Some? then credit.value else 0.0
  }

  /** For a fixed rule, a longer delay never lowers what is owed. */
  lemma CreditMonotone(rule: CreditRule, delay: real, longer: real, fee: real)
    requires delay <= longer && fee >= 0.0
    requires match rule
             case FixedAmount(_, amount) => amount >= 0.0
             case PercentageWithCap(_, cap, percentage) => cap >= 0.0 && percentage >= 0.0
    ensures 0.0 <= Owed(ApplyCreditRule(rule, delay, fee)) <= Owed(ApplyCreditRule(rule, longer, fee))
    ensures ApplyCreditRule(rule, delay, fee).Some? ==> ApplyCreditRule(rule, longer, fee).Some?
  {
    if rule.PercentageWithCap? {
      assert rule.percentage * fee >= 0.0;
    }
  }

  /** While nothing has been picked up the credit only grows with the clock, as long as the
      same clause governs. */
  lemma CreditGrowsWhileAccruing(db: Database, reg: Registry, rules: map<string, CreditRule>,
                                 orderId: string, auth: Auth, now: int, later: int)
    requires now <= later
    requires var d := EvaluateServiceCredit(db, reg, rules, orderId, auth, now);
             var d' := EvaluateServiceCredit(db, reg, rules, orderId, auth, later);
             && d.Ok? && d'.Ok? && d.value.result.Some? && d'.value.result.Some?
             && d.value.result.value.rule == d'.value.result.value.rule
    requires GetOrder(db, orderId, auth).value.fee >= 0.0
    requires forall s :: s in rules ==>
               match rules[s]
               case FixedAmount(_, amount) => amount >= 0.0
               case PercentageWithCap(_, cap, percentage) => cap >= 0.0 && percentage >= 0.0
    ensures Owed(EvaluateServiceCredit(db, reg, rules, orderId, auth, now).value.result.value.credit)
         <= Owed(EvaluateServiceCredit(db, reg, rules, orderId, auth, later).value.result.value.credit)
  {
    var o := GetOrder(db, orderId, auth).value;
    if AtFault(o) {
      var winner := EvaluateServiceCredit(db, reg, rules, orderId, auth, now).value.result.value.rule;
      CreditMonotone(rules[winner.sourceId], DelayHours(o, now), DelayHours(o, later), o.fee);
    }
  }

  /** Overrides for other accounts or other topics change no credit. */
  lemma IgnoresOtherOverrides(db: Database, reg: Registry, reg': Registry, rules: map<string, CreditRule>,
                              orderId: string, auth: Auth, now: int)
    requires reg.defaults == reg'.defaults
    requires var o := GetOrder(db, orderId, auth);
             o.Ok? ==>
               var p := (v: AgreementOverride) =>
                 Governs(v, ServiceCreditThresholdAndAmount, o.value.accountId);
               Filter(p, reg.overrides) == Filter(p, reg'.overrides)
    ensures EvaluateServiceCredit(db, reg, rules, orderId, auth, now)
         == EvaluateServiceCredit(db, reg', rules, orderId, auth, now)
  {
    var o := GetOrder(db, orderId, auth);
    if o.Ok? {
      OtherOverridesIrrelevant(
        db.sources, reg, reg', ServiceCreditThresholdAndAmount, o.value.accountId, DayOf(now));
    }
  }
}
