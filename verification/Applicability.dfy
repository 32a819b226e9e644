/** `app/policy/applicability.py`: which source's clause governs a topic for an account. */
module Applicability {
  import opened Prelude
  import opened Records

  datatype ClauseTopic =
    | CancellationFee | ServiceCreditThresholdAndAmount | ServiceCreditAggregateCap | SlaFirstResponse

  datatype PolicyClause = PolicyClause(sourceId: string, section: string)

  datatype AgreementOverride =
    AgreementOverride(accountId: string, sourceId: string, section: string, topic: ClauseTopic)

  /** The overrides in registry order, and what each topic falls back to; a topic may have no
      fallback. */
  datatype Registry =
    Registry(overrides: seq<AgreementOverride>, defaults: map<ClauseTopic, Option<PolicyClause>>)

  const SHIPPED_REGISTRY := Registry(
    [AgreementOverride("ACCT-001", "SRC-05", "2", CancellationFee),
     AgreementOverride("ACCT-001", "SRC-05", "3", ServiceCreditAggregateCap),
     AgreementOverride("ACCT-001", "SRC-05", "1", SlaFirstResponse),
     AgreementOverride("ACCT-002", "SRC-06", "3", ServiceCreditThresholdAndAmount),
     AgreementOverride("ACCT-002", "SRC-06", "1", SlaFirstResponse)],
    map[CancellationFee := Some(PolicyClause("SRC-03", "1")),
        ServiceCreditThresholdAndAmount := Some(PolicyClause("SRC-03", "2")),
        ServiceCreditAggregateCap := None,
        SlaFirstResponse := Some(PolicyClause("SRC-01", "3"))])

  datatype Applicable = Applicable(winner: PolicyClause, overridden: Option<PolicyClause>, review: bool)

  predicate ActiveAt(s: Source, day: int) {
    s.effective <= day && (s.expiry.None? || day <= s.expiry.value)
  }

  predicate Governs(o: AgreementOverride, topic: ClauseTopic, accountId: string) {
    o.accountId == accountId && o.topic == topic
  }

  function OverrideFor(reg: Registry, topic: ClauseTopic, accountId: string): Option<AgreementOverride> {
    First((o: AgreementOverride) => Governs(o, topic, accountId), reg.overrides)
  }

  function GetSource(sources: seq<Source>, sourceId: string): Result<Source, Exn> {
    var s := First((s: Source) => s.sourceId == sourceId, sources);
    if s.None? then Err(UnknownEntityError) else Ok(s.value)
  }

  function ResolveApplicability(sources: seq<Source>, reg: Registry, topic: ClauseTopic,
                                accountId: string, day: int): Result<Applicable, Exn> {
    if topic !in reg.defaults then Err(OtherError)
    else
      var fallback := reg.defaults[topic];
      var o := OverrideFor(reg, topic, accountId);
      if o.None? then
        if fallback.None? then Err(ValueError) else Ok(Applicable(fallback.value, None, false))
      else
        var agreement := GetSource(sources, o.value.sourceId);
        if agreement.Err? then Err(agreement.error)
        else if !ActiveAt(agreement.value, day) then
          if fallback.None? then Err(ValueError) else Ok(Applicable(fallback.value, None, true))
        else Ok(Applicable(PolicyClause(o.value.sourceId, o.value.section), fallback, false))
  }

  /** The conflicts a calculator reports for a resolved clause. An empty source id is falsy. */
  function Conflicts(a: Applicable, accountId: string): seq<Conflict> {
    if a.overridden.Some? && a.overridden.value.sourceId != "" then
      [Conflict(a.winner.sourceId, a.overridden.value.sourceId, accountId, a.review)]
    else []
  }

  /** A registry that covers a topic: it has a default, and every agreement it names exists. */
  ghost predicate ClosedFor(sources: seq<Source>, reg: Registry, topic: ClauseTopic) {
    && topic in reg.defaults && reg.defaults[topic].Some? && reg.defaults[topic].value.sourceId != ""
    && forall o :: o in reg.overrides && o.topic == topic ==> GetSource(sources, o.sourceId).Ok?
  }

  /** For every closed registry, account and topic, as the date advances: the default until the
      agreement's term begins, the agreement within the term, the default again after it. A
      review is flagged exactly outside the term, and a conflict is reported exactly while an
      agreement in force displaces the default. */
  lemma WinnerOverTime(sources: seq<Source>, reg: Registry, topic: ClauseTopic, accountId: string,
                       day: int)
    requires ClosedFor(sources, reg, topic)
    ensures var o := OverrideFor(reg, topic, accountId);
            var standard := reg.defaults[topic].value;
            var r := ResolveApplicability(sources, reg, topic, accountId, day);
            && r.Ok?
            && (o.None? ==> r.value.winner == standard && !r.value.review)
            && (o.Some? ==>
                 var term := GetSource(sources, o.value.sourceId).value;
                 var before := day < term.effective;
                 var after := term.expiry.Some? && day > term.expiry.value;
                 && (r.value.review <==> before || after)
                 && (before || after ==> r.value.winner == standard)
                 && (!before && !after ==>
                       r.value.winner == PolicyClause(o.value.sourceId, o.value.section)))
            && Conflicts(r.value, accountId) ==
                 if o.Some? && ActiveAt(GetSource(sources, o.value.sourceId).value, day)
                 then [Conflict(o.value.sourceId, standard.sourceId, accountId, false)] else []
  {
    var o := OverrideFor(reg, topic, accountId);
    if o.Some? {
      assert GetSource(sources, o.value.sourceId).Ok?;
    }
  }

  /** The override that counts is the first of the account and topic. */
  lemma OverrideExactly(reg: Registry, topic: ClauseTopic, accountId: string, i: nat)
    requires i <= |reg.overrides|
    requires forall j :: 0 <= j < i ==> reg.overrides[j].accountId != accountId || reg.overrides[j].topic != topic
    requires i < |reg.overrides| ==> reg.overrides[i].accountId == accountId && reg.overrides[i].topic == topic
    ensures OverrideFor(reg, topic, accountId) == if i < |reg.overrides| then Some(reg.overrides[i]) else None
  {
    if i < |reg.overrides| {
      FirstIs((o: AgreementOverride) => Governs(o, topic, accountId), reg.overrides, i);
    }
  }

  /** What the shipped registry says: which agreements there are, on which topics, and the defaults. */
  lemma ShippedOverrides(topic: ClauseTopic, accountId: string)
    ensures OverrideFor(SHIPPED_REGISTRY, topic, accountId) ==
              if accountId == "ACCT-001" && topic == CancellationFee then Some(AgreementOverride("ACCT-001", "SRC-05", "2", topic))
              else if accountId == "ACCT-001" && topic == ServiceCreditAggregateCap then
                Some(AgreementOverride("ACCT-001", "SRC-05", "3", topic))
              else if accountId == "ACCT-001" && topic == SlaFirstResponse then
                Some(AgreementOverride("ACCT-001", "SRC-05", "1", topic))
              else if accountId == "ACCT-002" && topic == ServiceCreditThresholdAndAmount then
                Some(AgreementOverride("ACCT-002", "SRC-06", "3", topic))
              else if accountId == "ACCT-002" && topic == SlaFirstResponse then
                Some(AgreementOverride("ACCT-002", "SRC-06", "1", topic))
              else None
    ensures topic in SHIPPED_REGISTRY.defaults && SHIPPED_REGISTRY.defaults[topic] ==
              match topic
              case CancellationFee => Some(PolicyClause("SRC-03", "1"))
              case ServiceCreditThresholdAndAmount => Some(PolicyClause("SRC-03", "2"))
              case ServiceCreditAggregateCap => None
              case SlaFirstResponse => Some(PolicyClause("SRC-01", "3"))
  {
    var os := SHIPPED_REGISTRY.overrides;
    var i: nat :=
      if accountId == "ACCT-001" && topic == CancellationFee then 0
      else if accountId == "ACCT-001" && topic == ServiceCreditAggregateCap then 1
      else if accountId == "ACCT-001" && topic == SlaFirstResponse then 2
      else if accountId == "ACCT-002" && topic == ServiceCreditThresholdAndAmount then 3
      else if accountId == "ACCT-002" && topic == SlaFirstResponse then 4 else 5;
    OverrideExactly(SHIPPED_REGISTRY, topic, accountId, i);
  }

  /** An agreement is in force from its first day to its last, both included. */
  lemma ActiveExactly(s: Source, day: int)
    ensures ActiveAt(s, day) <==> !(day < s.effective) && !(s.expiry.Some? && s.expiry.value < day)
  {
  }

  /** Exactly when a clause resolves at all, and how it fails. */
  lemma ResolvesExactlyWhen(sources: seq<Source>, reg: Registry, topic: ClauseTopic,
                            accountId: string, day: int)
    ensures var r := ResolveApplicability(sources, reg, topic, accountId, day);
            var o := OverrideFor(reg, topic, accountId);
            var known := o.Some? ==> exists s :: s in sources && s.sourceId == o.value.sourceId;
            var inForce := o.Some? && known && ActiveAt(GetSource(sources, o.value.sourceId).value, day);
            && (r.Ok? <==> topic in reg.defaults && known && (reg.defaults[topic].Some? || inForce))
            && (r == Err(OtherError) <==> topic !in reg.defaults)
            && (r == Err(UnknownEntityError) <==> topic in reg.defaults && !known)
            && (r == Err(ValueError) <==> topic in reg.defaults && known && reg.defaults[topic] == None && !inForce)
  {
  }

  /** Which clause governs: the agreement's while it is in force, and then it displaces the
      default; otherwise the default, with a review if there is an agreement out of force. */
  lemma GovernsExactly(sources: seq<Source>, reg: Registry, topic: ClauseTopic, accountId: string, day: int)
    requires ResolveApplicability(sources, reg, topic, accountId, day).Ok?
    ensures var a := ResolveApplicability(sources, reg, topic, accountId, day).value;
            var o := OverrideFor(reg, topic, accountId);
            var inForce := o.Some? && ActiveAt(GetSource(sources, o.value.sourceId).value, day);
            && topic in reg.defaults
            && (o.Some? ==> GetSource(sources, o.value.sourceId).Ok?)
            && (inForce ==> a.winner == PolicyClause(o.value.sourceId, o.value.section))
            && (!inForce ==> Some(a.winner) == reg.defaults[topic])
            && (a.review <==> o.Some? && !inForce)
            && Conflicts(a, accountId) ==
                 if inForce && reg.defaults[topic].Some? && reg.defaults[topic].value.sourceId != ""
                 then [Conflict(o.value.sourceId, reg.defaults[topic].value.sourceId, accountId, false)] else []
  {
  }

  /** Two registries that list the same overrides for an account and topic, in the same
      order, resolve it the same way, whatever else they list. */
  lemma OtherOverridesIrrelevant(sources: seq<Source>, reg: Registry, reg': Registry,
                                 topic: ClauseTopic, accountId: string, day: int)
    requires reg.defaults == reg'.defaults
    requires Filter((o: AgreementOverride) => Governs(o, topic, accountId), reg.overrides)
          == Filter((o: AgreementOverride) => Governs(o, topic, accountId), reg'.overrides)
    ensures ResolveApplicability(sources, reg, topic, accountId, day)
         == ResolveApplicability(sources, reg', topic, accountId, day)
  {
    var p := (o: AgreementOverride) => Governs(o, topic, accountId);
    FirstOfFilter(p, p, reg.overrides);
    FirstOfFilter(p, p, reg'.overrides);
  }
}
