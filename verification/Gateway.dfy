/** `app/llm/gateway.py`: ordered fallback over candidate providers. */
module Gateway {
  import opened Prelude
  import opened ProviderRetry

  /** A provider either runs the retry loop over its SDK and prices the answer, or answers in
      some other way. */
  datatype Provider = Anthropic(sdk: Sdk, pricing: Pricing) | Other(reply: Reply)

  datatype Candidate = Candidate(name: string, model: string, provider: Provider)

  datatype ProviderAttempt = ProviderAttempt(
    provider: string, model: string, success: bool, error: Option<string>, retryable: bool)

  datatype RunInfo = RunInfo(
    attempts: seq<ProviderAttempt>, fallbackUsed: bool, fallbackReason: Option<string>, totalCost: real)

  datatype Outcome =
    | Responded(reply: Reply)
    | NonRetryable(attempt: ProviderAttempt)
    | AllFailed(attempts: seq<ProviderAttempt>)

  function Answer(c: Candidate, maxRetries: int): Reply {
    match c.provider
    case Anthropic(sdk, pricing) => ReplyOf(sdk, pricing, c.model, maxRetries)
    case Other(reply) => reply
  }

  function SdkCalls(c: Candidate, maxRetries: int): nat {
    match c.provider
    case Anthropic(sdk, _) => CallsMade(sdk, maxRetries)
    case Other(_) => 0
  }

  /** This candidate hands over to the next one. */
  predicate FallsThrough(c: Candidate, maxRetries: int) {
    var r := Answer(c, maxRetries);
    r.Raised? && Retryable(r.failure)
  }

  function AttemptOf(c: Candidate, maxRetries: int): ProviderAttempt {
    match Answer(c, maxRetries)
    case Success(_, _, _) => ProviderAttempt(c.name, c.model, true, None, false)
    case Raised(f) => ProviderAttempt(c.name, c.model, false, Some(f.message), Retryable(f))
  }

  function AttemptsOf(cs: seq<Candidate>, maxRetries: int): seq<ProviderAttempt> {
    Map(c => AttemptOf(c, maxRetries), cs)
  }

  function TotalSdkCalls(cs: seq<Candidate>, maxRetries: int): nat {
    if cs == [] then 0 else TotalSdkCalls(cs[..|cs| - 1], maxRetries) + SdkCalls(cs[|cs| - 1], maxRetries)
  }

  /** The first candidate at or after `i` that does not fall through; the number of candidates
      when there is none. */
  function Decisive(cs: seq<Candidate>, maxRetries: int, i: nat): (n: nat)
    requires i <= |cs|
    ensures i <= n <= |cs|
    decreases |cs| - i
  {
    if i < |cs| && FallsThrough(cs[i], maxRetries) then Decisive(cs, maxRetries, i + 1) else i
  }

  /** The candidates that were called. */
  function Tried(cs: seq<Candidate>, maxRetries: int): seq<Candidate> {
    var n := Decisive(cs, maxRetries, 0);
    if n == |cs| then cs else cs[..n + 1]
  }

  function OutcomeOf(cs: seq<Candidate>, maxRetries: int): Outcome {
    var n := Decisive(cs, maxRetries, 0);
    if n == |cs| then AllFailed(AttemptsOf(cs, maxRetries))
    else if Answer(cs[n], maxRetries).Success? then Responded(Answer(cs[n], maxRetries))
    else NonRetryable(AttemptOf(cs[n], maxRetries))
  }

  /** What the gateway remembers of the run. */
  function InfoOf(cs: seq<Candidate>, maxRetries: int): RunInfo
    requires cs != []
  {
    var attempts := AttemptsOf(Tried(cs, maxRetries), maxRetries);
    match OutcomeOf(cs, maxRetries)
    case Responded(reply) =>
      RunInfo(attempts, |attempts| > 1, if |attempts| > 1 then attempts[0].error else None,
              if reply.Success? then reply.cost else 0.0)
    case NonRetryable(attempt) => RunInfo(attempts, false, attempt.error, 0.0)
    case AllFailed(_) => RunInfo(attempts, |attempts| > 1, attempts[0].error, 0.0)
  }

  lemma OneMore(cs: seq<Candidate>, maxRetries: int, i: nat)
    requires i < |cs|
    ensures AttemptsOf(cs[..i + 1], maxRetries) == AttemptsOf(cs[..i], maxRetries) + [AttemptOf(cs[i], maxRetries)]
    ensures TotalSdkCalls(cs[..i + 1], maxRetries)
         == TotalSdkCalls(cs[..i], maxRetries) + SdkCalls(cs[i], maxRetries)
  {
    assert cs[..i + 1][..i] == cs[..i];
  }

  lemma EndsAt(cs: seq<Candidate>, maxRetries: int, n: nat)
    requires n < |cs| && Decisive(cs, maxRetries, 0) == n
    ensures Tried(cs, maxRetries) == cs[..n + 1]
    ensures var attempts := AttemptsOf(cs[..n + 1], maxRetries);
            match Answer(cs[n], maxRetries)
            case Success(_, cost, _) =>
              InfoOf(cs, maxRetries) == RunInfo(attempts, n > 0, if n > 0 then attempts[0].error else None, cost)
            case Raised(f) =>
              InfoOf(cs, maxRetries) == RunInfo(attempts, false, Some(f.message), 0.0)
  {
  }

  class LlmGateway {
    const candidates: seq<Candidate>
    var lastRun: Option<RunInfo>

    constructor (candidates: seq<Candidate>)
      requires candidates != []
      ensures this.candidates == candidates && lastRun == None
    {
      this.candidates := candidates;
      lastRun := None;
    }

    /** The program's constructor, which refuses an empty candidate list. */
    static method Create(candidates: seq<Candidate>) returns (gateway: LlmGateway?)
      ensures gateway == null <==> candidates == []
      ensures gateway != null ==> fresh(gateway) && gateway.candidates == candidates && gateway.lastRun == None
    {
      if candidates == [] {
        return null;
      }
      gateway := new LlmGateway(candidates);
    }

    /** The fallback loop as written; `sdkCalls` counts the SDK calls it caused. */
    method Complete(maxRetries: int, baseDelay: real, maxDelay: real, draw: nat -> real)
      returns (outcome: Outcome, sdkCalls: nat)
      requires candidates != []
      requires 0.0 <= baseDelay && 0.0 <= maxDelay && forall i :: 0.0 <= draw(i) <= 1.0
      modifies this`lastRun
      ensures outcome == OutcomeOf(candidates, maxRetries)
      ensures lastRun == Some(InfoOf(candidates, maxRetries))
      ensures sdkCalls == TotalSdkCalls(Tried(candidates, maxRetries), maxRetries)
    {
      var attempts: seq<ProviderAttempt> := [];
      sdkCalls := 0;
      for index := 0 to |candidates|
        invariant attempts == AttemptsOf(candidates[..index], maxRetries)
        invariant sdkCalls == TotalSdkCalls(candidates[..index], maxRetries)
        invariant Decisive(candidates, maxRetries, 0) == Decisive(candidates, maxRetries, index)
      {
        var candidate := candidates[index];
        var reply, calls := CallProvider(candidate, maxRetries, baseDelay, maxDelay, draw);
        sdkCalls := sdkCalls + calls;
        OneMore(candidates, maxRetries, index);
        if reply.Raised? {
          var retryable := Retryable(reply.failure);
          var attempt :=
            ProviderAttempt(candidate.name, candidate.model, false, Some(reply.failure.message), retryable);
          attempts := attempts + [attempt];
          if !retryable {
            EndsAt(candidates, maxRetries, index);
            lastRun := Some(RunInfo(attempts, false, attempt.error, 0.0));
            return NonRetryable(attempt), sdkCalls;
          }
        } else {
          attempts := attempts + [ProviderAttempt(candidate.name, candidate.model, true, None, false)];
          var fallbackUsed := index > 0;
          EndsAt(candidates, maxRetries, index);
          lastRun := Some(RunInfo(attempts, fallbackUsed, if fallbackUsed then attempts[0].error else None,
                                  reply.cost));
          return Responded(reply), sdkCalls;
        }
      }
      assert candidates[..|candidates|] == candidates;
      lastRun := Some(RunInfo(attempts, |attempts| > 1, attempts[0].error, 0.0));
      outcome := AllFailed(attempts);
    }
  }

  method CallProvider(c: Candidate, maxRetries: int, baseDelay: real, maxDelay: real, draw: nat -> real)
    returns (reply: Reply, calls: nat)
    requires 0.0 <= baseDelay && 0.0 <= maxDelay && forall i :: 0.0 <= draw(i) <= 1.0
    ensures reply == Answer(c, maxRetries) && calls == SdkCalls(c, maxRetries)
  {
    match c.provider
    case Anthropic(sdk, pricing) =>
      var sleeps;
      reply, calls, sleeps := ProviderRetry.Complete(sdk, pricing, c.model, maxRetries, baseDelay, maxDelay, draw);
    case Other(answer) =>
      reply, calls := answer, 0;
  }

  lemma {:induction false} DecisiveExactly(cs: seq<Candidate>, maxRetries: int, i: nat, n: nat)
    requires i <= |cs|
    ensures Decisive(cs, maxRetries, i) == n <==>
              && i <= n <= |cs|
              && (forall j :: i <= j < n ==> FallsThrough(cs[j], maxRetries))
              && (n < |cs| ==> !FallsThrough(cs[n], maxRetries))
    decreases |cs| - i
  {
    if i < |cs| && FallsThrough(cs[i], maxRetries) {
      DecisiveExactly(cs, maxRetries, i + 1, n);
    }
  }

  /** The gateway responds with `reply` exactly when some candidate succeeds with it and every
      candidate before that one failed retryably. */
  lemma RespondsExactlyWhen(cs: seq<Candidate>, maxRetries: int, reply: Reply)
    ensures OutcomeOf(cs, maxRetries) == Responded(reply) <==>
              && reply.Success?
              && exists n ::
                   && 0 <= n < |cs| && Answer(cs[n], maxRetries) == reply
                   && forall j :: 0 <= j < n ==> FallsThrough(cs[j], maxRetries)
  {
    var d := Decisive(cs, maxRetries, 0);
    DecisiveExactly(cs, maxRetries, 0, d);
    forall n | 0 <= n < |cs| && Answer(cs[n], maxRetries) == reply && reply.Success?
               && forall j :: 0 <= j < n ==> FallsThrough(cs[j], maxRetries)
      ensures n == d
    {
      DecisiveExactly(cs, maxRetries, 0, n);
    }
  }

  /** What a candidate answers, and how many SDK calls that takes. */
  lemma AnswerExactly(c: Candidate, maxRetries: int)
    ensures c.provider.Anthropic? ==>
              && Answer(c, maxRetries) == ReplyOf(c.provider.sdk, c.provider.pricing, c.model, maxRetries)
              && SdkCalls(c, maxRetries) == CallsMade(c.provider.sdk, maxRetries)
    ensures c.provider.Other? ==> Answer(c, maxRetries) == c.provider.reply && SdkCalls(c, maxRetries) == 0
  {
  }

  /** The attempt on record for candidate `c`, which answered `r`. */
  ghost predicate Records(a: ProviderAttempt, c: Candidate, r: Reply) {
    && a.provider == c.name && a.model == c.model && (a.success <==> r.Success?)
    && a.error == (if r.Raised? then Some(r.failure.message) else None)
    && (a.retryable <==> r.Raised? && Retryable(r.failure))
  }

  /** How a run ends and what is remembered of it, when candidate `n` is the first that does not fail
      retryably, or when there is none. */
  lemma OutcomeExactly(cs: seq<Candidate>, maxRetries: int, n: nat)
    requires cs != [] && n <= |cs|
    requires forall j :: 0 <= j < n ==> Answer(cs[j], maxRetries).Raised? && Retryable(Answer(cs[j], maxRetries).failure)
    requires n < |cs| ==> Answer(cs[n], maxRetries).Success? || !Retryable(Answer(cs[n], maxRetries).failure)
    ensures var info := InfoOf(cs, maxRetries);
            && |info.attempts| == (if n < |cs| then n + 1 else n)
            && (forall i :: 0 <= i < |info.attempts| ==> Records(info.attempts[i], cs[i], Answer(cs[i], maxRetries)))
            && var out := OutcomeOf(cs, maxRetries);
            if n == |cs| then
              && out == AllFailed(info.attempts) && info.totalCost == 0.0
              && info.fallbackReason == Some(Answer(cs[0], maxRetries).failure.message)
            else if Answer(cs[n], maxRetries).Success? then
              && out == Responded(Answer(cs[n], maxRetries)) && info.totalCost == Answer(cs[n], maxRetries).cost
              && info.fallbackReason == (if n == 0 then None else Some(Answer(cs[0], maxRetries).failure.message))
            else
              && out == NonRetryable(info.attempts[n]) && info.totalCost == 0.0
              && info.fallbackReason == Some(Answer(cs[n], maxRetries).failure.message)
  {
    hide Answer;
    DecisiveExactly(cs, maxRetries, 0, n);
  }

  /** An Anthropic candidate that is reached and answers, but whose model has no price, ends the
      run as a permanent failure: its SDK calls are spent, its answer is lost, and no fallback is
      called. */
  lemma UnpricedCandidateEndsRun(cs: seq<Candidate>, maxRetries: nat, n: nat, k: nat)
    requires n < |cs| && forall j :: 0 <= j < n ==> FallsThrough(cs[j], maxRetries)
    requires cs[n].provider.Anthropic? && cs[n].model !in cs[n].provider.pricing
    requires k <= maxRetries && cs[n].provider.sdk(k).Message?
    requires forall i :: 0 <= i < k ==> FailsRetryably(cs[n].provider.sdk(i))
    ensures OutcomeOf(cs, maxRetries) == NonRetryable(AttemptOf(cs[n], maxRetries))
    ensures Tried(cs, maxRetries) == cs[..n + 1]
    ensures TotalSdkCalls(Tried(cs, maxRetries), maxRetries) == TotalSdkCalls(cs[..n], maxRetries) + k + 1
  {
    UnpricedAnswerRaises(cs[n].provider.sdk, cs[n].provider.pricing, cs[n].model, maxRetries, k);
    DecisiveExactly(cs, maxRetries, 0, n);
    OneMore(cs, maxRetries, n);
  }

  /** Every recorded attempt but the last is a retryable failure, in candidate order, and the
      last one says how the run ended. */
  lemma AttemptsTellTheRun(cs: seq<Candidate>, maxRetries: int)
    requires cs != []
    ensures var attempts := InfoOf(cs, maxRetries).attempts;
            var last := attempts[|attempts| - 1];
            && 0 < |attempts| <= |cs|
            && (forall i :: 0 <= i < |attempts| ==>
                  attempts[i].provider == cs[i].name && attempts[i].model == cs[i].model)
            && (forall i :: 0 <= i < |attempts| - 1 ==> !attempts[i].success && attempts[i].retryable)
            && (OutcomeOf(cs, maxRetries).Responded? <==> last.success)
            && (OutcomeOf(cs, maxRetries).NonRetryable? <==> !last.success && !last.retryable)
            && (OutcomeOf(cs, maxRetries).AllFailed? ==> |attempts| == |cs|)
  {
    var d := Decisive(cs, maxRetries, 0);
    DecisiveExactly(cs, maxRetries, 0, d);
  }

  /** Handing a second list of fallbacks to a gateway matters exactly when the first list is
      exhausted: no later candidate is called, or even looked at, before that. */
  lemma {:induction false} FallbacksCompose(cs: seq<Candidate>, ds: seq<Candidate>, maxRetries: int)
    ensures !OutcomeOf(cs, maxRetries).AllFailed? ==>
              && OutcomeOf(cs + ds, maxRetries) == OutcomeOf(cs, maxRetries)
              && Tried(cs + ds, maxRetries) == Tried(cs, maxRetries)
    ensures OutcomeOf(cs, maxRetries).AllFailed? ==>
              && Tried(cs + ds, maxRetries) == cs + Tried(ds, maxRetries)
              && (!OutcomeOf(ds, maxRetries).AllFailed? ==>
                    OutcomeOf(cs + ds, maxRetries) == OutcomeOf(ds, maxRetries))
              && (OutcomeOf(ds, maxRetries).AllFailed? ==> OutcomeOf(cs + ds, maxRetries).AllFailed?)
  {
    var c, d := Decisive(cs, maxRetries, 0), Decisive(ds, maxRetries, 0);
    DecisiveExactly(cs, maxRetries, 0, c);
    DecisiveExactly(ds, maxRetries, 0, d);
    var both := cs + ds;
    if c < |cs| {
      DecisiveExactly(both, maxRetries, 0, c);
      assert both[..c + 1] == cs[..c + 1];
    } else {
      DecisiveExactly(both, maxRetries, 0, |cs| + d);
      if d < |ds| {
        assert both[..|cs| + d + 1] == cs + ds[..d + 1];
      }
    }
  }

  /** This candidate fails for good. */
  predicate FailsForGood(c: Candidate, maxRetries: int) {
    var r := Answer(c, maxRetries);
    r.Raised? && !Retryable(r.failure)
  }

  /** Some fallback is reached and fails for good. */
  ghost predicate FallbackFailsForGood(cs: seq<Candidate>, maxRetries: int) {
    exists i :: 0 < i < |cs| && FailsForGood(cs[i], maxRetries)
      && forall j :: 0 <= j < i ==> FallsThrough(cs[j], maxRetries)
  }

  /** `fallback_used` does not say whether a fallback was used. On the candidates: a fallback is
      called exactly when there is one and the first candidate falls through; the flag says so
      exactly when, besides, no fallback that is reached fails for good. */
  lemma FallbackFlagExactly(cs: seq<Candidate>, maxRetries: int)
    requires cs != []
    ensures |Tried(cs, maxRetries)| > 1 <==> |cs| > 1 && FallsThrough(cs[0], maxRetries)
    ensures InfoOf(cs, maxRetries).fallbackUsed <==>
              |cs| > 1 && FallsThrough(cs[0], maxRetries) && !FallbackFailsForGood(cs, maxRetries)
  {
    hide Answer;
    var d := Decisive(cs, maxRetries, 0);
    DecisiveExactly(cs, maxRetries, 0, d);
    FallbackFailsAt(cs, maxRetries, d);
  }

  lemma FallbackFailsAt(cs: seq<Candidate>, maxRetries: int, d: nat)
    requires d == Decisive(cs, maxRetries, 0)
    ensures FallbackFailsForGood(cs, maxRetries) <==> 0 < d < |cs| && FailsForGood(cs[d], maxRetries)
  {
    DecisiveExactly(cs, maxRetries, 0, d);
    forall i | 0 < i < |cs| && FailsForGood(cs[i], maxRetries)
               && forall j :: 0 <= j < i ==> FallsThrough(cs[j], maxRetries)
      ensures i == d
    {
      DecisiveExactly(cs, maxRetries, 0, i);
    }
  }

  lemma FallbackFlagMisleads()
    ensures exists cs: seq<Candidate> :: cs != [] && |Tried(cs, 0)| > 1 && !InfoOf(cs, 0).fallbackUsed
  {
    var timeout := Candidate("a", "m", Other(Raised(Failure("TimeoutError", "slow"))));
    var refused := Candidate("b", "m", Other(Raised(Failure("AuthenticationError", "key"))));
    var cs := [timeout, refused];
    assert FallsThrough(timeout, 0) && !FallsThrough(refused, 0);
    DecisiveExactly(cs, 0, 0, 1);
    assert Tried(cs, 0) == cs;
  }

  ghost function AnthropicCount(cs: seq<Candidate>): nat {
    if cs == [] then 0
    else AnthropicCount(cs[..|cs| - 1]) + if cs[|cs| - 1].provider.Anthropic? then 1 else 0
  }

  /** Every Anthropic candidate is good for at most `max_retries` + 1 SDK calls, and the ones
      never reached for none. */
  lemma {:induction false} TotalCallsBounded(cs: seq<Candidate>, maxRetries: nat)
    ensures TotalSdkCalls(cs, maxRetries) <= AnthropicCount(cs) * (maxRetries + 1)
  {
    if cs != [] {
      TotalCallsBounded(cs[..|cs| - 1], maxRetries);
    }
  }

  lemma CompleteCallsBounded(cs: seq<Candidate>, maxRetries: nat)
    ensures TotalSdkCalls(Tried(cs, maxRetries), maxRetries) <= AnthropicCount(cs) * (maxRetries + 1)
  {
    var tried := Tried(cs, maxRetries);
    TotalCallsBounded(tried, maxRetries);
    assert cs[..|tried|] == tried;
    CountGrows(cs, |tried|);
    TimesMonotone(AnthropicCount(tried), AnthropicCount(cs), maxRetries + 1);
  }

  lemma TimesMonotone(a: nat, b: nat, c: nat)
    requires a <= b
    ensures a * c <= b * c
  {
  }

  lemma {:induction false} CountGrows(cs: seq<Candidate>, n: nat)
    requires n <= |cs|
    ensures AnthropicCount(cs[..n]) <= AnthropicCount(cs)
    decreases |cs| - n
  {
    if n == |cs| {
      assert cs[..n] == cs;
    } else {
      CountGrows(cs, n + 1);
      assert cs[..n + 1][..n] == cs[..n];
    }
  }
}
