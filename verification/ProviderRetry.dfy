/** `complete` of `app/llm/anthropic_provider.py`: the retry loop and the pricing of the answer,
    with the shared failure classification of `app/llm/error_classification.py`. */
module ProviderRetry {
  import opened Prelude

  /** An exception, as far as the code looks at it: its type name and its text. */
  datatype Failure = Failure(kind: string, message: string)

  const RETRYABLE_KINDS := {
    "APIConnectionError", "APITimeoutError", "TimeoutError", "ConnectionError", "RateLimitError",
    "InternalServerError", "OverloadedError", "ServiceUnavailableError"}

  predicate Retryable(f: Failure) {
    f.kind in RETRYABLE_KINDS
  }

  datatype SdkReply =
    | Message(content: string, inputTokens: nat, outputTokens: nat)
    | SdkRaised(failure: Failure)

  /** What the SDK does on the call of each attempt; arbitrary. */
  type Sdk = nat -> SdkReply

  datatype Reply = Success(content: string, cost: real, retries: nat) | Raised(failure: Failure)

  /** Dollars for a million tokens. */
  datatype Rate = Rate(input: real, output: real)

  /** The configured prices, by model. */
  type Pricing = map<string, Rate>

  const KEY_ERROR := "KeyError"

  /** `PricingTable.estimate_cost`; a model without a price raises. */
  function EstimateCost(pricing: Pricing, model: string, inputTokens: nat, outputTokens: nat)
    : Result<real, Failure>
  {
    if model !in pricing then Err(Failure(KEY_ERROR, "no pricing configured for model " + model))
    else
      Ok(inputTokens as real / 1000000.0 * pricing[model].input
         + outputTokens as real / 1000000.0 * pricing[model].output)
  }

  predicate FailsRetryably(r: SdkReply) {
    r.SdkRaised? && Retryable(r.failure)
  }

  /** With a negative `max_retries` the loop body never runs and the assertion after it fails. */
  const NO_ATTEMPT := Failure("AssertionError", "")

  /** The attempt that settles the call: the first that does not fail retryably, or the last. */
  function Settling(sdk: Sdk, maxRetries: nat, attempt: nat): (n: nat)
    requires attempt <= maxRetries
    ensures attempt <= n <= maxRetries
    decreases maxRetries - attempt
  {
    if attempt < maxRetries && FailsRetryably(sdk(attempt)) then Settling(sdk, maxRetries, attempt + 1)
    else attempt
  }

  function CallsMade(sdk: Sdk, maxRetries: int): nat {
    if maxRetries < 0 then 0 else Settling(sdk, maxRetries, 0) + 1
  }

  /** How a call ends. An answer is priced after it was paid for, outside the retry loop. */
  function ReplyOf(sdk: Sdk, pricing: Pricing, model: string, maxRetries: int): Reply {
    if maxRetries < 0 then Raised(NO_ATTEMPT)
    else
      var n := Settling(sdk, maxRetries, 0);
      match sdk(n)
      case SdkRaised(failure) => Raised(failure)
      case Message(content, inputTokens, outputTokens) =>
        match EstimateCost(pricing, model, inputTokens, outputTokens)
        case Err(failure) => Raised(failure)
        case Ok(cost) => Success(content, cost, n)
  }

  function Pow2(n: nat): nat {
    if n == 0 then 1 else 2 * Pow2(n - 1)
  }

  function UpperBound(baseDelay: real, maxDelay: real, attempt: nat): real {
    var grown := baseDelay * Pow2(attempt) as real;
    if grown < maxDelay then grown else maxDelay
  }

  /** `random.uniform(0, upper_bound)`, where `draw` is the underlying number in [0, 1]. */
  function BackoffDelay(baseDelay: real, maxDelay: real, attempt: nat, draw: real): real {
    UpperBound(baseDelay, maxDelay, attempt) * draw
  }

  lemma DelayBounded(baseDelay: real, maxDelay: real, attempt: nat, draw: real)
    requires 0.0 <= baseDelay && 0.0 <= maxDelay && 0.0 <= draw <= 1.0
    ensures 0.0 <= BackoffDelay(baseDelay, maxDelay, attempt, draw) <= UpperBound(baseDelay, maxDelay, attempt)
    ensures UpperBound(baseDelay, maxDelay, attempt) <= maxDelay
  {
    var grown := baseDelay * Pow2(attempt) as real;
    assert 0.0 <= grown;
    var upper := UpperBound(baseDelay, maxDelay, attempt);
    assert 0.0 <= upper;
    assert 0.0 <= upper * draw;
    assert 0.0 <= upper * (1.0 - draw);
  }

  /** The loop as written: how often the SDK was called, how long it slept between, and how it
      ended. */
  method Complete(sdk: Sdk, pricing: Pricing, model: string, maxRetries: int, baseDelay: real, maxDelay: real, draw: nat -> real)
    returns (reply: Reply, calls: nat, sleeps: seq<real>)
    requires 0.0 <= baseDelay && 0.0 <= maxDelay && forall i :: 0.0 <= draw(i) <= 1.0
    ensures reply == ReplyOf(sdk, pricing, model, maxRetries) && calls == CallsMade(sdk, maxRetries)
    ensures calls <= if maxRetries < 0 then 0 else maxRetries + 1
    ensures reply.Success? ==> reply.retries == calls - 1
    ensures |sleeps| == if calls == 0 then 0 else calls - 1
    ensures forall i :: 0 <= i < |sleeps| ==> sleeps[i] == UpperBound(baseDelay, maxDelay, i) * draw(i)
    ensures forall i :: 0 <= i < |sleeps| ==> 0.0 <= sleeps[i] <= UpperBound(baseDelay, maxDelay, i)
  {
    calls, sleeps := 0, [];
    var retries: nat := 0;
    var attempt: nat := 0;
    while attempt <= maxRetries
      invariant attempt == calls == retries == |sleeps|
      invariant attempt <= maxRetries || attempt == 0
      invariant maxRetries >= 0 ==> Settling(sdk, maxRetries, 0) == Settling(sdk, maxRetries, attempt)
      invariant forall i :: 0 <= i < |sleeps| ==> sleeps[i] == UpperBound(baseDelay, maxDelay, i) * draw(i)
      invariant forall i :: 0 <= i < |sleeps| ==> 0.0 <= sleeps[i] <= UpperBound(baseDelay, maxDelay, i)
      decreases maxRetries + 1 - attempt
    {
      calls := calls + 1;
      var answer := sdk(attempt);
      if answer.Message? {
        var cost := EstimateCost(pricing, model, answer.inputTokens, answer.outputTokens);
        if cost.Err? {
          return Raised(cost.error), calls, sleeps;
        }
        return Success(answer.content, cost.value, retries), calls, sleeps;
      }
      if attempt == maxRetries || !Retryable(answer.failure) {
        return Raised(answer.failure), calls, sleeps;
      }
      retries := attempt + 1;
      DelayBounded(baseDelay, maxDelay, attempt, draw(attempt));
      sleeps := sleeps + [BackoffDelay(baseDelay, maxDelay, attempt, draw(attempt))];
      attempt := attempt + 1;
    }
    reply := Raised(NO_ATTEMPT);
  }

  lemma {:induction false} SettlingExactly(sdk: Sdk, maxRetries: nat, attempt: nat, n: nat)
    requires attempt <= maxRetries
    ensures Settling(sdk, maxRetries, attempt) == n <==>
              && attempt <= n <= maxRetries
              && (forall i :: attempt <= i < n ==> FailsRetryably(sdk(i)))
              && (n < maxRetries ==> !FailsRetryably(sdk(n)))
    decreases maxRetries - attempt
  {
    if attempt < maxRetries && FailsRetryably(sdk(attempt)) {
      SettlingExactly(sdk, maxRetries, attempt + 1, n);
    }
  }

  /** A call succeeds with `n` retries exactly when the model has a price, attempt `n` is within
      the budget and brings a message, and every attempt before it failed retryably. */
  lemma SucceedsExactlyWhen(sdk: Sdk, pricing: Pricing, model: string, maxRetries: int, n: nat)
    ensures var r := ReplyOf(sdk, pricing, model, maxRetries);
            (r.Success? && r.retries == n) <==>
              && model in pricing && n <= maxRetries && sdk(n).Message?
              && forall i :: 0 <= i < n ==> FailsRetryably(sdk(i))
  {
    if maxRetries >= 0 {
      SettlingExactly(sdk, maxRetries, 0, n);
    }
  }

  /** Which failures are worth another attempt. */
  lemma RetryableExactly(f: Failure)
    ensures Retryable(f) <==>
              || f.kind in {"APIConnectionError", "APITimeoutError", "ConnectionError", "TimeoutError"}
              || f.kind in {"RateLimitError", "OverloadedError", "InternalServerError", "ServiceUnavailableError"}
  {
  }

  /** What a call returns: the content of the attempt that settles it, priced by the tokens in and
      out; or that attempt's failure; or, for a model without a price, a KeyError. */
  lemma ReplyExactly(sdk: Sdk, pricing: Pricing, model: string, maxRetries: nat, n: nat)
    requires n <= maxRetries && forall i :: 0 <= i < n ==> sdk(i).SdkRaised? && Retryable(sdk(i).failure)
    requires n < maxRetries ==> sdk(n).Message? || !Retryable(sdk(n).failure)
    ensures CallsMade(sdk, maxRetries) == n + 1
    ensures var r := ReplyOf(sdk, pricing, model, maxRetries);
            match sdk(n)
            case SdkRaised(f) => r == Raised(f)
            case Message(content, inputTokens, outputTokens) =>
              if model in pricing then
                && r.Success? && r.content == content && r.retries == n
                && 1000000.0 * r.cost == inputTokens as real * pricing[model].input + outputTokens as real * pricing[model].output
              else r.Raised? && r.failure.kind == "KeyError"
  {
    SettlingExactly(sdk, maxRetries, 0, n);
    match sdk(n)
    case SdkRaised(_) =>
    case Message(_, inputTokens, outputTokens) =>
      if model in pricing {
        CostExactly(inputTokens as real, pricing[model].input);
        CostExactly(outputTokens as real, pricing[model].output);
      }
  }

  lemma CostExactly(tokens: real, rate: real)
    ensures 1000000.0 * (tokens / 1000000.0 * rate) == tokens * rate
  {
    var millions := tokens / 1000000.0;
    assert 1000000.0 * millions == tokens;
    assert 1000000.0 * (millions * rate) == (1000000.0 * millions) * rate;
  }

  /** Without any attempt the assertion after the loop fails. */
  lemma NoAttemptFails(sdk: Sdk, pricing: Pricing, model: string, maxRetries: int)
    requires maxRetries < 0
    ensures ReplyOf(sdk, pricing, model, maxRetries) == Raised(Failure("AssertionError", ""))
    ensures CallsMade(sdk, maxRetries) == 0
  {
  }

  /** The bound on a wait starts at the base delay and doubles with every attempt, up to the cap. */
  lemma BoundExactly(baseDelay: real, maxDelay: real, attempt: nat)
    requires 0.0 <= baseDelay && 0.0 <= maxDelay
    ensures UpperBound(baseDelay, maxDelay, 0) == if baseDelay < maxDelay then baseDelay else maxDelay
    ensures var next := 2.0 * UpperBound(baseDelay, maxDelay, attempt);
            UpperBound(baseDelay, maxDelay, attempt + 1) == if next < maxDelay then next else maxDelay
  {
    var p := Pow2(attempt) as real;
    assert Pow2(attempt + 1) as real == 2.0 * p;
    assert baseDelay * (2.0 * p) == 2.0 * (baseDelay * p);
    assert baseDelay * p >= 0.0;
  }

  /** Without a price an answer is lost after it was paid for: the call raises although attempt
      `n` brought a message, its `n` + 1 SDK calls are spent, and the failure is permanent. */
  lemma UnpricedAnswerRaises(sdk: Sdk, pricing: Pricing, model: string, maxRetries: nat, n: nat)
    requires model !in pricing && n <= maxRetries && sdk(n).Message?
    requires forall i :: 0 <= i < n ==> FailsRetryably(sdk(i))
    ensures var r := ReplyOf(sdk, pricing, model, maxRetries);
            r.Raised? && r.failure.kind == KEY_ERROR && !Retryable(r.failure)
    ensures CallsMade(sdk, maxRetries) == n + 1
  {
    SettlingExactly(sdk, maxRetries, 0, n);
    assert sdk(n) == Message(sdk(n).content, sdk(n).inputTokens, sdk(n).outputTokens);
  }

  /** A larger retry budget changes only calls that ended in a retryable failure. */
  lemma MoreRetriesNeverHurt(sdk: Sdk, pricing: Pricing, model: string, maxRetries: nat, more: nat)
    requires maxRetries <= more
    requires var r := ReplyOf(sdk, pricing, model, maxRetries); r.Success? || !Retryable(r.failure)
    ensures ReplyOf(sdk, pricing, model, more) == ReplyOf(sdk, pricing, model, maxRetries)
    ensures CallsMade(sdk, more) == CallsMade(sdk, maxRetries)
  {
    var n := Settling(sdk, maxRetries, 0);
    SettlingExactly(sdk, maxRetries, 0, n);
    SettlingExactly(sdk, more, 0, n);
  }

  ghost function Sum(xs: seq<real>): real {
    if xs == [] then 0.0 else Sum(xs[..|xs| - 1]) + xs[|xs| - 1]
  }

  /** However the draws fall, the waits together stay below the geometric bound. */
  lemma {:induction false} TotalWaitGeometric(sleeps: seq<real>, baseDelay: real, maxDelay: real)
    requires 0.0 <= baseDelay && 0.0 <= maxDelay
    requires forall i :: 0 <= i < |sleeps| ==> sleeps[i] <= UpperBound(baseDelay, maxDelay, i)
    ensures Sum(sleeps) <= baseDelay * (Pow2(|sleeps|) as real - 1.0)
  {
    hide UpperBound, Pow2;
    if sleeps == [] {
      assert Pow2(0) == 1 by {
        BoundGrows(baseDelay, maxDelay, 0);
      }
    } else {
      var n := |sleeps| - 1;
      var before := sleeps[..n];
      TotalWaitGeometric(before, baseDelay, maxDelay);
      BoundGrows(baseDelay, maxDelay, n);
      OneMoreWait(baseDelay, Pow2(n) as real, Sum(before), sleeps[n]);
    }
  }

  lemma BoundGrows(baseDelay: real, maxDelay: real, n: nat)
    ensures UpperBound(baseDelay, maxDelay, n) <= baseDelay * Pow2(n) as real
    ensures Pow2(n + 1) as real == 2.0 * Pow2(n) as real && Pow2(0) == 1
  {
  }

  lemma OneMoreWait(base: real, pow: real, sum: real, sleep: real)
    requires sum <= base * (pow - 1.0) && sleep <= base * pow
    ensures sum + sleep <= base * (2.0 * pow - 1.0)
  {
  }

  /** And below `max_delay` for each of them. */
  lemma {:induction false} TotalWaitCapped(sleeps: seq<real>, maxDelay: real)
    requires forall i :: 0 <= i < |sleeps| ==> sleeps[i] <= maxDelay
    ensures Sum(sleeps) <= maxDelay * |sleeps| as real
  {
    if sleeps != [] {
      TotalWaitCapped(sleeps[..|sleeps| - 1], maxDelay);
    }
  }
}
