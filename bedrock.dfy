/** The Bedrock client: configuration checks, a semaphore bounding parallel
    calls, and the retry loop of `Messages`. The model service is an oracle
    giving the outcome of attempt `k` for a prompt; `rand.Int63n` is an oracle
    giving the jitter drawn before retry `k`. */
module Bedrock {
  import opened Wrappers
  import opened Backoff
  import opened RateLimit

  datatype ClientConfig = ClientConfig(
    maxRequestsPerMinute: int,
    maxRetries: int,
    initialRetryDelay: int,
    maxRetryDelay: int,
    awsRegion: string,
    inferenceProfileArn: string,
    maxParallelRequests: int)

  /** `DefaultConfig`: 50 requests per minute, 20 attempts, 1 s initial delay,
      3 min maximum sleep, region us-east-1, no inference profile, 5 parallel calls. */
  function DefaultConfig(): ClientConfig
  {
    ClientConfig(50, 20, Second, 3 * Minute, "us-east-1", "", 5)
  }

  datatype ConfigError = MissingInferenceProfile | TooFewParallelRequests | LoadFailed(message: string)

  /** The configuration chosen by `NewBedrockClient`: the first one given, else the default. */
  function ChosenConfig(configs: seq<ClientConfig>): (c: ClientConfig)
    ensures configs == [] ==> c == DefaultConfig()
    ensures configs != [] ==> c == configs[0]
  {
    if |configs| > 0 then configs[0] else DefaultConfig()
  }

  /** The checks `NewBedrockClient` makes before loading the AWS configuration. */
  function CheckConfig(cfg: ClientConfig): (r: Option<ConfigError>)
    ensures r.None? <==> cfg.inferenceProfileArn != "" && cfg.maxParallelRequests >= 1
    ensures cfg.inferenceProfileArn == "" ==> r == Some(MissingInferenceProfile)
    ensures r.Some? ==> !r.value.LoadFailed?
  {
    if cfg.inferenceProfileArn == "" then Some(MissingInferenceProfile)
    else if cfg.maxParallelRequests < 1 then Some(TooFewParallelRequests)
    else None
  }

  /** Without a configuration the client cannot be built: the default has no
      inference profile. With one set, the default passes the checks. */
  lemma DefaultNeedsProfile(arn: string)
    requires arn != ""
    ensures CheckConfig(ChosenConfig([])) == Some(MissingInferenceProfile)
    ensures CheckConfig(DefaultConfig().(inferenceProfileArn := arn)) == None
  {
  }

  /** The whole default schedule: a sleep comes before retries 1 to 19 only
      (k < MaxRetries - 1), and the sleep after attempt k is
      `min(2^k s + jitter, 3 min)`; from k = 8 on the delay of 256 s already
      exceeds the cap, so every such sleep is exactly 3 minutes. */
  lemma DefaultSchedule(k: nat, jitter: int)
    requires k < DefaultConfig().maxRetries - 1
    requires JitterFits(DelayAt(DefaultConfig().initialRetryDelay, k), jitter)
    ensures var sleep := SleepTime(DelayAt(DefaultConfig().initialRetryDelay, k), jitter, DefaultConfig().maxRetryDelay);
      && sleep == Min(Second * Pow2(k) + jitter, 3 * Minute)
      && (8 <= k ==> sleep == 3 * Minute)
  {
    DoubledSeconds();
    ScheduleSleep(Second, k, 18, jitter, 3 * Minute);
    if 8 <= k {
      CappedSleep(Second, 8, k, 18, jitter, 3 * Minute);
    }
  }

  /** The outcome of one `InvokeModel` call followed by decoding its body. */
  datatype InvokeOutcome =
    | ApiError(code: string)
    | OtherError(message: string)
    | Undecodable
    | Decoded(texts: seq<string>)

  datatype MessagesError =
    | InvokeFailed(cause: InvokeOutcome)
    | DecodeFailed
    | EmptyResponse
    | MaxRetriesReached

  /** What `Messages` ends with: the text, an error, or a panic of `rand.Int63n`
      on a non-positive bound (a retry delay under two nanoseconds, which a
      wrapped-around doubling also produces). */
  datatype Answer = Answered(text: string) | Failed(error: MessagesError) | Panicked

  /** The AWS error codes that are retried. */
  predicate IsRetryable(code: string)
  {
    code == "ThrottlingException" || code == "ServiceUnavailable" || code == "InternalServerError"
  }

  /** The answer, the number of attempts made and the sleeps between them. */
  datatype Trace = Trace(answer: Answer, attempts: nat, sleeps: seq<int>)

  /** An attempt is retried when it failed with a retryable code and is not the last one allowed. */
  predicate Retried(cfg: ClientConfig, outcome: InvokeOutcome, attempt: nat)
  {
    outcome.ApiError? && IsRetryable(outcome.code) && attempt < cfg.maxRetries - 1
  }

  /** The answer of an attempt that is not retried: the first content block's
      text, or the error. */
  function Settle(outcome: InvokeOutcome): (a: Answer)
    ensures a.Answered? <==> outcome.Decoded? && |outcome.texts| > 0
    ensures a.Answered? ==> a.text == outcome.texts[0]
    ensures a.Failed? && a.error.InvokeFailed? <==> outcome.ApiError? || outcome.OtherError?
    ensures a.Failed? && a.error.InvokeFailed? ==> a.error.cause == outcome
    ensures outcome == Undecodable ==> a == Failed(DecodeFailed)
    ensures outcome == Decoded([]) ==> a == Failed(EmptyResponse)
    ensures a != Panicked && a != Failed(MaxRetriesReached)
  {
    match outcome
    case ApiError(_) => Failed(InvokeFailed(outcome))
    case OtherError(_) => Failed(InvokeFailed(outcome))
    case Undecodable => Failed(DecodeFailed)
    case Decoded(texts) => if |texts| > 0 then Answered(texts[0]) else Failed(EmptyResponse)
  }

  /** The retry loop from attempt `attempt` on, with `sleeps` the sleeps so far. */
  function Attempts(cfg: ClientConfig, prompt: string, invoke: (string, nat) -> InvokeOutcome,
                    jitter: nat -> int, attempt: nat, sleeps: seq<int>): Trace
    requires IsInt64(cfg.initialRetryDelay)
    decreases cfg.maxRetries - attempt
  {
    if attempt >= cfg.maxRetries then Trace(Failed(MaxRetriesReached), attempt, sleeps)
    else
      var outcome := invoke(prompt, attempt);
      if !Retried(cfg, outcome, attempt) then Trace(Settle(outcome), attempt + 1, sleeps)
      else
        var delay := DelayAt(cfg.initialRetryDelay, attempt);
        if Half(delay) <= 0 then Trace(Panicked, attempt + 1, sleeps)
        else
          var sleep := SleepTime(delay, jitter(attempt), cfg.maxRetryDelay);
          Attempts(cfg, prompt, invoke, jitter, attempt + 1, sleeps + [sleep])
  }

  /** At most `MaxRetries` attempts, one sleep between consecutive attempts, and
      the sleep before retry `k` computed from the `k`-th delay and jitter;
      "max retries reached" exactly when no attempt is allowed at all. */
  lemma {:induction false} AttemptsShape(cfg: ClientConfig, prompt: string, invoke: (string, nat) -> InvokeOutcome,
                                         jitter: nat -> int, attempt: nat, sleeps: seq<int>)
    requires IsInt64(cfg.initialRetryDelay)
    requires |sleeps| == attempt
    ensures var t := Attempts(cfg, prompt, invoke, jitter, attempt, sleeps);
      && (attempt >= cfg.maxRetries ==> t == Trace(Failed(MaxRetriesReached), attempt, sleeps))
      && (attempt < cfg.maxRetries ==>
            && attempt < t.attempts <= cfg.maxRetries
            && t.answer != Failed(MaxRetriesReached)
            && |t.sleeps| == t.attempts - 1
            && t.sleeps[..attempt] == sleeps
            && forall k :: attempt <= k < |t.sleeps| ==>
                 t.sleeps[k] == SleepTime(DelayAt(cfg.initialRetryDelay, k), jitter(k), cfg.maxRetryDelay))
    decreases cfg.maxRetries - attempt
  {
    if attempt < cfg.maxRetries {
      var outcome := invoke(prompt, attempt);
      if Retried(cfg, outcome, attempt) && Half(DelayAt(cfg.initialRetryDelay, attempt)) > 0 {
        var sleep := SleepTime(DelayAt(cfg.initialRetryDelay, attempt), jitter(attempt), cfg.maxRetryDelay);
        AttemptsShape(cfg, prompt, invoke, jitter, attempt + 1, sleeps + [sleep]);
        assert (sleeps + [sleep])[..attempt] == sleeps;
      }
    }
  }

  /** Every attempt before the last failed with a retryable AWS error code, and
      the last attempt's outcome decides the answer: a success returns the
      first content block's text, and an invocation error is returned only if
      it is not retryable or no attempt is left. */
  lemma {:induction false} AttemptsOutcome(cfg: ClientConfig, prompt: string, invoke: (string, nat) -> InvokeOutcome,
                                           jitter: nat -> int, attempt: nat, sleeps: seq<int>)
    requires IsInt64(cfg.initialRetryDelay)
    requires attempt < cfg.maxRetries
    ensures var t := Attempts(cfg, prompt, invoke, jitter, attempt, sleeps);
      && t.attempts >= 1
      && (forall k :: attempt <= k < t.attempts - 1 ==>
            invoke(prompt, k).ApiError? && IsRetryable(invoke(prompt, k).code))
      && var last := invoke(prompt, t.attempts - 1);
      && (t.answer.Answered? <==> last.Decoded? && |last.texts| > 0)
      && (t.answer.Answered? ==> t.answer.text == last.texts[0])
      && (t.answer == Failed(DecodeFailed) <==> last == Undecodable)
      && (t.answer == Failed(EmptyResponse) <==> last == Decoded([]))
      && (t.answer.Failed? && t.answer.error.InvokeFailed? ==>
            t.answer.error.cause == last &&
            (last.OtherError? || !IsRetryable(last.code) || t.attempts == cfg.maxRetries))
      && (t.answer == Panicked ==>
            last.ApiError? && IsRetryable(last.code) && Half(DelayAt(cfg.initialRetryDelay, t.attempts - 1)) <= 0)
    decreases cfg.maxRetries - attempt
  {
    var outcome := invoke(prompt, attempt);
    if Retried(cfg, outcome, attempt) && Half(DelayAt(cfg.initialRetryDelay, attempt)) > 0 {
      var sleep := SleepTime(DelayAt(cfg.initialRetryDelay, attempt), jitter(attempt), cfg.maxRetryDelay);
      AttemptsOutcome(cfg, prompt, invoke, jitter, attempt + 1, sleeps + [sleep]);
    }
  }

  /** The client: its configuration, its token bucket, and the semaphore that
      bounds the number of `Messages` calls in flight. */
  class BedrockClient {
    const config: ClientConfig
    const limiter: RateLimiter
    /** The number of slots of the semaphore channel currently filled. */
    var inFlight: int
    /** How many times the semaphore has been acquired. */
    ghost var acquisitions: nat

    ghost predicate Valid()
      reads this, limiter
    {
      && limiter.Valid()
      && limiter.capacity == config.maxRequestsPerMinute
      && IsInt64(config.initialRetryDelay)
      && config.inferenceProfileArn != ""
      && 1 <= config.maxParallelRequests
      && 0 <= inFlight <= config.maxParallelRequests
    }

    constructor (config: ClientConfig)
      requires CheckConfig(config).None?
      requires config.maxRequestsPerMinute >= 0 && IsInt64(config.initialRetryDelay)
      ensures Valid() && fresh(limiter)
      ensures this.config == config && inFlight == 0 && acquisitions == 0
      ensures limiter.tokens == config.maxRequestsPerMinute && limiter.waits == 0 && limiter.releases == 0
    {
      this.config := config;
      limiter := new RateLimiter(config.maxRequestsPerMinute, Minute);
      inFlight := 0;
      acquisitions := 0;
    }

    /** `Messages`: take a semaphore slot, run the retry loop, give the slot back.
        A full semaphore blocks, and so does an empty bucket when an attempt is
        allowed; both are preconditions. */
    method Messages(prompt: string, invoke: (string, nat) -> InvokeOutcome, jitter: nat -> int)
      returns (answer: Answer, ghost sleeps: seq<int>)
      requires Valid()
      requires inFlight < config.maxParallelRequests
      requires config.maxRetries <= 0 || limiter.tokens > 0
      modifies this, limiter
      ensures Valid()
      ensures inFlight == old(inFlight) && acquisitions == old(acquisitions) + 1
      ensures var t := Attempts(config, prompt, invoke, jitter, 0, []);
        && answer == t.answer && sleeps == t.sleeps
        && limiter.tokens == old(limiter.tokens)
        && limiter.waits == old(limiter.waits) + t.attempts
        && limiter.releases == old(limiter.releases) + t.attempts
    {
      inFlight := inFlight + 1;
      acquisitions := acquisitions + 1;
      answer, sleeps := Retry(prompt, invoke, jitter);
      inFlight := inFlight - 1;
    }

    /** The retry loop of `Messages`. */
    method Retry(prompt: string, invoke: (string, nat) -> InvokeOutcome, jitter: nat -> int)
      returns (answer: Answer, ghost sleeps: seq<int>)
      requires limiter.Valid() && IsInt64(config.initialRetryDelay)
      requires config.maxRetries <= 0 || limiter.tokens > 0
      modifies limiter
      ensures limiter.Valid()
      ensures var t := Attempts(config, prompt, invoke, jitter, 0, []);
        && answer == t.answer && sleeps == t.sleeps
        && limiter.tokens == old(limiter.tokens)
        && limiter.waits == old(limiter.waits) + t.attempts
        && limiter.releases == old(limiter.releases) + t.attempts
    {
      ghost var t := Attempts(config, prompt, invoke, jitter, 0, []);
      var attempt := 0;
      var retryDelay := config.initialRetryDelay;
      sleeps := [];
      while attempt < config.maxRetries
        invariant |sleeps| == attempt
        invariant attempt > 0 ==> attempt < config.maxRetries
        invariant retryDelay == DelayAt(config.initialRetryDelay, attempt)
        invariant t == Attempts(config, prompt, invoke, jitter, attempt, sleeps)
        invariant limiter.Valid() && limiter.tokens == old(limiter.tokens)
        invariant limiter.waits == old(limiter.waits) + attempt
        invariant limiter.releases == old(limiter.releases) + attempt
      {
        var outcome := Attempt(prompt, invoke, attempt);
        if Retried(config, outcome, attempt) {
          if Half(retryDelay) <= 0 {
            return Panicked, sleeps;
          }
          var sleepTime := SleepTime(retryDelay, jitter(attempt), config.maxRetryDelay);
          AttemptsRetry(config, prompt, invoke, jitter, attempt, sleeps);
          sleeps := sleeps + [sleepTime];
          retryDelay := Wrap64(retryDelay * 2);
          attempt := attempt + 1;
        } else {
          return Settle(outcome), sleeps;
        }
      }
      return Failed(MaxRetriesReached), sleeps;
    }

    /** One attempt: wait for a token, invoke the model and decode the body,
        then give the token back (every exit path of an attempt releases it). */
    method Attempt(prompt: string, invoke: (string, nat) -> InvokeOutcome, attempt: nat)
      returns (outcome: InvokeOutcome)
      requires limiter.Valid() && limiter.tokens > 0
      modifies limiter
      ensures outcome == invoke(prompt, attempt)
      ensures limiter.Valid() && limiter.tokens == old(limiter.tokens)
      ensures limiter.waits == old(limiter.waits) + 1 && limiter.releases == old(limiter.releases) + 1
    {
      limiter.Wait();
      outcome := invoke(prompt, attempt);
      limiter.Release();
    }
  }

  /** One step of the retry loop after a retried attempt. */
  lemma AttemptsRetry(cfg: ClientConfig, prompt: string, invoke: (string, nat) -> InvokeOutcome,
                      jitter: nat -> int, attempt: nat, sleeps: seq<int>)
    requires IsInt64(cfg.initialRetryDelay)
    requires Retried(cfg, invoke(prompt, attempt), attempt)
    requires Half(DelayAt(cfg.initialRetryDelay, attempt)) > 0
    ensures Attempts(cfg, prompt, invoke, jitter, attempt, sleeps) ==
      Attempts(cfg, prompt, invoke, jitter, attempt + 1,
               sleeps + [SleepTime(DelayAt(cfg.initialRetryDelay, attempt), jitter(attempt), cfg.maxRetryDelay)])
  {
  }
}
