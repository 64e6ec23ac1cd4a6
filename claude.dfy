/** The Claude HTTP client: the retry loop of `Messages` over HTTP statuses and
    the concatenation of the text blocks of a successful answer. The HTTP
    exchange is an oracle giving the outcome of attempt `k`; `rand.Int63n` is
    an oracle giving the jitter drawn before retry `k`. The package carries
    its own copy of the Bedrock client's token bucket and back-off code; both
    clients share the modules `RateLimit` and `Backoff`. */
module Claude {
  import opened Wrappers
  import opened Sources
  import opened Backoff
  import opened RateLimit

  datatype ClientConfig = ClientConfig(
    maxRequestsPerMinute: int,
    maxRetries: int,
    initialRetryDelay: int,
    maxRetryDelay: int)

  /** `DefaultConfig`: 50 requests per minute, 10 attempts, 1 s initial delay, 60 s maximum sleep. */
  function DefaultConfig(): ClientConfig
  {
    ClientConfig(50, 10, Second, 60 * Second)
  }

  /** The configuration chosen by `NewClaudeClient`: the first one given, else the default. */
  function ChosenConfig(configs: seq<ClientConfig>): (c: ClientConfig)
    ensures configs == [] ==> c == DefaultConfig()
    ensures configs != [] ==> c == configs[0]
  {
    if |configs| > 0 then configs[0] else DefaultConfig()
  }

  /** The whole default schedule: a sleep comes before retries 1 to 9 only
      (k < MaxRetries - 1), and the sleep after attempt k is
      `min(2^k s + jitter, 60 s)`; from k = 6 on the delay of 64 s already
      exceeds the cap, so every such sleep is exactly 60 s. */
  lemma DefaultSchedule(k: nat, jitter: int)
    requires k < DefaultConfig().maxRetries - 1
    requires JitterFits(DelayAt(DefaultConfig().initialRetryDelay, k), jitter)
    ensures var sleep := SleepTime(DelayAt(DefaultConfig().initialRetryDelay, k), jitter, DefaultConfig().maxRetryDelay);
      && sleep == Min(Second * Pow2(k) + jitter, 60 * Second)
      && (6 <= k ==> sleep == 60 * Second)
  {
    DoubledSeconds();
    ScheduleSleep(Second, k, 8, jitter, 60 * Second);
    if 6 <= k {
      CappedSleep(Second, 6, k, 8, jitter, 60 * Second);
    }
  }

  /** The outcome of one HTTP exchange: the request could not be built, could
      not be sent, its body could not be decoded, or a status with the decoded
      JSON object. */
  datatype HttpOutcome =
    | RequestNotBuilt(reason: string)
    | TransportFailed(reason: string)
    | BodyUndecodable(reason: string)
    | Response(status: int, body: map<string, Value>)

  datatype MessagesError =
    | RequestCreationFailed(reason: string)
    | SendFailed(reason: string)
    | DecodeFailed(reason: string)
    | MissingContent(body: map<string, Value>)
    | MaxRetriesReached(lastBody: map<string, Value>)
    | StatusFailed(status: int, body: map<string, Value>)
    | NoSuccessfulResponse

  /** What `Messages` ends with: the text, an error, or a panic (a failed type
      assertion on the content, or `rand.Int63n` on a non-positive bound). */
  datatype Answer = Answered(text: string) | Failed(error: MessagesError) | Panicked

  /** 429, 503 and 500 are retried. */
  predicate RetryableStatus(status: int)
  {
    status == 429 || status == 503 || status == 500
  }

  /** The `text` field of a content block, if the block is an object whose
      `text` is a string (otherwise the type assertion panics). */
  function TextOf(block: Value): Option<string>
  {
    if block.Obj? && "text" in block.fields && block.fields["text"].Str? then Some(block.fields["text"].s)
    else None
  }

  /** The content blocks' texts concatenated in order, or `None` if some block
      has no string `text`. */
  function ContentText(blocks: seq<Value>): Option<string>
  {
    if blocks == [] then Some("")
    else
      match ContentText(blocks[..|blocks| - 1])
      case None => None
      case Some(prefix) =>
        match TextOf(blocks[|blocks| - 1])
        case None => None
        case Some(t) => Some(prefix + t)
  }

  /** The concatenation is defined exactly when every block carries a string text. */
  lemma {:induction false} ContentTextDefined(blocks: seq<Value>)
    ensures ContentText(blocks).Some? <==> forall i :: 0 <= i < |blocks| ==> TextOf(blocks[i]).Some?
  {
    if blocks != [] {
      var init := blocks[..|blocks| - 1];
      ContentTextDefined(init);
      assert forall i :: 0 <= i < |init| ==> init[i] == blocks[i];
    }
  }

  /** Concatenating the texts of two runs of blocks is concatenating the two results. */
  lemma {:induction false} ContentTextAppend(a: seq<Value>, b: seq<Value>)
    requires ContentText(a).Some? && ContentText(b).Some?
    ensures ContentText(a + b) == Some(ContentText(a).value + ContentText(b).value)
    decreases |b|
  {
    if b == [] {
      assert a + b == a;
      assert ContentText(b) == Some("");
      assert ContentText(a).value + "" == ContentText(a).value;
    } else {
      var init := b[..|b| - 1];
      var t := TextOf(b[|b| - 1]).value;
      var textA, textInit := ContentText(a).value, ContentText(init).value;
      assert ContentText(b) == Some(textInit + t);
      assert (a + b)[..|a + b| - 1] == a + init;
      assert (a + b)[|a + b| - 1] == b[|b| - 1];
      ContentTextAppend(a, init);
      assert ContentText(a + b) == Some((textA + textInit) + t);
      assert (textA + textInit) + t == textA + (textInit + t);
    }
  }

  /** A block without a string text anywhere makes the whole concatenation undefined. */
  lemma {:induction false} ContentTextPrefixNone(blocks: seq<Value>, n: nat)
    requires n <= |blocks| && ContentText(blocks[..n]).None?
    ensures ContentText(blocks).None?
    decreases |blocks| - n
  {
    if n < |blocks| {
      assert blocks[..n + 1][..n] == blocks[..n];
      ContentTextPrefixNone(blocks, n + 1);
    } else {
      assert blocks[..n] == blocks;
    }
  }

  /** The answer to a response that is not retried. */
  function Settle(outcome: HttpOutcome): (a: Answer)
    requires !(outcome.Response? && RetryableStatus(outcome.status))
    ensures outcome.RequestNotBuilt? ==> a == Failed(RequestCreationFailed(outcome.reason))
    ensures outcome.TransportFailed? ==> a == Failed(SendFailed(outcome.reason))
    ensures outcome.BodyUndecodable? ==> a == Failed(DecodeFailed(outcome.reason))
    ensures outcome.Response? && outcome.status != 200 ==> a == Failed(StatusFailed(outcome.status, outcome.body))
    ensures a.Answered? ==> outcome.Response? && outcome.status == 200
    ensures outcome.Response? && outcome.status == 200 ==>
      (a == Failed(MissingContent(outcome.body)) <==> "content" !in outcome.body)
    ensures outcome.Response? && outcome.status == 200 && "content" in outcome.body ==>
      (a.Answered? <==> outcome.body["content"].Arr? && ContentText(outcome.body["content"].items).Some?)
    ensures a.Answered? ==> ContentText(outcome.body["content"].items) == Some(a.text)
    ensures a == Panicked ==> outcome.Response? && outcome.status == 200 && "content" in outcome.body
    ensures outcome.Response? && outcome.status == 200 && "content" in outcome.body ==>
      (!(outcome.body["content"].Arr? && ContentText(outcome.body["content"].items).Some?) ==> a == Panicked)
    ensures a != Failed(NoSuccessfulResponse) && !(a.Failed? && a.error.MaxRetriesReached?)
  {
    match outcome
    case RequestNotBuilt(reason) => Failed(RequestCreationFailed(reason))
    case TransportFailed(reason) => Failed(SendFailed(reason))
    case BodyUndecodable(reason) => Failed(DecodeFailed(reason))
    case Response(status, body) =>
      if status != 200 then Failed(StatusFailed(status, body))
      else if "content" !in body then Failed(MissingContent(body))
      else if !body["content"].Arr? then Panicked
      else
        match ContentText(body["content"].items)
        case None => Panicked
        case Some(text) => Answered(text)
  }

  /** The answer, the number of attempts made and the sleeps between them. */
  datatype Trace = Trace(answer: Answer, attempts: nat, sleeps: seq<int>)

  /** The retry loop from attempt `attempt` on, with `sleeps` the sleeps so far. */
  function Attempts(cfg: ClientConfig, send: nat -> HttpOutcome, jitter: nat -> int,
                    attempt: nat, sleeps: seq<int>): Trace
    requires IsInt64(cfg.initialRetryDelay)
    decreases cfg.maxRetries - attempt
  {
    if attempt >= cfg.maxRetries then Trace(Failed(NoSuccessfulResponse), attempt, sleeps)
    else
      var outcome := send(attempt);
      if !(outcome.Response? && RetryableStatus(outcome.status)) then Trace(Settle(outcome), attempt + 1, sleeps)
      else if attempt == cfg.maxRetries - 1 then Trace(Failed(MaxRetriesReached(outcome.body)), attempt + 1, sleeps)
      else
        var delay := DelayAt(cfg.initialRetryDelay, attempt);
        if Half(delay) <= 0 then Trace(Panicked, attempt + 1, sleeps)
        else
          var sleep := SleepTime(delay, jitter(attempt), cfg.maxRetryDelay);
          Attempts(cfg, send, jitter, attempt + 1, sleeps + [sleep])
  }

  /** At most `MaxRetries` attempts, one sleep between consecutive attempts, and
      the sleep before retry `k` computed from the `k`-th delay and jitter;
      the "without successful response" error exactly when no attempt is allowed. */
  lemma {:induction false} AttemptsShape(cfg: ClientConfig, send: nat -> HttpOutcome, jitter: nat -> int,
                                         attempt: nat, sleeps: seq<int>)
    requires IsInt64(cfg.initialRetryDelay)
    requires |sleeps| == attempt
    ensures var t := Attempts(cfg, send, jitter, attempt, sleeps);
      && (attempt >= cfg.maxRetries ==> t == Trace(Failed(NoSuccessfulResponse), attempt, sleeps))
      && (attempt < cfg.maxRetries ==>
            && attempt < t.attempts <= cfg.maxRetries
            && t.answer != Failed(NoSuccessfulResponse)
            && |t.sleeps| == t.attempts - 1
            && t.sleeps[..attempt] == sleeps
            && forall k :: attempt <= k < |t.sleeps| ==>
                 t.sleeps[k] == SleepTime(DelayAt(cfg.initialRetryDelay, k), jitter(k), cfg.maxRetryDelay))
    decreases cfg.maxRetries - attempt
  {
    if attempt < cfg.maxRetries {
      var outcome := send(attempt);
      if outcome.Response? && RetryableStatus(outcome.status) && attempt < cfg.maxRetries - 1
         && Half(DelayAt(cfg.initialRetryDelay, attempt)) > 0 {
        var sleep := SleepTime(DelayAt(cfg.initialRetryDelay, attempt), jitter(attempt), cfg.maxRetryDelay);
        AttemptsShape(cfg, send, jitter, attempt + 1, sleeps + [sleep]);
        assert (sleeps + [sleep])[..attempt] == sleeps;
      }
    }
  }

  /** Every attempt before the last got a retryable status; the last attempt's
      outcome decides the answer. "max retries reached" carries the body of a
      retryable status on the last allowed attempt, and a success is the
      in-order concatenation of the texts of a 200 answer's content blocks. */
  lemma {:induction false} AttemptsOutcome(cfg: ClientConfig, send: nat -> HttpOutcome, jitter: nat -> int,
                                           attempt: nat, sleeps: seq<int>)
    requires IsInt64(cfg.initialRetryDelay)
    requires attempt < cfg.maxRetries
    ensures var t := Attempts(cfg, send, jitter, attempt, sleeps);
      && t.attempts >= 1
      && (forall k :: attempt <= k < t.attempts - 1 ==>
            send(k).Response? && RetryableStatus(send(k).status))
      && var last := send(t.attempts - 1);
      && ((t.answer.Failed? && t.answer.error.MaxRetriesReached?) <==>
            last.Response? && RetryableStatus(last.status) && t.attempts == cfg.maxRetries)
      && (t.answer.Failed? && t.answer.error.MaxRetriesReached? ==> t.answer.error.lastBody == last.body)
      && (t.answer.Answered? ==>
            && last.Response? && last.status == 200 && "content" in last.body
            && last.body["content"].Arr?
            && ContentText(last.body["content"].items) == Some(t.answer.text))
      && (t.answer == Panicked && last.Response? && RetryableStatus(last.status) ==>
            Half(DelayAt(cfg.initialRetryDelay, t.attempts - 1)) <= 0)
      && (!(last.Response? && RetryableStatus(last.status)) ==> t.answer == Settle(last))
    decreases cfg.maxRetries - attempt
  {
    var outcome := send(attempt);
    if outcome.Response? && RetryableStatus(outcome.status) && attempt < cfg.maxRetries - 1
       && Half(DelayAt(cfg.initialRetryDelay, attempt)) > 0 {
      var sleep := SleepTime(DelayAt(cfg.initialRetryDelay, attempt), jitter(attempt), cfg.maxRetryDelay);
      AttemptsOutcome(cfg, send, jitter, attempt + 1, sleeps + [sleep]);
    }
  }

  /** The loop over the content blocks of a 200 answer: `content +=` each
      block's text; `None` where a type assertion would panic. */
  method JoinContent(blocks: seq<Value>) returns (content: Option<string>)
    ensures content == ContentText(blocks)
  {
    var text := "";
    var i := 0;
    while i < |blocks|
      invariant 0 <= i <= |blocks|
      invariant ContentText(blocks[..i]) == Some(text)
    {
      var block := blocks[i];
      if !(block.Obj? && "text" in block.fields && block.fields["text"].Str?) {
        assert blocks[..i + 1][..i] == blocks[..i];
        ContentTextPrefixNone(blocks, i + 1);
        return None;
      }
      text := text + block.fields["text"].s;
      assert blocks[..i + 1][..i] == blocks[..i];
      i := i + 1;
    }
    assert blocks[..i] == blocks;
    return Some(text);
  }

  class ClaudeClient {
    const apiKey: string
    const config: ClientConfig
    const limiter: RateLimiter

    ghost predicate Valid()
      reads this, limiter
    {
      limiter.Valid() && limiter.capacity == config.maxRequestsPerMinute && IsInt64(config.initialRetryDelay)
    }

    /** `NewClaudeClient`: the first configuration given, else the default, and a
        full bucket of `MaxRequestsPerMinute` tokens. */
    constructor (apiKey: string, configs: seq<ClientConfig>)
      requires ChosenConfig(configs).maxRequestsPerMinute >= 0
      requires IsInt64(ChosenConfig(configs).initialRetryDelay)
      ensures Valid() && fresh(limiter)
      ensures this.apiKey == apiKey && config == ChosenConfig(configs)
      ensures limiter.tokens == config.maxRequestsPerMinute && limiter.waits == 0 && limiter.releases == 0
    {
      this.apiKey := apiKey;
      config := ChosenConfig(configs);
      limiter := new RateLimiter(ChosenConfig(configs).maxRequestsPerMinute, Minute);
    }

    /** `Messages`: up to `MaxRetries` attempts, each under one token of the bucket.
        An empty bucket blocks when an attempt is allowed; that is a precondition. */
    method Messages(send: nat -> HttpOutcome, jitter: nat -> int)
      returns (answer: Answer, ghost sleeps: seq<int>)
      requires Valid()
      requires config.maxRetries <= 0 || limiter.tokens > 0
      modifies limiter
      ensures Valid()
      ensures var t := Attempts(config, send, jitter, 0, []);
        && answer == t.answer && sleeps == t.sleeps
        && limiter.tokens == old(limiter.tokens)
        && limiter.waits == old(limiter.waits) + t.attempts
        && limiter.releases == old(limiter.releases) + t.attempts
    {
      ghost var t := Attempts(config, send, jitter, 0, []);
      var attempt := 0;
      var retryDelay := config.initialRetryDelay;
      sleeps := [];
      while attempt < config.maxRetries
        invariant |sleeps| == attempt
        invariant attempt > 0 ==> attempt < config.maxRetries
        invariant retryDelay == DelayAt(config.initialRetryDelay, attempt)
        invariant t == Attempts(config, send, jitter, attempt, sleeps)
        invariant Valid() && limiter.tokens == old(limiter.tokens)
        invariant limiter.waits == old(limiter.waits) + attempt
        invariant limiter.releases == old(limiter.releases) + attempt
      {
        var outcome := Attempt(send, attempt);
        if !(outcome.Response? && RetryableStatus(outcome.status)) {
          answer := Respond(outcome);
          return answer, sleeps;
        }
        if attempt == config.maxRetries - 1 {
          return Failed(MaxRetriesReached(outcome.body)), sleeps;
        }
        if Half(retryDelay) <= 0 {
          return Panicked, sleeps;
        }
        var sleepTime := SleepTime(retryDelay, jitter(attempt), config.maxRetryDelay);
        AttemptsRetry(config, send, jitter, attempt, sleeps);
        sleeps := sleeps + [sleepTime];
        retryDelay := Wrap64(retryDelay * 2);
        attempt := attempt + 1;
      }
      return Failed(NoSuccessfulResponse), sleeps;
    }

    /** One attempt: wait for a token, build, send and decode the request, then
        give the token back (every exit path of an attempt releases it). */
    method Attempt(send: nat -> HttpOutcome, attempt: nat) returns (outcome: HttpOutcome)
      requires limiter.Valid() && limiter.tokens > 0
      modifies limiter
      ensures outcome == send(attempt)
      ensures limiter.Valid() && limiter.tokens == old(limiter.tokens)
      ensures limiter.waits == old(limiter.waits) + 1 && limiter.releases == old(limiter.releases) + 1
    {
      limiter.Wait();
      outcome := send(attempt);
      limiter.Release();
    }
  }

  /** The switch on a response that is not retried. */
  method Respond(outcome: HttpOutcome) returns (answer: Answer)
    requires !(outcome.Response? && RetryableStatus(outcome.status))
    ensures answer == Settle(outcome)
  {
    match outcome
    case RequestNotBuilt(reason) => answer := Failed(RequestCreationFailed(reason));
    case TransportFailed(reason) => answer := Failed(SendFailed(reason));
    case BodyUndecodable(reason) => answer := Failed(DecodeFailed(reason));
    case Response(status, body) =>
      if status != 200 {
        answer := Failed(StatusFailed(status, body));
      } else if "content" !in body {
        answer := Failed(MissingContent(body));
      } else if !body["content"].Arr? {
        answer := Panicked;
      } else {
        var content := JoinContent(body["content"].items);
        answer := if content.Some? then Answered(content.value) else Panicked;
      }
  }

  /** One step of the retry loop after a retried attempt. */
  lemma AttemptsRetry(cfg: ClientConfig, send: nat -> HttpOutcome, jitter: nat -> int, attempt: nat, sleeps: seq<int>)
    requires IsInt64(cfg.initialRetryDelay)
    requires send(attempt).Response? && RetryableStatus(send(attempt).status)
    requires attempt < cfg.maxRetries - 1
    requires Half(DelayAt(cfg.initialRetryDelay, attempt)) > 0
    ensures Attempts(cfg, send, jitter, attempt, sleeps) ==
      Attempts(cfg, send, jitter, attempt + 1,
               sleeps + [SleepTime(DelayAt(cfg.initialRetryDelay, attempt), jitter(attempt), cfg.maxRetryDelay)])
  {
  }
}
