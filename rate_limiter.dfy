/** The token bucket of the Bedrock and Claude clients (the two packages carry
    the same code). The buffered channel is a counter between 0 and its
    capacity: `wait` takes a token, `release` puts one back unless the bucket
    is full, and the ticker's refill tops the bucket up to capacity. A receive
    on an empty channel blocks; here it is a precondition. */
module RateLimit {
  import opened Wrappers

  /** What happens to the bucket: a `wait`, a `release`, or one tick of the refill. */
  datatype Event = Take | Give | TopUp

  /** The token count after one event, or `None` when a `wait` finds the bucket
      empty (the receive would block). */
  function Apply(tokens: int, capacity: int, e: Event): (r: Option<int>)
    ensures r.None? <==> e == Take && tokens <= 0
    ensures r.Some? && 0 <= tokens <= capacity ==> 0 <= r.value <= capacity
    ensures e == TopUp && tokens <= capacity ==> r == Some(capacity)
    ensures e == Take && tokens > 0 ==> r == Some(tokens - 1)
    ensures e == Give ==> r.Some? && (tokens < capacity <==> r.value == tokens + 1)
    ensures e == Give && tokens >= capacity ==> r == Some(tokens)
  {
    match e
    case Take => if tokens > 0 then Some(tokens - 1) else None
    case Give => Some(if tokens < capacity then tokens + 1 else tokens)
    case TopUp => Some(if tokens < capacity then capacity else tokens)
  }

  /** The token count after a sequence of events, or `None` if some `wait` would block. */
  function Replay(tokens: int, capacity: int, events: seq<Event>): Option<int>
    decreases |events|
  {
    if events == [] then Some(tokens)
    else
      match Apply(tokens, capacity, events[0])
      case None => None
      case Some(next) => Replay(next, capacity, events[1..])
  }

  function Count(events: seq<Event>, e: Event): nat
  {
    if events == [] then 0 else (if events[0] == e then 1 else 0) + Count(events[1..], e)
  }

  /** The events of `n` request attempts, each a `wait` followed by its `release`. */
  function Pairs(n: nat): (r: seq<Event>)
    ensures |r| == 2 * n
    ensures Count(r, TopUp) == 0
  {
    if n == 0 then [] else [Take, Give] + Pairs(n - 1)
  }

  lemma {:induction false} ReplayAppend(tokens: int, capacity: int, events: seq<Event>, e: Event)
    ensures Replay(tokens, capacity, events + [e]) ==
      match Replay(tokens, capacity, events)
      case None => None
      case Some(t) => Apply(t, capacity, e)
    decreases |events|
  {
    if events == [] {
      assert [e][1..] == [];
    } else {
      assert (events + [e])[1..] == events[1..] + [e];
      match Apply(tokens, capacity, events[0])
      case None =>
      case Some(next) => ReplayAppend(next, capacity, events[1..], e);
    }
  }

  /** The count never leaves `[0, capacity]`, whatever the events. */
  lemma {:induction false} ReplayInRange(tokens: int, capacity: int, events: seq<Event>)
    requires 0 <= tokens <= capacity
    ensures Replay(tokens, capacity, events).Some? ==> 0 <= Replay(tokens, capacity, events).value <= capacity
    decreases |events|
  {
    if events != [] {
      match Apply(tokens, capacity, events[0])
      case None =>
      case Some(next) => ReplayInRange(next, capacity, events[1..]);
    }
  }

  /** Between two refills, the number of requests admitted is at most the tokens
      at the start plus the releases, less what is left in the bucket. */
  lemma {:induction false} TakesBounded(tokens: int, capacity: int, events: seq<Event>)
    requires 0 <= tokens <= capacity
    requires Count(events, TopUp) == 0
    requires Replay(tokens, capacity, events).Some?
    ensures Count(events, Take) <= tokens + Count(events, Give) - Replay(tokens, capacity, events).value
    decreases |events|
  {
    if events != [] {
      var next := Apply(tokens, capacity, events[0]).value;
      TakesBounded(next, capacity, events[1..]);
    }
  }

  /** A run of paired waits and releases leaves a non-empty bucket as it was. */
  lemma {:induction false} PairsRestore(tokens: int, capacity: int, n: nat)
    requires 0 < tokens <= capacity
    ensures Replay(tokens, capacity, Pairs(n)) == Some(tokens)
  {
    if n > 0 {
      assert Pairs(n)[1..][1..] == Pairs(n - 1);
      PairsRestore(tokens, capacity, n - 1);
    }
  }

  class RateLimiter {
    /** `maxRequests`: the channel's capacity. */
    const capacity: int
    /** The refill period, in nanoseconds. */
    const interval: int
    /** The number of tokens in the channel. */
    var tokens: int
    /** How many `wait`s and `release`s have completed since construction. */
    ghost var waits: nat
    ghost var releases: nat

    /** The count lies in `[0, capacity]`. */
    ghost predicate Valid()
      reads this
    {
      0 <= tokens <= capacity
    }

    /** `newRateLimiter`: a bucket holding `maxRequests` tokens. `make` panics on a
        negative capacity and `time.NewTicker` on a non-positive interval. */
    constructor (maxRequests: int, interval: int)
      requires maxRequests >= 0
      requires interval > 0
      ensures Valid()
      ensures capacity == maxRequests && this.interval == interval
      ensures tokens == maxRequests && waits == 0 && releases == 0
    {
      capacity := maxRequests;
      this.interval := interval;
      tokens := 0;
      waits, releases := 0, 0;
      new;
      var i := 0;
      while i < maxRequests
        invariant 0 <= i <= maxRequests && tokens == i
        invariant waits == 0 && releases == 0
      {
        tokens := tokens + 1;
        i := i + 1;
      }
    }

    /** `wait`: take a token. */
    method Wait()
      requires Valid() && tokens > 0
      modifies this
      ensures Valid()
      ensures waits == old(waits) + 1 && releases == old(releases)
      ensures Apply(old(tokens), capacity, Take) == Some(tokens)
    {
      tokens := tokens - 1;
      waits := waits + 1;
    }

    /** `release`: put a token back unless the bucket is full. */
    method Release()
      requires Valid()
      modifies this
      ensures Valid()
      ensures waits == old(waits) && releases == old(releases) + 1
      ensures Apply(old(tokens), capacity, Give) == Some(tokens)
    {
      if tokens < capacity {
        tokens := tokens + 1;
      }
      releases := releases + 1;
    }

    /** One tick of the refill goroutine: add the missing tokens one by one,
        skipping a send when the bucket is already full. */
    method Refill()
      requires Valid()
      modifies this
      ensures Valid()
      ensures waits == old(waits) && releases == old(releases)
      ensures tokens == capacity
      ensures Apply(old(tokens), capacity, TopUp) == Some(tokens)
    {
      var needed := capacity - tokens;
      var i := 0;
      while i < needed
        invariant 0 <= i <= needed
        invariant tokens == old(tokens) + i
        invariant waits == old(waits) && releases == old(releases)
      {
        if tokens < capacity {
          tokens := tokens + 1;
        }
        i := i + 1;
      }
    }
  }
}
