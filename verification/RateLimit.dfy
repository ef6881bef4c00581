/**
 The token bucket of the rate limiter. Tokens are real numbers, times are whole
 milliseconds. The script run inside the key-value store is `Consume`; the key it
 writes expires after `Ttl`.
 */
module RateLimit {
  import opened Wrappers

  datatype Config = Config(capacity: real, refillTokens: real, refillPeriodMs: int)

  predicate Valid(c: Config) {
    c.capacity > 0.0 && c.refillTokens > 0.0 && c.refillPeriodMs > 0
  }

  datatype Bucket = Bucket(tokens: real, updatedAt: int)

  datatype Answer = Answer(allowed: bool, remaining: real, retryAfterMs: int)

  function Ceil(x: real): int {
    -((-x).Floor)
  }

  function MinReal(x: real, y: real): real {
    if x <= y then x else y
  }

  function MaxInt(x: int, y: int): int {
    if x < y then y else x
  }

  function Ttl(c: Config): int
    requires Valid(c)
  {
    MaxInt(c.refillPeriodMs, WaitFor(c, c.capacity))
  }

  /** Tokens on hand when the script runs at `now`; an absent bucket is full. */
  function Level(b: Option<Bucket>, c: Config, now: int): real
    requires Valid(c)
  {
    match b
    case None => c.capacity
    case Some(bucket) =>
      if now > bucket.updatedAt then
        var elapsed := (now - bucket.updatedAt) as real;
        MinReal(c.capacity, bucket.tokens + (elapsed / c.refillPeriodMs as real) * c.refillTokens)
      else bucket.tokens
  }

  /** Milliseconds in which `tokens` are regained. */
  function WaitFor(c: Config, tokens: real): int
    requires Valid(c)
  {
    Ceil(tokens / c.refillTokens * c.refillPeriodMs as real)
  }

  /** The script: everything after the refill depends only on the level. */
  function Consume(b: Option<Bucket>, c: Config, requested: real, now: int): (Bucket, Answer)
    requires Valid(c)
  {
    Take(Level(b, c, now), c, requested, now)
  }

  function Take(tokens: real, c: Config, requested: real, now: int): (Bucket, Answer)
    requires Valid(c)
  {
    if tokens >= requested then
      (Bucket(tokens - requested, now), Answer(true, tokens - requested, 0))
    else
      (Bucket(tokens, now), Answer(false, tokens, WaitFor(c, requested - tokens)))
  }

  // ----- the store and the service -----

  datatype Stored = Stored(bucket: Bucket, expiresAt: int)

  datatype Enforced = Remaining(tokens: real) | Denied(retryAfterSeconds: int) | InvalidConfiguration

  function AdvertisedSeconds(retryAfterMs: int): int {
    MaxInt(1, Ceil(retryAfterMs as real / 1000.0))
  }

  /** The bucket the store still shows at `now`. */
  function Visible(stored: map<string, Stored>, key: string, now: int): Option<Bucket> {
    if key in stored && now < stored[key].expiresAt then Some(stored[key].bucket) else None
  }

  class RateLimitService {
    var stored: map<string, Stored>

    constructor ()
      ensures stored == map[]
    {
      stored := map[];
    }

    method ConsumeTokens(key: string, c: Config, amount: real, now: int) returns (r: Option<Answer>)
      modifies this
      ensures r.Some? <==> Valid(c)
      ensures Valid(c) ==>
                var (bucket, answer) := Consume(Visible(old(stored), key, now), c, amount, now);
                r.value == answer && stored == old(stored)[key := Stored(bucket, now + Ttl(c))]
      ensures !Valid(c) ==> stored == old(stored)
    {
      if c.capacity <= 0.0 || c.refillTokens <= 0.0 || c.refillPeriodMs <= 0 {
        return None;
      }
      var tokens, updatedAt := c.capacity, now;
      if key in stored && now < stored[key].expiresAt {
        tokens, updatedAt := stored[key].bucket.tokens, stored[key].bucket.updatedAt;
      }
      if now > updatedAt {
        var elapsed := (now - updatedAt) as real;
        var refill := (elapsed / c.refillPeriodMs as real) * c.refillTokens;
        tokens := MinReal(c.capacity, tokens + refill);
      }
      var allowed, retryAfterMs := false, 0;
      if tokens >= amount {
        allowed := true;
        tokens := tokens - amount;
      } else {
        var missing := amount - tokens;
        retryAfterMs := Ceil(missing / c.refillTokens * c.refillPeriodMs as real);
      }
      stored := stored[key := Stored(Bucket(tokens, now), now + Ttl(c))];
      r := Some(Answer(allowed, tokens, retryAfterMs));
    }

    method EnforceLimit(key: string, limit: real, ttlSeconds: int, amount: real, now: int) returns (r: Enforced)
      modifies this
      ensures var c := Config(limit, limit, ttlSeconds * 1000);
              if !Valid(c) then r == InvalidConfiguration && stored == old(stored)
              else
                var (bucket, answer) := Consume(Visible(old(stored), key, now), c, amount, now);
                && stored == old(stored)[key := Stored(bucket, now + Ttl(c))]
                && r == if answer.allowed then Remaining(answer.remaining)
                   else Denied(AdvertisedSeconds(answer.retryAfterMs))
    {
      var result := ConsumeTokens(key, Config(limit, limit, ttlSeconds * 1000), amount, now);
      if result.None? {
        return InvalidConfiguration;
      }
      if !result.value.allowed {
        return Denied(AdvertisedSeconds(result.value.retryAfterMs));
      }
      return Remaining(result.value.remaining);
    }

    method EnforceDailyQuota(key: string, limit: real, now: int) returns (r: Enforced)
      modifies this
      ensures var c := DailyConfig(limit);
              if !Valid(c) then r == InvalidConfiguration && stored == old(stored)
              else
                var (bucket, answer) := Consume(Visible(old(stored), key, now), c, 1.0, now);
                && stored == old(stored)[key := Stored(bucket, now + Ttl(c))]
                && r == if answer.allowed then Remaining(answer.remaining)
                   else Denied(AdvertisedSeconds(answer.retryAfterMs))
    {
      r := EnforceLimit(key, limit, 24 * 60 * 60, 1.0, now);
    }
  }

  function DailyConfig(limit: real): Config {
    Config(limit, limit, 24 * 60 * 60 * 1000)
  }

  // ----- arithmetic -----

  /** Tokens regained per millisecond. */
  function Rate(c: Config): real
    requires Valid(c)
  {
    c.refillTokens / c.refillPeriodMs as real
  }

  lemma RefillIsLinear(c: Config, elapsed: real)
    requires Valid(c)
    ensures (elapsed / c.refillPeriodMs as real) * c.refillTokens == Rate(c) * elapsed
    ensures Rate(c) > 0.0
  {
  }

  lemma CeilIsLeast(x: real, n: int)
    ensures Ceil(x) <= n <==> x <= n as real
  {
  }

  lemma MultiplyOrder(k: real, x: real, y: real)
    requires k > 0.0
    ensures x <= y <==> k * x <= k * y
  {
    if x <= y {
      assert k * (y - x) >= 0.0;
    } else {
      assert k * (x - y) > 0.0;
    }
  }

  /** Regaining `tokens` takes exactly `tokens / refill * period` milliseconds. */
  lemma RegainTime(c: Config, tokens: real, elapsed: int)
    requires Valid(c)
    ensures Rate(c) * elapsed as real >= tokens <==> elapsed >= WaitFor(c, tokens)
  {
    var wait := tokens / c.refillTokens * c.refillPeriodMs as real;
    RefillIsLinear(c, wait);
    assert Rate(c) * wait == tokens;
    CeilIsLeast(wait, elapsed);
    MultiplyOrder(Rate(c), wait, elapsed as real);
  }

  predicate InBounds(b: Option<Bucket>, c: Config) {
    b.Some? ==> 0.0 <= b.value.tokens <= c.capacity
  }

  predicate NotAhead(b: Option<Bucket>, t: int) {
    b.Some? ==> b.value.updatedAt <= t
  }

  /** Refilling in two stretches is refilling in one. */
  lemma LevelAdvances(b: Option<Bucket>, c: Config, t: int, later: int)
    requires Valid(c) && InBounds(b, c) && NotAhead(b, t) && t <= later
    ensures Level(b, c, later) == MinReal(c.capacity, Level(b, c, t) + Rate(c) * (later - t) as real)
    ensures 0.0 <= Level(b, c, t) <= c.capacity
  {
    RefillIsLinear(c, (later - t) as real);
    MultiplyOrder(Rate(c), 0.0, (later - t) as real);
    if b.Some? {
      RefillIsLinear(c, (t - b.value.updatedAt) as real);
      RefillIsLinear(c, (later - b.value.updatedAt) as real);
      MultiplyOrder(Rate(c), 0.0, (t - b.value.updatedAt) as real);
      assert Rate(c) * (later - b.value.updatedAt) as real
             == Rate(c) * (later - t) as real + Rate(c) * (t - b.value.updatedAt) as real;
    }
  }

  // ----- runs of calls on one key -----

  datatype Call = Call(requested: real, at: int)

  predicate InOrder(calls: seq<Call>) {
    && (forall k :: 0 <= k < |calls| ==> calls[k].requested >= 0.0)
    && (forall j, k :: 0 <= j < k < |calls| ==> calls[j].at <= calls[k].at)
  }

  predicate Follows(b: Option<Bucket>, calls: seq<Call>) {
    calls != [] ==> NotAhead(b, calls[0].at)
  }

  /** The answers to the calls, from a bucket that never expires. */
  function Answers(b: Option<Bucket>, c: Config, calls: seq<Call>): (answers: seq<Answer>)
    requires Valid(c)
    ensures |answers| == |calls|
    decreases |calls|
  {
    if calls == [] then []
    else
      var (b', answer) := Consume(b, c, calls[0].requested, calls[0].at);
      [answer] + Answers(Some(b'), c, calls[1..])
  }

  function After(b: Option<Bucket>, c: Config, calls: seq<Call>): Option<Bucket>
    requires Valid(c)
    decreases |calls|
  {
    if calls == [] then b
    else After(Some(Consume(b, c, calls[0].requested, calls[0].at).0), c, calls[1..])
  }

  /** Tokens handed out. */
  function Granted(b: Option<Bucket>, c: Config, calls: seq<Call>): real
    requires Valid(c)
    decreases |calls|
  {
    if calls == [] then 0.0
    else
      GrantedNow(b, c, calls[0]) + Granted(Some(Consume(b, c, calls[0].requested, calls[0].at).0), c, calls[1..])
  }

  lemma ConsumeStaysInBounds(b: Option<Bucket>, c: Config, call: Call)
    requires Valid(c) && InBounds(b, c) && NotAhead(b, call.at) && call.requested >= 0.0
    ensures InBounds(Some(Consume(b, c, call.requested, call.at).0), c)
  {
    LevelAdvances(b, c, call.at, call.at);
  }

  lemma {:induction false} StoredStaysInBounds(b: Option<Bucket>, c: Config, calls: seq<Call>)
    requires Valid(c) && InBounds(b, c) && InOrder(calls) && Follows(b, calls)
    ensures InBounds(After(b, c, calls), c)
    ensures forall t :: calls != [] && t >= calls[|calls| - 1].at ==> NotAhead(After(b, c, calls), t)
    decreases |calls|
  {
    if calls != [] {
      ConsumeStaysInBounds(b, c, calls[0]);
      StoredStaysInBounds(Some(Consume(b, c, calls[0].requested, calls[0].at).0), c, calls[1..]);
    }
  }

  /** Tokens regained in `ms` milliseconds, before the cap. */
  function Regained(c: Config, ms: int): real
    requires Valid(c)
  {
    Rate(c) * ms as real
  }

  lemma RegainedAdds(c: Config, t0: int, t1: int, t2: int)
    requires Valid(c)
    ensures Regained(c, t2 - t0) == Regained(c, t2 - t1) + Regained(c, t1 - t0)
  {
    Distributes(Rate(c), (t2 - t1) as real, (t1 - t0) as real);
  }

  lemma Distributes(k: real, x: real, y: real)
    ensures k * (x + y) == k * x + k * y
  {
  }

  function GrantedNow(b: Option<Bucket>, c: Config, call: Call): real
    requires Valid(c)
  {
    if Consume(b, c, call.requested, call.at).1.allowed then call.requested else 0.0
  }

  lemma OneCallBudget(b: Bucket, c: Config, call: Call)
    requires Valid(c) && InBounds(Some(b), c) && b.updatedAt <= call.at && call.requested >= 0.0
    ensures var b' := Consume(Some(b), c, call.requested, call.at).0;
            && GrantedNow(Some(b), c, call) + b'.tokens <= b.tokens + Regained(c, call.at - b.updatedAt)
            && b'.updatedAt == call.at && InBounds(Some(b'), c)
  {
    RefillIsLinear(c, (call.at - b.updatedAt) as real);
    ConsumeStaysInBounds(Some(b), c, call);
  }

  /** What is granted plus what is left never exceeds what was there plus what was regained. */
  lemma {:induction false} Budget(b: Bucket, c: Config, calls: seq<Call>)
    requires Valid(c) && InBounds(Some(b), c) && InOrder(calls) && calls != [] && b.updatedAt <= calls[0].at
    ensures After(Some(b), c, calls).Some?
    ensures Granted(Some(b), c, calls) + After(Some(b), c, calls).value.tokens
            <= b.tokens + Regained(c, calls[|calls| - 1].at - b.updatedAt)
    decreases |calls|
  {
    var b' := Consume(Some(b), c, calls[0].requested, calls[0].at).0;
    OneCallBudget(b, c, calls[0]);
    if |calls| == 1 {
      assert After(Some(b'), c, calls[1..]) == Some(b');
    } else {
      Budget(b', c, calls[1..]);
      RegainedAdds(c, b.updatedAt, calls[0].at, calls[|calls| - 1].at);
    }
  }

  /**
   The window bound: whatever was called before, a window of calls is granted at
   most a full bucket plus what is regained while it lasts.
   */
  lemma {:induction false} WindowBound(b: Option<Bucket>, c: Config, earlier: seq<Call>, window: seq<Call>)
    requires Valid(c) && InBounds(b, c) && InOrder(earlier + window) && Follows(b, earlier + window) && window != []
    ensures Granted(After(b, c, earlier), c, window)
            <= c.capacity + Regained(c, window[|window| - 1].at - window[0].at)
  {
    WindowIsOrdered(earlier, window);
    if earlier == [] {
      assert earlier + window == window;
    } else {
      assert (earlier + window)[0] == earlier[0];
      assert earlier[|earlier| - 1] == (earlier + window)[|earlier| - 1] && window[0] == (earlier + window)[|earlier|];
      StoredStaysInBounds(b, c, earlier);
    }
    GrantedFromLevel(After(b, c, earlier), c, window);
  }

  lemma {:induction false} GrantedFromLevel(start: Option<Bucket>, c: Config, window: seq<Call>)
    requires Valid(c) && InBounds(start, c) && InOrder(window) && window != [] && NotAhead(start, window[0].at)
    ensures Granted(start, c, window) <= c.capacity + Regained(c, window[|window| - 1].at - window[0].at)
  {
    LevelAdvances(start, c, window[0].at, window[0].at);
    var first := Bucket(Level(start, c, window[0].at), window[0].at);
    SameFromLevel(start, c, window[0]);
    assert Granted(start, c, window) == Granted(Some(first), c, window);
    Budget(first, c, window);
    StoredStaysInBounds(Some(first), c, window);
  }

  lemma WindowIsOrdered(earlier: seq<Call>, window: seq<Call>)
    requires InOrder(earlier + window)
    ensures InOrder(earlier) && InOrder(window)
  {
    var all := earlier + window;
    assert forall k :: 0 <= k < |earlier| ==> earlier[k] == all[k];
    assert forall k :: 0 <= k < |window| ==> window[k] == all[|earlier| + k];
  }

  /**
   A clock that steps back rewinds the bucket: what it regained in between is
   regained again, so one millisecond is granted that much beyond the capacity.
   */
  lemma {:induction false} RewindGrantsAgain(c: Config, t: int, back: int)
    requires Valid(c) && back < t
    ensures var again := MinReal(c.capacity, Regained(c, t - back));
            && again > 0.0
            && Granted(None, c, [Call(c.capacity, t), Call(0.0, back), Call(again, t)]) == c.capacity + again
  {
    var again := MinReal(c.capacity, Regained(c, t - back));
    var calls := [Call(c.capacity, t), Call(0.0, back), Call(again, t)];
    RefillIsLinear(c, (t - back) as real);
    MultiplyOrder(Rate(c), 0.0, (t - back) as real);
    assert again > 0.0 by {
      PositiveRegained(c, t - back);
    }
    var b1, b2 := Bucket(0.0, t), Bucket(0.0, back);
    assert Consume(None, c, c.capacity, t).0 == b1 && Consume(Some(b1), c, 0.0, back).0 == b2;
    assert Level(Some(b2), c, t) == again;
    assert calls[1..] == [calls[1], calls[2]] && calls[1..][1..] == [calls[2]];
    assert Granted(Some(b2), c, [calls[2]]) == again;
    assert Granted(Some(b1), c, calls[1..]) == again;
  }

  lemma PositiveRegained(c: Config, ms: int)
    requires Valid(c) && ms > 0
    ensures Regained(c, ms) > 0.0
    ensures Regained(c, -ms) < 0.0
  {
    RefillIsLinear(c, ms as real);
    Negated(Rate(c), ms as real);
  }

  lemma Negated(x: real, y: real)
    requires x > 0.0 && y > 0.0
    ensures x * y > 0.0 && x * -y == -(x * y)
  {
  }

  /**
   Every stretch of consecutive calls, from a fresh bucket, is granted at most a full
   bucket plus what is regained from its first call to its last.
   */
  ghost predicate EveryWindowBounded(c: Config, calls: seq<Call>)
    requires Valid(c)
  {
    forall i, j :: 0 <= i < j <= |calls| ==> WindowBounded(c, calls, i, j)
  }

  predicate WindowBounded(c: Config, calls: seq<Call>, i: nat, j: nat)
    requires Valid(c) && i < j <= |calls|
  {
    Granted(After(None, c, calls[..i]), c, calls[i..j]) <= c.capacity + Regained(c, calls[j - 1].at - calls[i].at)
  }

  predicate CalledAt(calls: seq<Call>, times: seq<int>) {
    |calls| == |times| && forall k :: 0 <= k < |calls| ==> calls[k].at == times[k] && calls[k].requested >= 0.0
  }

  predicate Ordered(times: seq<int>) {
    forall k :: 0 <= k < |times| - 1 ==> times[k] <= times[k + 1]
  }

  lemma {:induction false} OrderedPairs(times: seq<int>, j: nat, k: nat)
    requires Ordered(times) && j <= k < |times|
    ensures times[j] <= times[k]
    decreases k
  {
    if j < k {
      OrderedPairs(times, j, k - 1);
    }
  }

  /** The calls that ask for a whole bucket at place `i` and for nothing elsewhere. */
  function Probe(c: Config, times: seq<int>, i: nat): (calls: seq<Call>)
    ensures |calls| == |times|
    ensures forall k :: 0 <= k < |times| ==> calls[k] == Call(if k == i then c.capacity else 0.0, times[k])
  {
    seq(|times|, k requires 0 <= k < |times| => Call(if k == i then c.capacity else 0.0, times[k]))
  }

  /** Calls for nothing leave a full bucket full, whatever their times. */
  lemma {:induction false} AskingForNothing(b: Option<Bucket>, c: Config, calls: seq<Call>)
    requires Valid(c) && (b.Some? ==> b.value.tokens == c.capacity)
    requires forall k :: 0 <= k < |calls| ==> calls[k].requested == 0.0
    ensures var after := After(b, c, calls); after.Some? ==> after.value.tokens == c.capacity
    decreases |calls|
  {
    if calls != [] {
      FullStaysFull(b, c, calls[0].at);
      AskingForNothing(Some(Consume(b, c, 0.0, calls[0].at).0), c, calls[1..]);
    }
  }

  lemma FullStaysFull(b: Option<Bucket>, c: Config, now: int)
    requires Valid(c) && (b.Some? ==> b.value.tokens == c.capacity)
    ensures Level(b, c, now) == c.capacity
  {
    if b.Some? && now > b.value.updatedAt {
      RefillIsLinear(c, (now - b.value.updatedAt) as real);
      PositiveRegained(c, now - b.value.updatedAt);
    }
  }

  lemma BackwardStepBreaksTheBound(c: Config, times: seq<int>, i: nat)
    requires Valid(c) && i + 1 < |times| && times[i + 1] < times[i]
    ensures CalledAt(Probe(c, times, i), times) && !WindowBounded(c, Probe(c, times, i), i, i + 2)
  {
    var calls := Probe(c, times, i);
    var start := After(None, c, calls[..i]);
    AskingForNothing(None, c, calls[..i]);
    FullStaysFull(start, c, times[i]);
    var drained := Consume(start, c, c.capacity, times[i]).0;
    assert drained == Bucket(0.0, times[i]);
    assert calls[i..i + 2] == [calls[i], calls[i + 1]] && [calls[i], calls[i + 1]][1..] == [calls[i + 1]];
    assert Granted(Some(drained), c, [calls[i + 1]]) == 0.0;
    PositiveRegained(c, times[i] - times[i + 1]);
  }

  /**
   The order is exactly what is needed: at given times the bound holds for whatever is
   asked if and only if the times never step back.
   */
  lemma BoundHoldsIffClockIsOrdered(c: Config, times: seq<int>)
    requires Valid(c)
    ensures (forall calls :: CalledAt(calls, times) ==> EveryWindowBounded(c, calls)) <==> Ordered(times)
  {
    if i :| 0 <= i < |times| - 1 && times[i] > times[i + 1] {
      BackwardStepBreaksTheBound(c, times, i);
      assert !EveryWindowBounded(c, Probe(c, times, i));
    } else {
      forall calls | CalledAt(calls, times)
        ensures EveryWindowBounded(c, calls)
      {
        forall i, j | 0 <= i < j <= |calls|
          ensures WindowBounded(c, calls, i, j)
        {
          OrderedIsBounded(c, calls, times, i, j);
        }
      }
    }
  }

  lemma OrderedIsBounded(c: Config, calls: seq<Call>, times: seq<int>, i: nat, j: nat)
    requires Valid(c) && CalledAt(calls, times) && Ordered(times) && i < j <= |calls|
    ensures WindowBounded(c, calls, i, j)
  {
    var sofar := calls[..j];
    forall p, q | 0 <= p < q < |sofar|
      ensures sofar[p].at <= sofar[q].at
    {
      OrderedPairs(times, p, q);
    }
    assert calls[..i] + calls[i..j] == sofar;
    WindowBound(None, c, calls[..i], calls[i..j]);
  }

  /** A call depends on the bucket only through its level. */
  lemma SameFromLevel(b: Option<Bucket>, c: Config, call: Call)
    requires Valid(c)
    ensures Consume(b, c, call.requested, call.at)
            == Consume(Some(Bucket(Level(b, c, call.at), call.at)), c, call.requested, call.at)
  {
  }

  /** One day's quota key hands out at most the limit plus the limit's share of the time elapsed. */
  lemma {:induction false} DailyQuotaBound(limit: real, calls: seq<Call>)
    requires limit > 0.0 && InOrder(calls) && calls != []
    ensures Granted(None, DailyConfig(limit), calls)
            <= limit + limit * ((calls[|calls| - 1].at - calls[0].at) as real / 86400000.0)
  {
    GrantedFromLevel(None, DailyConfig(limit), calls);
    DailyRate(limit, calls[|calls| - 1].at - calls[0].at);
  }

  lemma DailyRate(limit: real, elapsed: int)
    requires limit > 0.0
    ensures Regained(DailyConfig(limit), elapsed) == limit * (elapsed as real / 86400000.0)
  {
  }

  // ----- expiry cannot be observed -----

  /** A bucket untouched for its whole time to live is full again. */
  lemma ExpiredIsFull(b: Bucket, c: Config, now: int)
    requires Valid(c) && InBounds(Some(b), c) && now >= b.updatedAt + Ttl(c)
    ensures Level(Some(b), c, now) == c.capacity
  {
    RefillIsLinear(c, (now - b.updatedAt) as real);
    RegainTime(c, c.capacity, now - b.updatedAt);
  }

  /** The answers when the store may drop the key at any call from its deadline on, as `evicted` says. */
  function ExpiringAnswers(s: Option<Stored>, c: Config, calls: seq<Call>, evicted: seq<bool>): seq<Answer>
    requires Valid(c) && |evicted| == |calls|
    decreases |calls|
  {
    if calls == [] then []
    else
      var seen := if s.None? || evicted[0] then None else Some(s.value.bucket);
      var (b', answer) := Consume(seen, c, calls[0].requested, calls[0].at);
      [answer] + ExpiringAnswers(Some(Stored(b', calls[0].at + Ttl(c))), c, calls[1..], evicted[1..])
  }

  /** Keys are never dropped before their deadline. */
  predicate EvictionsAreLegal(s: Option<Stored>, c: Config, calls: seq<Call>, evicted: seq<bool>)
    requires Valid(c) && |evicted| == |calls|
    decreases |calls|
  {
    calls != [] ==>
      && (evicted[0] && s.Some? ==> calls[0].at >= s.value.expiresAt)
      && var seen := if s.None? || evicted[0] then None else Some(s.value.bucket);
      EvictionsAreLegal(Some(Stored(Consume(seen, c, calls[0].requested, calls[0].at).0, calls[0].at + Ttl(c))), c,
        calls[1..], evicted[1..])
  }

  function BucketOf(s: Option<Stored>): Option<Bucket> {
    if s.Some? then Some(s.value.bucket) else None
  }

  predicate DeadlineSet(s: Option<Stored>, c: Config)
    requires Valid(c)
  {
    s.Some? ==> s.value.expiresAt == s.value.bucket.updatedAt + Ttl(c)
  }

  /** With expiry or without, every run gets the same answers. */
  lemma {:induction false} ExpiryIsUnobservable(s: Option<Stored>, c: Config, calls: seq<Call>, evicted: seq<bool>)
    requires Valid(c) && |evicted| == |calls| && InOrder(calls)
    requires InBounds(BucketOf(s), c) && Follows(BucketOf(s), calls) && DeadlineSet(s, c)
    requires EvictionsAreLegal(s, c, calls, evicted)
    ensures ExpiringAnswers(s, c, calls, evicted) == Answers(BucketOf(s), c, calls)
    decreases |calls|
  {
    if calls != [] {
      var seen := if s.None? || evicted[0] then None else Some(s.value.bucket);
      if s.Some? && evicted[0] {
        ExpiredIsFull(s.value.bucket, c, calls[0].at);
      }
      assert Level(seen, c, calls[0].at) == Level(BucketOf(s), c, calls[0].at);
      SameFromLevel(seen, c, calls[0]);
      SameFromLevel(BucketOf(s), c, calls[0]);
      ConsumeStaysInBounds(BucketOf(s), c, calls[0]);
      var b' := Consume(seen, c, calls[0].requested, calls[0].at).0;
      ExpiryIsUnobservable(Some(Stored(b', calls[0].at + Ttl(c))), c, calls[1..], evicted[1..]);
    }
  }

  // ----- denials cannot be observed -----

  /** Keep the elements `keep` marks. */
  function Kept<T>(s: seq<T>, keep: seq<bool>): seq<T>
    requires |keep| == |s|
  {
    if s == [] then [] else (if keep[0] then [s[0]] else []) + Kept(s[1..], keep[1..])
  }

  /** Buckets of equal level at `t` have equal levels ever after. */
  predicate Alike(b1: Option<Bucket>, b2: Option<Bucket>, c: Config, t: int)
    requires Valid(c)
  {
    InBounds(b1, c) && InBounds(b2, c) && NotAhead(b1, t) && NotAhead(b2, t) && Level(b1, c, t) == Level(b2, c, t)
  }

  lemma AlikeLater(b1: Option<Bucket>, b2: Option<Bucket>, c: Config, t: int, later: int)
    requires Valid(c) && Alike(b1, b2, c, t) && t <= later
    ensures Alike(b1, b2, c, later)
  {
    LevelAdvances(b1, c, t, later);
    LevelAdvances(b2, c, t, later);
  }

  /** Alike buckets answer alike, and stay alike even when one of them is spared a denied call. */
  lemma AlikeAfterCall(b1: Option<Bucket>, b2: Option<Bucket>, c: Config, call: Call)
    requires Valid(c) && Alike(b1, b2, c, call.at) && call.requested >= 0.0
    ensures var (n1, a1) := Consume(b1, c, call.requested, call.at);
            && Consume(b2, c, call.requested, call.at) == (n1, a1)
            && Alike(Some(n1), Some(n1), c, call.at)
            && (!a1.allowed ==> Alike(Some(n1), b2, c, call.at))
  {
    ConsumeStaysInBounds(b1, c, call);
  }

  lemma {:induction false} KeptUnfolds<T>(x: T, s: seq<T>, keep: seq<bool>)
    requires |keep| == |s| + 1
    ensures Kept([x] + s, keep) == if keep[0] then [x] + Kept(s, keep[1..]) else Kept(s, keep[1..])
  {
    assert ([x] + s)[1..] == s;
    assert [] + Kept(s, keep[1..]) == Kept(s, keep[1..]);
  }

  lemma {:induction false} AnswersUnfold(b: Option<Bucket>, c: Config, call: Call, calls: seq<Call>)
    requires Valid(c)
    ensures var (b', answer) := Consume(b, c, call.requested, call.at);
            Answers(b, c, [call] + calls) == [answer] + Answers(Some(b'), c, calls)
  {
    assert ([call] + calls)[1..] == calls;
  }

  /** Whether or not the second bucket is spared a denied first call, both answer it alike and are alike at the next. */
  lemma AlikeAtNextCall(b1: Option<Bucket>, b2: Option<Bucket>, c: Config, calls: seq<Call>, kept: bool)
    requires Valid(c) && InOrder(calls) && calls != [] && Alike(b1, b2, c, calls[0].at)
    requires !kept ==> !Consume(b1, c, calls[0].requested, calls[0].at).1.allowed
    ensures var r := Consume(b1, c, calls[0].requested, calls[0].at);
            && Consume(b2, c, calls[0].requested, calls[0].at) == r
            && (|calls| > 1 ==> Alike(Some(r.0), if kept then Some(r.0) else b2, c, calls[1].at))
  {
    AlikeAfterCall(b1, b2, c, calls[0]);
    if |calls| > 1 {
      var first := Consume(b1, c, calls[0].requested, calls[0].at).0;
      AlikeLater(Some(first), if kept then Some(first) else b2, c, calls[0].at, calls[1].at);
    }
  }

  /**
   Deleting denied calls from a run, any of them, changes no other answer. The two
   buckets may differ in what they store but never in their level.
   */
  lemma {:induction false} DenialsAreUnobservable(
    b1: Option<Bucket>, b2: Option<Bucket>, c: Config, calls: seq<Call>, keep: seq<bool>)
    requires Valid(c) && |keep| == |calls| && InOrder(calls)
    requires calls != [] ==> Alike(b1, b2, c, calls[0].at)
    requires forall k :: 0 <= k < |calls| && !keep[k] ==> !Answers(b1, c, calls)[k].allowed
    ensures Answers(b2, c, Kept(calls, keep)) == Kept(Answers(b1, c, calls), keep)
    decreases |calls|
  {
    if calls != [] {
      var (first, answer) := Consume(b1, c, calls[0].requested, calls[0].at);
      var rest := Answers(Some(first), c, calls[1..]);
      assert Answers(b1, c, calls) == [answer] + rest;
      forall k | 0 <= k < |rest| && !keep[1..][k]
        ensures !rest[k].allowed
      {
        assert Answers(b1, c, calls)[k + 1] == rest[k];
      }
      var b2' := if keep[0] then Some(first) else b2;
      AlikeAtNextCall(b1, b2, c, calls, keep[0]);
      DenialsAreUnobservable(Some(first), b2', c, calls[1..], keep[1..]);
      KeptUnfolds(answer, rest, keep);
      assert calls == [calls[0]] + calls[1..];
      KeptUnfolds(calls[0], calls[1..], keep);
      AnswersUnfold(b2, c, calls[0], Kept(calls[1..], keep[1..]));
    }
  }

  // ----- retry-after -----

  /**
   After a denial and no other call, a retry `wait` milliseconds later succeeds
   exactly when `wait` has reached the advised time; a request above capacity
   never succeeds.
   */
  lemma RetryAfterIsExact(b: Option<Bucket>, c: Config, requested: real, now: int, wait: int)
    requires Valid(c) && InBounds(b, c) && NotAhead(b, now) && wait >= 0
    ensures var (denied, answer) := Consume(b, c, requested, now);
            !answer.allowed ==>
              && answer.retryAfterMs > 0
              && (Consume(Some(denied), c, requested, now + wait).1.allowed
                  <==> requested <= c.capacity && wait >= answer.retryAfterMs)
  {
    var (denied, answer) := Consume(b, c, requested, now);
    if !answer.allowed {
      LevelAdvances(b, c, now, now);
      LevelAdvances(Some(denied), c, now, now + wait);
      RegainTime(c, requested - denied.tokens, wait);
      RegainTime(c, requested - denied.tokens, 0);
    }
  }

  /** The advice in whole seconds is never too short, and longer by less than a second unless it is the minimum. */
  lemma AdvertisedSecondsCover(retryAfterMs: int)
    requires retryAfterMs > 0
    ensures var s := AdvertisedSeconds(retryAfterMs);
            s >= 1 && s * 1000 >= retryAfterMs && (s == 1 || (s - 1) * 1000 < retryAfterMs)
  {
    CeilIsLeast(retryAfterMs as real / 1000.0, AdvertisedSeconds(retryAfterMs));
    CeilIsLeast(retryAfterMs as real / 1000.0, AdvertisedSeconds(retryAfterMs) - 1);
  }

  // ----- no call is refused needlessly -----

  /** The bucket was full at the `j`-th call, and `level` is what later calls and refills left of it at `now`. */
  predicate FullSince(b: Option<Bucket>, c: Config, calls: seq<Call>, now: int, level: real, j: nat)
    requires Valid(c) && j < |calls|
  {
    level == c.capacity + Regained(c, now - calls[j].at) - Granted(After(b, c, calls[..j]), c, calls[j..])
  }

  lemma {:induction false} Unfold(b: Option<Bucket>, c: Config, calls: seq<Call>, j: nat)
    requires Valid(c) && j < |calls|
    ensures var b' := Some(Consume(b, c, calls[0].requested, calls[0].at).0);
            && calls[1..][j..] == calls[j + 1..]
            && After(b, c, calls[..j + 1]) == After(b', c, calls[1..][..j])
  {
    assert calls[..j + 1][1..] == calls[1..][..j];
  }

  lemma OneCallAccount(b: Bucket, c: Config, call: Call)
    requires Valid(c) && InBounds(Some(b), c) && b.updatedAt <= call.at && call.requested >= 0.0
    ensures var b' := Consume(Some(b), c, call.requested, call.at).0;
            && b'.updatedAt == call.at
            && (b'.tokens == c.capacity - GrantedNow(Some(b), c, call)
                || b'.tokens == b.tokens + Regained(c, call.at - b.updatedAt) - GrantedNow(Some(b), c, call))
  {
    RefillIsLinear(c, (call.at - b.updatedAt) as real);
  }

  lemma {:induction false} FullEarlier(b: Bucket, c: Config, calls: seq<Call>, now: int, level: real, j: nat)
    requires Valid(c) && j < |calls| - 1
    requires FullSince(Some(Consume(Some(b), c, calls[0].requested, calls[0].at).0), c, calls[1..], now, level, j)
    ensures FullSince(Some(b), c, calls, now, level, j + 1)
  {
    Unfold(Some(b), c, calls, j);
  }

  /** The account of the calls after the first is carried back over the first. */
  lemma {:induction false} AccountBefore(b: Bucket, c: Config, calls: seq<Call>, now: int, level: real)
    requires Valid(c) && calls != [] && InBounds(Some(b), c) && InOrder(calls) && b.updatedAt <= calls[0].at
    requires var b' := Consume(Some(b), c, calls[0].requested, calls[0].at).0;
             level == b'.tokens + Regained(c, now - b'.updatedAt) - Granted(Some(b'), c, calls[1..])
    ensures || level == b.tokens + Regained(c, now - b.updatedAt) - Granted(Some(b), c, calls)
            || FullSince(Some(b), c, calls, now, level, 0)
  {
    OneCallAccount(b, c, calls[0]);
    RegainedAdds(c, b.updatedAt, calls[0].at, now);
    assert calls[..0] == [] && calls[0..] == calls;
  }

  lemma LevelNow(b: Bucket, c: Config, now: int)
    requires Valid(c) && InBounds(Some(b), c) && b.updatedAt <= now
    ensures Level(Some(b), c, now) in {c.capacity, b.tokens + Regained(c, now - b.updatedAt)}
  {
    RefillIsLinear(c, (now - b.updatedAt) as real);
  }

  /** Where a level comes from: a full bucket now or at some earlier call, or the bucket that was there before. */
  ghost predicate Accounted(b: Bucket, c: Config, calls: seq<Call>, now: int, level: real)
    requires Valid(c)
  {
    || level == c.capacity
    || level == b.tokens + Regained(c, now - b.updatedAt) - Granted(Some(b), c, calls)
    || exists j: nat :: j < |calls| && FullSince(Some(b), c, calls, now, level, j)
  }

  lemma {:induction false} LevelAccount(b: Bucket, c: Config, calls: seq<Call>, now: int)
    requires Valid(c) && InBounds(Some(b), c) && InOrder(calls)
    requires if calls == [] then b.updatedAt <= now else b.updatedAt <= calls[0].at && calls[|calls| - 1].at <= now
    ensures Accounted(b, c, calls, now, Level(After(Some(b), c, calls), c, now))
    decreases |calls|
  {
    if calls == [] {
      LevelNow(b, c, now);
    } else {
      var b' := Consume(Some(b), c, calls[0].requested, calls[0].at).0;
      ConsumeStaysInBounds(Some(b), c, calls[0]);
      LevelAccount(b', c, calls[1..], now);
      AccountCarries(b, c, calls, now, Level(After(Some(b), c, calls), c, now));
    }
  }

  lemma {:induction false} AccountCarries(b: Bucket, c: Config, calls: seq<Call>, now: int, level: real)
    requires Valid(c) && calls != [] && InBounds(Some(b), c) && InOrder(calls) && b.updatedAt <= calls[0].at
    requires Accounted(Consume(Some(b), c, calls[0].requested, calls[0].at).0, c, calls[1..], now, level)
    ensures Accounted(b, c, calls, now, level)
  {
    var b' := Consume(Some(b), c, calls[0].requested, calls[0].at).0;
    if j: nat :| j < |calls[1..]| && FullSince(Some(b'), c, calls[1..], now, level, j) {
      FullEarlier(b, c, calls, now, level, j);
    } else if level != c.capacity {
      AccountBefore(b, c, calls, now, level);
    }
  }

  /** Granting `call` would let the calls from the `j`-th on have more than a full bucket and what is regained since. */
  predicate OverBudget(c: Config, calls: seq<Call>, call: Call, j: nat)
    requires Valid(c) && j <= |calls|
  {
    var since := if j < |calls| then calls[j].at else call.at;
    Granted(After(None, c, calls[..j]), c, calls[j..]) + call.requested > c.capacity + Regained(c, call.at - since)
  }

  lemma {:induction false} GrantedMore(b: Option<Bucket>, c: Config, calls: seq<Call>, call: Call)
    requires Valid(c)
    ensures Granted(b, c, calls + [call]) == Granted(b, c, calls) + GrantedNow(After(b, c, calls), c, call)
    decreases |calls|
  {
    if calls == [] {
      assert calls + [call] == [call];
    } else {
      assert (calls + [call])[1..] == calls[1..] + [call];
      GrantedMore(Some(Consume(b, c, calls[0].requested, calls[0].at).0), c, calls[1..], call);
    }
  }

  lemma {:induction false} AfterTwo(b: Option<Bucket>, c: Config, calls: seq<Call>, j: nat)
    requires Valid(c) && j <= |calls|
    ensures After(After(b, c, calls[..j]), c, calls[j..]) == After(b, c, calls)
    decreases j
  {
    if j > 0 {
      Unfold(b, c, calls, j - 1);
      AfterTwo(Some(Consume(b, c, calls[0].requested, calls[0].at).0), c, calls[1..], j - 1);
    } else {
      assert calls[..0] == [] && calls[0..] == calls;
    }
  }

  lemma {:induction false} OverBudgetIsRefused(c: Config, calls: seq<Call>, call: Call, j: nat)
    requires Valid(c) && InOrder(calls + [call]) && j <= |calls| && OverBudget(c, calls, call, j)
    ensures !Consume(After(None, c, calls), c, call.requested, call.at).1.allowed
  {
    var window := calls[j..] + [call];
    assert calls[..j] + window == calls + [call];
    AfterTwo(None, c, calls, j);
    GrantedMore(After(None, c, calls[..j]), c, calls[j..], call);
    WindowBound(None, c, calls[..j], window);
    assert window[0] == if j < |calls| then calls[j] else call;
  }

  /** The level at the next call, accounted for from a fresh key. */
  lemma {:induction false} FreshAccount(c: Config, calls: seq<Call>, now: int) returns (j: nat)
    requires Valid(c) && InOrder(calls) && calls != [] && calls[|calls| - 1].at <= now
    ensures var level := Level(After(None, c, calls), c, now);
            level == c.capacity || (j < |calls| && FullSince(None, c, calls, now, level, j))
  {
    var first := Bucket(c.capacity, calls[0].at);
    var level := Level(After(None, c, calls), c, now);
    j := 0;
    SameFromLevel(None, c, calls[0]);
    LevelAccount(first, c, calls, now);
    if k: nat :| k < |calls| && FullSince(Some(first), c, calls, now, level, k) {
      j := k;
      AfterFull(c, calls, k);
    } else {
      assert calls[..0] == [] && calls[0..] == calls;
    }
  }

  lemma {:induction false} RefusedIsOverBudget(c: Config, calls: seq<Call>, call: Call) returns (j: nat)
    requires Valid(c) && InOrder(calls + [call])
    requires !Consume(After(None, c, calls), c, call.requested, call.at).1.allowed
    ensures j <= |calls| && OverBudget(c, calls, call, j)
  {
    j := |calls|;
    assert calls[..j] == calls && calls[j..] == [];
    if Level(After(None, c, calls), c, call.at) != c.capacity {
      WindowIsOrdered(calls, [call]);
      assert (calls + [call])[|calls| - 1] == calls[|calls| - 1] && (calls + [call])[|calls|] == call;
      j := FreshAccount(c, calls, call.at);
    }
  }

  /** An absent bucket is a full one. */
  lemma {:induction false} AfterFull(c: Config, calls: seq<Call>, k: nat)
    requires Valid(c) && k < |calls|
    ensures var first := Some(Bucket(c.capacity, calls[0].at));
            Granted(After(first, c, calls[..k]), c, calls[k..]) == Granted(After(None, c, calls[..k]), c, calls[k..])
  {
    SameFromLevel(None, c, calls[0]);
    if k > 0 {
      assert calls[..k][0] == calls[0];
    } else {
      assert calls[..0] == [] && calls[0..] == calls;
    }
  }

  /**
   With `WindowBound`, the limiter is exact: on a key that starts fresh a call is refused if
   and only if granting it would give some stretch of calls more than a full bucket and what
   is regained in that time.
   */
  lemma {:induction false} RefusedIffOverBudget(c: Config, calls: seq<Call>, call: Call)
    requires Valid(c) && InOrder(calls + [call])
    ensures Consume(After(None, c, calls), c, call.requested, call.at).1.allowed <==>
            forall j: nat :: j <= |calls| ==> !OverBudget(c, calls, call, j)
  {
    if Consume(After(None, c, calls), c, call.requested, call.at).1.allowed {
      forall j: nat | j <= |calls|
        ensures !OverBudget(c, calls, call, j)
      {
        if OverBudget(c, calls, call, j) {
          OverBudgetIsRefused(c, calls, call, j);
        }
      }
    } else {
      var j := RefusedIsOverBudget(c, calls, call);
    }
  }
}
