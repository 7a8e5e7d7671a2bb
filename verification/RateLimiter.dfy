/** `RateLimiter`: one token bucket per caller. Each call takes its clock reading; times are exact reals. */
module RateLimiter {
  import opened Wrappers

  datatype RateLimitConfig = RateLimitConfig(
    tokensPerSecond: real,
    maxTokens: int,
    backoffBase: real,
    backoffMax: real,
    backoffMultiplier: real
  )

  datatype Bucket = Bucket(tokens: real, lastRefill: real, consecutiveRejections: nat)

  datatype RateLimitResult = RateLimitResult(allowed: bool, retryAfter: real, remainingTokens: int)

  type Buckets = map<string, Bucket>

  function Min(a: real, b: real): real {
    if a <= b then a else b
  }

  function Pow(x: real, n: nat): real {
    if n == 0 then 1.0 else x * Pow(x, n - 1)
  }

  /** Python's `int(x)`: towards zero. */
  function Truncate(x: real): (r: int)
    ensures x >= 0.0 ==> r as real <= x < r as real + 1.0
    ensures x <= 0.0 ==> r as real - 1.0 < x <= r as real
  {
    if x >= 0.0 then x.Floor else -((-x).Floor)
  }

  function Capacity(cfg: RateLimitConfig): real {
    cfg.maxTokens as real
  }

  /** `_get_bucket`: a caller seen for the first time gets a full bucket. */
  function BucketOf(cfg: RateLimitConfig, bs: Buckets, id: string, now: real): Bucket {
    if id in bs then bs[id] else Bucket(Capacity(cfg), now, 0)
  }

  /** The tokens an elapsed time is worth. */
  function Gain(cfg: RateLimitConfig, elapsed: real): real {
    elapsed * cfg.tokensPerSecond
  }

  /** `_refill`. */
  function Refilled(cfg: RateLimitConfig, b: Bucket, now: real): Bucket {
    b.(tokens := Min(b.tokens + Gain(cfg, now - b.lastRefill), Capacity(cfg)), lastRefill := now)
  }

  /** The nearest integer; halfway between two, the even one. */
  function Nearest(x: real): (r: int)
    ensures -0.5 <= x - r as real <= 0.5
    ensures x - r as real == 0.5 || r as real - x == 0.5 ==> r % 2 == 0
  {
    var below := x.Floor;
    var rest := x - below as real;
    if rest < 0.5 || (rest == 0.5 && below % 2 == 0) then below else below + 1
  }

  /** Python's `round(x, 2)`. */
  function Rounded(x: real): real {
    Nearest(100.0 * x) as real / 100.0
  }

  /** How long the level takes to rise to `tokens`. */
  function WaitFor(cfg: RateLimitConfig, level: real, tokens: int): real
    requires cfg.tokensPerSecond != 0.0
  {
    (tokens as real - level) / cfg.tokensPerSecond
  }

  function Backoff(cfg: RateLimitConfig, rejections: nat): real
    requires rejections >= 1
  {
    Min(cfg.backoffBase * Pow(cfg.backoffMultiplier, rejections - 1), cfg.backoffMax)
  }

  function Consumed(b: Bucket, tokens: int): Bucket {
    if b.tokens >= tokens as real then b.(tokens := b.tokens - tokens as real, consecutiveRejections := 0)
    else b.(consecutiveRejections := b.consecutiveRejections + 1)
  }

  function AcquireResult(cfg: RateLimitConfig, b: Bucket, tokens: int): RateLimitResult {
    var after := Consumed(b, tokens);
    if b.tokens >= tokens as real then RateLimitResult(true, 0.0, Truncate(after.tokens))
    else RateLimitResult(false, Rounded(Backoff(cfg, after.consecutiveRejections)), Truncate(after.tokens))
  }

  datatype Op =
    | Check(callerId: string, tokens: int)
    | Acquire(callerId: string, tokens: int)
    | Reset(caller: Option<string>)

  datatype Timed = Timed(op: Op, now: real)

  function AfterCheck(cfg: RateLimitConfig, bs: Buckets, id: string, now: real): Buckets {
    bs[id := Refilled(cfg, BucketOf(cfg, bs, id, now), now)]
  }

  function AfterAcquire(cfg: RateLimitConfig, bs: Buckets, id: string, tokens: int, now: real): Buckets {
    bs[id := Consumed(Refilled(cfg, BucketOf(cfg, bs, id, now), now), tokens)]
  }

  /** `reset`; an empty caller id resets everyone, as no caller id does. */
  function AfterReset(bs: Buckets, caller: Option<string>): Buckets {
    if caller.Some? && caller.value != "" then bs - {caller.value} else map[]
  }

  function After(cfg: RateLimitConfig, bs: Buckets, c: Timed): Buckets {
    match c.op
    case Check(id, _) => AfterCheck(cfg, bs, id, c.now)
    case Acquire(id, tokens) => AfterAcquire(cfg, bs, id, tokens, c.now)
    case Reset(caller) => AfterReset(bs, caller)
  }

  class RateLimiter {
    const config: RateLimitConfig
    var buckets: Buckets

    constructor (config: RateLimitConfig)
      ensures buckets == map[] && this.config == config
    {
      this.config := config;
      buckets := map[];
    }

    method GetBucket(callerId: string, now: real) returns (bucket: Bucket)
      modifies this
      ensures bucket == BucketOf(config, old(buckets), callerId, now)
      ensures buckets == old(buckets)[callerId := bucket]
    {
      if callerId !in buckets {
        buckets := buckets[callerId := Bucket(config.maxTokens as real, now, 0)];
      }
      bucket := buckets[callerId];
      assert buckets == old(buckets)[callerId := bucket];
    }

    method Refill(callerId: string, now: real) returns (bucket: Bucket)
      requires callerId in buckets
      modifies this
      ensures bucket == Refilled(config, old(buckets)[callerId], now)
      ensures buckets == old(buckets)[callerId := bucket]
    {
      var elapsed := now - buckets[callerId].lastRefill;
      var refill := elapsed * config.tokensPerSecond;
      var tokens := buckets[callerId].tokens + refill;
      if tokens > config.maxTokens as real {
        tokens := config.maxTokens as real;
      }
      bucket := buckets[callerId].(tokens := tokens, lastRefill := now);
      buckets := buckets[callerId := bucket];
    }

    /** `check`: consumes nothing; none is the `ZeroDivisionError` of a refusal at rate zero. */
    method Check(callerId: string, tokens: int, now: real) returns (result: Option<RateLimitResult>)
      modifies this
      ensures buckets == AfterCheck(config, old(buckets), callerId, now)
      ensures
        var level := buckets[callerId].tokens;
        result == if level >= tokens as real then Some(RateLimitResult(true, 0.0, Truncate(level)))
          else if config.tokensPerSecond == 0.0 then None
          else Some(RateLimitResult(false, Rounded(WaitFor(config, level, tokens)), Truncate(level)))
    {
      hide Rounded, Truncate, Refilled, Gain, BucketOf;
      var bucket := GetBucket(callerId, now);
      bucket := Refill(callerId, now);
      if bucket.tokens >= tokens as real {
        return Some(RateLimitResult(true, 0.0, Truncate(bucket.tokens)));
      }
      if config.tokensPerSecond == 0.0 {
        return None;
      }
      var wait := (tokens as real - bucket.tokens) / config.tokensPerSecond;
      return Some(RateLimitResult(false, Rounded(wait), Truncate(bucket.tokens)));
    }

    method Acquire(callerId: string, tokens: int, now: real) returns (result: RateLimitResult)
      modifies this
      ensures buckets == AfterAcquire(config, old(buckets), callerId, tokens, now)
      ensures result == AcquireResult(config, Refilled(config, BucketOf(config, old(buckets), callerId, now), now), tokens)
    {
      hide Rounded, Pow, Truncate, Refilled, Gain, BucketOf;
      var bucket := GetBucket(callerId, now);
      bucket := Refill(callerId, now);
      if bucket.tokens >= tokens as real {
        bucket := bucket.(tokens := bucket.tokens - tokens as real, consecutiveRejections := 0);
        buckets := buckets[callerId := bucket];
        return RateLimitResult(true, 0.0, Truncate(bucket.tokens));
      }
      bucket := bucket.(consecutiveRejections := bucket.consecutiveRejections + 1);
      buckets := buckets[callerId := bucket];
      var backoff := Min(config.backoffBase * Pow(config.backoffMultiplier, bucket.consecutiveRejections - 1), config.backoffMax);
      assert backoff == Backoff(config, bucket.consecutiveRejections);
      hide Min, Backoff;
      return RateLimitResult(false, Rounded(backoff), Truncate(bucket.tokens));
    }

    method Reset(caller: Option<string>)
      modifies this
      ensures buckets == AfterReset(old(buckets), caller)
    {
      if caller.Some? && caller.value != "" {
        buckets := buckets - {caller.value};
      } else {
        buckets := map[];
      }
    }
  }
}
