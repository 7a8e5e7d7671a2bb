/** Over whole runs: how many tokens a bucket grants, and that looking at it changes nothing. */
module RateLimiterTheory {
  import opened Wrappers
  import opened RateLimiter

  function Run(cfg: RateLimitConfig, calls: seq<Timed>): Buckets {
    if calls == [] then map[] else After(cfg, Run(cfg, calls[..|calls| - 1]), calls[|calls| - 1])
  }

  /** The tokens the call at the end of the run grants to `id` within the interval. */
  function GrantOf(cfg: RateLimitConfig, bs: Buckets, c: Timed, id: string, t1: real, t2: real): int {
    match c.op
    case Acquire(caller, tokens) =>
      var b := Refilled(cfg, BucketOf(cfg, bs, id, c.now), c.now);
      if caller == id && t1 <= c.now <= t2 && b.tokens >= tokens as real then tokens else 0
    case _ => 0
  }

  function Granted(cfg: RateLimitConfig, calls: seq<Timed>, id: string, t1: real, t2: real): int {
    if calls == [] then 0
    else
      var before := calls[..|calls| - 1];
      Granted(cfg, before, id, t1, t2) + GrantOf(cfg, Run(cfg, before), calls[|calls| - 1], id, t1, t2)
  }

  ghost predicate Monotone(calls: seq<Timed>) {
    forall i, j :: 0 <= i < j < |calls| ==> calls[i].now <= calls[j].now
  }

  /** The caller's own requests are not negative. */
  ghost predicate Plain(calls: seq<Timed>, id: string) {
    forall i :: 0 <= i < |calls| && calls[i].op.Acquire? && calls[i].op.callerId == id ==> calls[i].op.tokens >= 0
  }

  /** A reset of the caller's bucket: one that names it, or names nobody. */
  predicate Refills(op: Op, id: string) {
    op.Reset? && (op.caller.None? || op.caller.value == "" || op.caller.value == id)
  }

  /** The resets of the caller's bucket within the interval. */
  function Resets(calls: seq<Timed>, id: string, t1: real, t2: real): nat {
    if calls == [] then 0
    else
      var c := calls[|calls| - 1];
      Resets(calls[..|calls| - 1], id, t1, t2) + if Refills(c.op, id) && t1 <= c.now <= t2 then 1 else 0
  }

  /** So many full buckets. */
  function FullBuckets(cfg: RateLimitConfig, n: nat): real {
    n as real * Capacity(cfg)
  }

  lemma OneMoreBucket(cfg: RateLimitConfig, n: nat)
    requires cfg.maxTokens >= 0
    ensures FullBuckets(cfg, n + 1) == FullBuckets(cfg, n) + Capacity(cfg) && FullBuckets(cfg, n) >= 0.0 && FullBuckets(cfg, 0) == 0.0
  {
    assert (n + 1) as real * Capacity(cfg) == n as real * Capacity(cfg) + Capacity(cfg);
  }

  lemma GainAdds(cfg: RateLimitConfig, a: real, b: real)
    ensures Gain(cfg, a) + Gain(cfg, b) == Gain(cfg, a + b)
  {
  }

  lemma GainGrows(cfg: RateLimitConfig, a: real, b: real)
    requires cfg.tokensPerSecond >= 0.0 && a <= b
    ensures Gain(cfg, a) <= Gain(cfg, b)
  {
    assert Gain(cfg, b) - Gain(cfg, a) == (b - a) * cfg.tokensPerSecond;
  }

  lemma NoGain(cfg: RateLimitConfig)
    ensures Gain(cfg, 0.0) == 0.0
  {
  }

  /** What a bucket holds and what it granted since `t1` together: at most `r + 1` full ones and the refill. */
  ghost predicate Holds(cfg: RateLimitConfig, b: Bucket, g: int, r: nat, t1: real) {
    && 0.0 <= b.tokens <= Capacity(cfg)
    && (b.lastRefill < t1 ==> g == 0)
    && (b.lastRefill >= t1 ==> b.tokens + g as real <= FullBuckets(cfg, r + 1) + Gain(cfg, b.lastRefill - t1))
  }

  /** A caller without a bucket is owed a full one. */
  ghost predicate Vacant(cfg: RateLimitConfig, now: real, g: int, r: nat, t1: real) {
    && (now < t1 ==> g == 0)
    && (now >= t1 ==> g as real <= FullBuckets(cfg, r) + Gain(cfg, now - t1))
  }

  /** The potential, kept as long as the interval lasts. */
  ghost predicate Level(cfg: RateLimitConfig, bs: Buckets, id: string, now: real, g: int, r: nat, t1: real) {
    if id in bs then bs[id].lastRefill <= now && Holds(cfg, bs[id], g, r, t1) else Vacant(cfg, now, g, r, t1)
  }

  ghost predicate Potential(cfg: RateLimitConfig, calls: seq<Timed>, id: string, t1: real, t2: real) {
    var g, r := Granted(cfg, calls, id, t1, t2), Resets(calls, id, t1, t2);
    && g as real <= FullBuckets(cfg, r + 1) + Gain(cfg, t2 - t1)
    && (calls == [] ==> g == 0 && r == 0)
    && (calls != [] && calls[|calls| - 1].now <= t2 ==> Level(cfg, Run(cfg, calls), id, calls[|calls| - 1].now, g, r, t1))
  }

  lemma RefillKeepsHolds(cfg: RateLimitConfig, b: Bucket, g: int, r: nat, now: real, t1: real)
    requires cfg.tokensPerSecond >= 0.0 && b.lastRefill <= now && Holds(cfg, b, g, r, t1) && cfg.maxTokens >= 0
    ensures Holds(cfg, Refilled(cfg, b, now), g, r, t1)
  {
    GainAdds(cfg, now - b.lastRefill, b.lastRefill - t1);
    GainGrows(cfg, 0.0, now - b.lastRefill);
    NoGain(cfg);
    OneMoreBucket(cfg, r);
    assert now - b.lastRefill + (b.lastRefill - t1) == now - t1;
    if now >= t1 { GainGrows(cfg, 0.0, now - t1); }
    hide Gain, FullBuckets;
  }

  lemma FullBucketHolds(cfg: RateLimitConfig, now: real, g: int, r: nat, t1: real)
    requires cfg.maxTokens >= 0 && Vacant(cfg, now, g, r, t1)
    ensures Holds(cfg, Bucket(Capacity(cfg), now, 0), g, r, t1)
  {
    OneMoreBucket(cfg, r);
    hide FullBuckets, Gain;
  }

  lemma TimeKeepsVacant(cfg: RateLimitConfig, before: real, now: real, g: int, r: nat, t1: real)
    requires cfg.tokensPerSecond >= 0.0 && cfg.maxTokens >= 0 && before <= now && Vacant(cfg, before, g, r, t1)
    ensures Vacant(cfg, now, g, r, t1)
  {
    OneMoreBucket(cfg, r);
    NoGain(cfg);
    if now >= t1 {
      GainGrows(cfg, 0.0, now - t1);
      GainGrows(cfg, before - t1, now - t1);
    }
    hide FullBuckets, Gain;
  }

  /** A reset gives up what the bucket holds for one full bucket more. */
  lemma ResetLeavesVacant(cfg: RateLimitConfig, b: Bucket, now: real, g: int, r: nat, t1: real)
    requires cfg.tokensPerSecond >= 0.0 && cfg.maxTokens >= 0 && b.lastRefill <= now && Holds(cfg, b, g, r, t1)
    ensures Vacant(cfg, now, g, if t1 <= now then r + 1 else r, t1)
  {
    OneMoreBucket(cfg, r);
    NoGain(cfg);
    if now >= t1 {
      GainGrows(cfg, 0.0, now - t1);
      GainGrows(cfg, b.lastRefill - t1, now - t1);
    }
    hide FullBuckets, Gain;
  }

  lemma VacantGrows(cfg: RateLimitConfig, now: real, g: int, r: nat, t1: real)
    requires cfg.maxTokens >= 0 && Vacant(cfg, now, g, r, t1)
    ensures Vacant(cfg, now, g, r + 1, t1)
  {
    OneMoreBucket(cfg, r);
    hide FullBuckets, Gain;
  }

  lemma ConsumeKeepsHolds(cfg: RateLimitConfig, b: Bucket, g: int, r: nat, tokens: int, t1: real)
    requires Holds(cfg, b, g, r, t1) && tokens >= 0
    ensures
      var grant := if t1 <= b.lastRefill && b.tokens >= tokens as real then tokens else 0;
      Holds(cfg, Consumed(b, tokens), g + grant, r, t1)
  {
    hide Gain, FullBuckets;
  }

  /** While the interval lasts, its bound follows from the potential. */
  lemma LevelBounds(cfg: RateLimitConfig, bs: Buckets, id: string, now: real, g: int, r: nat, t1: real, t2: real)
    requires cfg.tokensPerSecond >= 0.0 && cfg.maxTokens >= 0 && now <= t2 && t1 <= t2 && Level(cfg, bs, id, now, g, r, t1)
    ensures g as real <= FullBuckets(cfg, r + 1) + Gain(cfg, t2 - t1)
  {
    OneMoreBucket(cfg, r);
    OneMoreBucket(cfg, r + 1);
    NoGain(cfg);
    GainGrows(cfg, 0.0, t2 - t1);
    GainGrows(cfg, now - t1, t2 - t1);
    if id in bs {
      GainGrows(cfg, bs[id].lastRefill - t1, t2 - t1);
    }
    hide FullBuckets, Gain;
  }

  /** One call within or before the interval keeps the potential. */
  lemma CallKeepsLevel(cfg: RateLimitConfig, bs: Buckets, c: Timed, id: string, before: real, g: int, r: nat, t1: real, t2: real)
    requires cfg.tokensPerSecond >= 0.0 && cfg.maxTokens >= 0 && before <= c.now <= t2
    requires c.op.Acquire? && c.op.callerId == id ==> c.op.tokens >= 0
    requires Level(cfg, bs, id, before, g, r, t1)
    ensures
      var refills := if Refills(c.op, id) && t1 <= c.now <= t2 then 1 else 0;
      Level(cfg, After(cfg, bs, c), id, c.now, g + GrantOf(cfg, bs, c, id, t1, t2), r + refills, t1)
  {
    hide Gain, FullBuckets, Holds, Vacant, Consumed, Refilled;
    if id !in bs {
      TimeKeepsVacant(cfg, before, c.now, g, r, t1);
      VacantGrows(cfg, c.now, g, r, t1);
      FullBucketHolds(cfg, c.now, g, r, t1);
    } else {
      ResetLeavesVacant(cfg, bs[id], c.now, g, r, t1);
    }
    if !c.op.Reset? && c.op.callerId == id {
      var bucket := BucketOf(cfg, bs, id, c.now);
      RefillKeepsHolds(cfg, bucket, g, r, c.now, t1);
      RefilledAt(cfg, bucket, c.now);
      if c.op.Acquire? {
        ConsumeKeepsHolds(cfg, Refilled(cfg, bucket, c.now), g, r, c.op.tokens, t1);
        ConsumedAt(Refilled(cfg, bucket, c.now), c.op.tokens);
      }
    }
  }

  lemma {:induction false} PotentialHolds(cfg: RateLimitConfig, calls: seq<Timed>, id: string, t1: real, t2: real)
    requires cfg.tokensPerSecond >= 0.0 && cfg.maxTokens >= 0 && t1 <= t2
    requires Monotone(calls) && Plain(calls, id)
    ensures Potential(cfg, calls, id, t1, t2)
  {
    if calls == [] {
      GainGrows(cfg, 0.0, t2 - t1);
      NoGain(cfg);
      OneMoreBucket(cfg, 0);
      hide Gain, FullBuckets;
    } else {
      hide Gain, FullBuckets, Level, GrantOf, After;
      var n := |calls| - 1;
      var before, c := calls[..n], calls[n];
      var bs, g, r := Run(cfg, before), Granted(cfg, before, id, t1, t2), Resets(before, id, t1, t2);
      PotentialHolds(cfg, before, id, t1, t2);
      if c.now <= t2 {
        var since := if n > 0 then calls[n - 1].now else c.now;
        if n == 0 { NoneIsVacant(cfg, id, c.now, t1); }
        CallKeepsLevel(cfg, bs, c, id, since, g, r, t1, t2);
        LevelBounds(cfg, After(cfg, bs, c), id, c.now, Granted(cfg, calls, id, t1, t2), Resets(calls, id, t1, t2), t1, t2);
      } else {
        LateCallGrantsNothing(cfg, bs, c, id, t1, t2);
      }
    }
  }

  lemma NoneIsVacant(cfg: RateLimitConfig, id: string, now: real, t1: real)
    requires cfg.tokensPerSecond >= 0.0 && cfg.maxTokens >= 0
    ensures Level(cfg, map[], id, now, 0, 0, t1)
  {
    OneMoreBucket(cfg, 0);
    NoGain(cfg);
    if now >= t1 { GainGrows(cfg, 0.0, now - t1); }
    hide Gain, FullBuckets;
  }

  lemma LateCallGrantsNothing(cfg: RateLimitConfig, bs: Buckets, c: Timed, id: string, t1: real, t2: real)
    requires c.now > t2
    ensures GrantOf(cfg, bs, c, id, t1, t2) == 0
  {
    hide Refilled;
  }

  lemma RefilledAt(cfg: RateLimitConfig, b: Bucket, now: real)
    ensures Refilled(cfg, b, now).lastRefill == now
  {
  }

  lemma ConsumedAt(b: Bucket, tokens: int)
    ensures Consumed(b, tokens).lastRefill == b.lastRefill
  {
  }

  /**
   The token-bucket bound: with a monotone clock and non-negative requests of its own, the
   tokens granted to one caller in any interval are at most a full bucket, one more for
   each reset of its bucket in the interval, and the refill, whatever the other callers do.
   */
  lemma GrantsAreBounded(cfg: RateLimitConfig, calls: seq<Timed>, id: string, t1: real, t2: real)
    requires cfg.tokensPerSecond >= 0.0 && cfg.maxTokens >= 0 && t1 <= t2
    requires Monotone(calls) && Plain(calls, id)
    ensures Granted(cfg, calls, id, t1, t2) as real
      <= (Resets(calls, id, t1, t2) + 1) as real * cfg.maxTokens as real + (t2 - t1) * cfg.tokensPerSecond
  {
    hide Run, Granted, Resets, Level, Monotone, Plain;
    PotentialHolds(cfg, calls, id, t1, t2);
  }

  /** The bound is tight: with so many resets in one moment, that many full buckets and one are granted in it. */
  lemma {:induction false} GrantsAreAttained(cfg: RateLimitConfig, id: string, r: nat) returns (calls: seq<Timed>)
    requires cfg.maxTokens >= 0
    ensures Monotone(calls) && Plain(calls, id) && Resets(calls, id, 0.0, 0.0) == r
    ensures forall i :: 0 <= i < |calls| ==> calls[i].now == 0.0
    ensures Granted(cfg, calls, id, 0.0, 0.0) == (r + 1) * cfg.maxTokens
    decreases r
  {
    hide Run, Granted, Resets;
    if r == 0 {
      calls := [Timed(Acquire(id, cfg.maxTokens), 0.0)];
      EmptyRun(cfg, id);
      assert [] + calls == calls;
      FullBucketIsGranted(cfg, [], id);
    } else {
      var before := GrantsAreAttained(cfg, id, r - 1);
      var earlier := before + [Timed(Reset(Some(id)), 0.0)];
      ResetEmpties(cfg, before, id);
      FullBucketIsGranted(cfg, earlier, id);
      calls := earlier + [Timed(Acquire(id, cfg.maxTokens), 0.0)];
      assert (r + 1) * cfg.maxTokens == r * cfg.maxTokens + cfg.maxTokens;
    }
  }

  lemma EmptyRun(cfg: RateLimitConfig, id: string)
    ensures id !in Run(cfg, []) && Granted(cfg, [], id, 0.0, 0.0) == 0 && Resets([], id, 0.0, 0.0) == 0
  {
  }

  lemma ResetEmpties(cfg: RateLimitConfig, calls: seq<Timed>, id: string)
    ensures
      var later := calls + [Timed(Reset(Some(id)), 0.0)];
      && id !in Run(cfg, later) && Resets(later, id, 0.0, 0.0) == Resets(calls, id, 0.0, 0.0) + 1
      && Granted(cfg, later, id, 0.0, 0.0) == Granted(cfg, calls, id, 0.0, 0.0)
  {
    var later := calls + [Timed(Reset(Some(id)), 0.0)];
    assert later[..|later| - 1] == calls;
  }

  lemma FullBucketIsGranted(cfg: RateLimitConfig, calls: seq<Timed>, id: string)
    requires cfg.maxTokens >= 0 && id !in Run(cfg, calls)
    ensures
      var later := calls + [Timed(Acquire(id, cfg.maxTokens), 0.0)];
      && Granted(cfg, later, id, 0.0, 0.0) == Granted(cfg, calls, id, 0.0, 0.0) + cfg.maxTokens
      && Resets(later, id, 0.0, 0.0) == Resets(calls, id, 0.0, 0.0)
  {
    var later := calls + [Timed(Acquire(id, cfg.maxTokens), 0.0)];
    assert later[..|later| - 1] == calls;
  }

  /** What every `acquire` of a run answers, in order, starting from `bs`. */
  function Answers(cfg: RateLimitConfig, bs: Buckets, calls: seq<Timed>): seq<RateLimitResult>
    decreases |calls|
  {
    if calls == [] then []
    else
      var c, rest := calls[0], Answers(cfg, After(cfg, bs, calls[0]), calls[1..]);
      if c.op.Acquire? then
        [AcquireResult(cfg, Refilled(cfg, BucketOf(cfg, bs, c.op.callerId, c.now), c.now), c.op.tokens)] + rest
      else rest
  }

  function WithoutChecks(calls: seq<Timed>): seq<Timed> {
    if calls == [] then []
    else if calls[0].op.Check? then WithoutChecks(calls[1..])
    else [calls[0]] + WithoutChecks(calls[1..])
  }

  /** What a caller's bucket would hold at `now`. */
  function LevelAt(cfg: RateLimitConfig, bs: Buckets, id: string, now: real): real {
    Refilled(cfg, BucketOf(cfg, bs, id, now), now).tokens
  }

  function RejectionsOf(bs: Buckets, id: string): nat {
    if id in bs then bs[id].consecutiveRejections else 0
  }

  /** Indistinguishable from time `t` on: the same levels and the same rejection counts. */
  ghost predicate Alike(cfg: RateLimitConfig, a: Buckets, b: Buckets, t: real) {
    forall id ::
      && LevelAt(cfg, a, id, t) == LevelAt(cfg, b, id, t)
      && RejectionsOf(a, id) == RejectionsOf(b, id)
      && (id in a ==> a[id].lastRefill <= t) && (id in b ==> b[id].lastRefill <= t)
  }

  /** Refilling in two stages is refilling at once. */
  lemma LevelLater(cfg: RateLimitConfig, bs: Buckets, id: string, t: real, later: real)
    requires cfg.tokensPerSecond >= 0.0 && t <= later && (id in bs ==> bs[id].lastRefill <= t)
    ensures LevelAt(cfg, bs, id, later) == Min(LevelAt(cfg, bs, id, t) + Gain(cfg, later - t), Capacity(cfg))
  {
    GainGrows(cfg, 0.0, later - t);
    NoGain(cfg);
    if id in bs {
      GainAdds(cfg, later - t, t - bs[id].lastRefill);
      assert later - t + (t - bs[id].lastRefill) == later - bs[id].lastRefill;
    }
    hide Gain;
  }

  lemma AlikeLater(cfg: RateLimitConfig, a: Buckets, b: Buckets, t: real, later: real)
    requires cfg.tokensPerSecond >= 0.0 && t <= later && Alike(cfg, a, b, t)
    ensures Alike(cfg, a, b, later)
  {
    forall id
      ensures LevelAt(cfg, a, id, later) == LevelAt(cfg, b, id, later)
      ensures RejectionsOf(a, id) == RejectionsOf(b, id)
      ensures (id in a ==> a[id].lastRefill <= later) && (id in b ==> b[id].lastRefill <= later)
    {
      assert LevelAt(cfg, a, id, t) == LevelAt(cfg, b, id, t);
      LevelLater(cfg, a, id, t, later);
      LevelLater(cfg, b, id, t, later);
    }
  }

  lemma RefillTwice(cfg: RateLimitConfig, b: Bucket, now: real)
    ensures Refilled(cfg, Refilled(cfg, b, now), now) == Refilled(cfg, b, now)
  {
    NoGain(cfg);
  }

  /** A check leaves the buckets alike what they were. */
  lemma CheckIsInvisible(cfg: RateLimitConfig, a: Buckets, b: Buckets, id: string, now: real)
    requires Alike(cfg, a, b, now)
    ensures Alike(cfg, AfterCheck(cfg, a, id, now), b, now)
  {
    var a' := AfterCheck(cfg, a, id, now);
    var bucket := BucketOf(cfg, a, id, now);
    RefillTwice(cfg, bucket, now);
    RefilledAt(cfg, bucket, now);
    RefillKeepsRejections(cfg, bucket, now);
    hide Refilled;
    forall i
      ensures LevelAt(cfg, a', i, now) == LevelAt(cfg, a, i, now)
      ensures RejectionsOf(a', i) == RejectionsOf(a, i)
      ensures i in a' ==> i == id || (i in a && a'[i] == a[i])
    {
    }
    assert a'[id].lastRefill <= now;
  }

  lemma RefillKeepsRejections(cfg: RateLimitConfig, b: Bucket, now: real)
    ensures Refilled(cfg, b, now).consecutiveRejections == b.consecutiveRejections
  {
  }

  lemma SameCallKeepsAlike(cfg: RateLimitConfig, a: Buckets, b: Buckets, c: Timed)
    requires Alike(cfg, a, b, c.now) && !c.op.Check?
    ensures Alike(cfg, After(cfg, a, c), After(cfg, b, c), c.now)
    ensures c.op.Acquire? ==>
      AcquireResult(cfg, Refilled(cfg, BucketOf(cfg, a, c.op.callerId, c.now), c.now), c.op.tokens)
        == AcquireResult(cfg, Refilled(cfg, BucketOf(cfg, b, c.op.callerId, c.now), c.now), c.op.tokens)
  {
    var a', b' := After(cfg, a, c), After(cfg, b, c);
    if c.op.Acquire? {
      assert LevelAt(cfg, a, c.op.callerId, c.now) == LevelAt(cfg, b, c.op.callerId, c.now)
          && RejectionsOf(a, c.op.callerId) == RejectionsOf(b, c.op.callerId);
    }
    forall i
      ensures LevelAt(cfg, a', i, c.now) == LevelAt(cfg, b', i, c.now)
      ensures RejectionsOf(a', i) == RejectionsOf(b', i)
      ensures (i in a' ==> a'[i].lastRefill <= c.now) && (i in b' ==> b'[i].lastRefill <= c.now)
    {
      assert LevelAt(cfg, a, i, c.now) == LevelAt(cfg, b, i, c.now) && RejectionsOf(a, i) == RejectionsOf(b, i);
    }
  }

  lemma {:induction false} AlikeAnswersAlike(cfg: RateLimitConfig, a: Buckets, b: Buckets, calls: seq<Timed>, t: real)
    requires cfg.tokensPerSecond >= 0.0 && Alike(cfg, a, b, t) && Monotone(calls)
    requires calls != [] ==> t <= calls[0].now
    ensures Answers(cfg, a, calls) == Answers(cfg, b, WithoutChecks(calls))
    decreases |calls|
  {
    if calls != [] {
      var c, rest := calls[0], calls[1..];
      AlikeLater(cfg, a, b, t, c.now);
      hide Alike;
      if c.op.Check? {
        CheckIsInvisible(cfg, a, b, c.op.callerId, c.now);
        AlikeAnswersAlike(cfg, After(cfg, a, c), b, rest, c.now);
      } else {
        SameCallKeepsAlike(cfg, a, b, c);
        AlikeAnswersAlike(cfg, After(cfg, a, c), After(cfg, b, c), rest, c.now);
        assert WithoutChecks(calls)[1..] == WithoutChecks(rest);
      }
    }
  }

  /** Any number of checks, anywhere in a run, changes no answer of any acquire. */
  lemma ChecksChangeNothing(cfg: RateLimitConfig, calls: seq<Timed>)
    requires cfg.tokensPerSecond >= 0.0 && Monotone(calls)
    ensures Answers(cfg, map[], calls) == Answers(cfg, map[], WithoutChecks(calls))
  {
    if calls != [] {
      assert Alike(cfg, map[], map[], calls[0].now);
      AlikeAnswersAlike(cfg, map[], map[], calls, calls[0].now);
    }
  }

  lemma Scales(x: real, a: real)
    requires x >= 1.0 && a >= 1.0
    ensures x * a >= a
  {
    assert x * a == a + (x - 1.0) * a;
  }

  lemma ScaledInOrder(x: real, a: real, b: real)
    requires x >= 0.0 && a <= b
    ensures x * a <= x * b
  {
    assert x * b == x * a + x * (b - a);
  }

  lemma {:induction false} PowStep(x: real, n: nat)
    requires x >= 1.0
    ensures 1.0 <= Pow(x, n) <= Pow(x, n + 1)
  {
    if n > 0 {
      PowStep(x, n - 1);
    }
    Scales(x, Pow(x, n));
  }

  lemma {:induction false} PowGrows(x: real, m: nat, n: nat)
    requires x >= 1.0 && m <= n
    ensures 1.0 <= Pow(x, m) <= Pow(x, n)
  {
    hide Pow;
    PowStep(x, m);
    if m < n {
      PowGrows(x, m, n - 1);
      PowStep(x, n - 1);
    }
  }

  /** The suggested wait never shrinks from one refusal to the next, and never exceeds its cap. */
  lemma BackoffGrows(cfg: RateLimitConfig, m: nat, n: nat)
    requires cfg.backoffBase >= 0.0 && cfg.backoffMultiplier >= 1.0 && 1 <= m <= n
    ensures Backoff(cfg, m) <= Backoff(cfg, n) <= cfg.backoffMax
  {
    hide Pow;
    PowGrows(cfg.backoffMultiplier, m - 1, n - 1);
    ScaledInOrder(cfg.backoffBase, Pow(cfg.backoffMultiplier, m - 1), Pow(cfg.backoffMultiplier, n - 1));
  }

  /** Whether the call is an `acquire` of the caller that is refused. */
  predicate Refuses(cfg: RateLimitConfig, bs: Buckets, c: Timed, id: string) {
    c.op.Acquire? && c.op.callerId == id && !AcquireResult(cfg, Refilled(cfg, BucketOf(cfg, bs, id, c.now), c.now), c.op.tokens).allowed
  }

  /** What a refused `acquire` tells its caller to wait. */
  function WaitOf(cfg: RateLimitConfig, bs: Buckets, c: Timed): real
    requires c.op.Acquire?
  {
    AcquireResult(cfg, Refilled(cfg, BucketOf(cfg, bs, c.op.callerId, c.now), c.now), c.op.tokens).retryAfter
  }

  /** The call neither grants the caller tokens nor resets its bucket. */
  predicate KeepsRefusing(cfg: RateLimitConfig, bs: Buckets, c: Timed, id: string) {
    match c.op
    case Check(_, _) => true
    case Acquire(caller, _) => caller == id ==> Refuses(cfg, bs, c, id)
    case Reset(only) => only.Some? && only.value != "" && only.value != id
  }

  lemma RejectionsGrow(cfg: RateLimitConfig, bs: Buckets, c: Timed, id: string)
    requires KeepsRefusing(cfg, bs, c, id)
    ensures RejectionsOf(After(cfg, bs, c), id) >= RejectionsOf(bs, id)
    ensures Refuses(cfg, bs, c, id) ==> RejectionsOf(After(cfg, bs, c), id) == RejectionsOf(bs, id) + 1
    ensures Refuses(cfg, bs, c, id) ==> WaitOf(cfg, bs, c) == Rounded(Backoff(cfg, RejectionsOf(bs, id) + 1))
  {
  }

  lemma {:induction false} RejectionsPersist(cfg: RateLimitConfig, calls: seq<Timed>, id: string, i: nat, j: nat)
    requires i <= j <= |calls|
    requires forall k :: i <= k < j ==> KeepsRefusing(cfg, Run(cfg, calls[..k]), calls[k], id)
    ensures RejectionsOf(Run(cfg, calls[..i]), id) <= RejectionsOf(Run(cfg, calls[..j]), id)
  {
    hide KeepsRefusing, RejectionsOf, After;
    if i < j {
      RejectionsPersist(cfg, calls, id, i, j - 1);
      assert calls[..j][..j - 1] == calls[..j - 1];
      RejectionsGrow(cfg, Run(cfg, calls[..j - 1]), calls[j - 1], id);
    }
  }

  /**
   In every run, from one refusal of a caller to the next with no grant and no reset of its
   bucket in between, the suggested wait does not shrink; and it never exceeds its cap, as
   far as it is rounded.
   */
  lemma SuccessiveWaitsGrow(cfg: RateLimitConfig, calls: seq<Timed>, id: string, i: nat, j: nat)
    requires cfg.backoffBase >= 0.0 && cfg.backoffMultiplier >= 1.0 && i < j < |calls|
    requires Refuses(cfg, Run(cfg, calls[..i]), calls[i], id) && Refuses(cfg, Run(cfg, calls[..j]), calls[j], id)
    requires forall k :: i < k < j ==> KeepsRefusing(cfg, Run(cfg, calls[..k]), calls[k], id)
    ensures WaitOf(cfg, Run(cfg, calls[..i]), calls[i]) <= WaitOf(cfg, Run(cfg, calls[..j]), calls[j]) <= Rounded(cfg.backoffMax)
  {
    var before, later := Run(cfg, calls[..i]), Run(cfg, calls[..j]);
    assert KeepsRefusing(cfg, before, calls[i], id) && KeepsRefusing(cfg, later, calls[j], id);
    hide KeepsRefusing, Refuses, RejectionsOf, After, WaitOf, Backoff, Rounded;
    RejectionsPersist(cfg, calls, id, i, j);
    RejectionsGrow(cfg, before, calls[i], id);
    RejectionsGrow(cfg, later, calls[j], id);
    var first, second := Backoff(cfg, RejectionsOf(before, id) + 1), Backoff(cfg, RejectionsOf(later, id) + 1);
    BackoffGrows(cfg, RejectionsOf(before, id) + 1, RejectionsOf(later, id) + 1);
    RoundingKeepsOrder(first, second);
    RoundingKeepsOrder(second, cfg.backoffMax);
  }

  lemma RoundingKeepsOrder(a: real, b: real)
    requires a <= b
    ensures Rounded(a) <= Rounded(b)
  {
    NearestKeepsOrder(100.0 * a, 100.0 * b);
    hide Nearest;
  }

  lemma NearestKeepsOrder(x: real, y: real)
    requires x <= y
    ensures Nearest(x) <= Nearest(y)
  {
    assert x.Floor <= y.Floor;
  }

  /**
   A caller that waits as long as a refused check suggests, with nobody else at its bucket,
   finds its tokens there if and only if the wait was not rounded down and its request fits
   into a full bucket.
   */
  lemma SuggestedWaitSufficesIff(cfg: RateLimitConfig, bs: Buckets, id: string, tokens: int, now: real)
    requires cfg.tokensPerSecond > 0.0 && LevelAt(cfg, bs, id, now) < tokens as real
    ensures
      var exact := WaitFor(cfg, LevelAt(cfg, bs, id, now), tokens);
      (LevelAt(cfg, AfterCheck(cfg, bs, id, now), id, now + Rounded(exact)) >= tokens as real) <==>
      (Rounded(exact) >= exact && tokens <= cfg.maxTokens)
  {
    var level := LevelAt(cfg, bs, id, now);
    var exact := WaitFor(cfg, level, tokens);
    var wait := Rounded(exact);
    RisesIff(cfg, level, tokens, wait);
    assert now + wait - now == wait;
    hide Rounded, WaitFor, Gain;
  }

  lemma RisesIff(cfg: RateLimitConfig, level: real, tokens: int, wait: real)
    requires cfg.tokensPerSecond > 0.0
    ensures level + Gain(cfg, wait) >= tokens as real <==> wait >= WaitFor(cfg, level, tokens)
  {
    var rate, missing := cfg.tokensPerSecond, tokens as real - level;
    assert missing / rate * rate == missing;
    assert wait * rate - missing == (wait - missing / rate) * rate;
  }

  /** Every reading of the run is at most `t2`. */
  ghost predicate Until(calls: seq<Timed>, t2: real) {
    forall i :: 0 <= i < |calls| ==> calls[i].now <= t2
  }

  lemma {:induction false} GrantsAreNotNegative(cfg: RateLimitConfig, calls: seq<Timed>, id: string, t1: real, t2: real)
    requires Plain(calls, id)
    ensures Granted(cfg, calls, id, t1, t2) >= 0
  {
    hide Refilled, Run;
    if calls != [] {
      GrantsAreNotNegative(cfg, calls[..|calls| - 1], id, t1, t2);
    }
  }

  /** Since `t1` the bucket has spilt no refill: what it holds and what was granted make a full bucket and the refill. */
  ghost predicate Unspilt(cfg: RateLimitConfig, b: Bucket, g: int, t1: real) {
    t1 <= b.lastRefill && b.tokens + g as real >= Capacity(cfg) + Gain(cfg, b.lastRefill - t1)
  }

  lemma RefillKeepsUnspilt(cfg: RateLimitConfig, b: Bucket, g: int, t1: real, now: real)
    requires Unspilt(cfg, b, g, t1) && b.lastRefill <= now && b.tokens + Gain(cfg, now - b.lastRefill) <= Capacity(cfg)
    ensures Unspilt(cfg, Refilled(cfg, b, now), g, t1)
  {
    GainAdds(cfg, now - b.lastRefill, b.lastRefill - t1);
    assert now - b.lastRefill + (b.lastRefill - t1) == now - t1;
    hide Gain;
  }

  lemma FullIsUnspilt(cfg: RateLimitConfig, b: Bucket, now: real, g: int)
    requires b.tokens + Gain(cfg, now - b.lastRefill) >= Capacity(cfg) && g >= 0
    ensures Unspilt(cfg, Refilled(cfg, b, now), g, now)
  {
    NoGain(cfg);
    hide Gain;
  }

  /** Refilling keeps a bucket unspilt, or fills it, which is a new start. */
  lemma RefilledUnspilt(cfg: RateLimitConfig, calls: seq<Timed>, id: string, now: real, t0: real, t2: real) returns (t1: real)
    requires Plain(calls, id)
    requires
      var bs := Run(cfg, calls);
      id in bs ==> bs[id].lastRefill <= now && Unspilt(cfg, bs[id], Granted(cfg, calls, id, t0, t2), t0)
    ensures Unspilt(cfg, Refilled(cfg, BucketOf(cfg, Run(cfg, calls), id, now), now), Granted(cfg, calls, id, t1, t2), t1)
  {
    hide Run, Granted, Gain, Unspilt, Refilled, Plain;
    var bs := Run(cfg, calls);
    var b := BucketOf(cfg, bs, id, now);
    GrantsAreNotNegative(cfg, calls, id, now, t2);
    NoGain(cfg);
    if id in bs && b.tokens + Gain(cfg, now - b.lastRefill) <= Capacity(cfg) {
      t1 := t0;
      RefillKeepsUnspilt(cfg, b, Granted(cfg, calls, id, t0, t2), t0, now);
    } else {
      t1 := now;
      FullIsUnspilt(cfg, b, now, Granted(cfg, calls, id, now, t2));
    }
  }

  lemma ConsumeKeepsUnspilt(cfg: RateLimitConfig, bs: Buckets, c: Timed, b: Bucket, g: int, id: string, t1: real, t2: real)
    requires c.op.Acquire? && c.op.callerId == id && c.now <= t2
    requires b == Refilled(cfg, BucketOf(cfg, bs, id, c.now), c.now) && Unspilt(cfg, b, g, t1)
    ensures Unspilt(cfg, Consumed(b, c.op.tokens), g + GrantOf(cfg, bs, c, id, t1, t2), t1)
  {
    RefilledAt(cfg, BucketOf(cfg, bs, id, c.now), c.now);
    hide Gain, Refilled, Capacity;
  }

  /** Every bucket of a run has spilt no refill since some reading: its first, or the last that found it full. */
  lemma {:induction false} UnspiltSince(cfg: RateLimitConfig, calls: seq<Timed>, id: string, t2: real) returns (t1: real)
    requires Plain(calls, id) && Monotone(calls) && Until(calls, t2)
    ensures
      id in Run(cfg, calls) ==>
        && calls != [] && Run(cfg, calls)[id].lastRefill <= calls[|calls| - 1].now
        && Unspilt(cfg, Run(cfg, calls)[id], Granted(cfg, calls, id, t1, t2), t1)
    decreases |calls|
  {
    if calls == [] {
      t1 := 0.0;
    } else {
      var n := |calls| - 1;
      var before, c := calls[..n], calls[n];
      var bs := Run(cfg, before);
      var t0 := UnspiltSince(cfg, before, id, t2);
      assert id in bs ==> bs[id].lastRefill <= c.now;
      hide Gain, Unspilt, Refilled, Plain, Monotone, Until, After;
      t1 := t0;
      if !c.op.Reset? && c.op.callerId == id {
        t1 := RefilledUnspilt(cfg, before, id, c.now, t0, t2);
        CallOfItsOwn(cfg, bs, c, Granted(cfg, before, id, t1, t2), t1, t2);
      } else {
        CallOfAnother(cfg, bs, c, id, t1, t2);
      }
    }
  }

  lemma CallOfItsOwn(cfg: RateLimitConfig, bs: Buckets, c: Timed, g: int, t1: real, t2: real)
    requires !c.op.Reset? && c.now <= t2
    requires Unspilt(cfg, Refilled(cfg, BucketOf(cfg, bs, c.op.callerId, c.now), c.now), g, t1)
    ensures
      var id, later := c.op.callerId, After(cfg, bs, c);
      && id in later && later[id].lastRefill == c.now
      && Unspilt(cfg, later[id], g + GrantOf(cfg, bs, c, id, t1, t2), t1)
  {
    var id := c.op.callerId;
    var b := Refilled(cfg, BucketOf(cfg, bs, id, c.now), c.now);
    RefilledAt(cfg, BucketOf(cfg, bs, id, c.now), c.now);
    if c.op.Acquire? {
      ConsumeKeepsUnspilt(cfg, bs, c, b, g, id, t1, t2);
      ConsumedAt(b, c.op.tokens);
    }
    hide Refilled, Consumed, Unspilt;
  }

  lemma CallOfAnother(cfg: RateLimitConfig, bs: Buckets, c: Timed, id: string, t1: real, t2: real)
    requires c.op.Reset? || c.op.callerId != id
    ensures
      var later := After(cfg, bs, c);
      id in later ==> id in bs && later[id] == bs[id] && GrantOf(cfg, bs, c, id, t1, t2) == 0
  {
    hide Refilled, Consumed;
  }

  /**
   A refusal is never idle: in every run, whatever checks and resets came before, a refused
   `acquire` could not have been granted without exceeding, over an interval that ends
   with it, a full bucket and the refill.
   */
  lemma RefusalsAreForced(cfg: RateLimitConfig, calls: seq<Timed>, id: string, tokens: int, now: real) returns (t1: real)
    requires Plain(calls, id) && Monotone(calls) && Until(calls, now)
    requires Refuses(cfg, Run(cfg, calls), Timed(Acquire(id, tokens), now), id)
    ensures t1 <= now
    ensures Granted(cfg, calls, id, t1, now) as real + tokens as real
      > cfg.maxTokens as real + (now - t1) * cfg.tokensPerSecond
  {
    hide *;
    var t0 := UnspiltSince(cfg, calls, id, now);
    LastRefillIsPast(cfg, calls, id, now);
    t1 := RefilledUnspilt(cfg, calls, id, now, t0, now);
    RefusalSpills(cfg, Run(cfg, calls), id, tokens, now, Granted(cfg, calls, id, t1, now), t1);
  }

  lemma LastRefillIsPast(cfg: RateLimitConfig, calls: seq<Timed>, id: string, now: real)
    requires Until(calls, now)
    requires id in Run(cfg, calls) ==> calls != [] && Run(cfg, calls)[id].lastRefill <= calls[|calls| - 1].now
    ensures id in Run(cfg, calls) ==> Run(cfg, calls)[id].lastRefill <= now
  {
  }

  lemma RefusalSpills(cfg: RateLimitConfig, bs: Buckets, id: string, tokens: int, now: real, g: int, t1: real)
    requires Refuses(cfg, bs, Timed(Acquire(id, tokens), now), id)
    requires Unspilt(cfg, Refilled(cfg, BucketOf(cfg, bs, id, now), now), g, t1)
    ensures t1 <= now && g as real + tokens as real > cfg.maxTokens as real + (now - t1) * cfg.tokensPerSecond
  {
    RefilledAt(cfg, BucketOf(cfg, bs, id, now), now);
    hide Refilled;
  }

  /**
   The bucket grants all it can: an `acquire` of a caller whose bucket was never reset is
   refused if and only if granting it would exceed the bound over some interval.
   */
  lemma RefusedIff(cfg: RateLimitConfig, calls: seq<Timed>, id: string, tokens: nat, now: real)
    requires cfg.tokensPerSecond >= 0.0 && cfg.maxTokens >= 0
    requires Plain(calls, id) && Monotone(calls) && Until(calls, now)
    requires forall i :: 0 <= i < |calls| ==> !Refills(calls[i].op, id)
    ensures Refuses(cfg, Run(cfg, calls), Timed(Acquire(id, tokens), now), id) <==>
      exists t1 :: t1 <= now &&
        Granted(cfg, calls, id, t1, now) as real + tokens as real > cfg.maxTokens as real + (now - t1) * cfg.tokensPerSecond
  {
    var c := Timed(Acquire(id, tokens), now);
    if Refuses(cfg, Run(cfg, calls), c, id) {
      var t1 := RefusalsAreForced(cfg, calls, id, tokens, now);
    } else {
      forall t1 | t1 <= now
        ensures Granted(cfg, calls, id, t1, now) as real + tokens as real <= cfg.maxTokens as real + (now - t1) * cfg.tokensPerSecond
      {
        GrantFits(cfg, calls, id, tokens, now, t1);
      }
    }
  }

  lemma {:induction false} NoResets(calls: seq<Timed>, id: string, t1: real, t2: real)
    requires forall i :: 0 <= i < |calls| ==> !Refills(calls[i].op, id)
    ensures Resets(calls, id, t1, t2) == 0
  {
    if calls != [] {
      NoResets(calls[..|calls| - 1], id, t1, t2);
    }
  }

  lemma GrantFits(cfg: RateLimitConfig, calls: seq<Timed>, id: string, tokens: nat, now: real, t1: real)
    requires cfg.tokensPerSecond >= 0.0 && cfg.maxTokens >= 0 && t1 <= now
    requires Plain(calls, id) && Monotone(calls) && Until(calls, now)
    requires forall i :: 0 <= i < |calls| ==> !Refills(calls[i].op, id)
    requires !Refuses(cfg, Run(cfg, calls), Timed(Acquire(id, tokens), now), id)
    ensures Granted(cfg, calls, id, t1, now) as real + tokens as real <= cfg.maxTokens as real + (now - t1) * cfg.tokensPerSecond
  {
    hide *;
    var later := calls + [Timed(Acquire(id, tokens), now)];
    GrantIsCounted(cfg, calls, id, tokens, now, t1);
    LaterIsPlain(calls, id, tokens, now);
    NoResets(later, id, t1, now);
    GrantsAreBounded(cfg, later, id, t1, now);
  }

  lemma GrantIsCounted(cfg: RateLimitConfig, calls: seq<Timed>, id: string, tokens: nat, now: real, t1: real)
    requires t1 <= now && !Refuses(cfg, Run(cfg, calls), Timed(Acquire(id, tokens), now), id)
    ensures Granted(cfg, calls + [Timed(Acquire(id, tokens), now)], id, t1, now) == Granted(cfg, calls, id, t1, now) + tokens
  {
    hide Refilled, Run;
    var later := calls + [Timed(Acquire(id, tokens), now)];
    assert later[..|later| - 1] == calls;
  }

  lemma LaterIsPlain(calls: seq<Timed>, id: string, tokens: nat, now: real)
    requires Plain(calls, id) && Monotone(calls) && Until(calls, now)
    requires forall i :: 0 <= i < |calls| ==> !Refills(calls[i].op, id)
    ensures
      var later := calls + [Timed(Acquire(id, tokens), now)];
      Plain(later, id) && Monotone(later) && forall i :: 0 <= i < |later| ==> !Refills(later[i].op, id)
  {
  }

  /** The refusals of the caller since its bucket last granted something or was reset, told from the answers. */
  function RefusalsSince(cfg: RateLimitConfig, calls: seq<Timed>, id: string): nat {
    if calls == [] then 0
    else
      var before, c := calls[..|calls| - 1], calls[|calls| - 1];
      if Refills(c.op, id) then 0
      else if !c.op.Acquire? || c.op.callerId != id then RefusalsSince(cfg, before, id)
      else if Refuses(cfg, Run(cfg, before), c, id) then RefusalsSince(cfg, before, id) + 1
      else 0
  }

  lemma {:induction false} RejectionsAreRefusals(cfg: RateLimitConfig, calls: seq<Timed>, id: string)
    ensures RejectionsOf(Run(cfg, calls), id) == RefusalsSince(cfg, calls, id)
  {
    if calls != [] {
      var before, c := calls[..|calls| - 1], calls[|calls| - 1];
      RejectionsAreRefusals(cfg, before, id);
      if !c.op.Reset? {
        RefillKeepsRejections(cfg, BucketOf(cfg, Run(cfg, before), c.op.callerId, c.now), c.now);
      }
      hide Refilled, Gain, Rounded, Truncate, Backoff;
    }
  }

  lemma Times(a: real, x: real, y: real)
    requires x == y
    ensures a * x == a * y
  {
  }

  lemma BackoffAfter(cfg: RateLimitConfig, n: nat, factor: real)
    requires factor == Pow(cfg.backoffMultiplier, n)
    ensures Backoff(cfg, n + 1) == Min(cfg.backoffBase * factor, cfg.backoffMax)
  {
    Times(cfg.backoffBase, factor, Pow(cfg.backoffMultiplier, n + 1 - 1));
  }

  /**
   The wait a refusal suggests is the base wait, multiplied once for each refusal since the
   caller's last grant or reset, up to the cap: a grant starts the backoff over.
   */
  lemma WaitCountsRefusals(cfg: RateLimitConfig, calls: seq<Timed>, id: string, c: Timed) returns (factor: real)
    requires Refuses(cfg, Run(cfg, calls), c, id)
    ensures factor == Pow(cfg.backoffMultiplier, RefusalsSince(cfg, calls, id))
    ensures WaitOf(cfg, Run(cfg, calls), c) == Rounded(Min(cfg.backoffBase * factor, cfg.backoffMax))
  {
    factor := Pow(cfg.backoffMultiplier, RefusalsSince(cfg, calls, id));
    BackoffAfter(cfg, RefusalsSince(cfg, calls, id), factor);
    hide AcquireResult, Refilled, WaitOf, Rounded, Pow, Run, RefusalsSince, RejectionsOf, After, Backoff, Min;
    RejectionsAreRefusals(cfg, calls, id);
    RejectionsGrow(cfg, Run(cfg, calls), c, id);
  }

  /** An `acquire` answers with what it leaves in the bucket, as a check at that moment sees it, and with no wait if granted. */
  lemma AnswerShowsTheLevel(cfg: RateLimitConfig, bs: Buckets, id: string, tokens: int, now: real)
    ensures
      var answer := AcquireResult(cfg, Refilled(cfg, BucketOf(cfg, bs, id, now), now), tokens);
      var before, later := LevelAt(cfg, bs, id, now), LevelAt(cfg, AfterAcquire(cfg, bs, id, tokens, now), id, now);
      && (answer.allowed <==> before >= tokens as real)
      && later == (if answer.allowed then Min(before - tokens as real, Capacity(cfg)) else before)
      && answer.remainingTokens == Truncate(if answer.allowed then before - tokens as real else before)
      && (answer.allowed ==> answer.retryAfter == 0.0)
  {
    NoGain(cfg);
    RefilledAt(cfg, BucketOf(cfg, bs, id, now), now);
    hide Truncate, Rounded, Backoff, Gain;
  }
}
