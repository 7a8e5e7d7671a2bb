/** `QuotaTracker`: the one-second sliding window of calls and the concurrency counter of each tool. */
module QuotaTracker {
  import opened Wrappers

  /** Timestamps less than a second old. */
  function Recent(times: seq<real>, now: real): seq<real> {
    if times == [] then []
    else
      var n := |times| - 1;
      if now - times[n] < 1.0 then Recent(times[..n], now) + [times[n]] else Recent(times[..n], now)
  }

  datatype Quota = Quota(timestamps: map<string, seq<real>>, concurrent: map<string, int>)

  function TimesOf(q: Quota, tool: string): seq<real> {
    if tool in q.timestamps then q.timestamps[tool] else []
  }

  function ConcurrentOf(q: Quota, tool: string): int {
    if tool in q.concurrent then q.concurrent[tool] else 0
  }

  datatype Op =
    | CheckQps(tool: string, limit: int)
    | RecordCallStart(tool: string)
    | RecordCallEnd(tool: string)
    | Reset(only: Option<string>)

  datatype Timed = Timed(op: Op, now: real)

  function After(q: Quota, c: Timed): Quota {
    match c.op
    case CheckQps(tool, _) => q.(timestamps := q.timestamps[tool := Recent(TimesOf(q, tool), c.now)])
    case RecordCallStart(tool) =>
      Quota(q.timestamps[tool := TimesOf(q, tool) + [c.now]], q.concurrent[tool := ConcurrentOf(q, tool) + 1])
    case RecordCallEnd(tool) =>
      q.(concurrent := q.concurrent[tool := if ConcurrentOf(q, tool) > 1 then ConcurrentOf(q, tool) - 1 else 0])
    case Reset(only) =>
      if only.Some? && only.value != "" then Quota(q.timestamps - {only.value}, q.concurrent - {only.value})
      else Quota(map[], map[])
  }

  class QuotaTracker {
    var callTimestamps: map<string, seq<real>>
    var concurrent: map<string, int>

    function State(): Quota
      reads this
    {
      Quota(callTimestamps, concurrent)
    }

    constructor ()
      ensures State() == Quota(map[], map[])
    {
      callTimestamps, concurrent := map[], map[];
    }

    method DoCheckQps(tool: string, limit: int, now: real) returns (allowed: bool)
      modifies this
      ensures State() == After(old(State()), Timed(CheckQps(tool, limit), now))
      ensures allowed <==> |Recent(TimesOf(old(State()), tool), now)| < limit
    {
      var timestamps := if tool in callTimestamps then callTimestamps[tool] else [];
      var kept: seq<real> := [];
      for i := 0 to |timestamps|
        invariant kept == Recent(timestamps[..i], now)
      {
        assert timestamps[..i + 1][..i] == timestamps[..i];
        if now - timestamps[i] < 1.0 {
          kept := kept + [timestamps[i]];
        }
      }
      assert timestamps[..|timestamps|] == timestamps;
      callTimestamps := callTimestamps[tool := kept];
      return |kept| < limit;
    }

    method CheckConcurrency(tool: string, limit: int) returns (allowed: bool)
      ensures allowed <==> ConcurrentOf(State(), tool) < limit
    {
      return (if tool in concurrent then concurrent[tool] else 0) < limit;
    }

    method DoRecordCallStart(tool: string, now: real)
      modifies this
      ensures State() == After(old(State()), Timed(RecordCallStart(tool), now))
    {
      callTimestamps := callTimestamps[tool := (if tool in callTimestamps then callTimestamps[tool] else []) + [now]];
      concurrent := concurrent[tool := (if tool in concurrent then concurrent[tool] else 0) + 1];
    }

    method DoRecordCallEnd(tool: string, now: real)
      modifies this`concurrent
      ensures State() == After(old(State()), Timed(RecordCallEnd(tool), now))
    {
      var running := if tool in concurrent then concurrent[tool] else 0;
      concurrent := concurrent[tool := if running - 1 > 0 then running - 1 else 0];
    }

    method DoReset(only: Option<string>, now: real)
      modifies this
      ensures State() == After(old(State()), Timed(Reset(only), now))
    {
      if only.Some? && only.value != "" {
        callTimestamps, concurrent := callTimestamps - {only.value}, concurrent - {only.value};
      } else {
        callTimestamps, concurrent := map[], map[];
      }
    }
  }

  function Run(calls: seq<Timed>): Quota {
    if calls == [] then Quota(map[], map[]) else After(Run(calls[..|calls| - 1]), calls[|calls| - 1])
  }

  /** Every call of a tool recorded since its last reset, nothing pruned. */
  function History(calls: seq<Timed>, tool: string): seq<real> {
    if calls == [] then []
    else
      var before, c := calls[..|calls| - 1], calls[|calls| - 1];
      match c.op
      case RecordCallStart(t) => if t == tool then History(before, tool) + [c.now] else History(before, tool)
      case Reset(only) => if only.None? || only.value == "" || only.value == tool then [] else History(before, tool)
      case _ => History(before, tool)
  }

  ghost predicate Monotone(calls: seq<Timed>) {
    forall i, j :: 0 <= i < j < |calls| ==> calls[i].now <= calls[j].now
  }

  /** What a prune drops, no later window would have counted. */
  lemma {:induction false} RecentTwice(times: seq<real>, now: real, later: real)
    requires now <= later
    ensures Recent(Recent(times, now), later) == Recent(times, later)
  {
    if times != [] {
      var n := |times| - 1;
      RecentTwice(times[..n], now, later);
      var head := Recent(times[..n], now);
      assert (head + [times[n]])[..|head|] == head;
    }
  }

  lemma RecentSnoc(times: seq<real>, t: real, now: real)
    ensures Recent(times + [t], now) == if now - t < 1.0 then Recent(times, now) + [t] else Recent(times, now)
  {
    assert (times + [t])[..|times|] == times;
  }

  /**
   With a monotone clock the pruned list answers every check as the full history would:
   from the last call on, both have the same recent timestamps.
   */
  lemma {:induction false} PruningIsInvisible(calls: seq<Timed>, tool: string, now: real)
    requires Monotone(calls) && (calls != [] ==> calls[|calls| - 1].now <= now)
    ensures Recent(TimesOf(Run(calls), tool), now) == Recent(History(calls, tool), now)
  {
    if calls != [] {
      var n := |calls| - 1;
      var before, c := calls[..n], calls[n];
      hide Recent, History;
      PruningIsInvisible(before, tool, now);
      RecentTwice(TimesOf(Run(before), tool), c.now, now);
      RecentSnoc(TimesOf(Run(before), tool), c.now, now);
      RecentSnoc(History(before, tool), c.now, now);
      StepKeepsRecent(Run(before), History(before, tool), calls, tool, now);
    }
  }

  lemma StepKeepsRecent(q: Quota, history: seq<real>, calls: seq<Timed>, tool: string, now: real)
    requires calls != [] && q == Run(calls[..|calls| - 1]) && history == History(calls[..|calls| - 1], tool)
    requires
      var c, times := calls[|calls| - 1], TimesOf(q, tool);
      && Recent(times, now) == Recent(history, now)
      && Recent(Recent(times, c.now), now) == Recent(times, now)
      && (Recent(times + [c.now], now) == if now - c.now < 1.0 then Recent(times, now) + [c.now] else Recent(times, now))
      && (Recent(history + [c.now], now) == if now - c.now < 1.0 then Recent(history, now) + [c.now] else Recent(history, now))
    ensures Recent(TimesOf(Run(calls), tool), now) == Recent(History(calls, tool), now)
  {
    var c := calls[|calls| - 1];
    TimesAfter(q, c, tool);
    HistoryAfter(calls, tool);
    assert Run(calls) == After(q, c);
    assert Recent([], now) == [];
    hide Recent, Run, History, After, TimesOf;
  }

  predicate Clears(op: Op, tool: string) {
    op.Reset? && (op.only.None? || op.only.value == "" || op.only.value == tool)
  }

  lemma TimesAfter(q: Quota, c: Timed, tool: string)
    ensures TimesOf(After(q, c), tool) ==
      if c.op == RecordCallStart(tool) then TimesOf(q, tool) + [c.now]
      else if c.op.CheckQps? && c.op.tool == tool then Recent(TimesOf(q, tool), c.now)
      else if Clears(c.op, tool) then []
      else TimesOf(q, tool)
  {
    hide Recent;
  }

  lemma HistoryAfter(calls: seq<Timed>, tool: string)
    requires calls != []
    ensures
      var before, c := History(calls[..|calls| - 1], tool), calls[|calls| - 1];
      History(calls, tool) ==
        if c.op == RecordCallStart(tool) then before + [c.now] else if Clears(c.op, tool) then [] else before
  {
  }

  /** How many timestamps fall in the half-open second that starts at `x`. */
  function InWindow(times: seq<real>, x: real): nat {
    if times == [] then 0
    else InWindow(times[..|times| - 1], x) + if x <= times[|times| - 1] < x + 1.0 then 1 else 0
  }

  lemma {:induction false} WindowIsRecent(times: seq<real>, x: real, now: real)
    requires now < x + 1.0
    ensures InWindow(times, x) <= |Recent(times, now)|
  {
    if times != [] {
      WindowIsRecent(times[..|times| - 1], x, now);
    }
  }

  /** Call `j` is a passing check of the tool after which nothing is recorded for it before call `i`. */
  ghost predicate Admits(calls: seq<Timed>, tool: string, limit: int, j: nat, i: nat) {
    && j < i < |calls|
    && calls[j].op == CheckQps(tool, limit)
    && |Recent(TimesOf(Run(calls[..j]), tool), calls[j].now)| < limit
    && forall k :: j < k < i ==> calls[k].op != RecordCallStart(tool)
  }

  /** Each recorded call of the tool comes after a passing check of its own, and nothing is reset. */
  ghost predicate Guarded(calls: seq<Timed>, tool: string, limit: int) {
    && (forall i :: 0 <= i < |calls| ==> !calls[i].op.Reset?)
    && (forall i :: 0 <= i < |calls| && calls[i].op == RecordCallStart(tool) ==> exists j: nat :: Admits(calls, tool, limit, j, i))
  }

  lemma GuardedPrefix(calls: seq<Timed>, tool: string, limit: int, n: nat)
    requires Guarded(calls, tool, limit) && n <= |calls|
    ensures Guarded(calls[..n], tool, limit)
  {
    var before := calls[..n];
    forall i | 0 <= i < n && before[i].op == RecordCallStart(tool) ensures exists j: nat :: Admits(before, tool, limit, j, i) {
      assert calls[i].op == RecordCallStart(tool);
      var j: nat :| Admits(calls, tool, limit, j, i);
      assert before[..j] == calls[..j];
      assert Admits(before, tool, limit, j, i);
    }
  }

  lemma {:induction false} NothingRecorded(calls: seq<Timed>, tool: string, j: nat, i: nat)
    requires j <= i <= |calls|
    requires forall k :: j <= k < i ==> !calls[k].op.Reset? && calls[k].op != RecordCallStart(tool)
    ensures History(calls[..i], tool) == History(calls[..j], tool)
  {
    if j < i {
      NothingRecorded(calls, tool, j, i - 1);
      assert calls[..i][..i - 1] == calls[..i - 1];
    }
  }

  /**
   The quota: when each call is recorded only after a passing check, no half-open window
   of one second contains more calls than the limit.
   */
  lemma {:induction false} WindowIsBounded(calls: seq<Timed>, tool: string, limit: int, x: real)
    requires Monotone(calls) && Guarded(calls, tool, limit)
    ensures InWindow(History(calls, tool), x) == 0 || InWindow(History(calls, tool), x) <= limit
  {
    if calls != [] {
      var n := |calls| - 1;
      var before, c := calls[..n], calls[n];
      GuardedPrefix(calls, tool, limit, n);
      WindowIsBounded(before, tool, limit, x);
      assert !c.op.Reset?;
      if c.op == RecordCallStart(tool) {
        WindowGrows(History(before, tool), c.now, x);
        if x <= c.now < x + 1.0 {
          var j: nat :| Admits(calls, tool, limit, j, n);
          LastCheckCounts(calls, tool, limit, j, x);
        }
      }
    }
  }

  ghost predicate AllUntil(times: seq<real>, now: real) {
    forall i :: 0 <= i < |times| ==> times[i] <= now
  }

  lemma {:induction false} EarlierWindow(times: seq<real>, now: real, x: real, y: real)
    requires AllUntil(times, now) && x <= y && now < x + 1.0
    ensures InWindow(times, x) >= InWindow(times, y)
  {
    if times != [] {
      EarlierWindow(times[..|times| - 1], now, x, y);
    }
  }

  lemma {:induction false} RecentFitsWindow(times: seq<real>, now: real) returns (x: real)
    requires AllUntil(times, now)
    ensures x <= now < x + 1.0 && InWindow(times, x) >= |Recent(times, now)|
  {
    if times == [] {
      x := now;
    } else {
      var rest, t := times[..|times| - 1], times[|times| - 1];
      var y := RecentFitsWindow(rest, now);
      x := if now - t < 1.0 && t < y then t else y;
      EarlierWindow(rest, now, x, y);
    }
  }

  lemma {:induction false} HistoryUntil(calls: seq<Timed>, tool: string, now: real)
    requires Monotone(calls) && (calls != [] ==> calls[|calls| - 1].now <= now)
    ensures AllUntil(History(calls, tool), now)
  {
    if calls != [] {
      var n := |calls| - 1;
      assert n > 0 ==> calls[n - 1].now <= calls[n].now;
      HistoryUntil(calls[..n], tool, now);
    }
  }

  /** Nor does the quota refuse too early: a refused check finds a window, still open, that the limit's calls fill. */
  lemma RefusalsAreForced(calls: seq<Timed>, tool: string, limit: int, now: real) returns (x: real)
    requires Monotone(calls) && (calls != [] ==> calls[|calls| - 1].now <= now)
    requires |Recent(TimesOf(Run(calls), tool), now)| >= limit
    ensures x <= now < x + 1.0 && InWindow(History(calls, tool), x) >= limit
  {
    PruningIsInvisible(calls, tool, now);
    HistoryUntil(calls, tool, now);
    x := RecentFitsWindow(History(calls, tool), now);
  }

  lemma WindowGrows(times: seq<real>, t: real, x: real)
    ensures InWindow(times + [t], x) == InWindow(times, x) + if x <= t < x + 1.0 then 1 else 0
  {
    assert (times + [t])[..|times|] == times;
  }

  lemma LastCheckCounts(calls: seq<Timed>, tool: string, limit: int, j: nat, x: real)
    requires Monotone(calls) && calls != [] && Admits(calls, tool, limit, j, |calls| - 1)
    requires forall i :: 0 <= i < |calls| ==> !calls[i].op.Reset?
    requires calls[|calls| - 1].now < x + 1.0
    ensures InWindow(History(calls[..|calls| - 1], tool), x) < limit
  {
    var n := |calls| - 1;
    assert calls[..j + 1][..j] == calls[..j];
    NothingRecorded(calls, tool, j, n);
    if j > 0 { assert calls[..j][j - 1] == calls[j - 1]; }
    PruningIsInvisible(calls[..j], tool, calls[j].now);
    WindowIsRecent(History(calls[..j], tool), x, calls[j].now);
  }

  /** How many timestamps fall in the closed second from `x` to `x + 1`. */
  function InClosedSecond(times: seq<real>, x: real): nat {
    if times == [] then 0
    else InClosedSecond(times[..|times| - 1], x) + if x <= times[|times| - 1] <= x + 1.0 then 1 else 0
  }

  lemma {:induction false} ClosedIsTwoWindows(times: seq<real>, x: real)
    ensures InClosedSecond(times, x) <= InWindow(times, x) + InWindow(times, x + 1.0)
    ensures x + 1.0 !in times ==> InClosedSecond(times, x) == InWindow(times, x)
  {
    if times != [] {
      var rest := times[..|times| - 1];
      assert times == rest + [times[|times| - 1]];
      ClosedIsTwoWindows(rest, x);
    }
  }

  /** The earliest of the timestamps from `x` on, where none is `x` itself. */
  lemma {:induction false} EarliestFrom(times: seq<real>, x: real) returns (y: real)
    requires x !in times
    ensures y > x && forall t :: t in times && t >= x ==> t >= y
  {
    if times == [] {
      y := x + 1.0;
    } else {
      var t := times[|times| - 1];
      assert times == times[..|times| - 1] + [t];
      y := EarliestFrom(times[..|times| - 1], x);
      if x <= t < y { y := t; }
    }
  }

  lemma {:induction false} ClosedFitsWindow(times: seq<real>, x: real, y: real)
    requires y > x && forall t :: t in times && t >= x ==> t >= y
    ensures InClosedSecond(times, x) <= InWindow(times, y)
  {
    if times != [] {
      var rest, t := times[..|times| - 1], times[|times| - 1];
      assert times == rest + [t];
      assert t in times && forall u :: u in rest ==> u in times;
      ClosedFitsWindow(rest, x, y);
    }
  }

  /** No two recorded calls lie exactly one second apart. */
  ghost predicate NeverOneSecondApart(times: seq<real>) {
    forall i, j :: 0 <= i < |times| && 0 <= j < |times| ==> times[i] + 1.0 != times[j]
  }

  /**
   A closed second can hold more: twice the limit at most, and no more than the limit when
   no two calls lie exactly one second apart.
   */
  lemma ClosedSecondIsBounded(calls: seq<Timed>, tool: string, limit: int, x: real)
    requires Monotone(calls) && Guarded(calls, tool, limit)
    ensures InClosedSecond(History(calls, tool), x) == 0 || InClosedSecond(History(calls, tool), x) <= 2 * limit
    ensures NeverOneSecondApart(History(calls, tool)) ==>
      InClosedSecond(History(calls, tool), x) == 0 || InClosedSecond(History(calls, tool), x) <= limit
  {
    var times := History(calls, tool);
    ClosedIsTwoWindows(times, x);
    WindowIsBounded(calls, tool, limit, x);
    WindowIsBounded(calls, tool, limit, x + 1.0);
    if NeverOneSecondApart(times) && x + 1.0 in times {
      var j :| 0 <= j < |times| && times[j] == x + 1.0;
      assert x !in times;
      var y := EarliestFrom(times, x);
      ClosedFitsWindow(times, x, y);
      WindowIsBounded(calls, tool, limit, y);
    }
  }

  /** The first `limit` calls at time 0, the others one second later. */
  function BurstTime(limit: nat, r: nat): real {
    if r < limit then 0.0 else 1.0
  }

  function BurstTimes(limit: nat, n: nat): (times: seq<real>)
    ensures |times| == n
  {
    if n == 0 then [] else BurstTimes(limit, n - 1) + [BurstTime(limit, n - 1)]
  }

  /** `n` calls, each recorded right after its own check. */
  function Bursts(tool: string, limit: nat, n: nat): (calls: seq<Timed>)
    ensures |calls| == 2 * n
  {
    if n == 0 then []
    else
      var now := BurstTime(limit, n - 1);
      Bursts(tool, limit, n - 1) + [Timed(CheckQps(tool, limit), now), Timed(RecordCallStart(tool), now)]
  }

  lemma {:induction false} BurstsHistory(tool: string, limit: nat, n: nat)
    ensures History(Bursts(tool, limit, n), tool) == BurstTimes(limit, n)
  {
    if n > 0 {
      var calls, before := Bursts(tool, limit, n), Bursts(tool, limit, n - 1);
      assert calls[..|calls| - 1][..|calls| - 2] == before;
      BurstsHistory(tool, limit, n - 1);
    }
  }

  lemma {:induction false} BurstsMonotone(tool: string, limit: nat, n: nat)
    ensures Monotone(Bursts(tool, limit, n))
    ensures forall i :: 0 <= i < 2 * n ==> Bursts(tool, limit, n)[i].now <= BurstTime(limit, n)
    ensures forall i :: 0 <= i < 2 * n ==> !Bursts(tool, limit, n)[i].op.Reset?
  {
    if n > 0 {
      BurstsMonotone(tool, limit, n - 1);
    }
  }

  lemma {:induction false} BurstsRecent(limit: nat, n: nat)
    requires n < 2 * limit
    ensures |Recent(BurstTimes(limit, n), BurstTime(limit, n))| < limit
    ensures n >= limit ==> |Recent(BurstTimes(limit, n), 1.0)| == n - limit
    ensures n < limit ==> |Recent(BurstTimes(limit, n), 0.0)| == n && Recent(BurstTimes(limit, n), 1.0) == []
    ensures n == limit ==> Recent(BurstTimes(limit, n), 1.0) == []
  {
    if n > 0 {
      assert BurstTimes(limit, n)[..n - 1] == BurstTimes(limit, n - 1);
      BurstsRecent(limit, n - 1);
    }
  }

  lemma AdmitsLater(before: seq<Timed>, more: seq<Timed>, tool: string, limit: int, j: nat, i: nat)
    requires Admits(before, tool, limit, j, i)
    ensures Admits(before + more, tool, limit, j, i)
  {
    assert (before + more)[..j] == before[..j];
  }

  /** After fewer than twice `limit` calls of the bursts the next check passes. */
  lemma NextCheckPasses(tool: string, limit: nat, n: nat)
    requires n < 2 * limit
    ensures |Recent(TimesOf(Run(Bursts(tool, limit, n)), tool), BurstTime(limit, n))| < limit
  {
    var before, now := Bursts(tool, limit, n), BurstTime(limit, n);
    hide Run, History, TimesOf, Recent, Bursts, BurstTimes, BurstTime;
    BurstsMonotone(tool, limit, n);
    BurstsHistory(tool, limit, n);
    BurstsRecent(limit, n);
    PruningIsInvisible(before, tool, now);
  }

  /** The last call of the bursts passes its check. */
  lemma LastBurstPasses(tool: string, limit: nat, n: nat)
    requires 0 < n <= 2 * limit
    ensures Admits(Bursts(tool, limit, n), tool, limit, 2 * n - 2, 2 * n - 1)
  {
    hide *;
    BurstsUnfold(tool, limit, n);
    NextCheckPasses(tool, limit, n - 1);
    CheckedCall(Bursts(tool, limit, n - 1), tool, limit, BurstTime(limit, n - 1));
  }

  lemma BurstsUnfold(tool: string, limit: nat, n: nat)
    requires n > 0
    ensures
      var now := BurstTime(limit, n - 1);
      Bursts(tool, limit, n) == Bursts(tool, limit, n - 1) + [Timed(CheckQps(tool, limit), now), Timed(RecordCallStart(tool), now)]
  {
  }

  /** A check that passes, and the call recorded right after it. */
  lemma CheckedCall(before: seq<Timed>, tool: string, limit: int, now: real)
    requires |Recent(TimesOf(Run(before), tool), now)| < limit
    ensures
      var calls := before + [Timed(CheckQps(tool, limit), now), Timed(RecordCallStart(tool), now)];
      Admits(calls, tool, limit, |before|, |before| + 1)
  {
    hide Recent, Run;
    var calls := before + [Timed(CheckQps(tool, limit), now), Timed(RecordCallStart(tool), now)];
    assert calls[..|before|] == before;
  }

  lemma {:induction false} BurstsGuarded(tool: string, limit: nat, n: nat)
    requires n <= 2 * limit
    ensures Guarded(Bursts(tool, limit, n), tool, limit)
  {
    if n > 0 {
      hide Admits, Bursts, BurstTime;
      BurstsUnfold(tool, limit, n);
      BurstsGuarded(tool, limit, n - 1);
      LastBurstPasses(tool, limit, n);
      GuardedGrows(Bursts(tool, limit, n - 1), tool, limit, BurstTime(limit, n - 1));
    }
  }

  lemma GuardedGrows(before: seq<Timed>, tool: string, limit: int, now: real)
    requires Guarded(before, tool, limit)
    requires
      var calls := before + [Timed(CheckQps(tool, limit), now), Timed(RecordCallStart(tool), now)];
      Admits(calls, tool, limit, |before|, |before| + 1)
    ensures Guarded(before + [Timed(CheckQps(tool, limit), now), Timed(RecordCallStart(tool), now)], tool, limit)
  {
    hide Admits;
    var last := [Timed(CheckQps(tool, limit), now), Timed(RecordCallStart(tool), now)];
    var calls := before + last;
    forall i | 0 <= i < |calls| && calls[i].op == RecordCallStart(tool) ensures exists j: nat :: Admits(calls, tool, limit, j, i) {
      if i < |before| {
        assert before[i].op == RecordCallStart(tool);
        var j: nat :| Admits(before, tool, limit, j, i);
        AdmitsLater(before, last, tool, limit, j, i);
      }
    }
  }

  lemma {:induction false} BurstsFillSecond(limit: nat, n: nat)
    ensures InClosedSecond(BurstTimes(limit, n), 0.0) == n
  {
    if n > 0 {
      assert BurstTimes(limit, n)[..n - 1] == BurstTimes(limit, n - 1);
      BurstsFillSecond(limit, n - 1);
    }
  }

  /** Twice the limit is attained, for every limit: that many calls at one moment and as many one second later. */
  lemma ClosedSecondAttained(tool: string, limit: nat) returns (calls: seq<Timed>)
    ensures Monotone(calls) && Guarded(calls, tool, limit)
    ensures InClosedSecond(History(calls, tool), 0.0) == 2 * limit
  {
    calls := Bursts(tool, limit, 2 * limit);
    BurstsMonotone(tool, limit, 2 * limit);
    BurstsGuarded(tool, limit, 2 * limit);
    BurstsHistory(tool, limit, 2 * limit);
    BurstsFillSecond(limit, 2 * limit);
  }

  function Count(calls: seq<Timed>, op: Op): nat {
    if calls == [] then 0 else Count(calls[..|calls| - 1], op) + if calls[|calls| - 1].op == op then 1 else 0
  }

  /** At every moment no more calls of the tool have ended than started. */
  ghost predicate Paired(calls: seq<Timed>, tool: string) {
    forall n :: 0 <= n <= |calls| ==> Count(calls[..n], RecordCallEnd(tool)) <= Count(calls[..n], RecordCallStart(tool))
  }

  /** Then the counter is exactly the number of calls in flight. */
  lemma {:induction false} ConcurrencyIsInFlight(calls: seq<Timed>, tool: string)
    requires Paired(calls, tool) && forall i :: 0 <= i < |calls| ==> !calls[i].op.Reset?
    ensures ConcurrentOf(Run(calls), tool) == Count(calls, RecordCallStart(tool)) - Count(calls, RecordCallEnd(tool))
  {
    assert calls[..|calls|] == calls;
    if calls != [] {
      var n := |calls| - 1;
      forall k | 0 <= k <= n
        ensures Count(calls[..n][..k], RecordCallEnd(tool)) <= Count(calls[..n][..k], RecordCallStart(tool))
      {
        assert calls[..n][..k] == calls[..k];
      }
      ConcurrencyIsInFlight(calls[..n], tool);
      assert !calls[n].op.Reset?;
    }
  }

  /** By how much the calls of the tool that started since position `i` outnumber those that ended. */
  function Surplus(calls: seq<Timed>, tool: string, i: nat): int
    requires i <= |calls|
  {
    Count(calls, RecordCallStart(tool)) - Count(calls[..i], RecordCallStart(tool))
    - (Count(calls, RecordCallEnd(tool)) - Count(calls[..i], RecordCallEnd(tool)))
  }

  ghost predicate NotClearedSince(calls: seq<Timed>, tool: string, i: nat) {
    forall k :: i <= k < |calls| ==> !Clears(calls[k].op, tool)
  }

  lemma SurplusUnfolds(calls: seq<Timed>, tool: string, i: nat)
    requires calls != [] && i < |calls|
    ensures
      var op := calls[|calls| - 1].op;
      Surplus(calls, tool, i) == Surplus(calls[..|calls| - 1], tool, i)
        + if op == RecordCallStart(tool) then 1 else if op == RecordCallEnd(tool) then -1 else 0
  {
    assert calls[..|calls| - 1][..i] == calls[..i];
  }

  lemma NoSurplusYet(calls: seq<Timed>, tool: string)
    ensures Surplus(calls, tool, |calls|) == 0
  {
    assert calls[..|calls|] == calls;
  }

  lemma ConcurrentAfter(q: Quota, c: Timed, tool: string)
    ensures ConcurrentOf(After(q, c), tool) ==
      if c.op == RecordCallStart(tool) then ConcurrentOf(q, tool) + 1
      else if c.op == RecordCallEnd(tool) then (if ConcurrentOf(q, tool) > 0 then ConcurrentOf(q, tool) - 1 else 0)
      else if Clears(c.op, tool) then 0
      else ConcurrentOf(q, tool)
  {
    hide Recent;
  }

  /**
   Whatever is recorded, paired or not, the counter is the largest surplus of starts over
   ends that any stretch of calls up to now shows, none of them before the tool's last reset.
   */
  lemma {:induction false} ConcurrencyIsLargestSurplus(calls: seq<Timed>, tool: string) returns (j: nat)
    ensures j <= |calls| && NotClearedSince(calls, tool, j) && ConcurrentOf(Run(calls), tool) == Surplus(calls, tool, j)
    ensures forall i: nat :: i <= |calls| && NotClearedSince(calls, tool, i) ==> Surplus(calls, tool, i) <= ConcurrentOf(Run(calls), tool)
  {
    NoSurplusYet(calls, tool);
    j := |calls|;
    if calls != [] {
      var n := |calls| - 1;
      var before, c := calls[..n], calls[n];
      var k := ConcurrencyIsLargestSurplus(before, tool);
      NoSurplusYet(before, tool);
      ConcurrentAfter(Run(before), c, tool);
      hide Surplus, After, ConcurrentOf;
      if !Clears(c.op, tool) && (c.op != RecordCallEnd(tool) || ConcurrentOf(Run(before), tool) > 0) {
        j := k;
        SurplusUnfolds(calls, tool, k);
      }
      forall i: nat | i <= |calls| && NotClearedSince(calls, tool, i)
        ensures Surplus(calls, tool, i) <= ConcurrentOf(Run(calls), tool)
      {
        if i <= n {
          assert NotClearedSince(before, tool, i);
          SurplusUnfolds(calls, tool, i);
        }
      }
    }
  }
}
