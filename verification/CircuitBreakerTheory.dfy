/** Over whole runs of a breaker: restarts are invisible, the counters agree, and an open circuit stays shut. */
module CircuitBreakerTheory {
  import opened Wrappers
  import opened CircuitBreaker

  function Run(cfg: CircuitConfig, b: Breaker, calls: seq<Call>): Breaker
    decreases |calls|
  {
    if calls == [] then b else Run(cfg, After(cfg, b, calls[0]), calls[1..])
  }

  function Answers(cfg: CircuitConfig, b: Breaker, calls: seq<Call>): seq<Answer>
    decreases |calls|
  {
    if calls == [] then [] else [AnswerOf(cfg, b, calls[0])] + Answers(cfg, After(cfg, b, calls[0]), calls[1..])
  }

  /** A new breaker on a backend. */
  function Restarted(b: Breaker): Breaker {
    b.(circuits := map[])
  }

  /** Every loaded circuit is what the backend holds, or is untouched where it holds nothing. */
  ghost predicate Synced(b: Breaker) {
    && b.backend.Some?
    && forall tool :: tool in b.circuits ==>
         if tool in b.backend.value then b.backend.value[tool] == b.circuits[tool]
         else b.circuits[tool] == Pristine(b.circuits[tool].lastStateChange)
  }

  lemma CallKeepsSynced(cfg: CircuitConfig, b: Breaker, c: Call)
    requires Synced(b)
    ensures Synced(After(cfg, b, c))
  {
  }

  /** After any calls of a breaker that started on a backend, cache and backend agree. */
  lemma {:induction false} RunKeepsSynced(cfg: CircuitConfig, b: Breaker, calls: seq<Call>)
    requires Synced(b)
    ensures Synced(Run(cfg, b, calls))
    decreases |calls|
  {
    if calls != [] {
      CallKeepsSynced(cfg, b, calls[0]);
      RunKeepsSynced(cfg, After(cfg, b, calls[0]), calls[1..]);
    }
  }

  /** Equal but for the time of the last state change while closed, which nothing reads. */
  predicate SameStats(s: CircuitStats, t: CircuitStats) {
    s == t || (s.state == CLOSED && s == t.(lastStateChange := s.lastStateChange))
  }

  /** The two breakers would load indistinguishable statistics for every tool. */
  ghost predicate Alike(a: Breaker, b: Breaker) {
    && a.backend.Some? && b.backend.Some?
    && forall tool, now :: SameStats(Load(a, tool, now), Load(b, tool, now))
  }

  lemma RestartIsAlike(b: Breaker)
    requires Synced(b)
    ensures Alike(b, Restarted(b))
  {
  }

  /** The statistics a call leaves for its tool. */
  function Stepped(cfg: CircuitConfig, s: CircuitStats, c: Call): CircuitStats {
    match c.op
    case GetState(_) => Woken(cfg, s, c.now)
    case AllowRequest(_) =>
      var w := Woken(cfg, s, c.now);
      if w.state == OPEN then w.(totalRejections := w.totalRejections + 1) else w
    case RecordSuccess(_) => Succeeded(cfg, s, c.now)
    case RecordFailure(_) => Failed(cfg, s, c.now)
    case Reset(_) => Transition(s, CLOSED, c.now)
  }

  /** A call steps its own tool's statistics and leaves every other tool's alone. */
  lemma CallSteps(cfg: CircuitConfig, b: Breaker, c: Call, tool: string, later: real)
    requires c.op.Reset? ==> c.op.tool in b.circuits
    ensures Load(After(cfg, b, c), tool, later) ==
      if tool == c.op.tool then Stepped(cfg, Load(b, tool, c.now), c) else Load(b, tool, later)
    ensures After(cfg, b, c).circuits.Keys == b.circuits.Keys + {c.op.tool}
    ensures After(cfg, b, c).backend.Some? == b.backend.Some?
  {
  }

  lemma SameStep(cfg: CircuitConfig, s: CircuitStats, t: CircuitStats, c: Call)
    requires SameStats(s, t)
    ensures SameStats(Stepped(cfg, s, c), Stepped(cfg, t, c))
    ensures Woken(cfg, s, c.now).state == Woken(cfg, t, c.now).state
  {
  }

  /** A circuit that a reset leaves as it is, but for the unread time of the change. */
  predicate Clean(s: CircuitStats) {
    s.state == CLOSED && s.failureCount == 0 && s.halfOpenSuccesses == 0
  }

  /** Both instances have loaded the tool, or neither has, or the one that has finds its circuit clean. */
  predicate HarmlessReset(a: Breaker, b: Breaker, tool: string) {
    && (tool in a.circuits && tool !in b.circuits ==> Clean(a.circuits[tool]))
    && (tool in b.circuits && tool !in a.circuits ==> Clean(b.circuits[tool]))
  }

  lemma OneSidedReset(cfg: CircuitConfig, a: Breaker, c: Call)
    requires c.op.Reset? && (c.op.tool in a.circuits ==> Clean(a.circuits[c.op.tool])) && a.backend.Some?
    ensures
      var next := After(cfg, a, c);
      next.backend.Some? && forall tool, now :: SameStats(Load(a, tool, now), Load(next, tool, now))
  {
  }

  lemma SameCallKeepsAlike(cfg: CircuitConfig, a: Breaker, b: Breaker, c: Call)
    requires Alike(a, b) && (c.op.Reset? ==> HarmlessReset(a, b, c.op.tool))
    ensures Alike(After(cfg, a, c), After(cfg, b, c))
    ensures AnswerOf(cfg, a, c) == AnswerOf(cfg, b, c)
  {
    SameStep(cfg, Load(a, c.op.tool, c.now), Load(b, c.op.tool, c.now), c);
    var a', b' := After(cfg, a, c), After(cfg, b, c);
    if !c.op.Reset? || (c.op.tool in a.circuits && c.op.tool in b.circuits) {
      hide Stepped, SameStats, Load;
      forall tool, now ensures SameStats(Load(a', tool, now), Load(b', tool, now)) {
        CallSteps(cfg, a, c, tool, now);
        CallSteps(cfg, b, c, tool, now);
      }
      CallSteps(cfg, a, c, c.op.tool, c.now);
      CallSteps(cfg, b, c, c.op.tool, c.now);
    } else {
      OneSidedReset(cfg, a, c);
      OneSidedReset(cfg, b, c);
      hide Stepped, Load, After;
      forall tool, now ensures SameStats(Load(a', tool, now), Load(b', tool, now)) {
        assert SameStats(Load(a, tool, now), Load(a', tool, now)) && SameStats(Load(b, tool, now), Load(b', tool, now));
        assert SameStats(Load(a, tool, now), Load(b, tool, now));
      }
    }
  }

  /** Every reset of the calls is harmless when it comes. */
  ghost predicate ResetsHarmless(cfg: CircuitConfig, a: Breaker, b: Breaker, calls: seq<Call>)
    decreases |calls|
  {
    calls == [] ||
    ((calls[0].op.Reset? ==> HarmlessReset(a, b, calls[0].op.tool))
     && ResetsHarmless(cfg, After(cfg, a, calls[0]), After(cfg, b, calls[0]), calls[1..]))
  }

  lemma {:induction false} AlikeAnswersAlike(cfg: CircuitConfig, a: Breaker, b: Breaker, calls: seq<Call>)
    requires Alike(a, b) && ResetsHarmless(cfg, a, b, calls)
    ensures Answers(cfg, a, calls) == Answers(cfg, b, calls)
    decreases |calls|
  {
    if calls != [] {
      SameCallKeepsAlike(cfg, a, b, calls[0]);
      hide Alike, After, AnswerOf;
      AlikeAnswersAlike(cfg, After(cfg, a, calls[0]), After(cfg, b, calls[0]), calls[1..]);
    }
  }

  /**
   Restart transparency: replace a breaker, at any point of any run, by a new one on the
   same backend, and every later state and admission is the same at the same clock
   readings, provided each reset of a tool that only one of the two has loaded finds its
   circuit closed with nothing on the count.
   */
  lemma RestartIsTransparent(cfg: CircuitConfig, b: Breaker, before: seq<Call>, later: seq<Call>)
    requires Synced(b)
    requires ResetsHarmless(cfg, Run(cfg, b, before), Restarted(Run(cfg, b, before)), later)
    ensures Answers(cfg, Run(cfg, b, before), later) == Answers(cfg, Restarted(Run(cfg, b, before)), later)
  {
    RunKeepsSynced(cfg, b, before);
    RestartIsAlike(Run(cfg, b, before));
    hide Run, Answers, Alike;
    AlikeAnswersAlike(cfg, Run(cfg, b, before), Restarted(Run(cfg, b, before)), later);
  }

  /** No later calls with harmless resets tell the two apart. */
  ghost predicate Indistinguishable(cfg: CircuitConfig, a: Breaker, b: Breaker) {
    forall later :: ResetsHarmless(cfg, a, b, later) ==> Answers(cfg, a, later) == Answers(cfg, b, later)
  }

  function Failures(tool: string, k: nat, now: real): (calls: seq<Call>)
    ensures |calls| == k && forall i :: 0 <= i < k ==> calls[i] == Call(RecordFailure(tool), now)
  {
    if k == 0 then [] else [Call(RecordFailure(tool), now)] + Failures(tool, k - 1, now)
  }

  lemma {:induction false} WithoutResets(cfg: CircuitConfig, a: Breaker, b: Breaker, calls: seq<Call>)
    requires forall i :: 0 <= i < |calls| ==> !calls[i].op.Reset?
    ensures ResetsHarmless(cfg, a, b, calls)
    decreases |calls|
  {
    hide After;
    if calls != [] {
      WithoutResets(cfg, After(cfg, a, calls[0]), After(cfg, b, calls[0]), calls[1..]);
    }
  }

  lemma {:induction false} LastAnswer(cfg: CircuitConfig, b: Breaker, calls: seq<Call>, c: Call)
    ensures |Answers(cfg, b, calls + [c])| == |calls| + 1
    ensures Answers(cfg, b, calls + [c])[|calls|] == AnswerOf(cfg, Run(cfg, b, calls), c)
    decreases |calls|
  {
    hide After, AnswerOf;
    if calls != [] {
      assert (calls + [c])[1..] == calls[1..] + [c];
      LastAnswer(cfg, After(cfg, b, calls[0]), calls[1..], c);
    }
  }

  /** The circuit is closed with `f` failures on the count. */
  ghost predicate ClosedWith(b: Breaker, tool: string, f: nat) {
    forall now :: Load(b, tool, now).state == CLOSED && Load(b, tool, now).failureCount == f
  }

  /** Failures open a closed circuit exactly when they bring its count to the threshold. */
  lemma {:induction false} FailuresOpenIff(cfg: CircuitConfig, b: Breaker, tool: string, f: nat, k: nat, now: real)
    requires ClosedWith(b, tool, f) && k >= 1 && f + k <= cfg.failureThreshold
    ensures AnswerOf(cfg, Run(cfg, b, Failures(tool, k, now)), Call(GetState(tool), now)) == State(CLOSED)
      <==> f + k < cfg.failureThreshold
    decreases k
  {
    var c := Call(RecordFailure(tool), now);
    var next := After(cfg, b, c);
    assert Load(b, tool, now).state == CLOSED && Load(b, tool, now).failureCount == f;
    forall at ensures Load(next, tool, at) == Stepped(cfg, Load(b, tool, now), c) {
      CallSteps(cfg, b, c, tool, at);
    }
    assert Failures(tool, k, now) == [c] + Failures(tool, k - 1, now);
    assert Run(cfg, b, Failures(tool, k, now)) == Run(cfg, next, Failures(tool, k - 1, now));
    if k > 1 {
      FailuresOpenIff(cfg, next, tool, f + 1, k - 1, now);
    } else {
      assert Run(cfg, next, []) == next;
      assert AnswerOf(cfg, next, Call(GetState(tool), now)) == State(Woken(cfg, Load(next, tool, now), now).state);
    }
  }

  /** When a lost reset had something to do, these calls tell: they ask for the state, after failures if need be. */
  lemma LostResetShows(cfg: CircuitConfig, b: Breaker, tool: string, now: real) returns (later: seq<Call>)
    requires Synced(b) && AllOk(cfg, b) && tool in b.circuits && !Clean(b.circuits[tool])
    ensures forall i :: 0 <= i < |later| ==> !later[i].op.Reset?
    ensures Answers(cfg, After(cfg, b, Call(Reset(tool), now)), later) != Answers(cfg, Restarted(b), later)
  {
    var s, a, restarted, ask := b.circuits[tool], After(cfg, b, Call(Reset(tool), now)), Restarted(b), Call(GetState(tool), now);
    RestartIsAlike(b);
    assert StatsOk(cfg, s);
    forall at ensures Load(a, tool, at) == Transition(s, CLOSED, now) && SameStats(s, Load(restarted, tool, at)) {
      assert SameStats(Load(b, tool, at), Load(restarted, tool, at));
    }
    if s.state != CLOSED {
      later := [] + [ask];
      LastAnswer(cfg, a, [], ask);
      LastAnswer(cfg, restarted, [], ask);
      assert SameStats(s, Load(restarted, tool, now));
      assert Run(cfg, a, []) == a && Run(cfg, restarted, []) == restarted;
    } else {
      var k := cfg.failureThreshold - s.failureCount;
      later := Failures(tool, k, now) + [ask];
      assert ClosedWith(a, tool, 0) && ClosedWith(restarted, tool, s.failureCount);
      FailuresOpenIff(cfg, a, tool, 0, k, now);
      FailuresOpenIff(cfg, restarted, tool, s.failureCount, k, now);
      hide After, AnswerOf, Load;
      LastAnswer(cfg, a, Failures(tool, k, now), ask);
      LastAnswer(cfg, restarted, Failures(tool, k, now), ask);
    }
  }

  /**
   A reset right after a restart is lost. No later answer shows it if and only if it had
   nothing to do: the tool was not loaded, or its circuit was closed with no failure and no
   probe success on the count.
   */
  lemma FirstResetIsTransparentIff(cfg: CircuitConfig, b: Breaker, tool: string, now: real)
    requires Synced(b) && AllOk(cfg, b)
    ensures
      var c := Call(Reset(tool), now);
      Indistinguishable(cfg, After(cfg, b, c), After(cfg, Restarted(b), c)) <==> tool !in b.circuits || Clean(b.circuits[tool])
  {
    var c := Call(Reset(tool), now);
    var a, restarted := After(cfg, b, c), After(cfg, Restarted(b), c);
    RestartIsAlike(b);
    assert restarted == Restarted(b);
    if tool !in b.circuits || Clean(b.circuits[tool]) {
      SameCallKeepsAlike(cfg, b, Restarted(b), c);
      forall later | ResetsHarmless(cfg, a, restarted, later) ensures Answers(cfg, a, later) == Answers(cfg, restarted, later) {
        AlikeAnswersAlike(cfg, a, restarted, later);
      }
    } else {
      var later := LostResetShows(cfg, b, tool, now);
      WithoutResets(cfg, a, restarted, later);
    }
  }

  /** What the counters of a circuit satisfy at every moment, whatever the thresholds. */
  predicate StatsOk(cfg: CircuitConfig, s: CircuitStats) {
    && s.totalCalls == s.successCount + s.totalFailures
    && s.failureCount <= s.totalFailures
    && (s.state == CLOSED ==> (s.failureCount == 0 || s.failureCount < cfg.failureThreshold) && s.halfOpenSuccesses == 0)
    && (s.state == HALF_OPEN ==> s.halfOpenSuccesses == 0 || s.halfOpenSuccesses < cfg.successThreshold)
  }

  ghost predicate AllOk(cfg: CircuitConfig, b: Breaker) {
    && (forall tool :: tool in b.circuits ==> StatsOk(cfg, b.circuits[tool]))
    && (b.backend.Some? ==> forall tool :: tool in b.backend.value ==> StatsOk(cfg, b.backend.value[tool]))
  }

  lemma CallKeepsStats(cfg: CircuitConfig, b: Breaker, c: Call)
    requires AllOk(cfg, b)
    ensures AllOk(cfg, After(cfg, b, c))
  {
    assert StatsOk(cfg, Load(b, c.op.tool, c.now));
    assert StatsOk(cfg, Stepped(cfg, Load(b, c.op.tool, c.now), c));
  }

  /** In every run, a closed circuit is below its failure threshold or has no failure on the count, and the totals add up. */
  lemma {:induction false} CountersAgree(cfg: CircuitConfig, b: Breaker, calls: seq<Call>)
    requires AllOk(cfg, b)
    ensures AllOk(cfg, Run(cfg, b, calls))
    decreases |calls|
  {
    if calls != [] {
      CallKeepsStats(cfg, b, calls[0]);
      CountersAgree(cfg, After(cfg, b, calls[0]), calls[1..]);
    }
  }

  /** Calls that come before the recovery timeout of a circuit opened at `since`, none resetting it. */
  ghost predicate WhileOpen(cfg: CircuitConfig, calls: seq<Call>, tool: string, since: real) {
    forall i :: 0 <= i < |calls| ==> calls[i].now - since < cfg.recoveryTimeout && calls[i].op != Reset(tool)
  }

  ghost predicate OpenSince(b: Breaker, tool: string, since: real) {
    forall now :: Load(b, tool, now).state == OPEN && Load(b, tool, now).lastStateChange == since
  }

  /** Whatever call opens a circuit, the wait starts at that call's clock reading. */
  lemma OpeningStartsWait(cfg: CircuitConfig, b: Breaker, c: Call)
    requires Load(b, c.op.tool, c.now).state != OPEN
    requires Load(After(cfg, b, c), c.op.tool, c.now).state == OPEN
    ensures OpenSince(After(cfg, b, c), c.op.tool, c.now) && c.op.RecordFailure?
  {
    if !c.op.Reset? || c.op.tool in b.circuits {
      forall now ensures Load(After(cfg, b, c), c.op.tool, now) == Stepped(cfg, Load(b, c.op.tool, c.now), c) {
        CallSteps(cfg, b, c, c.op.tool, now);
      }
    }
  }

  lemma CallKeepsOpen(cfg: CircuitConfig, b: Breaker, c: Call, tool: string, since: real)
    requires OpenSince(b, tool, since) && c.now - since < cfg.recoveryTimeout && c.op != Reset(tool)
    ensures OpenSince(After(cfg, b, c), tool, since)
    ensures c.op == AllowRequest(tool) ==> AnswerOf(cfg, b, c) == Admitted(false)
  {
    var s := Load(b, tool, c.now);
    assert s.state == OPEN && s.lastStateChange == since;
    if !c.op.Reset? || c.op.tool in b.circuits {
      forall now ensures Load(After(cfg, b, c), tool, now).state == OPEN && Load(After(cfg, b, c), tool, now).lastStateChange == since {
        assert Load(b, tool, now).state == OPEN && Load(b, tool, now).lastStateChange == since;
        CallSteps(cfg, b, c, tool, now);
      }
    }
  }

  /**
   Isolation: from the moment a circuit opens, whatever calls and late results come in,
   it stays open with that very opening time until the recovery timeout is over, and then
   the next query finds it half open: nothing in between extends or shortens the wait.
   */
  lemma {:induction false} OpenCircuitStaysShut(cfg: CircuitConfig, b: Breaker, calls: seq<Call>, tool: string, since: real, now: real)
    requires OpenSince(b, tool, since) && WhileOpen(cfg, calls, tool, since)
    ensures OpenSince(Run(cfg, b, calls), tool, since)
    ensures AnswerOf(cfg, Run(cfg, b, calls), Call(AllowRequest(tool), now)) == Admitted(now - since >= cfg.recoveryTimeout)
    ensures AnswerOf(cfg, Run(cfg, b, calls), Call(GetState(tool), now)) == State(if now - since >= cfg.recoveryTimeout then HALF_OPEN else OPEN)
    decreases |calls|
  {
    if calls == [] {
      assert Load(b, tool, now).state == OPEN && Load(b, tool, now).lastStateChange == since;
    } else {
      CallKeepsOpen(cfg, b, calls[0], tool, since);
      OpenCircuitStaysShut(cfg, After(cfg, b, calls[0]), calls[1..], tool, since, now);
    }
  }

  /** Calls that neither report a result of the tool nor reset it. */
  predicate LeavesResultsOut(calls: seq<Call>, tool: string) {
    forall i :: 0 <= i < |calls| ==>
      calls[i].op != RecordSuccess(tool) && calls[i].op != RecordFailure(tool) && calls[i].op != Reset(tool)
  }

  ghost predicate HalfOpen(b: Breaker, tool: string) {
    forall now :: Load(b, tool, now).state == HALF_OPEN
  }

  /** While no result comes in, a half-open circuit admits every request, however many there are. */
  lemma {:induction false} HalfOpenAdmitsAll(cfg: CircuitConfig, b: Breaker, calls: seq<Call>, tool: string)
    requires HalfOpen(b, tool) && LeavesResultsOut(calls, tool)
    ensures HalfOpen(Run(cfg, b, calls), tool) && |Answers(cfg, b, calls)| == |calls|
    ensures forall i :: 0 <= i < |calls| && calls[i].op == AllowRequest(tool) ==> Answers(cfg, b, calls)[i] == Admitted(true)
    decreases |calls|
  {
    if calls != [] {
      var c, next := calls[0], After(cfg, b, calls[0]);
      if !c.op.Reset? || c.op.tool in b.circuits {
        forall now ensures Load(next, tool, now).state == HALF_OPEN {
          assert Load(b, tool, now).state == HALF_OPEN && Load(b, tool, c.now).state == HALF_OPEN;
          CallSteps(cfg, b, c, tool, now);
        }
      }
      assert Load(b, tool, c.now).state == HALF_OPEN;
      assert c.op == AllowRequest(tool) ==> AnswerOf(cfg, b, c) == Admitted(true);
      hide After, AnswerOf, Load;
      HalfOpenAdmitsAll(cfg, next, calls[1..], tool);
    }
  }

  predicate Reports(c: Call, tool: string) {
    c.op == RecordSuccess(tool) || c.op == RecordFailure(tool)
  }

  /** Call `i` is a request for the tool that is let through. */
  predicate LetThrough(cfg: CircuitConfig, b: Breaker, calls: seq<Call>, tool: string, i: nat)
    requires i < |calls|
  {
    calls[i].op == AllowRequest(tool) && AnswerOf(cfg, Run(cfg, b, calls[..i]), calls[i]) == Admitted(true)
  }

  /** How many requests of a run were let through and have no result yet. */
  function Out(cfg: CircuitConfig, b: Breaker, calls: seq<Call>, tool: string, n: nat): nat
    requires n <= |calls|
  {
    if n == 0 then 0
    else
      var before := Out(cfg, b, calls, tool, n - 1);
      if LetThrough(cfg, b, calls, tool, n - 1) then before + 1
      else if Reports(calls[n - 1], tool) && before > 0 then before - 1
      else before
  }

  /** Between two requests that are let through, a result is recorded. */
  ghost predicate OneByOne(cfg: CircuitConfig, b: Breaker, calls: seq<Call>, tool: string) {
    forall i, j :: 0 <= i < j < |calls| && LetThrough(cfg, b, calls, tool, i) && LetThrough(cfg, b, calls, tool, j) ==>
      ReportsBetween(calls, tool, i, j)
  }

  ghost predicate ReportsBetween(calls: seq<Call>, tool: string, i: nat, j: nat)
    requires j <= |calls|
  {
    exists k :: i < k < j && Reports(calls[k], tool)
  }

  lemma {:induction false} OutWithoutReports(cfg: CircuitConfig, b: Breaker, calls: seq<Call>, tool: string, i: nat, n: nat)
    requires i < n <= |calls| && LetThrough(cfg, b, calls, tool, i) && !ReportsBetween(calls, tool, i, n)
    ensures Out(cfg, b, calls, tool, n) >= 1
    decreases n
  {
    hide LetThrough;
    if i < n - 1 {
      assert !Reports(calls[n - 1], tool);
      assert !ReportsBetween(calls, tool, i, n - 1);
      OutWithoutReports(cfg, b, calls, tool, i, n - 1);
    }
  }

  lemma {:induction false} OneByOneKeepsOneOut(cfg: CircuitConfig, b: Breaker, calls: seq<Call>, tool: string, n: nat)
    requires OneByOne(cfg, b, calls, tool) && n <= |calls|
    ensures Out(cfg, b, calls, tool, n) <= 1
    ensures Out(cfg, b, calls, tool, n) == 1 ==>
      exists i :: 0 <= i < n && LetThrough(cfg, b, calls, tool, i) && !ReportsBetween(calls, tool, i, n)
  {
    hide LetThrough;
    if n > 0 {
      OneByOneKeepsOneOut(cfg, b, calls, tool, n - 1);
      if LetThrough(cfg, b, calls, tool, n - 1) {
        assert !ReportsBetween(calls, tool, n - 1, n);
      } else if Out(cfg, b, calls, tool, n) == 1 {
        var i :| 0 <= i < n - 1 && LetThrough(cfg, b, calls, tool, i) && !ReportsBetween(calls, tool, i, n - 1);
        assert !ReportsBetween(calls, tool, i, n);
      }
    }
  }

  lemma OutIffOneByOne(cfg: CircuitConfig, b: Breaker, calls: seq<Call>, tool: string)
    ensures (forall n :: 0 <= n <= |calls| ==> Out(cfg, b, calls, tool, n) <= 1) <==> OneByOne(cfg, b, calls, tool)
  {
    hide LetThrough;
    if OneByOne(cfg, b, calls, tool) {
      forall n | 0 <= n <= |calls| ensures Out(cfg, b, calls, tool, n) <= 1 {
        OneByOneKeepsOneOut(cfg, b, calls, tool, n);
      }
    } else {
      var i, j :| 0 <= i < j < |calls| && LetThrough(cfg, b, calls, tool, i) && LetThrough(cfg, b, calls, tool, j)
        && !ReportsBetween(calls, tool, i, j);
      OutWithoutReports(cfg, b, calls, tool, i, j);
      assert Out(cfg, b, calls, tool, j + 1) >= 2;
    }
  }

  /** The tool's circuit is half open before and after each of these calls. */
  ghost predicate StaysHalfOpen(cfg: CircuitConfig, b: Breaker, calls: seq<Call>, tool: string) {
    forall n :: 0 <= n <= |calls| ==> HalfOpen(Run(cfg, b, calls[..n]), tool)
  }

  function Successes(calls: seq<Call>, tool: string): nat {
    if calls == [] then 0 else (if calls[0].op == RecordSuccess(tool) then 1 else 0) + Successes(calls[1..], tool)
  }

  predicate Fails(calls: seq<Call>, tool: string) {
    exists i :: 0 <= i < |calls| && calls[i].op == RecordFailure(tool)
  }

  predicate LeavesResetsOut(calls: seq<Call>, tool: string) {
    forall i :: 0 <= i < |calls| ==> calls[i].op != Reset(tool)
  }

  /** The probe successes a half-open circuit has counted. */
  function Probed(b: Breaker, tool: string): nat {
    Load(b, tool, 0.0).halfOpenSuccesses
  }

  /** These results do not end the half-open state: no failure, and too few successes to close the circuit. */
  predicate Inconclusive(cfg: CircuitConfig, probed: nat, calls: seq<Call>, tool: string) {
    !Fails(calls, tool) && (Successes(calls, tool) == 0 || probed + Successes(calls, tool) < cfg.successThreshold)
  }

  lemma HalfOpenStep(cfg: CircuitConfig, b: Breaker, c: Call, tool: string)
    requires HalfOpen(b, tool) && c.op != Reset(tool)
    ensures
      var next := After(cfg, b, c);
      match c.op
      case RecordSuccess(_) =>
        if c.op.tool != tool then HalfOpen(next, tool) && Probed(next, tool) == Probed(b, tool)
        else if Probed(b, tool) + 1 < cfg.successThreshold then HalfOpen(next, tool) && Probed(next, tool) == Probed(b, tool) + 1
        else !HalfOpen(next, tool)
      case RecordFailure(_) =>
        if c.op.tool != tool then HalfOpen(next, tool) && Probed(next, tool) == Probed(b, tool)
        else !HalfOpen(next, tool)
      case _ => HalfOpen(next, tool) && Probed(next, tool) == Probed(b, tool)
  {
    assert Load(b, tool, 0.0).state == HALF_OPEN && Load(b, tool, c.now) == Load(b, tool, 0.0);
    if !c.op.Reset? || c.op.tool in b.circuits {
      forall now ensures Load(After(cfg, b, c), tool, now) ==
        if tool == c.op.tool then Stepped(cfg, Load(b, tool, 0.0), c) else Load(b, tool, 0.0)
      {
        assert Load(b, tool, now).state == HALF_OPEN;
        CallSteps(cfg, b, c, tool, now);
      }
      hide After;
      assert HalfOpen(After(cfg, b, c), tool) ==> Load(After(cfg, b, c), tool, 0.0).state == HALF_OPEN;
    }
  }

  lemma StaysHalfOpenUnfolds(cfg: CircuitConfig, b: Breaker, calls: seq<Call>, tool: string)
    requires calls != []
    ensures StaysHalfOpen(cfg, b, calls, tool) <==>
      HalfOpen(b, tool) && StaysHalfOpen(cfg, After(cfg, b, calls[0]), calls[1..], tool)
  {
    hide HalfOpen, After;
    var rest := calls[1..];
    forall n: nat | n <= |rest| ensures Run(cfg, After(cfg, b, calls[0]), rest[..n]) == Run(cfg, b, calls[..n + 1]) {
      assert calls[..n + 1][1..] == rest[..n];
    }
    assert Run(cfg, b, calls[..0]) == b;
    if HalfOpen(b, tool) && StaysHalfOpen(cfg, After(cfg, b, calls[0]), rest, tool) {
      forall n | 0 <= n <= |calls| ensures HalfOpen(Run(cfg, b, calls[..n]), tool) {
        assert n > 0 ==> HalfOpen(Run(cfg, After(cfg, b, calls[0]), rest[..n - 1]), tool);
      }
    }
    if StaysHalfOpen(cfg, b, calls, tool) {
      forall n | 0 <= n <= |rest| ensures HalfOpen(Run(cfg, After(cfg, b, calls[0]), rest[..n]), tool) {
        assert HalfOpen(Run(cfg, b, calls[..n + 1]), tool);
      }
    }
  }

  lemma InconclusiveUnfolds(cfg: CircuitConfig, probed: nat, calls: seq<Call>, tool: string)
    requires calls != []
    ensures
      var op, rest := calls[0].op, calls[1..];
      Inconclusive(cfg, probed, calls, tool) <==>
        if op == RecordFailure(tool) then false
        else if op == RecordSuccess(tool) then probed + 1 < cfg.successThreshold && Inconclusive(cfg, probed + 1, rest, tool)
        else Inconclusive(cfg, probed, rest, tool)
  {
    assert Fails(calls, tool) <==> calls[0].op == RecordFailure(tool) || Fails(calls[1..], tool) by {
      if Fails(calls[1..], tool) {
        var i :| 0 <= i < |calls[1..]| && calls[1..][i].op == RecordFailure(tool);
        assert calls[i + 1].op == RecordFailure(tool);
      }
    }
  }

  /** Which calls, short of a reset, leave a half-open circuit half open all along. */
  lemma {:induction false} StaysHalfOpenIff(cfg: CircuitConfig, b: Breaker, calls: seq<Call>, tool: string)
    requires HalfOpen(b, tool) && LeavesResetsOut(calls, tool)
    ensures StaysHalfOpen(cfg, b, calls, tool) <==> Inconclusive(cfg, Probed(b, tool), calls, tool)
    decreases |calls|
  {
    hide HalfOpen, Inconclusive, Probed, After;
    if calls == [] {
      NothingIsInconclusive(cfg, b, tool);
    } else {
      hide StaysHalfOpen;
      var c, next := calls[0], After(cfg, b, calls[0]);
      HalfOpenStep(cfg, b, c, tool);
      StaysHalfOpenUnfolds(cfg, b, calls, tool);
      InconclusiveUnfolds(cfg, Probed(b, tool), calls, tool);
      if HalfOpen(next, tool) {
        StaysHalfOpenIff(cfg, next, calls[1..], tool);
      } else {
        StaysHalfOpenStarts(cfg, next, calls[1..], tool);
      }
    }
  }

  lemma NothingIsInconclusive(cfg: CircuitConfig, b: Breaker, tool: string)
    ensures Inconclusive(cfg, Probed(b, tool), [], tool) && (HalfOpen(b, tool) ==> StaysHalfOpen(cfg, b, [], tool))
  {
  }

  lemma StaysHalfOpenStarts(cfg: CircuitConfig, b: Breaker, calls: seq<Call>, tool: string)
    ensures StaysHalfOpen(cfg, b, calls, tool) ==> HalfOpen(b, tool)
  {
    assert Run(cfg, b, calls[..0]) == b;
  }

  /** In a half-open circuit the requests let through are the requests made. */
  lemma RequestsAreLetThrough(cfg: CircuitConfig, b: Breaker, calls: seq<Call>, tool: string)
    requires StaysHalfOpen(cfg, b, calls, tool)
    ensures forall i :: 0 <= i < |calls| ==> (LetThrough(cfg, b, calls, tool, i) <==> calls[i].op == AllowRequest(tool))
  {
    hide Run;
    forall i | 0 <= i < |calls| && calls[i].op == AllowRequest(tool) ensures LetThrough(cfg, b, calls, tool, i) {
      assert HalfOpen(Run(cfg, b, calls[..i]), tool);
      assert Load(Run(cfg, b, calls[..i]), tool, calls[i].now).state == HALF_OPEN;
    }
  }

  /** A result is recorded between any two requests for the tool. */
  ghost predicate Awaits(calls: seq<Call>, tool: string) {
    forall i, j :: 0 <= i < j < |calls| && calls[i].op == AllowRequest(tool) && calls[j].op == AllowRequest(tool) ==>
      ReportsBetween(calls, tool, i, j)
  }

  /**
   A half-open circuit does not itself keep its probes apart: as long as it is half open, at
   most one of them is out at every moment if and only if its callers wait, each request for
   the result of the one before.
   */
  lemma HalfOpenProbesIff(cfg: CircuitConfig, b: Breaker, calls: seq<Call>, tool: string)
    requires StaysHalfOpen(cfg, b, calls, tool)
    ensures (forall n :: 0 <= n <= |calls| ==> Out(cfg, b, calls, tool, n) <= 1) <==> Awaits(calls, tool)
  {
    RequestsAreLetThrough(cfg, b, calls, tool);
    OutIffOneByOne(cfg, b, calls, tool);
    hide LetThrough, Out, StaysHalfOpen, ReportsBetween;
  }

  /** The same, told from the calls alone: no reset, no failure, and too few successes to close the circuit. */
  lemma OneProbeOutIff(cfg: CircuitConfig, b: Breaker, calls: seq<Call>, tool: string)
    requires HalfOpen(b, tool) && LeavesResetsOut(calls, tool) && Inconclusive(cfg, Probed(b, tool), calls, tool)
    ensures (forall n :: 0 <= n <= |calls| ==> Out(cfg, b, calls, tool, n) <= 1) <==> Awaits(calls, tool)
  {
    StaysHalfOpenIff(cfg, b, calls, tool);
    HalfOpenProbesIff(cfg, b, calls, tool);
    hide Out, Awaits;
  }

  // The life of a circuit, told from the calls: closed, open, half open, and closed again.

  lemma {:induction false} RunAppends(cfg: CircuitConfig, b: Breaker, calls: seq<Call>, c: Call)
    ensures Run(cfg, b, calls + [c]) == After(cfg, Run(cfg, b, calls), c)
    decreases |calls|
  {
    hide After;
    if calls == [] {
      assert [c][1..] == [] && [] + [c] == [c];
    } else {
      assert (calls + [c])[1..] == calls[1..] + [c];
      RunAppends(cfg, After(cfg, b, calls[0]), calls[1..], c);
    }
  }

  lemma RunTo(cfg: CircuitConfig, b: Breaker, calls: seq<Call>, n: nat)
    requires n < |calls|
    ensures Run(cfg, b, calls[..n + 1]) == After(cfg, Run(cfg, b, calls[..n]), calls[n])
  {
    RunAppends(cfg, b, calls[..n], calls[n]);
    assert calls[..n] + [calls[n]] == calls[..n + 1];
  }

  /** A call that is not a lost reset steps the statistics of its tool; a tool's reading time matters to nobody. */
  lemma LoadAfter(cfg: CircuitConfig, b: Breaker, c: Call, tool: string, later: real)
    requires c.op != Reset(tool)
    ensures Load(After(cfg, b, c), tool, later) ==
      if tool == c.op.tool then Stepped(cfg, Load(b, tool, c.now), c) else Load(b, tool, later)
  {
    if !c.op.Reset? || c.op.tool in b.circuits {
      CallSteps(cfg, b, c, tool, later);
    }
  }

  /** The failures recorded since the last success, on top of those counted before. */
  function FailuresSince(counted: nat, calls: seq<Call>, tool: string): nat {
    if calls == [] then counted
    else
      var last := calls[|calls| - 1].op;
      if last == RecordSuccess(tool) then 0
      else FailuresSince(counted, calls[..|calls| - 1], tool) + if last == RecordFailure(tool) then 1 else 0
  }

  /** None of the first `n` calls is a failure that makes the threshold. */
  ghost predicate StaysBelow(cfg: CircuitConfig, counted: nat, calls: seq<Call>, tool: string, n: nat)
    requires n <= |calls|
  {
    forall m :: 0 < m <= n && calls[m - 1].op == RecordFailure(tool) ==> FailuresSince(counted, calls[..m], tool) < cfg.failureThreshold
  }

  lemma ClosedStep(cfg: CircuitConfig, b: Breaker, c: Call, tool: string, failures: nat)
    requires ClosedWith(b, tool, failures) && c.op != Reset(tool)
    ensures
      var next := After(cfg, b, c);
      if c.op == RecordFailure(tool) then
        if failures + 1 < cfg.failureThreshold then ClosedWith(next, tool, failures + 1) else OpenSince(next, tool, c.now)
      else ClosedWith(next, tool, if c.op == RecordSuccess(tool) then 0 else failures)
    ensures c.op == GetState(tool) ==> AnswerOf(cfg, b, c) == State(CLOSED)
    ensures c.op == AllowRequest(tool) ==> AnswerOf(cfg, b, c) == Admitted(true)
  {
    forall later ensures Load(After(cfg, b, c), tool, later) ==
      if tool == c.op.tool then Stepped(cfg, Load(b, tool, c.now), c) else Load(b, tool, later)
    {
      LoadAfter(cfg, b, c, tool, later);
    }
    assert Load(b, tool, c.now).state == CLOSED;
    hide After, Load;
  }

  lemma FailuresTo(counted: nat, calls: seq<Call>, tool: string, n: nat)
    requires n < |calls|
    ensures FailuresSince(counted, calls[..n + 1], tool) ==
      if calls[n].op == RecordSuccess(tool) then 0
      else FailuresSince(counted, calls[..n], tool) + if calls[n].op == RecordFailure(tool) then 1 else 0
  {
    assert calls[..n + 1][..n] == calls[..n];
  }

  lemma {:induction false} ClosedWhileBelow(cfg: CircuitConfig, b: Breaker, calls: seq<Call>, tool: string, counted: nat, n: nat)
    requires ClosedWith(b, tool, counted) && LeavesResetsOut(calls, tool) && n <= |calls| && StaysBelow(cfg, counted, calls, tool, n)
    ensures ClosedWith(Run(cfg, b, calls[..n]), tool, FailuresSince(counted, calls[..n], tool))
  {
    hide ClosedWith, Run, FailuresSince, After;
    if n == 0 {
      NothingRun(cfg, b, tool, counted);
      assert calls[..0] == [];
    } else {
      ClosedWhileBelow(cfg, b, calls, tool, counted, n - 1);
      RunTo(cfg, b, calls, n - 1);
      FailuresTo(counted, calls, tool, n - 1);
      ClosedStep(cfg, Run(cfg, b, calls[..n - 1]), calls[n - 1], tool, FailuresSince(counted, calls[..n - 1], tool));
    }
  }

  lemma NothingRun(cfg: CircuitConfig, b: Breaker, tool: string, counted: nat)
    ensures Run(cfg, b, []) == b && FailuresSince(counted, [], tool) == counted
  {
  }

  /**
   Short of a reset, a closed circuit opens at the very first failure that makes
   `failure_threshold` of them since the last success, and not before: until then every
   query is answered as closed, and from there on it is open since that failure's reading.
   */
  lemma OpensAtTheThreshold(cfg: CircuitConfig, b: Breaker, calls: seq<Call>, tool: string, counted: nat, n: nat)
    requires ClosedWith(b, tool, counted) && LeavesResetsOut(calls, tool) && n < |calls|
    requires StaysBelow(cfg, counted, calls, tool, n)
    ensures calls[n].op == GetState(tool) ==> AnswerOf(cfg, Run(cfg, b, calls[..n]), calls[n]) == State(CLOSED)
    ensures calls[n].op == AllowRequest(tool) ==> AnswerOf(cfg, Run(cfg, b, calls[..n]), calls[n]) == Admitted(true)
    ensures
      var next := Run(cfg, b, calls[..n + 1]);
      if StaysBelow(cfg, counted, calls, tool, n + 1) then ClosedWith(next, tool, FailuresSince(counted, calls[..n + 1], tool))
      else calls[n].op == RecordFailure(tool) && OpenSince(next, tool, calls[n].now)
  {
    hide ClosedWith, OpenSince, Run, FailuresSince, After, AnswerOf;
    ClosedWhileBelow(cfg, b, calls, tool, counted, n);
    RunTo(cfg, b, calls, n);
    FailuresTo(counted, calls, tool, n);
    ClosedStep(cfg, Run(cfg, b, calls[..n]), calls[n], tool, FailuresSince(counted, calls[..n], tool));
  }

  /** A new circuit is closed with nothing on the count. */
  lemma NewCircuitIsClosed(tool: string, backend: bool)
    ensures ClosedWith(Breaker(map[], if backend then Some(map[]) else None), tool, 0)
  {
  }

  lemma {:induction false} ProbesCounted(cfg: CircuitConfig, b: Breaker, calls: seq<Call>, tool: string)
    requires HalfOpen(b, tool) && LeavesResetsOut(calls, tool) && Inconclusive(cfg, Probed(b, tool), calls, tool)
    ensures HalfOpen(Run(cfg, b, calls), tool) && Probed(Run(cfg, b, calls), tool) == Probed(b, tool) + Successes(calls, tool)
    decreases |calls|
  {
    hide HalfOpen, Inconclusive, Probed, After;
    if calls != [] {
      HalfOpenStep(cfg, b, calls[0], tool);
      InconclusiveUnfolds(cfg, Probed(b, tool), calls, tool);
      ProbesCounted(cfg, After(cfg, b, calls[0]), calls[1..], tool);
    }
  }

  /**
   What ends the half-open state. After calls that do not, a failure opens the circuit
   again, since its own reading, and a success that makes `success_threshold` of them
   closes it with nothing on the count.
   */
  lemma ProbesDecide(cfg: CircuitConfig, b: Breaker, calls: seq<Call>, tool: string, now: real)
    requires HalfOpen(b, tool) && LeavesResetsOut(calls, tool) && Inconclusive(cfg, Probed(b, tool), calls, tool)
    ensures OpenSince(Run(cfg, b, calls + [Call(RecordFailure(tool), now)]), tool, now)
    ensures Probed(b, tool) + Successes(calls, tool) + 1 >= cfg.successThreshold ==>
      ClosedWith(Run(cfg, b, calls + [Call(RecordSuccess(tool), now)]), tool, 0)
  {
    ProbesCounted(cfg, b, calls, tool);
    RunAppends(cfg, b, calls, Call(RecordFailure(tool), now));
    RunAppends(cfg, b, calls, Call(RecordSuccess(tool), now));
    hide Run, Inconclusive, Successes;
    var half := Run(cfg, b, calls);
    assert Load(half, tool, 0.0).state == HALF_OPEN && Load(half, tool, now) == Load(half, tool, 0.0);
    forall later
      ensures Load(After(cfg, half, Call(RecordFailure(tool), now)), tool, later) == Failed(cfg, Load(half, tool, now), now)
      ensures Load(After(cfg, half, Call(RecordSuccess(tool), now)), tool, later) == Succeeded(cfg, Load(half, tool, now), now)
    {
      LoadAfter(cfg, half, Call(RecordFailure(tool), now), tool, later);
      LoadAfter(cfg, half, Call(RecordSuccess(tool), now), tool, later);
    }
  }

  /** An open circuit wakes at the first query after its wait, with no probe success on the count. */
  lemma OpenWakes(cfg: CircuitConfig, b: Breaker, c: Call, tool: string, since: real)
    requires OpenSince(b, tool, since) && (c.op == GetState(tool) || c.op == AllowRequest(tool))
    requires c.now - since >= cfg.recoveryTimeout
    ensures HalfOpen(After(cfg, b, c), tool) && Probed(After(cfg, b, c), tool) == 0
    ensures AnswerOf(cfg, b, c) == if c.op.GetState? then State(HALF_OPEN) else Admitted(true)
  {
    assert Load(b, tool, c.now).state == OPEN && Load(b, tool, c.now).lastStateChange == since;
    forall later ensures Load(After(cfg, b, c), tool, later) == Stepped(cfg, Load(b, tool, c.now), c) {
      LoadAfter(cfg, b, c, tool, later);
    }
    hide After, Load;
  }

  /** Results that come in late, before anybody asks, leave it open since the same moment. */
  lemma OpenIgnoresResults(cfg: CircuitConfig, b: Breaker, c: Call, tool: string, since: real)
    requires OpenSince(b, tool, since) && (c.op == RecordSuccess(tool) || c.op == RecordFailure(tool) || c.op.tool != tool)
    ensures OpenSince(After(cfg, b, c), tool, since)
  {
    assert Load(b, tool, c.now).state == OPEN && Load(b, tool, c.now).lastStateChange == since;
    forall later ensures Load(After(cfg, b, c), tool, later) ==
      if tool == c.op.tool then Stepped(cfg, Load(b, tool, c.now), c) else Load(b, tool, later)
    {
      LoadAfter(cfg, b, c, tool, later);
      assert Load(b, tool, later).state == OPEN && Load(b, tool, later).lastStateChange == since;
    }
    hide After, Load;
  }

  /** A reset of a loaded circuit closes it with nothing on the count, whatever its state; of another it does nothing. */
  lemma ResetCloses(cfg: CircuitConfig, b: Breaker, tool: string, now: real)
    ensures
      var next := After(cfg, b, Call(Reset(tool), now));
      if tool in b.circuits then ClosedWith(next, tool, 0) else next == b
  {
  }

  function CountOf(calls: seq<Call>, op: Op): nat {
    if calls == [] then 0 else CountOf(calls[..|calls| - 1], op) + if calls[|calls| - 1].op == op then 1 else 0
  }

  /** The requests of the tool that a run refuses. */
  function Refused(cfg: CircuitConfig, b: Breaker, calls: seq<Call>, tool: string): nat {
    if calls == [] then 0
    else
      var earlier, last := calls[..|calls| - 1], calls[|calls| - 1];
      Refused(cfg, b, earlier, tool) +
      if last.op == AllowRequest(tool) && AnswerOf(cfg, Run(cfg, b, earlier), last) == Admitted(false) then 1 else 0
  }

  lemma TotalsStep(cfg: CircuitConfig, b: Breaker, c: Call, tool: string, x: real)
    ensures
      var s, t := Load(b, tool, x), Load(After(cfg, b, c), tool, x);
      && t.successCount == s.successCount + (if c.op == RecordSuccess(tool) then 1 else 0)
      && t.totalFailures == s.totalFailures + (if c.op == RecordFailure(tool) then 1 else 0)
      && t.totalRejections == s.totalRejections +
           (if c.op == AllowRequest(tool) && AnswerOf(cfg, b, c) == Admitted(false) then 1 else 0)
      && t.lastFailureTime == (if c.op == RecordFailure(tool) then c.now else s.lastFailureTime)
  {
  }

  /** The totals of a circuit are counts of the calls: results of either kind, and requests refused. */
  lemma {:induction false} TotalsAreCounts(cfg: CircuitConfig, b: Breaker, calls: seq<Call>, tool: string, x: real)
    ensures
      var s, t := Load(b, tool, x), Load(Run(cfg, b, calls), tool, x);
      && t.successCount == s.successCount + CountOf(calls, RecordSuccess(tool))
      && t.totalFailures == s.totalFailures + CountOf(calls, RecordFailure(tool))
      && t.totalRejections == s.totalRejections + Refused(cfg, b, calls, tool)
  {
    hide After, AnswerOf, Load;
    if calls != [] {
      var n := |calls| - 1;
      TotalsAreCounts(cfg, b, calls[..n], tool, x);
      RunTo(cfg, b, calls, n);
      assert calls[..n + 1] == calls;
      hide Run;
      TotalsStep(cfg, Run(cfg, b, calls[..n]), calls[n], tool, x);
    }
  }
}
