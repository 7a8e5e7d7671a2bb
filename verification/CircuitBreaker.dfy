/** `CircuitBreaker`: per-tool failure isolation, written through to an optional backend. Each call takes its clock reading. */
module CircuitBreaker {
  import opened Wrappers

  datatype CircuitState = CLOSED | OPEN | HALF_OPEN

  datatype CircuitConfig = CircuitConfig(failureThreshold: int, recoveryTimeout: real, successThreshold: int)

  /** The runtime statistics of a circuit, and the record the backend keeps of them. */
  datatype CircuitStats = CircuitStats(
    state: CircuitState,
    failureCount: nat,
    successCount: nat,
    halfOpenSuccesses: nat,
    lastFailureTime: real,
    lastStateChange: real,
    totalCalls: nat,
    totalFailures: nat,
    totalRejections: nat
  )

  /** A breaker as a value: its loaded circuits and what its backend holds. */
  datatype Breaker = Breaker(circuits: map<string, CircuitStats>, backend: Option<map<string, CircuitStats>>)

  function Pristine(now: real): CircuitStats {
    CircuitStats(CLOSED, 0, 0, 0, 0.0, now, 0, 0, 0)
  }

  /** `_get_stats`: the loaded circuit, else the backend's record, else a new one. */
  function Load(b: Breaker, tool: string, now: real): CircuitStats {
    if tool in b.circuits then b.circuits[tool]
    else if b.backend.Some? && tool in b.backend.value then b.backend.value[tool]
    else Pristine(now)
  }

  /** `_transition`. */
  function Transition(s: CircuitStats, state: CircuitState, now: real): CircuitStats {
    var moved := s.(state := state, lastStateChange := now);
    match state
    case CLOSED => moved.(failureCount := 0, halfOpenSuccesses := 0)
    case HALF_OPEN => moved.(halfOpenSuccesses := 0)
    case OPEN => moved
  }

  predicate Recovers(cfg: CircuitConfig, s: CircuitStats, now: real) {
    s.state == OPEN && now - s.lastStateChange >= cfg.recoveryTimeout
  }

  /** `_maybe_transition_to_half_open`. */
  function Woken(cfg: CircuitConfig, s: CircuitStats, now: real): CircuitStats {
    if Recovers(cfg, s, now) then Transition(s, HALF_OPEN, now) else s
  }

  function Succeeded(cfg: CircuitConfig, s: CircuitStats, now: real): CircuitStats {
    var t := s.(totalCalls := s.totalCalls + 1, successCount := s.successCount + 1);
    match s.state
    case HALF_OPEN =>
      var u := t.(halfOpenSuccesses := t.halfOpenSuccesses + 1);
      if u.halfOpenSuccesses >= cfg.successThreshold then Transition(u, CLOSED, now) else u
    case CLOSED => t.(failureCount := 0)
    case OPEN => t
  }

  function Failed(cfg: CircuitConfig, s: CircuitStats, now: real): CircuitStats {
    var t := s.(
      totalCalls := s.totalCalls + 1, totalFailures := s.totalFailures + 1,
      failureCount := s.failureCount + 1, lastFailureTime := now);
    match s.state
    case HALF_OPEN => Transition(t, OPEN, now)
    case CLOSED => if t.failureCount >= cfg.failureThreshold then Transition(t, OPEN, now) else t
    case OPEN => t
  }

  function Cache(b: Breaker, tool: string, s: CircuitStats): Breaker {
    b.(circuits := b.circuits[tool := s])
  }

  /** `_persist`, together with the mutation of the cached object. */
  function Persist(b: Breaker, tool: string, s: CircuitStats): Breaker {
    Breaker(b.circuits[tool := s], if b.backend.Some? then Some(b.backend.value[tool := s]) else None)
  }

  datatype Op = GetState(tool: string) | AllowRequest(tool: string) | RecordSuccess(tool: string) | RecordFailure(tool: string) | Reset(tool: string)

  datatype Call = Call(op: Op, now: real)

  /** The common opening of the queries: load, and wake up if the recovery timeout is over. */
  function Opened(cfg: CircuitConfig, b: Breaker, tool: string, now: real): Breaker {
    var s := Load(b, tool, now);
    if Recovers(cfg, s, now) then Persist(b, tool, Woken(cfg, s, now)) else Cache(b, tool, s)
  }

  function After(cfg: CircuitConfig, b: Breaker, c: Call): Breaker {
    var tool, s := c.op.tool, Load(b, c.op.tool, c.now);
    match c.op
    case GetState(_) => Opened(cfg, b, tool, c.now)
    case AllowRequest(_) =>
      var w := Woken(cfg, s, c.now);
      if w.state == OPEN then Persist(b, tool, w.(totalRejections := w.totalRejections + 1)) else Opened(cfg, b, tool, c.now)
    case RecordSuccess(_) => Persist(b, tool, Succeeded(cfg, s, c.now))
    case RecordFailure(_) => Persist(b, tool, Failed(cfg, s, c.now))
    case Reset(_) => if tool in b.circuits then Persist(b, tool, Transition(s, CLOSED, c.now)) else b
  }

  /** What a query tells its caller: the state, or whether the request is admitted. */
  datatype Answer = State(state: CircuitState) | Admitted(allowed: bool) | Nothing

  function AnswerOf(cfg: CircuitConfig, b: Breaker, c: Call): Answer {
    var w := Woken(cfg, Load(b, c.op.tool, c.now), c.now);
    match c.op
    case GetState(_) => State(w.state)
    case AllowRequest(_) => Admitted(w.state != OPEN)
    case _ => Nothing
  }

  /** `CircuitStateBackend`, as a table of records. */
  class CircuitStateBackend {
    var records: map<string, CircuitStats>

    constructor ()
      ensures records == map[]
    {
      records := map[];
    }

    method Put(tool: string, record: CircuitStats)
      modifies this
      ensures records == old(records)[tool := record]
    {
      records := records[tool := record];
    }
  }

  class CircuitBreaker {
    const config: CircuitConfig
    const backend: CircuitStateBackend?
    var circuits: map<string, CircuitStats>

    function View(): Breaker
      reads this, backend
    {
      Breaker(circuits, if backend == null then None else Some(backend.records))
    }

    constructor (config: CircuitConfig, backend: CircuitStateBackend?)
      ensures this.config == config && this.backend == backend
      ensures View() == Breaker(map[], if backend == null then None else Some(backend.records))
    {
      this.config, this.backend := config, backend;
      circuits := map[];
    }

    method LoadStats(tool: string, now: real) returns (s: CircuitStats)
      modifies this
      ensures s == Load(old(View()), tool, now)
      ensures View() == Cache(old(View()), tool, s)
    {
      if tool !in circuits {
        if backend != null && tool in backend.records {
          circuits := circuits[tool := backend.records[tool]];
        } else {
          circuits := circuits[tool := Pristine(now)];
        }
      }
      s := circuits[tool];
      assert circuits == old(circuits)[tool := s];
    }

    /** Writes the mutated statistics to the cache and through to the backend. */
    method DoPersist(tool: string, s: CircuitStats)
      modifies this, backend
      ensures View() == Persist(old(View()), tool, s)
    {
      circuits := circuits[tool := s];
      if backend != null {
        backend.Put(tool, s);
      }
    }

    /** `get_stats`, and the common part of `get_state` and `allow_request`. */
    method GetStats(tool: string, now: real) returns (s: CircuitStats)
      modifies this, backend
      ensures View() == Opened(config, old(View()), tool, now)
      ensures s == Woken(config, Load(old(View()), tool, now), now)
    {
      s := LoadStats(tool, now);
      if s.state == OPEN {
        var elapsed := now - s.lastStateChange;
        if elapsed >= config.recoveryTimeout {
          ghost var loaded := s;
          s := Transition(s, HALF_OPEN, now);
          DoPersist(tool, s);
          CacheThenPersist(old(View()), tool, loaded, s);
        }
      }
    }

    method DoGetState(tool: string, now: real) returns (state: CircuitState)
      modifies this, backend
      ensures View() == After(config, old(View()), Call(GetState(tool), now))
      ensures AnswerOf(config, old(View()), Call(GetState(tool), now)) == State(state)
    {
      var s := GetStats(tool, now);
      return s.state;
    }

    method DoAllowRequest(tool: string, now: real) returns (allowed: bool)
      modifies this, backend
      ensures View() == After(config, old(View()), Call(AllowRequest(tool), now))
      ensures AnswerOf(config, old(View()), Call(AllowRequest(tool), now)) == Admitted(allowed)
    {
      var s := GetStats(tool, now);
      if s.state == CLOSED {
        return true;
      }
      if s.state == HALF_OPEN {
        return true;
      }
      var rejected := s.(totalRejections := s.totalRejections + 1);
      DoPersist(tool, rejected);
      CacheThenPersist(old(View()), tool, s, rejected);
      return false;
    }

    method DoRecordSuccess(tool: string, now: real)
      modifies this, backend
      ensures View() == After(config, old(View()), Call(RecordSuccess(tool), now))
    {
      var s := LoadStats(tool, now);
      ghost var loaded := s;
      s := s.(totalCalls := s.totalCalls + 1, successCount := s.successCount + 1);
      if s.state == HALF_OPEN {
        s := s.(halfOpenSuccesses := s.halfOpenSuccesses + 1);
        if s.halfOpenSuccesses >= config.successThreshold {
          s := Transition(s, CLOSED, now);
        }
      } else if s.state == CLOSED {
        s := s.(failureCount := 0);
      }
      DoPersist(tool, s);
      CacheThenPersist(old(View()), tool, loaded, s);
    }

    method DoRecordFailure(tool: string, now: real)
      modifies this, backend
      ensures View() == After(config, old(View()), Call(RecordFailure(tool), now))
    {
      var s := LoadStats(tool, now);
      ghost var loaded := s;
      s := s.(totalCalls := s.totalCalls + 1, totalFailures := s.totalFailures + 1,
              failureCount := s.failureCount + 1, lastFailureTime := now);
      if s.state == HALF_OPEN {
        s := Transition(s, OPEN, now);
      } else if s.state == CLOSED {
        if s.failureCount >= config.failureThreshold {
          s := Transition(s, OPEN, now);
        }
      }
      DoPersist(tool, s);
      CacheThenPersist(old(View()), tool, loaded, s);
    }

    /** `reset`: only a circuit this instance has loaded. */
    method DoReset(tool: string, now: real)
      modifies this, backend
      ensures View() == After(config, old(View()), Call(Reset(tool), now))
    {
      if tool in circuits {
        DoPersist(tool, Transition(circuits[tool], CLOSED, now));
      }
    }
  }

  lemma CacheThenPersist(b: Breaker, tool: string, s: CircuitStats, t: CircuitStats)
    ensures Persist(Cache(b, tool, s), tool, t) == Persist(b, tool, t)
  {
    assert b.circuits[tool := s][tool := t] == b.circuits[tool := t];
  }
}
