/**
 `InMemoryDistributedLock`: named leases with a time to live. Each call, and each poll of
 a blocking acquire, is atomic under the internal mutex and takes its clock readings.
 */
module DistributedLock {

  datatype Entry = Entry(holder: string, expiresAt: real)

  type Locks = map<string, Entry>

  /** `_cleanup_expired`. */
  function Cleaned(locks: Locks, now: real): Locks {
    map name | name in locks && now < locks[name].expiresAt :: locks[name]
  }

  /** One poll of `acquire`: the clean-up reading, then the reading the lease starts from. */
  function AfterTry(locks: Locks, name: string, holder: string, ttl: real, cleanAt: real, grantAt: real): Locks {
    var live := Cleaned(locks, cleanAt);
    if name in live then live else live[name := Entry(holder, grantAt + ttl)]
  }

  /** `release`: an empty holder releases anyone's lease. */
  predicate Releases(locks: Locks, name: string, holder: string) {
    name in locks && (holder == "" || locks[name].holder == holder)
  }

  function AfterRelease(locks: Locks, name: string, holder: string): Locks {
    if Releases(locks, name, holder) then locks - {name} else locks
  }

  class InMemoryDistributedLock {
    var locks: Locks

    constructor ()
      ensures locks == map[]
    {
      locks := map[];
    }

    method CleanupExpired(now: real)
      modifies this
      ensures locks == Cleaned(old(locks), now)
    {
      var expired := set name | name in locks && now >= locks[name].expiresAt;
      var rest := expired;
      while rest != {}
        invariant rest <= expired
        invariant locks == old(locks) - (expired - rest)
      {
        var name :| name in rest;
        rest := rest - {name};
        locks := locks - {name};
      }
    }

    /** One poll of `acquire`. */
    method TryAcquire(name: string, holder: string, ttl: real, cleanAt: real, grantAt: real) returns (granted: bool)
      modifies this
      ensures locks == AfterTry(old(locks), name, holder, ttl, cleanAt, grantAt)
      ensures granted <==> Answer(old(locks), Try(name, holder, ttl, cleanAt, grantAt))
    {
      CleanupExpired(cleanAt);
      if name !in locks {
        locks := locks[name := Entry(holder, grantAt + ttl)];
        return true;
      }
      return false;
    }

    /**
     `acquire` with nobody else at work: polls until a grant or the deadline, each time
     sleeping a hundredth of a second. `clock` gives the successive readings.
     */
    method Acquire(name: string, holder: string, timeout: real, ttl: real, clock: nat -> real)
      returns (granted: bool, ghost at: nat)
      requires forall i, j :: 0 <= i <= j ==> clock(i) <= clock(j)
      requires forall i: nat :: clock(i) + 0.01 <= clock(i + 3)
      modifies this
      ensures granted ==> name in locks && locks[name] == Entry(holder, clock(at) + ttl)
      ensures !granted ==> name in locks && name in old(locks) && locks[name] == old(locks)[name] && clock(at) >= clock(0) + timeout
    {
      var deadline := clock(0) + timeout;
      var i := 0;
      while true
        invariant forall n :: n in locks ==> n in old(locks) && locks[n] == old(locks)[n]
        decreases ((deadline - clock(i)) * 100.0).Floor
      {
        ghost var before := locks;
        granted := TryAcquire(name, holder, ttl, clock(i), clock(i + 1));
        if granted {
          return true, i + 1;
        }
        if clock(i + 2) >= deadline {
          return false, i + 2;
        }
        assert clock(i) + 0.01 <= clock(i + 3);
        assert (deadline - clock(i)) * 100.0 >= 0.0 by {
          assert clock(i) <= clock(i + 2);
        }
        i := i + 3;
      }
    }

    method Release(name: string, holder: string) returns (released: bool)
      modifies this
      ensures locks == AfterRelease(old(locks), name, holder)
      ensures forall at :: released <==> Answer(old(locks), Op.Release(name, holder, at))
    {
      if name !in locks {
        return false;
      }
      if holder != "" && locks[name].holder != holder {
        return false;
      }
      locks := locks - {name};
      return true;
    }

    method IsLocked(name: string, now: real) returns (locked: bool)
      modifies this
      ensures locks == Cleaned(old(locks), now)
      ensures locked <==> Answer(old(locks), Op.IsLocked(name, now))
    {
      CleanupExpired(now);
      return name in locks;
    }
  }

  datatype Op =
    | Try(name: string, holder: string, ttl: real, cleanAt: real, grantAt: real)
    | Release(name: string, holder: string, at: real)
    | IsLocked(name: string, at: real)

  function Starts(op: Op): real {
    if op.Try? then op.cleanAt else op.at
  }

  function Ends(op: Op): real {
    if op.Try? then op.grantAt else op.at
  }

  /** A lease from its grant to its expiry, or to its removal if that came first. */
  datatype Lease = Lease(name: string, holder: string, from: real, until: real)

  /** The lock table, every lease ever granted, and which of them each entry is. */
  datatype Trace = Trace(locks: Locks, leases: seq<Lease>, current: map<string, nat>)

  function Min(a: real, b: real): real {
    if a <= b then a else b
  }

  function Kept(current: map<string, nat>, locks: Locks): map<string, nat> {
    map name | name in current && name in locks :: current[name]
  }

  /** The run of the lock table, with its lease log. */
  function After(t: Trace, op: Op): Trace {
    match op
    case Try(name, holder, ttl, cleanAt, grantAt) =>
      var live := Cleaned(t.locks, cleanAt);
      var locks := AfterTry(t.locks, name, holder, ttl, cleanAt, grantAt);
      if name in live then Trace(locks, t.leases, Kept(t.current, live))
      else Trace(locks, t.leases + [Lease(name, holder, grantAt, grantAt + ttl)], Kept(t.current, live)[name := |t.leases|])
    case Release(name, holder, at) =>
      var locks := AfterRelease(t.locks, name, holder);
      if Releases(t.locks, name, holder) && name in t.current && t.current[name] < |t.leases| then
        var k := t.current[name];
        Trace(locks, t.leases[k := t.leases[k].(until := Min(t.leases[k].until, at))], t.current - {name})
      else Trace(locks, t.leases, Kept(t.current, locks))
    case IsLocked(_, at) => Trace(Cleaned(t.locks, at), t.leases, Kept(t.current, Cleaned(t.locks, at)))
  }

  function Run(ops: seq<Op>): Trace {
    if ops == [] then Trace(map[], [], map[]) else After(Run(ops[..|ops| - 1]), ops[|ops| - 1])
  }

  ghost predicate Monotone(ops: seq<Op>) {
    && (forall i :: 0 <= i < |ops| ==> Starts(ops[i]) <= Ends(ops[i]))
    && (forall i, j :: 0 <= i < j < |ops| ==> Ends(ops[i]) <= Starts(ops[j]))
  }

  /** What links the table to the log at time `now`. */
  ghost predicate Valid(t: Trace, now: real) {
    && t.current.Keys == t.locks.Keys
    && (forall name :: name in t.locks ==> Linked(t, name, now))
    && (forall i :: 0 <= i < |t.leases| ==> t.leases[i].from <= now && (t.leases[i].name in t.locks || t.leases[i].until <= now))
    && (forall i, j :: 0 <= i < j < |t.leases| && t.leases[i].name == t.leases[j].name ==> t.leases[i].until <= t.leases[j].from)
  }

  /** The entry of a name is its latest lease; the earlier ones are over. */
  ghost predicate Linked(t: Trace, name: string, now: real)
    requires name in t.locks && name in t.current
  {
    var k := t.current[name];
    && k < |t.leases|
    && t.leases[k].name == name && t.leases[k].holder == t.locks[name].holder && t.leases[k].until == t.locks[name].expiresAt
    && forall i :: 0 <= i < |t.leases| && i != k && t.leases[i].name == name ==> i < k && t.leases[i].until <= now
  }

  lemma CleaningKeepsValid(t: Trace, now: real, at: real)
    requires Valid(t, now) && now <= at
    ensures Valid(Trace(Cleaned(t.locks, at), t.leases, Kept(t.current, Cleaned(t.locks, at))), at)
  {
    var live := Cleaned(t.locks, at);
    var u := Trace(live, t.leases, Kept(t.current, live));
    forall name | name in live ensures Linked(u, name, at) {
      assert Linked(t, name, now);
    }
    forall i | 0 <= i < |t.leases| && t.leases[i].name !in live ensures t.leases[i].until <= at {
      if t.leases[i].name in t.locks {
        assert Linked(t, t.leases[i].name, now);
      }
    }
  }

  lemma GrantKeepsValid(t: Trace, now: real, lease: Lease)
    requires Valid(t, now) && lease.name !in t.locks && lease.from == now
    ensures Valid(Trace(t.locks[lease.name := Entry(lease.holder, lease.until)], t.leases + [lease], t.current[lease.name := |t.leases|]), now)
  {
    var u := Trace(t.locks[lease.name := Entry(lease.holder, lease.until)], t.leases + [lease], t.current[lease.name := |t.leases|]);
    forall name | name in u.locks ensures Linked(u, name, now) {
      if name != lease.name {
        assert Linked(t, name, now);
      }
    }
  }

  lemma TimePasses(t: Trace, now: real, later: real)
    requires Valid(t, now) && now <= later
    ensures Valid(t, later)
  {
    forall name | name in t.locks ensures Linked(t, name, later) {
      assert Linked(t, name, now);
    }
  }

  lemma ReleaseKeepsValid(t: Trace, now: real, name: string)
    requires Valid(t, now) && name in t.locks
    ensures t.current[name] < |t.leases|
    ensures
      var k := t.current[name];
      Valid(Trace(t.locks - {name}, t.leases[k := t.leases[k].(until := Min(t.leases[k].until, now))], t.current - {name}), now)
  {
    assert Linked(t, name, now);
    var k := t.current[name];
    var u := Trace(t.locks - {name}, t.leases[k := t.leases[k].(until := Min(t.leases[k].until, now))], t.current - {name});
    forall other | other in u.locks ensures Linked(u, other, now) {
      assert Linked(t, other, now);
    }
  }

  lemma OpKeepsValid(t: Trace, now: real, op: Op)
    requires Valid(t, now) && now <= Starts(op) <= Ends(op)
    ensures Valid(After(t, op), Ends(op))
  {
    hide Linked;
    match op
    case Try(name, holder, ttl, cleanAt, grantAt) =>
      CleaningKeepsValid(t, now, cleanAt);
      var live := Trace(Cleaned(t.locks, cleanAt), t.leases, Kept(t.current, Cleaned(t.locks, cleanAt)));
      TimePasses(live, cleanAt, grantAt);
      if name !in live.locks {
        GrantKeepsValid(live, grantAt, Lease(name, holder, grantAt, grantAt + ttl));
      }
    case Release(name, holder, at) =>
      TimePasses(t, now, at);
      if Releases(t.locks, name, holder) {
        ReleaseKeepsValid(t, at, name);
      } else {
        assert Kept(t.current, t.locks) == t.current;
      }
    case IsLocked(_, at) => CleaningKeepsValid(t, now, at);
  }

  lemma {:induction false} RunIsValid(ops: seq<Op>, now: real)
    requires Monotone(ops) && (ops != [] ==> Ends(ops[|ops| - 1]) <= now)
    ensures Valid(Run(ops), now)
  {
    if ops != [] {
      hide Valid;
      var n := |ops| - 1;
      RunIsValid(ops[..n], Starts(ops[n]));
      OpKeepsValid(Run(ops[..n]), Starts(ops[n]), ops[n]);
      TimePasses(Run(ops), Ends(ops[n]), now);
    } else {
      assert Valid(Trace(map[], [], map[]), now);
    }
  }

  /** Exclusivity: over every run with a monotone clock, no moment lies in two leases of one name. */
  lemma LeasesAreExclusive(ops: seq<Op>, i: nat, j: nat, x: real)
    requires Monotone(ops) && i < |Run(ops).leases| && j < |Run(ops).leases|
    requires Run(ops).leases[i].name == Run(ops).leases[j].name
    requires Run(ops).leases[i].from <= x < Run(ops).leases[i].until
    requires Run(ops).leases[j].from <= x < Run(ops).leases[j].until
    ensures i == j
  {
    var now := if ops == [] then 0.0 else Ends(ops[|ops| - 1]);
    RunIsValid(ops, now);
  }

  /** What a call answers: whether the poll is granted, the lease released, or the name locked. */
  predicate Answer(locks: Locks, op: Op) {
    match op
    case Try(name, _, _, cleanAt, _) => name !in Cleaned(locks, cleanAt)
    case Release(name, holder, _) => Releases(locks, name, holder)
    case IsLocked(name, at) => name in Cleaned(locks, at)
  }

  /** The moment lies in a lease of that name. */
  ghost predicate Covered(leases: seq<Lease>, name: string, at: real) {
    exists i :: 0 <= i < |leases| && leases[i].name == name && leases[i].from <= at < leases[i].until
  }

  lemma LiveIsCovered(t: Trace, now: real, name: string, at: real)
    requires Valid(t, now) && now <= at
    ensures name in Cleaned(t.locks, at) <==> Covered(t.leases, name, at)
  {
    if name in t.locks {
      assert Linked(t, name, now);
    }
  }

  /**
   Leases end: over every run with a monotone clock, the next poll of a name is granted if
   and only if its clean-up reading lies in no lease of that name, and a query answers that
   the name is locked if and only if its reading lies in one.
   */
  lemma AnswersFollowTheLeases(ops: seq<Op>, op: Op)
    requires Monotone(ops + [op]) && !op.Release?
    ensures Answer(Run(ops).locks, op) <==> (op.IsLocked? <==> Covered(Run(ops).leases, op.name, Starts(op)))
  {
    assert forall i :: 0 <= i < |ops| ==> ops[i] == (ops + [op])[i];
    assert (ops + [op])[|ops|] == op;
    RunIsValid(ops, Starts(op));
    LiveIsCovered(Run(ops), Starts(op), op.name, Starts(op));
    hide Run, Cleaned, Covered;
  }

  /** A granted poll begins a lease at its second reading, for its time to live; a refused one and a query begin none. */
  lemma GrantBeginsLease(ops: seq<Op>, op: Op)
    requires !op.Release?
    ensures
      var leases := Run(ops).leases;
      Run(ops + [op]).leases ==
        if op.Try? && Answer(Run(ops).locks, op) then leases + [Lease(op.name, op.holder, op.grantAt, op.grantAt + op.ttl)]
        else leases
  {
    assert (ops + [op])[..|ops|] == ops;
  }

  /**
   While a lease lasts, a release of its name succeeds if and only if it names the lease's
   holder or nobody. It ends that lease there and then, and no other; a release that fails
   ends none.
   */
  lemma ReleaseEndsLease(ops: seq<Op>, op: Op, k: nat)
    requires Monotone(ops + [op]) && op.Release? && k < |Run(ops).leases|
    requires Run(ops).leases[k].name == op.name && Run(ops).leases[k].from <= op.at < Run(ops).leases[k].until
    ensures
      var lease, later := Run(ops).leases[k], Run(ops + [op]).leases;
      && (Answer(Run(ops).locks, op) <==> op.holder == "" || op.holder == lease.holder)
      && later == (if Answer(Run(ops).locks, op) then Run(ops).leases[k := lease.(until := op.at)] else Run(ops).leases)
  {
    assert forall i :: 0 <= i < |ops| ==> ops[i] == (ops + [op])[i];
    assert (ops + [op])[|ops|] == op && (ops + [op])[..|ops|] == ops;
    RunIsValid(ops, op.at);
    var t := Run(ops);
    hide Run;
    assert Linked(t, op.name, op.at);
  }

  /** With no lease at its reading a release ends none, whatever it answers. */
  lemma LateReleaseEndsNothing(ops: seq<Op>, op: Op)
    requires Monotone(ops + [op]) && op.Release? && !Covered(Run(ops).leases, op.name, op.at)
    ensures Run(ops + [op]).leases == Run(ops).leases
  {
    assert forall i :: 0 <= i < |ops| ==> ops[i] == (ops + [op])[i];
    assert (ops + [op])[|ops|] == op && (ops + [op])[..|ops|] == ops;
    RunIsValid(ops, op.at);
    var t := Run(ops);
    hide Run;
    if op.name in t.locks {
      assert Linked(t, op.name, op.at);
    }
  }

  /** A release by a different, named holder changes nothing at all. */
  lemma StrangerCannotRelease(t: Trace, now: real, name: string, holder: string, at: real)
    requires Valid(t, now) && holder != "" && name in t.locks && t.locks[name].holder != holder
    ensures After(t, Release(name, holder, at)) == t
  {
    assert Kept(t.current, t.locks) == t.current;
  }
}
