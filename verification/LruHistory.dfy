/**
 What a `get` answers, told from the calls before it: the value last put under the key
 while it lives and has not been crowded out, and nothing once it was removed.
 */
module LruHistory {
  import opened Wrappers
  import opened LruCache
  import opened LruInclusion

  /** The call takes the key out of the cache, or replaces what is under it. */
  predicate Ends<T>(op: Op<T>, key: string) {
    match op
    case Get(_) => false
    case Put(k, _, _) => k == key
    case Invalidate(k) => k == key
    case InvalidateByPrefix(prefix) => |prefix| <= |key| && key[..|prefix|] == prefix
    case Clear => true
  }

  /** The call asks for the key, or puts something under it. */
  predicate Uses<T>(op: Op<T>, key: string) {
    match op
    case Get(k) => k == key
    case Put(k, _, _) => k == key
    case _ => false
  }

  /** The other keys that the calls from `u` on ask for or put something under. */
  function UsedSince<T>(calls: seq<Timed<T>>, u: nat, key: string): set<string> {
    set i: nat | u <= i < |calls| && (calls[i].op.Get? || calls[i].op.Put?) && calls[i].op.key != key :: calls[i].op.key
  }

  lemma {:induction false} SelectConcat<T>(a: seq<Entry<T>>, b: seq<Entry<T>>, test: Test)
    ensures Select(a + b, test) == Select(a, test) + Select(b, test)
  {
    if b == [] {
      assert a + b == a;
    } else {
      var n := |b| - 1;
      assert (a + b)[..|a| + n] == a + b[..n];
      SelectConcat(a, b[..n], test);
    }
  }

  /** The entry is there, and behind it only such keys. */
  ghost predicate Holds<T>(s: seq<Entry<T>>, key: string, value: T, createdAt: real, ttl: real, behind: set<string>) {
    UniqueKeys(s) && exists i: nat :: HoldsAt(s, i, key, value, createdAt, ttl, behind)
  }

  ghost predicate HoldsAt<T>(s: seq<Entry<T>>, i: nat, key: string, value: T, createdAt: real, ttl: real, behind: set<string>) {
    i < |s| && IsEntry(s[i], key, value, createdAt, ttl) && KeysIn(s[i + 1..], behind)
  }

  ghost predicate IsEntry<T>(e: Entry<T>, key: string, value: T, createdAt: real, ttl: real) {
    e.key == key && e.value == value && e.createdAt == createdAt && e.ttlSeconds == ttl
  }

  ghost predicate KeysIn<T>(s: seq<Entry<T>>, keys: set<string>) {
    forall i :: 0 <= i < |s| ==> s[i].key in keys
  }

  lemma {:induction false} FewEntries<T>(s: seq<Entry<T>>, keys: set<string>)
    requires UniqueKeys(s) && KeysIn(s, keys)
    ensures |s| <= |keys|
  {
    if s != [] {
      FewEntries(s[1..], keys - {s[0].key});
    }
  }

  lemma SelectSplits<T>(s: seq<Entry<T>>, i: nat, test: Test) returns (j: nat)
    requires i < |s| && Passes(test, s[i].key)
    ensures j < |Select(s, test)| && Select(s, test)[j] == s[i]
    ensures Select(s, test)[j + 1..] == Select(s[i + 1..], test)
  {
    assert s == s[..i] + ([s[i]] + s[i + 1..]);
    SelectConcat(s[..i], [s[i]] + s[i + 1..], test);
    SelectConcat([s[i]], s[i + 1..], test);
    assert Select([s[i]], test) == [s[i]] by { assert [s[i]][..0] == []; }
    j := |Select(s[..i], test)|;
  }

  lemma SelectedIn<T>(s: seq<Entry<T>>, keys: set<string>, test: Test)
    requires KeysIn(s, keys)
    ensures KeysIn(Select(s, test), keys)
  {
    SelectedPasses(s, test);
    var r := Select(s, test);
    forall k | 0 <= k < |r| ensures r[k].key in keys {
      assert r[k] in s;
    }
  }

  lemma SelectKeeps<T>(s: seq<Entry<T>>, key: string, value: T, at: real, ttl: real, behind: set<string>, test: Test)
    requires Holds(s, key, value, at, ttl, behind) && Passes(test, key)
    ensures Holds(Select(s, test), key, value, at, ttl, behind)
  {
    var i: nat :| HoldsAt(s, i, key, value, at, ttl, behind);
    var j := SelectSplits(s, i, test);
    SelectUnique(s, test);
    SelectedIn(s[i + 1..], behind, test);
    assert HoldsAt(Select(s, test), j, key, value, at, ttl, behind);
  }

  /** Selecting everything but one key leaves that key out behind it, too. */
  lemma SelectOther<T>(s: seq<Entry<T>>, key: string, value: T, at: real, ttl: real, behind: set<string>, other: string)
    requires Holds(s, key, value, at, ttl, behind) && other != key
    ensures Holds(Select(s, Other(other)), key, value, at, ttl, behind - {other})
  {
    SelectKeeps(s, key, value, at, ttl, behind, Other(other));
    SelectedPasses(s, Other(other));
    var rest := Select(s, Other(other));
    var i: nat :| HoldsAt(rest, i, key, value, at, ttl, behind);
    assert HoldsAt(rest, i, key, value, at, ttl, behind - {other});
  }

  lemma AppendKeeps<T>(s: seq<Entry<T>>, key: string, value: T, at: real, ttl: real, behind: set<string>, e: Entry<T>)
    requires Holds(s, key, value, at, ttl, behind) && forall i :: 0 <= i < |s| ==> s[i].key != e.key
    ensures Holds(s + [e], key, value, at, ttl, behind + {e.key})
  {
    var i: nat :| HoldsAt(s, i, key, value, at, ttl, behind);
    assert (s + [e])[i + 1..] == s[i + 1..] + [e];
    assert HoldsAt(s + [e], i, key, value, at, ttl, behind + {e.key});
  }

  lemma SuffixIsUnique<T>(s: seq<Entry<T>>, d: nat)
    requires UniqueKeys(s) && d <= |s|
    ensures UniqueKeys(s[d..])
  {
  }

  /** Eviction spares the entry while there is room for it and all that is behind it. */
  lemma EvictKeeps<T>(s: seq<Entry<T>>, key: string, value: T, at: real, ttl: real, behind: set<string>, n: int)
    requires Holds(s, key, value, at, ttl, behind) && |behind| + 1 < n
    ensures Holds(Evicted(s, n), key, value, at, ttl, behind)
  {
    var i: nat :| HoldsAt(s, i, key, value, at, ttl, behind);
    SuffixIsUnique(s, i + 1);
    FewEntries(s[i + 1..], behind);
    var d := if |s| < n then 0 else |s| - (n - 1);
    SuffixIsUnique(s, d);
    assert Evicted(s, n) == s[d..];
    hide UniqueKeys, KeysIn;
    assert d <= i;
    assert s[d..][i - d + 1..] == s[i + 1..];
    assert HoldsAt(s[d..], i - d, key, value, at, ttl, behind);
  }

  lemma LookupIs<T>(s: seq<Entry<T>>, key: string, value: T, at: real, ttl: real, behind: set<string>)
    requires Holds(s, key, value, at, ttl, behind)
    ensures Lookup(s, key).Some? && IsEntry(Lookup(s, key).value, key, value, at, ttl)
  {
    LookupFinds(s, key);
    var i: nat :| HoldsAt(s, i, key, value, at, ttl, behind);
    var j :| 0 <= j < |s| && s[j] == Lookup(s, key).value;
  }

  lemma HoldsWider<T>(s: seq<Entry<T>>, key: string, value: T, at: real, ttl: real, behind: set<string>, more: set<string>)
    requires Holds(s, key, value, at, ttl, behind) && behind <= more
    ensures Holds(s, key, value, at, ttl, more)
  {
    var i: nat :| HoldsAt(s, i, key, value, at, ttl, behind);
    assert HoldsAt(s, i, key, value, at, ttl, more);
  }

  lemma LastHolds<T>(s: seq<Entry<T>>, e: Entry<T>)
    requires UniqueKeys(s) && forall i :: 0 <= i < |s| ==> s[i].key != e.key
    ensures Holds(s + [e], e.key, e.value, e.createdAt, e.ttlSeconds, {})
  {
    assert (s + [e])[|s| + 1..] == [];
    assert HoldsAt(s + [e], |s|, e.key, e.value, e.createdAt, e.ttlSeconds, {});
  }

  lemma OthersSelected<T>(s: seq<Entry<T>>, key: string)
    ensures forall i :: 0 <= i < |Select(s, Other(key))| ==> Select(s, Other(key))[i].key != key
  {
    SelectedPasses(s, Other(key));
  }

  lemma GetOtherHolds<T>(s: seq<Entry<T>>, key: string, value: T, at: real, ttl: real, behind: set<string>, other: string, now: real)
    requires Holds(s, key, value, at, ttl, behind) && other != key
    ensures Holds(AfterGet(s, other, now), key, value, at, ttl, behind + {other})
  {
    hide Holds, IsExpired;
    LookupFinds(s, other);
    if Lookup(s, other).None? {
      HoldsWider(s, key, value, at, ttl, behind, behind + {other});
    } else {
      var rest, e := Select(s, Other(other)), Lookup(s, other).value;
      SelectOther(s, key, value, at, ttl, behind, other);
      if IsExpired(e, now) {
        HoldsWider(rest, key, value, at, ttl, behind - {other}, behind + {other});
      } else {
        OthersSelected(s, other);
        AppendKeeps(rest, key, value, at, ttl, behind - {other}, e.(hitCount := e.hitCount + 1));
        assert behind - {other} + {other} == behind + {other};
      }
    }
  }

  lemma GetOwnHolds<T>(s: seq<Entry<T>>, key: string, value: T, at: real, ttl: real, behind: set<string>, now: real)
    requires Holds(s, key, value, at, ttl, behind) && now - at <= ttl
    ensures Holds(AfterGet(s, key, now), key, value, at, ttl, {})
  {
    LookupIs(s, key, value, at, ttl, behind);
    SelectUnique(s, Other(key));
    OthersSelected(s, key);
    var e := Lookup(s, key).value;
    LastHolds(Select(s, Other(key)), e.(hitCount := e.hitCount + 1));
    hide Holds, UniqueKeys;
  }

  lemma EvictedIsUnique<T>(s: seq<Entry<T>>, n: int)
    requires UniqueKeys(s)
    ensures UniqueKeys(Evicted(s, n)) && forall i :: 0 <= i < |Evicted(s, n)| ==> Evicted(s, n)[i] in s
  {
  }

  lemma PutHolds<T>(s: seq<Entry<T>>, n: int, e: Entry<T>)
    requires UniqueKeys(s)
    ensures Holds(AfterPut(s, n, e), e.key, e.value, e.createdAt, e.ttlSeconds, {})
  {
    var rest := Select(s, Other(e.key));
    SelectUnique(s, Other(e.key));
    EvictedIsUnique(rest, n);
    OthersSelected(s, e.key);
    LastHolds(Evicted(rest, n), e);
    hide Holds, UniqueKeys;
  }

  lemma PutOtherHolds<T>(s: seq<Entry<T>>, key: string, value: T, at: real, ttl: real, behind: set<string>, n: int, e: Entry<T>)
    requires Holds(s, key, value, at, ttl, behind) && e.key != key && |behind + {e.key}| < n
    ensures Holds(AfterPut(s, n, e), key, value, at, ttl, behind + {e.key})
  {
    hide IsEntry, KeysIn;
    var rest := Select(s, Other(e.key));
    SelectOther(s, key, value, at, ttl, behind, e.key);
    assert |behind - {e.key}| + 1 < n by {
      assert behind + {e.key} == (behind - {e.key}) + {e.key};
    }
    EvictKeeps(rest, key, value, at, ttl, behind - {e.key}, n);
    EvictedIsUnique(rest, n);
    OthersSelected(s, e.key);
    AppendKeeps(Evicted(rest, n), key, value, at, ttl, behind - {e.key}, e);
    assert behind - {e.key} + {e.key} == behind + {e.key};
  }

  /** The index of the last call that uses the key, or where to start if none does. */
  function LastUse<T>(calls: seq<Timed<T>>, key: string): nat {
    if calls == [] then 0
    else if Uses(calls[|calls| - 1].op, key) then |calls| - 1
    else LastUse(calls[..|calls| - 1], key)
  }

  /** The other keys used since the key's own last use. */
  function Behind<T>(calls: seq<Timed<T>>, key: string): set<string> {
    UsedSince(calls, LastUse(calls, key), key)
  }

  lemma {:induction false} LastUseIs<T>(calls: seq<Timed<T>>, key: string)
    ensures LastUse(calls, key) <= |calls| && (calls != [] ==> LastUse(calls, key) < |calls|)
  {
    if calls != [] {
      LastUseIs(calls[..|calls| - 1], key);
    }
  }

  lemma BehindUnfolds<T>(calls: seq<Timed<T>>, c: Timed<T>, key: string)
    ensures Behind(calls + [c], key) ==
      if Uses(c.op, key) then {}
      else Behind(calls, key) + (if c.op.Get? || c.op.Put? then {c.op.key} else {})
  {
    var all := calls + [c];
    assert all[..|all| - 1] == calls;
    LastUseIs(calls, key);
    if !Uses(c.op, key) {
      UsedSinceUnfolds(calls, c, LastUse(calls, key), key);
    }
    hide UsedSince, LastUse;
  }

  lemma UsedSinceUnfolds<T>(calls: seq<Timed<T>>, c: Timed<T>, u: nat, key: string)
    requires u <= |calls| && !Uses(c.op, key)
    ensures UsedSince(calls + [c], u, key) == UsedSince(calls, u, key) + if c.op.Get? || c.op.Put? then {c.op.key} else {}
  {
    var all := calls + [c];
    assert forall i :: 0 <= i < |calls| ==> all[i] == calls[i];
    assert all[|calls|] == c;
  }

  /** While the key has an entry, fewer than `n` other keys are used between any two uses of it. */
  ghost predicate NeverCrowded<T>(calls: seq<Timed<T>>, p: nat, key: string, n: int) {
    forall m :: p < m <= |calls| ==> |Behind(calls[..m], key)| < n
  }

  /** The calls after `p` leave the entry alone: no removal, no other put, and no get past its time. */
  ghost predicate LeftAlone<T>(calls: seq<Timed<T>>, p: nat, key: string, at: real, ttl: real) {
    forall i :: p < i < |calls| ==>
      !Ends(calls[i].op, key) && (calls[i].op.Get? && calls[i].op.key == key ==> calls[i].now - at <= ttl)
  }

  lemma CallHolds<T>(s: seq<Entry<T>>, key: string, value: T, at: real, ttl: real, behind: set<string>, n: int, default: real, c: Timed<T>)
    requires Holds(s, key, value, at, ttl, behind) && !Ends(c.op, key)
    requires c.op.Get? && c.op.key == key ==> c.now - at <= ttl
    requires |behind + (if c.op.Get? || c.op.Put? then {c.op.key} else {})| < n || Uses(c.op, key)
    ensures Holds(After(s, n, default, c), key, value, at, ttl,
                  if Uses(c.op, key) then {} else behind + if c.op.Get? || c.op.Put? then {c.op.key} else {})
  {
    hide Holds, AfterGet, AfterPut;
    match c.op
    case Get(k) =>
      if k == key {
        GetOwnHolds(s, key, value, at, ttl, behind, c.now);
      } else {
        GetOtherHolds(s, key, value, at, ttl, behind, k, c.now);
      }
    case Put(k, v, t) => PutOtherHolds(s, key, value, at, ttl, behind, n, Entry(k, v, c.now, TtlOr(t, default), 0));
    case Invalidate(k) => SelectKeeps(s, key, value, at, ttl, behind, Other(k)); assert behind + {} == behind;
    case InvalidateByPrefix(prefix) => SelectKeeps(s, key, value, at, ttl, behind, NotPrefixed(prefix)); assert behind + {} == behind;
  }

  lemma {:induction false} RunIsUnique<T>(n: int, default: real, calls: seq<Timed<T>>)
    ensures UniqueKeys(Run(n, default, calls))
  {
    if calls != [] {
      var s, c := Run(n, default, calls[..|calls| - 1]), calls[|calls| - 1];
      RunIsUnique(n, default, calls[..|calls| - 1]);
      CallIsUnique(s, n, default, c);
    }
  }

  lemma CallIsUnique<T>(s: seq<Entry<T>>, n: int, default: real, c: Timed<T>)
    requires UniqueKeys(s)
    ensures UniqueKeys(After(s, n, default, c))
  {
    match c.op
    case Get(k) =>
      SelectUnique(s, Other(k));
      OthersSelected(s, k);
      LookupFinds(s, k);
    case Put(k, v, t) => PutHolds(s, n, Entry(k, v, c.now, TtlOr(t, default), 0));
    case Invalidate(k) => SelectUnique(s, Other(k));
    case InvalidateByPrefix(prefix) => SelectUnique(s, NotPrefixed(prefix));
    case Clear =>
  }

  /** What a `get` answers after these calls. */
  function Answer<T>(n: int, default: real, calls: seq<Timed<T>>, key: string, now: real): (Option<T>, CacheStatus) {
    GetAnswer(Run(n, default, calls), key, now)
  }

  lemma RunTo<T>(n: int, default: real, calls: seq<Timed<T>>, m: nat)
    requires m < |calls|
    ensures calls[..m + 1] == calls[..m] + [calls[m]]
    ensures Run(n, default, calls[..m + 1]) == After(Run(n, default, calls[..m]), n, default, calls[m])
  {
    assert calls[..m + 1][..m] == calls[..m];
  }

  lemma {:induction false} EntryStays<T>(n: int, default: real, calls: seq<Timed<T>>, p: nat, m: nat, at: real, ttl: real)
    requires p < m <= |calls| && calls[p].op.Put? && at == calls[p].now && ttl == TtlOr(calls[p].op.ttl, default)
    requires NeverCrowded(calls, p, calls[p].op.key, n) && LeftAlone(calls, p, calls[p].op.key, at, ttl)
    ensures Holds(Run(n, default, calls[..m]), calls[p].op.key, calls[p].op.value, at, ttl, Behind(calls[..m], calls[p].op.key))
  {
    hide Run, Holds, Behind, After;
    var put := calls[p].op;
    RunTo(n, default, calls, m - 1);
    BehindUnfolds(calls[..m - 1], calls[m - 1], put.key);
    assert |Behind(calls[..m], put.key)| < n;
    if m == p + 1 {
      RunIsUnique(n, default, calls[..p]);
      PutIs(Run(n, default, calls[..p]), n, default, calls[p], at, ttl);
    } else {
      EntryStays(n, default, calls, p, m - 1, at, ttl);
      CallHolds(Run(n, default, calls[..m - 1]), put.key, put.value, at, ttl, Behind(calls[..m - 1], put.key), n, default, calls[m - 1]);
    }
  }

  lemma PutIs<T>(s: seq<Entry<T>>, n: int, default: real, c: Timed<T>, at: real, ttl: real)
    requires UniqueKeys(s) && c.op.Put? && at == c.now && ttl == TtlOr(c.op.ttl, default)
    ensures Holds(After(s, n, default, c), c.op.key, c.op.value, at, ttl, {})
  {
    PutHolds(s, n, Entry(c.op.key, c.op.value, c.now, ttl, 0));
    hide Holds;
  }

  /**
   What was put is there: as long as fewer than `n` other keys are used between any two uses
   of the key, and nothing but gets within its time has touched it, a get answers the value
   last put if and only if it comes within the time to live, which is the one given, or the
   default where none or zero was given; and after that it answers that the entry expired.
   */
  lemma LastPutIsAnswered<T>(n: int, default: real, calls: seq<Timed<T>>, p: nat, now: real)
    requires p < |calls| && calls[p].op.Put?
    requires NeverCrowded(calls, p, calls[p].op.key, n)
    requires
      var ttl := calls[p].op.ttl;
      LeftAlone(calls, p, calls[p].op.key, calls[p].now, if ttl == None || ttl == Some(0.0) then default else ttl.value)
    ensures
      var ttl := calls[p].op.ttl;
      var lives := now - calls[p].now <= if ttl == None || ttl == Some(0.0) then default else ttl.value;
      Answer(n, default, calls, calls[p].op.key, now) == if lives then (Some(calls[p].op.value), HIT) else (None, EXPIRED)
  {
    var put, at := calls[p].op, calls[p].now;
    var ttl := TtlOr(put.ttl, default);
    assert calls[..|calls|] == calls;
    EntryStays(n, default, calls, p, |calls|, at, ttl);
    LookupIs(Run(n, default, calls), put.key, put.value, at, ttl, Behind(calls, put.key));
  }

  /** The call at `q` removes the key: an invalidation of it, a clear, or a get that finds it expired. */
  ghost predicate Removes<T>(n: int, default: real, calls: seq<Timed<T>>, q: nat, key: string)
    requires q < |calls|
  {
    || (Ends(calls[q].op, key) && !calls[q].op.Put?)
    || (calls[q].op == Get(key) && Answer(n, default, calls[..q], key, calls[q].now) == (None, EXPIRED))
  }

  lemma LookupAppend<T>(s: seq<Entry<T>>, e: Entry<T>, key: string)
    ensures Lookup(s + [e], key) == if e.key == key then Some(e) else Lookup(s, key)
  {
    assert (s + [e])[..|s|] == s;
  }

  lemma SuffixUnlisted<T>(s: seq<Entry<T>>, d: nat, key: string)
    requires d <= |s| && Lookup(s, key).None?
    ensures Lookup(s[d..], key).None?
  {
    LookupFinds(s, key);
    LookupFinds(s[d..], key);
    hide Lookup;
  }

  lemma GetUnlisted<T>(s: seq<Entry<T>>, k: string, now: real, key: string)
    requires Lookup(s, key).None?
    ensures Lookup(AfterGet(s, k, now), key).None?
  {
    hide Lookup, Select, IsExpired;
    LookupSelected(s, Other(k), key);
    LookupFinds(s, k);
    if Lookup(s, k).Some? {
      var e := Lookup(s, k).value;
      LookupAppend(Select(s, Other(k)), e.(hitCount := e.hitCount + 1), key);
    }
  }

  lemma PutUnlisted<T>(s: seq<Entry<T>>, n: int, e: Entry<T>, key: string)
    requires Lookup(s, key).None? && e.key != key
    ensures Lookup(AfterPut(s, n, e), key).None?
  {
    hide Lookup, Select;
    var rest := Select(s, Other(e.key));
    var d := if n < 1 then |rest| else if |rest| < n then 0 else |rest| - (n - 1);
    assert Evicted(rest, n) == rest[d..];
    LookupSelected(s, Other(e.key), key);
    SuffixUnlisted(rest, d, key);
    LookupAppend(rest[d..], e, key);
  }

  lemma Unlisted<T>(s: seq<Entry<T>>, n: int, default: real, c: Timed<T>, key: string)
    requires Lookup(s, key).None? && !(c.op.Put? && c.op.key == key)
    ensures Lookup(After(s, n, default, c), key).None?
  {
    hide AfterGet, AfterPut, Select;
    match c.op
    case Get(k) => GetUnlisted(s, k, c.now, key);
    case Put(k, v, t) => PutUnlisted(s, n, Entry(k, v, c.now, TtlOr(t, default), 0), key);
    case Invalidate(k) => LookupSelected(s, Other(k), key);
    case InvalidateByPrefix(prefix) => LookupSelected(s, NotPrefixed(prefix), key);
    case Clear =>
  }

  lemma RemovedIsUnlisted<T>(n: int, default: real, calls: seq<Timed<T>>, q: nat, key: string)
    requires q < |calls| && Removes(n, default, calls, q, key)
    ensures Lookup(Run(n, default, calls[..q + 1]), key).None?
  {
    RunTo(n, default, calls, q);
    var s := Run(n, default, calls[..q]);
    hide Run;
    match calls[q].op
    case Get(k) => LookupSelected(s, Other(k), key);
    case Invalidate(k) => LookupSelected(s, Other(k), key);
    case InvalidateByPrefix(prefix) => LookupSelected(s, NotPrefixed(prefix), key);
    case _ =>
  }

  lemma {:induction false} StaysUnlisted<T>(n: int, default: real, calls: seq<Timed<T>>, q: nat, m: nat, key: string)
    requires q <= m <= |calls| && Lookup(Run(n, default, calls[..q]), key).None?
    requires forall i :: q <= i < |calls| ==> !(calls[i].op.Put? && calls[i].op.key == key)
    ensures Lookup(Run(n, default, calls[..m]), key).None?
  {
    hide Run, Lookup, After;
    if q < m {
      StaysUnlisted(n, default, calls, q, m - 1, key);
      RunTo(n, default, calls, m - 1);
      Unlisted(Run(n, default, calls[..m - 1]), n, default, calls[m - 1], key);
    }
  }

  /** What was never put, or has been removed since, is answered as a miss. */
  lemma AbsentIsMissed<T>(n: int, default: real, calls: seq<Timed<T>>, q: nat, key: string, now: real)
    requires q <= |calls| && (q == 0 || Removes(n, default, calls, q - 1, key))
    requires forall i :: q <= i < |calls| ==> !(calls[i].op.Put? && calls[i].op.key == key)
    ensures Answer(n, default, calls, key, now) == (None, MISS)
  {
    if q > 0 {
      RemovedIsUnlisted(n, default, calls, q - 1, key);
    }
    StaysUnlisted(n, default, calls, q, |calls|, key);
    assert calls[..|calls|] == calls;
  }

  // The other side: who crowds a key out.

  /** Every entry under the key has all of these keys behind it. */
  ghost predicate InFrontOf<T>(s: seq<Entry<T>>, key: string, keys: set<string>) {
    forall i, k :: 0 <= i < |s| && s[i].key == key && k in keys ==> ListedAfter(s, i, k)
  }

  ghost predicate ListedAfter<T>(s: seq<Entry<T>>, i: nat, k: string) {
    exists j :: i < j < |s| && s[j].key == k
  }

  /** The other keys that calls from `u` on put something under. */
  function PutSince<T>(calls: seq<Timed<T>>, u: nat, m: nat, key: string): set<string>
    requires m <= |calls|
  {
    set i: nat | u <= i < m && calls[i].op.Put? && calls[i].op.key != key :: calls[i].op.key
  }

  lemma SelectKeepsFront<T>(s: seq<Entry<T>>, key: string, keys: set<string>, test: Test)
    requires UniqueKeys(s) && InFrontOf(s, key, keys) && forall k :: k in keys ==> Passes(test, k)
    ensures InFrontOf(Select(s, test), key, keys)
  {
    var r := Select(s, test);
    SelectUnique(s, test);
    SelectedPasses(s, test);
    hide Select, Passes;
    forall i, k | 0 <= i < |r| && r[i].key == key && k in keys ensures ListedAfter(r, i, k) {
      assert r[i] in s;
      var a :| 0 <= a < |s| && s[a] == r[i];
      assert ListedAfter(s, a, k);
      SelectKeepsListed(s, a, k, test, i);
    }
  }

  lemma SelectKeepsListed<T>(s: seq<Entry<T>>, a: nat, k: string, test: Test, i: nat)
    requires UniqueKeys(s) && UniqueKeys(Select(s, test)) && a < |s| && ListedAfter(s, a, k)
    requires Passes(test, s[a].key) && Passes(test, k) && i < |Select(s, test)| && Select(s, test)[i] == s[a]
    ensures ListedAfter(Select(s, test), i, k)
  {
    var r := Select(s, test);
    var b :| a < b < |s| && s[b].key == k;
    var j := SelectSplits(s, a, test);
    assert r[j] == r[i];
    SelectedPasses(s[a + 1..], test);
    assert s[a + 1..][b - a - 1] == s[b];
    var d :| 0 <= d < |Select(s[a + 1..], test)| && Select(s[a + 1..], test)[d] == s[b];
    assert r[j + 1..][d] == r[j + 1 + d];
    hide Select;
  }

  lemma SuffixKeepsFront<T>(s: seq<Entry<T>>, key: string, keys: set<string>, d: nat)
    requires d <= |s| && InFrontOf(s, key, keys)
    ensures InFrontOf(s[d..], key, keys)
  {
    forall i, k | 0 <= i < |s[d..]| && s[d..][i].key == key && k in keys ensures ListedAfter(s[d..], i, k) {
      assert s[d + i].key == key && ListedAfter(s, d + i, k);
      var b :| d + i < b < |s| && s[b].key == k;
      assert s[d..][b - d] == s[b];
    }
  }

  lemma AppendKeepsFront<T>(s: seq<Entry<T>>, key: string, keys: set<string>, e: Entry<T>)
    requires InFrontOf(s, key, keys) && e.key != key
    ensures InFrontOf(s + [e], key, keys + {e.key})
  {
    var r := s + [e];
    forall i, k | 0 <= i < |r| && r[i].key == key && k in keys + {e.key} ensures ListedAfter(r, i, k) {
      if k == e.key {
        assert r[|s|].key == k;
      } else {
        assert ListedAfter(s, i, k);
        var j :| i < j < |s| && s[j].key == k;
        assert r[j] == s[j];
      }
    }
  }

  lemma FewerInFront<T>(s: seq<Entry<T>>, key: string, keys: set<string>, fewer: set<string>)
    requires InFrontOf(s, key, keys) && fewer <= keys
    ensures InFrontOf(s, key, fewer)
  {
  }

  /** One call on: gets of the key itself come to nothing, and none of the keys goes. */
  lemma CallKeepsFront<T>(s: seq<Entry<T>>, n: int, default: real, c: Timed<T>, key: string, keys: set<string>)
    requires UniqueKeys(s) && InFrontOf(s, key, keys) && !Uses(c.op, key)
    requires forall k :: k in keys ==> !(Ends(c.op, k) && !c.op.Put?)
    requires c.op.Get? && c.op.key in keys ==> GetAnswer(s, c.op.key, c.now).1 != EXPIRED
    ensures InFrontOf(After(s, n, default, c), key, keys + if c.op.Put? then {c.op.key} else {})
  {
    match c.op
    case Get(k) => GetKeepsFront(s, c.now, k, key, keys);
    case Put(k, v, t) =>
      FewerInFront(s, key, keys, keys - {k});
      SelectKeepsFront(s, key, keys - {k}, Other(k));
      var rest := Select(s, Other(k));
      var d := if n < 1 then |rest| else if |rest| < n then 0 else |rest| - (n - 1);
      assert Evicted(rest, n) == rest[d..];
      SuffixKeepsFront(rest, key, keys - {k}, d);
      AppendKeepsFront(rest[d..], key, keys - {k}, Entry(k, v, c.now, TtlOr(t, default), 0));
      assert keys - {k} + {k} == keys + {k};
      hide InFrontOf;
    case Invalidate(k) => SelectKeepsFront(s, key, keys, Other(k)); assert keys + {} == keys;
    case InvalidateByPrefix(prefix) => SelectKeepsFront(s, key, keys, NotPrefixed(prefix)); assert keys + {} == keys;
    case Clear =>
  }

  lemma GetKeepsFront<T>(s: seq<Entry<T>>, now: real, k: string, key: string, keys: set<string>)
    requires UniqueKeys(s) && InFrontOf(s, key, keys) && k != key
    requires k in keys ==> GetAnswer(s, k, now).1 != EXPIRED
    ensures InFrontOf(AfterGet(s, k, now), key, keys)
  {
    hide InFrontOf, IsExpired;
    LookupFinds(s, k);
    if Lookup(s, k).Some? {
      var e, rest := Lookup(s, k).value, Select(s, Other(k));
      FewerInFront(s, key, keys, keys - {k});
      SelectKeepsFront(s, key, keys - {k}, Other(k));
      if IsExpired(e, now) {
        assert keys - {k} == keys;
      } else {
        AppendKeepsFront(rest, key, keys - {k}, e.(hitCount := e.hitCount + 1));
        FewerInFront(rest + [e.(hitCount := e.hitCount + 1)], key, keys - {k} + {k}, keys);
      }
    }
  }

  /** From `u` on the key is not used, and none of the other keys put since is removed or found expired. */
  ghost predicate Overtaken<T>(n: int, default: real, calls: seq<Timed<T>>, u: nat, key: string) {
    forall i :: u <= i < |calls| ==> !Uses(calls[i].op, key) && PushesNoneOut(n, default, calls, u, i, key)
  }

  ghost predicate PushesNoneOut<T>(n: int, default: real, calls: seq<Timed<T>>, u: nat, i: nat, key: string)
    requires i < |calls|
  {
    var op, keys := calls[i].op, PutSince(calls, u, i, key);
    && (forall k :: k in keys ==> !(Ends(op, k) && !op.Put?))
    && (op.Get? && op.key in keys ==> Answer(n, default, calls[..i], op.key, calls[i].now).1 != EXPIRED)
  }

  lemma PutSinceUnfolds<T>(calls: seq<Timed<T>>, u: nat, m: nat, key: string)
    requires u <= m < |calls| && !Uses(calls[m].op, key)
    ensures PutSince(calls, u, m + 1, key) == PutSince(calls, u, m, key) + if calls[m].op.Put? then {calls[m].op.key} else {}
    ensures PutSince(calls, u, u, key) == {}
  {
  }

  lemma {:induction false} StaysInFront<T>(n: int, default: real, calls: seq<Timed<T>>, u: nat, m: nat, key: string)
    requires u <= m <= |calls| && Overtaken(n, default, calls, u, key)
    ensures InFrontOf(Run(n, default, calls[..m]), key, PutSince(calls, u, m, key))
  {
    hide InFrontOf, Run, After;
    if m == u {
      assert PutSince(calls, u, u, key) == {};
      NoneInFront(Run(n, default, calls[..u]), key);
    } else {
      StaysInFront(n, default, calls, u, m - 1, key);
      RunTo(n, default, calls, m - 1);
      RunIsUnique(n, default, calls[..m - 1]);
      assert PushesNoneOut(n, default, calls, u, m - 1, key);
      CallKeepsFront(Run(n, default, calls[..m - 1]), n, default, calls[m - 1], key, PutSince(calls, u, m - 1, key));
      PutSinceUnfolds(calls, u, m - 1, key);
    }
  }

  lemma NoneInFront<T>(s: seq<Entry<T>>, key: string)
    ensures InFrontOf(s, key, {})
  {
  }

  lemma {:induction false} ManyEntries<T>(s: seq<Entry<T>>, keys: set<string>)
    requires forall k :: k in keys ==> exists i :: 0 <= i < |s| && s[i].key == k
    ensures |keys| <= |s|
  {
    if s == [] {
      assert keys == {};
    } else {
      var n := |s| - 1;
      forall k | k in keys - {s[n].key} ensures exists i :: 0 <= i < |s[..n]| && s[..n][i].key == k {
        var i :| 0 <= i < |s| && s[i].key == k;
        assert s[..n][i] == s[i];
      }
      ManyEntries(s[..n], keys - {s[n].key});
    }
  }

  lemma {:induction false} RunFits<T>(n: int, default: real, calls: seq<Timed<T>>)
    requires n >= 1
    ensures |Run(n, default, calls)| <= n
  {
    if calls != [] {
      RunFits(n, default, calls[..|calls| - 1]);
      var s, c := Run(n, default, calls[..|calls| - 1]), calls[|calls| - 1];
      CallFits(s, n, default, c);
    }
  }

  lemma CallFits<T>(s: seq<Entry<T>>, n: int, default: real, c: Timed<T>)
    requires |s| <= n && n >= 1
    ensures |After(s, n, default, c)| <= n
  {
    match c.op
    case Get(k) =>
      SelectedPasses(s, Other(k));
      LookupFinds(s, k);
      if Lookup(s, k).Some? {
        LookupSelected(s, Other(k), k);
        OneLess(s, k);
      }
    case Invalidate(k) => SelectedPasses(s, Other(k));
    case InvalidateByPrefix(prefix) => SelectedPasses(s, NotPrefixed(prefix));
    case _ =>
  }

  lemma {:induction false} OneLess<T>(s: seq<Entry<T>>, k: string)
    requires Lookup(s, k).Some?
    ensures |Select(s, Other(k))| < |s|
  {
    var n := |s| - 1;
    SelectedPasses(s[..n], Other(k));
    if s[n].key != k {
      OneLess(s[..n], k);
    }
  }

  /**
   And what is crowded out is gone: once `n` other keys have been put since the key was last
   used, none of them removed again, a get of it is a miss.
   */
  lemma CrowdedOutIsMissed<T>(n: int, default: real, calls: seq<Timed<T>>, u: nat, key: string, now: real)
    requires n >= 1 && u <= |calls| && Overtaken(n, default, calls, u, key)
    requires |PutSince(calls, u, |calls|, key)| >= n
    ensures Answer(n, default, calls, key, now) == (None, MISS)
  {
    var s, keys := Run(n, default, calls), PutSince(calls, u, |calls|, key);
    assert calls[..|calls|] == calls;
    StaysInFront(n, default, calls, u, |calls|, key);
    RunFits(n, default, calls);
    NoRoomForIt(s, n, key, keys);
  }

  // The exact account: which keys stand behind a key, told from the calls and their answers.

  function Touching<T>(keys: set<string>, op: Op<T>, status: CacheStatus, key: string): set<string> {
    match op
    case Get(k) =>
      if k == key then {}
      else
        (match status
         case HIT => keys + {k}
         case EXPIRED => keys - {k}
         case MISS => keys)
    case Put(k, _, _) => if k == key then {} else keys + {k}
    case Invalidate(k) => keys - {k}
    case InvalidateByPrefix(prefix) => set k | k in keys && !(|prefix| <= |k| && k[..|prefix|] == prefix)
    case Clear => {}
  }

  /** The other keys put or hit since the key's own last use, less those removed or found expired since. */
  function Touched<T>(n: int, default: real, calls: seq<Timed<T>>, key: string): set<string> {
    if calls == [] then {}
    else
      var before, c := calls[..|calls| - 1], calls[|calls| - 1];
      var status := if c.op.Get? then Answer(n, default, before, c.op.key, c.now).1 else MISS;
      Touching(Touched(n, default, before, key), c.op, status, key)
  }

  function StatusOf<T>(s: seq<Entry<T>>, c: Timed<T>): CacheStatus {
    if c.op.Get? then GetAnswer(s, c.op.key, c.now).1 else MISS
  }

  lemma TouchedUnfolds<T>(n: int, default: real, calls: seq<Timed<T>>, m: nat, key: string)
    requires m < |calls|
    ensures Touched(n, default, calls[..m + 1], key)
      == Touching(Touched(n, default, calls[..m], key), calls[m].op, StatusOf(Run(n, default, calls[..m]), calls[m]), key)
  {
    assert calls[..m + 1][..m] == calls[..m];
  }

  lemma GetMovesBehind<T>(s: seq<Entry<T>>, now: real, k: string, key: string, keys: set<string>)
    requires UniqueKeys(s) && InFrontOf(s, key, keys) && k != key
    ensures InFrontOf(AfterGet(s, k, now), key, Touching(keys, Op<T>.Get(k), GetAnswer(s, k, now).1, key))
  {
    hide InFrontOf, IsExpired;
    LookupFinds(s, k);
    if Lookup(s, k).Some? {
      var e, rest := Lookup(s, k).value, Select(s, Other(k));
      FewerInFront(s, key, keys, keys - {k});
      SelectKeepsFront(s, key, keys - {k}, Other(k));
      if !IsExpired(e, now) {
        AppendKeepsFront(rest, key, keys - {k}, e.(hitCount := e.hitCount + 1));
        assert keys - {k} + {k} == keys + {k};
      }
    }
  }

  lemma OwnGetIsLast<T>(s: seq<Entry<T>>, key: string, now: real)
    ensures InFrontOf(AfterGet(s, key, now), key, {})
  {
    NoneInFront(AfterGet(s, key, now), key);
  }

  lemma SelectionKeepsFront<T>(s: seq<Entry<T>>, key: string, keys: set<string>, fewer: set<string>, test: Test)
    requires UniqueKeys(s) && InFrontOf(s, key, keys) && fewer <= keys && forall k :: k in fewer ==> Passes(test, k)
    ensures InFrontOf(Select(s, test), key, fewer)
  {
    FewerInFront(s, key, keys, fewer);
    SelectKeepsFront(s, key, fewer, test);
  }

  /** Whatever is called, all those keys stand behind the key, if it is there. */
  lemma CallMovesBehind<T>(s: seq<Entry<T>>, n: int, default: real, c: Timed<T>, key: string, keys: set<string>)
    requires UniqueKeys(s) && InFrontOf(s, key, keys)
    ensures InFrontOf(After(s, n, default, c), key, Touching(keys, c.op, StatusOf(s, c), key))
  {
    var later := Touching(keys, c.op, StatusOf(s, c), key);
    match c.op
    case Get(k) =>
      if k == key { OwnGetIsLast(s, key, c.now); } else { GetMovesBehind(s, c.now, k, key, keys); }
      hide InFrontOf, AfterGet, GetAnswer;
    case Put(k, v, t) =>
      NoneInFront(After(s, n, default, c), key);
      if k != key {
        CallKeepsFront(s, n, default, c, key, keys);
      }
      hide InFrontOf, AfterPut;
    case Invalidate(k) => SelectionKeepsFront(s, key, keys, later, Other(k));
    case InvalidateByPrefix(prefix) => SelectionKeepsFront(s, key, keys, later, NotPrefixed(prefix));
    case Clear =>
  }

  lemma {:induction false} TouchedAreBehind<T>(n: int, default: real, calls: seq<Timed<T>>, m: nat, key: string)
    requires m <= |calls|
    ensures InFrontOf(Run(n, default, calls[..m]), key, Touched(n, default, calls[..m], key))
  {
    hide InFrontOf, Run, After, Touching, StatusOf;
    if m == 0 {
      NoneInFront(Run(n, default, calls[..0]), key);
    } else {
      TouchedAreBehind(n, default, calls, m - 1, key);
      RunTo(n, default, calls, m - 1);
      RunIsUnique(n, default, calls[..m - 1]);
      TouchedUnfolds(n, default, calls, m - 1, key);
      CallMovesBehind(Run(n, default, calls[..m - 1]), n, default, calls[m - 1], key, Touched(n, default, calls[..m - 1], key));
    }
  }

  /** So a key with as many behind it as there is room for is not there. */
  lemma NoRoomForIt<T>(s: seq<Entry<T>>, n: int, key: string, keys: set<string>)
    requires InFrontOf(s, key, keys) && |s| <= n <= |keys|
    ensures Lookup(s, key).None?
  {
    LookupFinds(s, key);
    if Lookup(s, key).Some? {
      var i :| 0 <= i < |s| && s[i].key == key;
      var rest := s[i + 1..];
      forall k | k in keys ensures exists j :: 0 <= j < |rest| && rest[j].key == k {
        assert ListedAfter(s, i, k);
        var j :| i < j < |s| && s[j].key == k;
        assert rest[j - i - 1] == s[j];
      }
      ManyEntries(rest, keys);
      assert false;
    }
  }

  lemma GetOtherHoldsExactly<T>(s: seq<Entry<T>>, key: string, value: T, at: real, ttl: real, behind: set<string>, other: string, now: real)
    requires Holds(s, key, value, at, ttl, behind) && other != key
    ensures Holds(AfterGet(s, other, now), key, value, at, ttl, Touching(behind, Op<T>.Get(other), GetAnswer(s, other, now).1, key))
  {
    hide Holds, IsExpired;
    if Lookup(s, other).Some? {
      var rest, e := Select(s, Other(other)), Lookup(s, other).value;
      LookupFinds(s, other);
      SelectOther(s, key, value, at, ttl, behind, other);
      if !IsExpired(e, now) {
        OthersSelected(s, other);
        AppendKeeps(rest, key, value, at, ttl, behind - {other}, e.(hitCount := e.hitCount + 1));
        assert behind - {other} + {other} == behind + {other};
      }
    }
  }

  lemma PrefixHoldsExactly<T>(s: seq<Entry<T>>, key: string, value: T, at: real, ttl: real, behind: set<string>, fewer: set<string>, prefix: string)
    requires Holds(s, key, value, at, ttl, behind) && Passes(NotPrefixed(prefix), key)
    requires forall k :: k in behind && Passes(NotPrefixed(prefix), k) ==> k in fewer
    ensures Holds(Select(s, NotPrefixed(prefix)), key, value, at, ttl, fewer)
  {
    var rest := Select(s, NotPrefixed(prefix));
    SelectKeeps(s, key, value, at, ttl, behind, NotPrefixed(prefix));
    SelectedPasses(s, NotPrefixed(prefix));
    var i: nat :| HoldsAt(rest, i, key, value, at, ttl, behind);
    assert HoldsAt(rest, i, key, value, at, ttl, fewer);
  }

  lemma CallHoldsExactly<T>(s: seq<Entry<T>>, key: string, value: T, at: real, ttl: real, behind: set<string>, n: int, default: real, c: Timed<T>)
    requires Holds(s, key, value, at, ttl, behind) && !Ends(c.op, key)
    requires c.op.Get? && c.op.key == key ==> c.now - at <= ttl
    requires |Touching(behind, c.op, StatusOf(s, c), key)| < n
    ensures Holds(After(s, n, default, c), key, value, at, ttl, Touching(behind, c.op, StatusOf(s, c), key))
  {
    hide Holds, AfterGet, AfterPut, GetAnswer;
    match c.op
    case Get(k) =>
      if k == key {
        GetOwnHolds(s, key, value, at, ttl, behind, c.now);
      } else {
        GetOtherHoldsExactly(s, key, value, at, ttl, behind, k, c.now);
      }
    case Put(k, v, t) => PutOtherHolds(s, key, value, at, ttl, behind, n, Entry(k, v, c.now, TtlOr(t, default), 0));
    case Invalidate(k) => SelectOther(s, key, value, at, ttl, behind, k);
    case InvalidateByPrefix(prefix) =>
      PrefixHoldsExactly(s, key, value, at, ttl, behind, Touching(behind, c.op, MISS, key), prefix);
  }

  lemma OwnPutTouchesNone<T>(keys: set<string>, op: Op<T>, status: CacheStatus)
    requires op.Put?
    ensures Touching(keys, op, status, op.key) == {}
  {
  }

  /** At every moment after `p` there is room for the key and all that stands behind it. */
  ghost predicate AlwaysRoom<T>(n: int, default: real, calls: seq<Timed<T>>, p: nat, key: string) {
    forall m :: p < m <= |calls| ==> |Touched(n, default, calls[..m], key)| < n
  }

  lemma {:induction false} EntryStaysExactly<T>(n: int, default: real, calls: seq<Timed<T>>, p: nat, m: nat, at: real, ttl: real)
    requires p < m <= |calls| && calls[p].op.Put? && at == calls[p].now && ttl == TtlOr(calls[p].op.ttl, default)
    requires AlwaysRoom(n, default, calls, p, calls[p].op.key) && LeftAlone(calls, p, calls[p].op.key, at, ttl)
    ensures
      var key := calls[p].op.key;
      Holds(Run(n, default, calls[..m]), key, calls[p].op.value, at, ttl, Touched(n, default, calls[..m], key))
  {
    hide Run, Holds, Touched, After, StatusOf, TtlOr, Touching, Ends;
    var put := calls[p].op;
    RunTo(n, default, calls, m - 1);
    TouchedUnfolds(n, default, calls, m - 1, put.key);
    if m == p + 1 {
      OwnPutTouchesNone(Touched(n, default, calls[..p], put.key), put, StatusOf(Run(n, default, calls[..p]), calls[p]));
      RunIsUnique(n, default, calls[..p]);
      PutIs(Run(n, default, calls[..p]), n, default, calls[p], at, ttl);
    } else {
      EntryStaysExactly(n, default, calls, p, m - 1, at, ttl);
      assert |Touched(n, default, calls[..m], put.key)| < n;
      CallHoldsExactly(Run(n, default, calls[..m - 1]), put.key, put.value, at, ttl,
                       Touched(n, default, calls[..m - 1], put.key), n, default, calls[m - 1]);
    }
  }

  /**
   The exact answer. Through calls that do not remove the key, put it again or find it
   expired, a get of it is a miss if and only if at some moment as many other keys as there
   is room for had been put or hit since its own last use and not been removed since. If it
   is no miss, it is the value last put, within the time to live, and expired after that.
   */
  lemma LastPutIsAnsweredIff<T>(n: int, default: real, calls: seq<Timed<T>>, p: nat, now: real)
    requires n >= 1 && p < |calls| && calls[p].op.Put?
    requires
      var ttl := calls[p].op.ttl;
      LeftAlone(calls, p, calls[p].op.key, calls[p].now, if ttl == None || ttl == Some(0.0) then default else ttl.value)
    ensures
      var ttl := calls[p].op.ttl;
      var lives := now - calls[p].now <= if ttl == None || ttl == Some(0.0) then default else ttl.value;
      Answer(n, default, calls, calls[p].op.key, now) ==
        if !AlwaysRoom(n, default, calls, p, calls[p].op.key) then (None, MISS)
        else if lives then (Some(calls[p].op.value), HIT)
        else (None, EXPIRED)
  {
    var put, at := calls[p].op, calls[p].now;
    var key, ttl := put.key, TtlOr(put.ttl, default);
    assert calls[..|calls|] == calls;
    hide Run, Touched, Holds, LeftAlone;
    if AlwaysRoom(n, default, calls, p, key) {
      EntryStaysExactly(n, default, calls, p, |calls|, at, ttl);
      LookupIs(Run(n, default, calls), key, put.value, at, ttl, Touched(n, default, calls, key));
    } else {
      var m :| p < m <= |calls| && |Touched(n, default, calls[..m], key)| >= n;
      TouchedAreBehind(n, default, calls, m, key);
      RunFits(n, default, calls[..m]);
      NoRoomForIt(Run(n, default, calls[..m]), n, key, Touched(n, default, calls[..m], key));
      NotPutAgain(calls, p, key, at, ttl);
      StaysUnlisted(n, default, calls, m, |calls|, key);
    }
  }

  lemma NotPutAgain<T>(calls: seq<Timed<T>>, p: nat, key: string, at: real, ttl: real)
    requires LeftAlone(calls, p, key, at, ttl)
    ensures forall i :: p < i < |calls| ==> !(calls[i].op.Put? && calls[i].op.key == key)
  {
  }

  lemma OneEntry<T>(e: Entry<T>, key: string)
    ensures Select([e], Other(key)) == if e.key == key then [] else [e]
    ensures Lookup([e], key) == if e.key == key then Some(e) else None
    ensures Select<T>([], Other(key)) == []
  {
    assert [e][..0] == [];
  }

  lemma TwoEntries<T>(a: Entry<T>, b: Entry<T>, key: string)
    ensures Select([a, b], Other(key)) == (if a.key == key then [] else [a]) + (if b.key == key then [] else [b])
    ensures Lookup([a, b], key) == if b.key == key then Some(b) else if a.key == key then Some(a) else None
  {
    assert [a, b][..1] == [a];
    OneEntry(a, key);
  }

  lemma PutFirst<T>(e: Entry<T>)
    ensures AfterPut([], 2, e) == [e]
  {
    OneEntry(e, e.key);
    hide Select;
  }

  lemma PutSecond<T>(a: Entry<T>, e: Entry<T>)
    requires a.key != e.key
    ensures AfterPut([a], 2, e) == [a, e]
  {
    OneEntry(a, e.key);
    hide Select;
  }

  lemma PutThird<T>(a: Entry<T>, b: Entry<T>, e: Entry<T>)
    requires a.key != e.key && b.key != e.key
    ensures AfterPut([a, b], 2, e) == [b, e]
  {
    TwoEntries(a, b, e.key);
    hide Select;
  }

  lemma GetFirst<T>(a: Entry<T>, b: Entry<T>, now: real)
    requires a.key != b.key && !IsExpired(a, now)
    ensures AfterGet([a, b], a.key, now) == [b, a.(hitCount := a.hitCount + 1)]
  {
    TwoEntries(a, b, a.key);
    hide Select, Lookup;
  }

  function EntryOf<T>(key: string, x: T, default: real): Entry<T> {
    Entry(key, x, 0.0, default, 0)
  }

  /** Two puts and a hit on the older one. */
  function PutsThenHit<T>(x: T): seq<Timed<T>> {
    [Timed(Put("a", x, None), 0.0), Timed(Put("k", x, None), 0.0), Timed(Get("a"), 0.0)]
  }

  lemma RunOfPutsThenHit<T>(default: real, x: T)
    requires default >= 0.0
    ensures Run(2, default, PutsThenHit(x)) == [EntryOf("k", x, default), EntryOf("a", x, default).(hitCount := 1)]
  {
    var calls, a, k := PutsThenHit(x), EntryOf("a", x, default), EntryOf("k", x, default);
    hide AfterPut, AfterGet;
    PutFirst(a);
    PutSecond(a, k);
    GetFirst(a, k, 0.0);
    assert calls[..0] == [] && calls[..3] == calls;
    RunTo(2, default, calls, 0);
    RunTo(2, default, calls, 1);
    RunTo(2, default, calls, 2);
  }

  /**
   It is uses that count, not puts: with room for two, a hit on the older key and one put
   crowd the newer key out.
   */
  lemma HitsCrowdOut<T>(default: real, x: T)
    requires default >= 0.0
    ensures
      var calls := PutsThenHit(x) + [Timed(Put("b", x, None), 0.0)];
      && PutSince(calls, 2, 4, "k") == {"b"}
      && Answer(2, default, calls[..3], "k", 0.0) == (Some(x), HIT)
      && Answer(2, default, calls, "k", 0.0) == (None, MISS)
  {
    hide Run, AfterPut, Lookup, PutSince;
    var calls, a, k, b := PutsThenHit(x) + [Timed(Put("b", x, None), 0.0)],
      EntryOf("a", x, default).(hitCount := 1), EntryOf("k", x, default), EntryOf("b", x, default);
    assert calls[..3] == PutsThenHit(x) && calls[..4] == calls;
    RunOfPutsThenHit(default, x);
    RunTo(2, default, calls, 3);
    PutThird(k, a, b);
    PutSinceUnfolds(calls, 2, 2, "k");
    PutSinceUnfolds(calls, 2, 3, "k");
    TwoEntries(k, a, "k");
    TwoEntries(a, b, "k");
  }

  // Every hit is counted.

  /** The gets of the key after `p`. */
  function GetsAfter<T>(calls: seq<Timed<T>>, p: nat, key: string): nat
    decreases |calls|
  {
    if |calls| <= p + 1 then 0
    else
      var op := calls[|calls| - 1].op;
      GetsAfter(calls[..|calls| - 1], p, key) + if op.Get? && op.key == key then 1 else 0
  }

  lemma {:induction false} LookupInSuffix<T>(s: seq<Entry<T>>, d: nat, key: string)
    requires d <= |s| && Lookup(s[d..], key).Some?
    ensures Lookup(s, key) == Lookup(s[d..], key)
  {
    var n := |s| - 1;
    assert s[d..][..|s[d..]| - 1] == s[..n][d..];
    if s[n].key != key {
      LookupInSuffix(s[..n], d, key);
    }
  }

  /** A call that does not use the key leaves its entry as it is, if it leaves it at all. */
  lemma OthersKeepEntry<T>(s: seq<Entry<T>>, n: int, default: real, c: Timed<T>, key: string)
    requires !Uses(c.op, key) && Lookup(After(s, n, default, c), key).Some?
    ensures Lookup(After(s, n, default, c), key) == Lookup(s, key)
  {
    hide AfterGet, AfterPut, Select, Lookup;
    match c.op
    case Get(k) => GetKeepsOthers(s, k, c.now, key);
    case Put(k, v, t) => PutKeepsOthers(s, n, Entry(k, v, c.now, TtlOr(t, default), 0), key);
    case Invalidate(k) => LookupSelected(s, Other(k), key);
    case InvalidateByPrefix(prefix) => LookupSelected(s, NotPrefixed(prefix), key);
    case Clear => assert Lookup<T>([], key) == None by { NoEntry<T>(key); }
  }

  lemma NoEntry<T>(key: string)
    ensures Lookup<T>([], key) == None
  {
  }

  lemma GetKeepsOthers<T>(s: seq<Entry<T>>, k: string, now: real, key: string)
    requires k != key && Lookup(AfterGet(s, k, now), key).Some?
    ensures Lookup(AfterGet(s, k, now), key) == Lookup(s, key)
  {
    hide Lookup, Select, IsExpired;
    LookupSelected(s, Other(k), key);
    LookupFinds(s, k);
    if Lookup(s, k).Some? {
      var e := Lookup(s, k).value;
      LookupAppend(Select(s, Other(k)), e.(hitCount := e.hitCount + 1), key);
    }
  }

  lemma PutKeepsOthers<T>(s: seq<Entry<T>>, n: int, e: Entry<T>, key: string)
    requires e.key != key && Lookup(AfterPut(s, n, e), key).Some?
    ensures Lookup(AfterPut(s, n, e), key) == Lookup(s, key)
  {
    hide Lookup, Select;
    var rest := Select(s, Other(e.key));
    var d := if n < 1 then |rest| else if |rest| < n then 0 else |rest| - (n - 1);
    assert Evicted(rest, n) == rest[d..];
    LookupSelected(s, Other(e.key), key);
    LookupAppend(rest[d..], e, key);
    LookupInSuffix(rest, d, key);
  }

  lemma GetCountsHit<T>(s: seq<Entry<T>>, key: string, now: real)
    requires Lookup(s, key).Some? && Lookup(AfterGet(s, key, now), key).Some?
    ensures Lookup(AfterGet(s, key, now), key).value.hitCount == Lookup(s, key).value.hitCount + 1
  {
    LookupSelected(s, Other(key), key);
    LookupFinds(s, key);
    var e := Lookup(s, key).value;
    LookupAppend(Select(s, Other(key)), e.(hitCount := e.hitCount + 1), key);
  }

  /** One call counts one hit, if it is a get of the key that finds it, and none otherwise. */
  lemma CallCountsHit<T>(s: seq<Entry<T>>, n: int, default: real, c: Timed<T>, key: string)
    requires Lookup(s, key).Some? && Lookup(After(s, n, default, c), key).Some? && !(c.op.Put? && c.op.key == key)
    ensures Lookup(After(s, n, default, c), key).value.hitCount
      == Lookup(s, key).value.hitCount + if c.op.Get? && c.op.key == key then 1 else 0
  {
    hide After, AfterGet, Lookup;
    if Uses(c.op, key) {
      GetIs(s, n, default, c, key);
      GetCountsHit(s, key, c.now);
    } else {
      OthersKeepEntry(s, n, default, c, key);
    }
  }

  lemma GetsAfterUnfolds<T>(calls: seq<Timed<T>>, p: nat, m: nat, key: string)
    requires p + 1 < m <= |calls|
    ensures GetsAfter(calls[..m], p, key)
      == GetsAfter(calls[..m - 1], p, key) + if calls[m - 1].op.Get? && calls[m - 1].op.key == key then 1 else 0
  {
    assert calls[..m][..m - 1] == calls[..m - 1];
  }

  lemma NoGetsYet<T>(calls: seq<Timed<T>>, p: nat, key: string)
    requires p < |calls|
    ensures GetsAfter(calls[..p + 1], p, key) == 0
  {
  }

  lemma EntryIsFound<T>(n: int, default: real, calls: seq<Timed<T>>, p: nat, m: nat)
    requires p < m <= |calls| && calls[p].op.Put? && NeverCrowded(calls, p, calls[p].op.key, n)
    requires LeftAlone(calls, p, calls[p].op.key, calls[p].now, TtlOr(calls[p].op.ttl, default))
    ensures Lookup(Run(n, default, calls[..m]), calls[p].op.key).Some?
  {
    var key, at, ttl := calls[p].op.key, calls[p].now, TtlOr(calls[p].op.ttl, default);
    hide Run, NeverCrowded, LeftAlone, TtlOr, Holds, Behind, Lookup;
    EntryStays(n, default, calls, p, m, at, ttl);
    LookupIs(Run(n, default, calls[..m]), key, calls[p].op.value, at, ttl, Behind(calls[..m], key));
  }

  /** The hit count of an entry is the number of gets since it was put. */
  lemma {:induction false} HitsAreCounted<T>(n: int, default: real, calls: seq<Timed<T>>, p: nat, m: nat)
    requires p < m <= |calls| && calls[p].op.Put? && NeverCrowded(calls, p, calls[p].op.key, n)
    requires LeftAlone(calls, p, calls[p].op.key, calls[p].now, TtlOr(calls[p].op.ttl, default))
    ensures
      var found := Lookup(Run(n, default, calls[..m]), calls[p].op.key);
      found.Some? && found.value.hitCount == GetsAfter(calls[..m], p, calls[p].op.key)
  {
    hide Run, After, NeverCrowded, LeftAlone, TtlOr, Lookup, GetsAfter;
    var key := calls[p].op.key;
    EntryIsFound(n, default, calls, p, m);
    RunTo(n, default, calls, m - 1);
    var s, c := Run(n, default, calls[..m - 1]), calls[m - 1];
    if m == p + 1 {
      NewEntryHasNoHits(s, n, default, c);
      NoGetsYet(calls, p, key);
    } else {
      NotPutAgain(calls, p, key, calls[p].now, TtlOr(calls[p].op.ttl, default));
      HitsAreCounted(n, default, calls, p, m - 1);
      GetsAfterUnfolds(calls, p, m, key);
      CallCountsHit(s, n, default, c, key);
    }
  }

  lemma GetIs<T>(s: seq<Entry<T>>, n: int, default: real, c: Timed<T>, key: string)
    requires c.op.Get? && c.op.key == key
    ensures After(s, n, default, c) == AfterGet(s, key, c.now)
  {
  }

  lemma NewEntryHasNoHits<T>(s: seq<Entry<T>>, n: int, default: real, c: Timed<T>)
    requires c.op.Put?
    ensures Lookup(After(s, n, default, c), c.op.key).Some? && Lookup(After(s, n, default, c), c.op.key).value.hitCount == 0
  {
    var e := Entry(c.op.key, c.op.value, c.now, TtlOr(c.op.ttl, default), 0);
    LookupAppend(Evicted(Select(s, Other(e.key)), n), e, e.key);
  }
}
