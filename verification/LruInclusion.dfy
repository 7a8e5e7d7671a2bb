/**
 LRU inclusion: fed the same calls at the same clock readings, a cache of a smaller
 capacity always holds part of what a larger one holds. A hit the small cache misses
 reorders the large one, so the invariant is not that one recency list ends the other,
 but that it is the large list with some keys left out, and that the large cache is
 never ahead by more entries than the difference of the capacities.
 */
module LruInclusion {
  import opened Wrappers
  import opened LruCache

  datatype Op<T> =
    | Get(key: string)
    | Put(key: string, value: T, ttl: Option<real>)
    | Invalidate(key: string)
    | InvalidateByPrefix(prefix: string)
    | Clear

  /** A call and the clock reading it takes. */
  datatype Timed<T> = Timed(op: Op<T>, now: real)

  function After<T>(s: seq<Entry<T>>, maxSize: int, defaultTtl: real, c: Timed<T>): seq<Entry<T>> {
    match c.op
    case Get(key) => AfterGet(s, key, c.now)
    case Put(key, value, ttl) => AfterPut(s, maxSize, Entry(key, value, c.now, TtlOr(ttl, defaultTtl), 0))
    case Invalidate(key) => Select(s, Other(key))
    case InvalidateByPrefix(prefix) => Select(s, NotPrefixed(prefix))
    case Clear => []
  }

  function Run<T>(maxSize: int, defaultTtl: real, calls: seq<Timed<T>>): seq<Entry<T>> {
    if calls == [] then []
    else After(Run(maxSize, defaultTtl, calls[..|calls| - 1]), maxSize, defaultTtl, calls[|calls| - 1])
  }

  /** `small` is `large` without some keys, and `large` is ahead by at most the slack. */
  ghost predicate Included<T>(small: seq<Entry<T>>, large: seq<Entry<T>>, keys: set<string>, n: nat, m: nat) {
    && UniqueKeys(large)
    && small == Select(large, Among(keys))
    && |small| <= n <= m && |large| <= m
    && |large| - |small| <= m - n
  }

  lemma {:induction false} SelectAgrees<T>(s: seq<Entry<T>>, a: Test, b: Test)
    requires forall i :: 0 <= i < |s| ==> (Passes(a, s[i].key) <==> Passes(b, s[i].key))
    ensures Select(s, a) == Select(s, b)
  {
    if s != [] {
      SelectAgrees(s[..|s| - 1], a, b);
    }
  }

  /** Dropping the same keys from both keeps the inclusion. */
  lemma DropKeepsIncluded<T>(small: seq<Entry<T>>, large: seq<Entry<T>>, keys: set<string>, n: nat, m: nat, test: Test)
    requires Included(small, large, keys, n, m)
    ensures Included(Select(small, test), Select(large, test), keys, n, m)
  {
    SelectCommutes(large, Among(keys), test);
    SelectUnique(large, test);
    SelectedPasses(large, test);
    SelectedPasses(small, test);
    SelectDropsLess(large, Among(keys), test);
  }

  /** A key the small cache lacks may leave the large one or move within it. */
  lemma AbsentKeyKeepsIncluded<T>(small: seq<Entry<T>>, large: seq<Entry<T>>, keys: set<string>, n: nat, m: nat, key: string)
    requires Included(small, large, keys, n, m) && Lookup(small, key).None?
    ensures Select(small, Other(key)) == small
    ensures Included(small, Select(large, Other(key)), keys, n, m)
  {
    LookupFinds(small, key);
    SelectAll(small, Other(key));
    DropKeepsIncluded(small, large, keys, n, m, Other(key));
  }

  lemma GetKeepsIncluded<T>(small: seq<Entry<T>>, large: seq<Entry<T>>, keys: set<string>, n: nat, m: nat, key: string, now: real)
    requires Included(small, large, keys, n, m)
    ensures Included(AfterGet(small, key, now), AfterGet(large, key, now), keys, n, m)
    ensures GetAnswer(small, key, now).1 == HIT ==> GetAnswer(large, key, now) == GetAnswer(small, key, now)
  {
    LookupSelected(large, Among(keys), key);
    GetKeepsShape(large, key, now);
    if key in keys || Lookup(large, key).None? {
      DropKeepsIncluded(small, large, keys, n, m, Other(key));
      if Lookup(large, key).Some? && !IsExpired(Lookup(large, key).value, now) {
        var e := Lookup(large, key).value;
        LookupFinds(large, key);
        MovesTogether(small, large, keys, n, m, e, now);
      }
    } else {
      AbsentKeyKeepsIncluded(small, large, keys, n, m, key);
      var e := Lookup(large, key).value;
      LookupFinds(large, key);
      if !IsExpired(e, now) {
        var touched := e.(hitCount := e.hitCount + 1);
        SelectAppend(Select(large, Other(key)), touched, Among(keys));
      }
    }
  }

  /** What a hit does to a store: its entry moves to the end, with one hit more. */
  lemma HitMoves<T>(s: seq<Entry<T>>, e: Entry<T>, now: real)
    requires UniqueKeys(s) && Lookup(s, e.key) == Some(e) && !IsExpired(e, now)
    ensures AfterGet(s, e.key, now) == Select(s, Other(e.key)) + [e.(hitCount := e.hitCount + 1)]
    ensures UniqueKeys(AfterGet(s, e.key, now)) && |AfterGet(s, e.key, now)| == |s|
  {
    PresentKeyLeaves(s, e.key);
    GetKeepsShape(s, e.key, now);
    hide Select, Lookup, UniqueKeys, IsExpired;
  }

  /** A hit in both moves the same entry to both ends. */
  lemma MovesTogether<T>(small: seq<Entry<T>>, large: seq<Entry<T>>, keys: set<string>, n: nat, m: nat, e: Entry<T>, now: real)
    requires Included(small, large, keys, n, m) && e.key in keys && Lookup(large, e.key) == Some(e) && !IsExpired(e, now)
    ensures Included(AfterGet(small, e.key, now), AfterGet(large, e.key, now), keys, n, m)
  {
    hide Select, Lookup, UniqueKeys, IsExpired, AfterGet;
    var rest, touched := Select(large, Other(e.key)), e.(hitCount := e.hitCount + 1);
    LookupSelected(large, Among(keys), e.key);
    SelectUnique(large, Among(keys));
    DropKeepsIncluded(small, large, keys, n, m, Other(e.key));
    SelectAppend(rest, touched, Among(keys));
    HitMoves(large, e, now);
    HitMoves(small, e, now);
  }

  lemma {:induction false} PresentKeyLeaves<T>(s: seq<Entry<T>>, key: string)
    requires UniqueKeys(s) && Lookup(s, key).Some?
    ensures |Select(s, Other(key))| == |s| - 1
  {
    var n := |s| - 1;
    if s[n].key == key {
      SelectAll(s[..n], Other(key));
    } else {
      PresentKeyLeaves(s[..n], key);
    }
  }

  /** The front of the small list: dropping it is deselecting its key. */
  lemma {:induction false} DropFront<T>(s: seq<Entry<T>>)
    requires UniqueKeys(s) && s != []
    ensures s[1..] == Select(s, Other(s[0].key))
  {
    assert s == [s[0]] + s[1..];
    FrontSelect(s, Other(s[0].key));
    SelectAll(s[1..], Other(s[0].key));
  }

  lemma {:induction false} FrontSelect<T>(s: seq<Entry<T>>, test: Test)
    requires s != []
    ensures Select(s, test) == if Passes(test, s[0].key) then [s[0]] + Select(s[1..], test) else Select(s[1..], test)
  {
    var n := |s| - 1;
    if n > 0 {
      FrontSelect(s[..n], test);
      assert s[..n][1..] == s[1..][..n - 1];
      assert s[1..][n - 1] == s[n];
    }
  }

  lemma {:induction false} SelectCompose<T>(s: seq<Entry<T>>, keys: set<string>, key: string)
    ensures Select(Select(s, Among(keys)), Other(key)) == Select(s, Among(keys - {key}))
  {
    if s != [] {
      var n := |s| - 1;
      SelectCompose(s[..n], keys, key);
      SelectAppend(Select(s[..n], Among(keys)), s[n], Other(key));
    }
  }

  /** Eviction keeps the inclusion: when the large cache is full, so is the small one. */
  lemma EvictKeepsIncluded<T>(small: seq<Entry<T>>, large: seq<Entry<T>>, keys: set<string>, n: nat, m: nat)
    returns (k: set<string>)
    requires Included(small, large, keys, n, m) && n >= 1
    ensures Included(Evicted(small, n), Evicted(large, m), k, n, m)
    ensures |Evicted(small, n)| < n && |Evicted(large, m)| < m && k <= keys
  {
    k := keys;
    SelectUnique(large, Among(keys));
    var s, l := Evicted(small, n), Evicted(large, m);
    if |small| == n {
      var front := small[0].key;
      k := keys - {front};
      DropFront(small);
      SelectCompose(large, keys, front);
      assert s == Select(large, Among(k));
    }
    if |large| == m {
      assert l == large[1..];
      FrontSelect(large, Among(keys));
      FrontSelect(large, Among(k));
    }
  }

  lemma PutKeepsIncluded<T>(small: seq<Entry<T>>, large: seq<Entry<T>>, keys: set<string>, n: nat, m: nat, e: Entry<T>)
    returns (k': set<string>)
    requires Included(small, large, keys, n, m) && n >= 1
    ensures Included(AfterPut(small, n, e), AfterPut(large, m, e), k', n, m)
  {
    DropKeepsIncluded(small, large, keys, n, m, Other(e.key));
    var s, l := Select(small, Other(e.key)), Select(large, Other(e.key));
    SelectedPasses(large, Other(e.key));
    var k := EvictKeepsIncluded(s, l, keys, n, m);
    EvictedShape(l, m);
    var l2 := Evicted(l, m);
    forall i | 0 <= i < |l2| ensures l2[i].key != e.key {
      assert l2[i] in l;
    }
    SelectAgrees(l2, Among(k), Among(k + {e.key}));
    SelectAppend(l2, e, Among(k + {e.key}));
    k' := k + {e.key};
  }

  /** One call on both caches keeps the inclusion. */
  lemma CallKeepsIncluded<T>(small: seq<Entry<T>>, large: seq<Entry<T>>, keys: set<string>, n: nat, m: nat, defaultTtl: real, c: Timed<T>)
    returns (k: set<string>)
    requires Included(small, large, keys, n, m) && n >= 1
    ensures Included(After(small, n, defaultTtl, c), After(large, m, defaultTtl, c), k, n, m)
  {
    k := keys;
    match c.op
    case Get(key) => GetKeepsIncluded(small, large, keys, n, m, key, c.now);
    case Put(key, value, ttl) =>
      k := PutKeepsIncluded(small, large, keys, n, m, Entry(key, value, c.now, TtlOr(ttl, defaultTtl), 0));
    case Invalidate(key) => DropKeepsIncluded(small, large, keys, n, m, Other(key));
    case InvalidateByPrefix(prefix) => DropKeepsIncluded(small, large, keys, n, m, NotPrefixed(prefix));
    case Clear =>
  }

  lemma {:induction false} RunsAreIncluded<T>(n: nat, m: nat, defaultTtl: real, calls: seq<Timed<T>>)
    returns (k: set<string>)
    requires 1 <= n <= m
    ensures Included(Run(n, defaultTtl, calls), Run(m, defaultTtl, calls), k, n, m)
  {
    if calls == [] {
      k := {};
    } else {
      var before := calls[..|calls| - 1];
      k := RunsAreIncluded(n, m, defaultTtl, before);
      k := CallKeepsIncluded(Run(n, defaultTtl, before), Run(m, defaultTtl, before), k, n, m, defaultTtl, calls[|calls| - 1]);
    }
  }

  /**
   After any calls, every entry of the smaller cache (value, creation time, time to live
   and hit count) is an entry of the larger one, and a hit in the smaller is the same hit
   in the larger.
   */
  lemma Inclusion<T>(n: nat, m: nat, defaultTtl: real, calls: seq<Timed<T>>, key: string, now: real)
    requires 1 <= n <= m
    ensures forall e :: e in Run(n, defaultTtl, calls) ==> e in Run(m, defaultTtl, calls)
    ensures GetAnswer(Run(n, defaultTtl, calls), key, now).1 == HIT ==>
      GetAnswer(Run(m, defaultTtl, calls), key, now) == GetAnswer(Run(n, defaultTtl, calls), key, now)
  {
    var k := RunsAreIncluded(n, m, defaultTtl, calls);
    SelectedPasses(Run(m, defaultTtl, calls), Among(k));
    GetKeepsIncluded(Run(n, defaultTtl, calls), Run(m, defaultTtl, calls), k, n, m, key, now);
  }
}
