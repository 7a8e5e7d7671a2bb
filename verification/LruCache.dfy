/**
 `LRUCache`: a bounded cache with a time to live per entry. The ordered dictionary is the
 sequence of its entries, least recently used first; each call takes its clock reading.
 */
module LruCache {
  import opened Wrappers

  datatype Entry<T> = Entry(key: string, value: T, createdAt: real, ttlSeconds: real, hitCount: nat)

  datatype CacheStatus = HIT | MISS | EXPIRED

  datatype CacheStats = CacheStats(totalRequests: nat, hits: nat, misses: nat, expirations: nat, evictions: nat)

  predicate IsExpired<T>(e: Entry<T>, now: real) {
    now - e.createdAt > e.ttlSeconds
  }

  predicate StartsWith(s: string, prefix: string) {
    |prefix| <= |s| && s[..|prefix|] == prefix
  }

  /** The ways in which the cache picks the entries that stay. */
  datatype Test = Other(key: string) | Among(keys: set<string>) | NotPrefixed(prefix: string)

  predicate Passes(test: Test, key: string) {
    match test
    case Other(k) => key != k
    case Among(keys) => key in keys
    case NotPrefixed(prefix) => !StartsWith(key, prefix)
  }

  /** The entries whose keys pass, in their order. */
  function Select<T>(s: seq<Entry<T>>, test: Test): seq<Entry<T>> {
    if s == [] then []
    else
      var n := |s| - 1;
      if Passes(test, s[n].key) then Select(s[..n], test) + [s[n]] else Select(s[..n], test)
  }

  function Lookup<T>(s: seq<Entry<T>>, key: string): Option<Entry<T>> {
    if s == [] then None
    else if s[|s| - 1].key == key then Some(s[|s| - 1])
    else Lookup(s[..|s| - 1], key)
  }

  ghost predicate UniqueKeys<T>(s: seq<Entry<T>>) {
    forall i, j :: 0 <= i < j < |s| ==> s[i].key != s[j].key
  }

  /** `get`: the store it leaves and what it answers. */
  function AfterGet<T>(s: seq<Entry<T>>, key: string, now: real): seq<Entry<T>> {
    match Lookup(s, key)
    case None => s
    case Some(e) =>
      var rest := Select(s, Other(key));
      if IsExpired(e, now) then rest else rest + [e.(hitCount := e.hitCount + 1)]
  }

  function GetAnswer<T>(s: seq<Entry<T>>, key: string, now: real): (Option<T>, CacheStatus) {
    match Lookup(s, key)
    case None => (None, MISS)
    case Some(e) => if IsExpired(e, now) then (None, EXPIRED) else (Some(e.value), HIT)
  }

  /** The newest entries, fewer than `maxSize` of them. */
  function Evicted<T>(s: seq<Entry<T>>, maxSize: int): seq<Entry<T>> {
    if maxSize < 1 then [] else if |s| < maxSize then s else s[|s| - (maxSize - 1)..]
  }

  /** `ttl or self.default_ttl`: zero counts as absent. */
  function TtlOr(ttl: Option<real>, default: real): real {
    if ttl.None? || ttl.value == 0.0 then default else ttl.value
  }

  function AfterPut<T>(s: seq<Entry<T>>, maxSize: int, e: Entry<T>): seq<Entry<T>> {
    Evicted(Select(s, Other(e.key)), maxSize) + [e]
  }

  lemma {:induction false} SelectAppend<T>(s: seq<Entry<T>>, e: Entry<T>, test: Test)
    ensures Select(s + [e], test) == if Passes(test, e.key) then Select(s, test) + [e] else Select(s, test)
  {
    assert (s + [e])[..|s|] == s;
  }

  lemma {:induction false} SelectedPasses<T>(s: seq<Entry<T>>, test: Test)
    ensures forall i :: 0 <= i < |Select(s, test)| ==> Passes(test, Select(s, test)[i].key) && Select(s, test)[i] in s
    ensures forall i :: 0 <= i < |s| && Passes(test, s[i].key) ==> s[i] in Select(s, test)
    ensures |Select(s, test)| <= |s|
  {
    if s != [] {
      SelectedPasses(s[..|s| - 1], test);
    }
  }

  lemma {:induction false} SelectUnique<T>(s: seq<Entry<T>>, test: Test)
    requires UniqueKeys(s)
    ensures UniqueKeys(Select(s, test))
  {
    if s != [] {
      var n := |s| - 1;
      SelectUnique(s[..n], test);
      SelectedPasses(s[..n], test);
      var head := Select(s[..n], test);
      forall i | 0 <= i < |head| ensures head[i].key != s[n].key {
        assert head[i] in s[..n];
      }
    }
  }

  lemma {:induction false} SelectAll<T>(s: seq<Entry<T>>, test: Test)
    requires forall i :: 0 <= i < |s| ==> Passes(test, s[i].key)
    ensures Select(s, test) == s
  {
    if s != [] {
      SelectAll(s[..|s| - 1], test);
    }
  }

  /** Two selections can be made in either order. */
  lemma {:induction false} SelectCommutes<T>(s: seq<Entry<T>>, a: Test, b: Test)
    ensures Select(Select(s, a), b) == Select(Select(s, b), a)
  {
    if s != [] {
      var n := |s| - 1;
      SelectCommutes(s[..n], a, b);
      SelectAppend(Select(s[..n], a), s[n], b);
      SelectAppend(Select(s[..n], b), s[n], a);
    }
  }

  /** A selection drops no more from part of a store than from the whole. */
  lemma {:induction false} SelectDropsLess<T>(s: seq<Entry<T>>, part: Test, test: Test)
    ensures |Select(s, part)| - |Select(Select(s, part), test)| <= |s| - |Select(s, test)|
  {
    if s != [] {
      var n := |s| - 1;
      SelectDropsLess(s[..n], part, test);
      SelectAppend(Select(s[..n], part), s[n], test);
      SelectedPasses(s[..n], test);
      SelectedPasses(Select(s[..n], part), test);
    }
  }

  lemma {:induction false} LookupFinds<T>(s: seq<Entry<T>>, key: string)
    ensures Lookup(s, key).None? <==> forall i :: 0 <= i < |s| ==> s[i].key != key
    ensures Lookup(s, key).Some? ==> Lookup(s, key).value in s && Lookup(s, key).value.key == key
  {
    if s != [] {
      LookupFinds(s[..|s| - 1], key);
    }
  }

  lemma {:induction false} LookupSelected<T>(s: seq<Entry<T>>, test: Test, key: string)
    ensures Lookup(Select(s, test), key) == if Passes(test, key) then Lookup(s, key) else None
  {
    if s != [] {
      var n := |s| - 1;
      LookupSelected(s[..n], test, key);
      var head := Select(s[..n], test);
      assert (head + [s[n]])[..|head|] == head;
    }
  }

  class LRUCache<T> {
    const maxSize: int
    const defaultTtl: real
    var store: seq<Entry<T>>
    var stats: CacheStats

    ghost predicate Valid()
      reads this
    {
      && UniqueKeys(store)
      && (maxSize >= 1 ==> |store| <= maxSize)
      && stats.totalRequests == stats.hits + stats.misses + stats.expirations
    }

    constructor (maxSize: int, defaultTtl: real)
      ensures Valid() && store == [] && stats == CacheStats(0, 0, 0, 0, 0)
      ensures this.maxSize == maxSize && this.defaultTtl == defaultTtl
    {
      this.maxSize, this.defaultTtl := maxSize, defaultTtl;
      store, stats := [], CacheStats(0, 0, 0, 0, 0);
    }

    method Get(key: string, now: real) returns (value: Option<T>, status: CacheStatus)
      requires Valid()
      modifies this
      ensures Valid()
      ensures store == AfterGet(old(store), key, now) && (value, status) == GetAnswer(old(store), key, now)
      ensures stats == old(stats).(
        totalRequests := old(stats).totalRequests + 1,
        hits := old(stats).hits + if status == HIT then 1 else 0,
        misses := old(stats).misses + if status == MISS then 1 else 0,
        expirations := old(stats).expirations + if status == EXPIRED then 1 else 0)
    {
      GetKeepsShape(store, key, now);
      stats := stats.(totalRequests := stats.totalRequests + 1);
      var found := Lookup(store, key);
      if found.None? {
        stats := stats.(misses := stats.misses + 1);
        return None, MISS;
      }
      var entry := found.value;
      if IsExpired(entry, now) {
        store := Select(store, Other(key));
        stats := stats.(expirations := stats.expirations + 1);
        return None, EXPIRED;
      }
      store := Select(store, Other(key)) + [entry.(hitCount := entry.hitCount + 1)];
      stats := stats.(hits := stats.hits + 1);
      return Some(entry.value), HIT;
    }

    /** `put`; false is the `KeyError` that a capacity below one raises once the store is empty. */
    method Put(key: string, value: T, ttl: Option<real>, now: real) returns (ok: bool)
      requires Valid()
      modifies this
      ensures Valid() && (ok <==> maxSize >= 1)
      ensures ok ==> store == AfterPut(old(store), maxSize, Entry(key, value, now, TtlOr(ttl, defaultTtl), 0))
      ensures !ok ==> store == []
      ensures
        var kept := Select(old(store), Other(key));
        stats == old(stats).(evictions := old(stats).evictions + |kept| - |Evicted(kept, maxSize)|)
    {
      SelectedPasses(store, Other(key));
      SelectUnique(store, Other(key));
      ghost var kept := Select(store, Other(key));
      store := Select(store, Other(key));
      ok := Evict();
      EvictedShape(kept, maxSize);
      if ok {
        assert forall e :: e in store ==> e.key != key;
        store := store + [Entry(key, value, now, TtlOr(ttl, defaultTtl), 0)];
      }
    }

    /** The eviction loop of `put`; false when it empties the store and pops once more. */
    method Evict() returns (ok: bool)
      modifies this
      ensures ok <==> maxSize >= 1
      ensures store == Evicted(old(store), maxSize)
      ensures stats == old(stats).(evictions := old(stats).evictions + |old(store)| - |store|)
    {
      ghost var dropped := 0;
      while |store| >= maxSize
        invariant 0 <= dropped <= |old(store)| && store == old(store)[dropped..]
        invariant dropped > 0 ==> |store| + 1 >= maxSize
        invariant stats == old(stats).(evictions := old(stats).evictions + dropped)
        decreases |store|
      {
        if store == [] {
          return false;
        }
        store := store[1..];
        dropped := dropped + 1;
        stats := stats.(evictions := stats.evictions + 1);
      }
      return true;
    }

    method Invalidate(key: string) returns (removed: bool)
      requires Valid()
      modifies this`store
      ensures Valid() && store == Select(old(store), Other(key)) && (removed <==> Lookup(old(store), key).Some?)
    {
      SelectUnique(store, Other(key));
      SelectedPasses(store, Other(key));
      LookupFinds(store, key);
      removed := Lookup(store, key).Some?;
      if removed {
        store := Select(store, Other(key));
      } else {
        SelectAll(store, Other(key));
      }
    }

    method InvalidateByPrefix(prefix: string) returns (count: nat)
      requires Valid()
      modifies this`store
      ensures Valid() && store == Select(old(store), NotPrefixed(prefix)) && count == |old(store)| - |store|
    {
      var keysToRemove: seq<string> := [];
      ghost var all := store;
      for i := 0 to |store|
        invariant keysToRemove == KeysWith(store[..i], prefix)
      {
        assert store[..i + 1][..i] == store[..i];
        if StartsWith(store[i].key, prefix) {
          keysToRemove := keysToRemove + [store[i].key];
        }
      }
      assert store[..|store|] == store;
      for i := 0 to |keysToRemove|
        invariant store == RemoveAll(all, keysToRemove[..i])
      {
        assert keysToRemove[..i + 1][..i] == keysToRemove[..i];
        store := Select(store, Other(keysToRemove[i]));
      }
      assert keysToRemove[..|keysToRemove|] == keysToRemove;
      RemoveAllIsSelect(all, prefix);
      SelectUnique(all, NotPrefixed(prefix));
      SelectedPasses(all, NotPrefixed(prefix));
      return |keysToRemove|;
    }

    method Clear()
      requires Valid()
      modifies this`store
      ensures Valid() && store == []
    {
      store := [];
    }
  }

  function KeysWith<T>(s: seq<Entry<T>>, prefix: string): seq<string> {
    if s == [] then []
    else
      var n := |s| - 1;
      if StartsWith(s[n].key, prefix) then KeysWith(s[..n], prefix) + [s[n].key] else KeysWith(s[..n], prefix)
  }

  function RemoveAll<T>(s: seq<Entry<T>>, keys: seq<string>): seq<Entry<T>> {
    if keys == [] then s else Select(RemoveAll(s, keys[..|keys| - 1]), Other(keys[|keys| - 1]))
  }

  lemma {:induction false} RemoveAllAppend<T>(s: seq<Entry<T>>, e: Entry<T>, keys: seq<string>)
    requires e.key !in keys
    ensures RemoveAll(s + [e], keys) == RemoveAll(s, keys) + [e]
  {
    if keys != [] {
      var n := |keys| - 1;
      RemoveAllAppend(s, e, keys[..n]);
      SelectAppend(RemoveAll(s, keys[..n]), e, Other(keys[n]));
    }
  }

  lemma {:induction false} KeysWithAreKeys<T>(s: seq<Entry<T>>, prefix: string)
    ensures forall k :: k in KeysWith(s, prefix) ==> StartsWith(k, prefix) && exists i :: 0 <= i < |s| && s[i].key == k
  {
    if s != [] {
      var n := |s| - 1;
      KeysWithAreKeys(s[..n], prefix);
      forall k | k in KeysWith(s, prefix) ensures StartsWith(k, prefix) && exists i :: 0 <= i < |s| && s[i].key == k {
        if k in KeysWith(s[..n], prefix) {
          var i :| 0 <= i < n && s[..n][i].key == k;
          assert s[i].key == k;
        } else {
          assert s[n].key == k;
        }
      }
    }
  }

  /** Deleting the matching keys one by one is one selection. */
  lemma {:induction false} RemoveAllIsSelect<T>(s: seq<Entry<T>>, prefix: string)
    requires UniqueKeys(s)
    ensures RemoveAll(s, KeysWith(s, prefix)) == Select(s, NotPrefixed(prefix))
    ensures |KeysWith(s, prefix)| == |s| - |Select(s, NotPrefixed(prefix))|
  {
    if s != [] {
      var n := |s| - 1;
      var head, keys := s[..n], KeysWith(s[..n], prefix);
      RemoveAllIsSelect(head, prefix);
      KeysWithAreKeys(head, prefix);
      assert s == head + [s[n]];
      assert s[n].key !in keys;
      RemoveAllAppend(head, s[n], keys);
      var rest := RemoveAll(head, keys);
      if StartsWith(s[n].key, prefix) {
        assert (keys + [s[n].key])[..|keys|] == keys;
        SelectAppend(rest, s[n], Other(s[n].key));
        SelectedPasses(head, NotPrefixed(prefix));
        forall i | 0 <= i < |rest| ensures rest[i].key != s[n].key {
          assert rest[i] in head;
        }
        SelectAll(rest, Other(s[n].key));
      }
    }
  }

  lemma GetKeepsShape<T>(s: seq<Entry<T>>, key: string, now: real)
    requires UniqueKeys(s)
    ensures UniqueKeys(Select(s, Other(key)))
    ensures UniqueKeys(AfterGet(s, key, now)) && |AfterGet(s, key, now)| <= |s|
  {
    var rest := Select(s, Other(key));
    SelectUnique(s, Other(key));
    SelectedPasses(s, Other(key));
    LookupFinds(s, key);
    if Lookup(s, key).Some? && |rest| == |s| {
      FullSelect(s, Other(key));
    }
  }

  lemma {:induction false} FullSelect<T>(s: seq<Entry<T>>, test: Test)
    requires |Select(s, test)| == |s|
    ensures forall i :: 0 <= i < |s| ==> Passes(test, s[i].key)
  {
    if s != [] {
      SelectedPasses(s[..|s| - 1], test);
      FullSelect(s[..|s| - 1], test);
    }
  }

  lemma EvictedShape<T>(s: seq<Entry<T>>, maxSize: int)
    requires UniqueKeys(s)
    ensures UniqueKeys(Evicted(s, maxSize)) && (maxSize >= 1 ==> |Evicted(s, maxSize)| < maxSize)
    ensures forall e :: e in Evicted(s, maxSize) ==> e in s
  {
  }
}
