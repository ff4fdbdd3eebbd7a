/** The in-memory TTL cache of the client (`MemoryCache`), the manager that
    picks a default time-to-live, the read-through rule of `cached_method`
    and the `CacheStats` counters.

    Time is an integer clock passed to every operation that reads it
    (`time.time()` in the source). The cache dict is a sequence of entries
    with distinct keys, in insertion order; an entry's expiry is `None` or an
    absolute time, and, as in Python, an expiry of 0 is falsy and never
    expires. */
module Cache {
  import opened Wrappers
  import opened Data

  datatype Entry = Entry(key: string, value: Value, expiry: Option<int>)

  /** `MemoryCache`'s default `max_size`. */
  const DefaultMaxSize: int := 1000
  const DefaultTtl: int := 300

  // ---------------------------------------------------------------------
  // The cache dict as a sequence of entries
  // ---------------------------------------------------------------------

  function KeySet(s: seq<Entry>): set<string> {
    if s == [] then {} else {s[0].key} + KeySet(s[1..])
  }

  /** A dict never holds a key twice. */
  predicate UniqueKeys(s: seq<Entry>) {
    s == [] || (s[0].key !in KeySet(s[1..]) && UniqueKeys(s[1..]))
  }

  /** `key in cache` and `cache[key]`. */
  function Lookup(s: seq<Entry>, key: string): (r: Option<Entry>)
    ensures r.Some? <==> key in KeySet(s)
    ensures r.Some? ==> r.value in s && r.value.key == key
  {
    if s == [] then None
    else if s[0].key == key then Some(s[0])
    else Lookup(s[1..], key)
  }

  /** `cache[key] = (value, expiry)`: a present key is overwritten where it
      stands, a new key goes to the end. */
  function Store(s: seq<Entry>, key: string, value: Value, expiry: Option<int>): (r: seq<Entry>)
    ensures KeySet(r) == KeySet(s) + {key}
    ensures |r| == if key in KeySet(s) then |s| else |s| + 1
    ensures forall i :: 0 <= i < |s| ==> r[i].key == s[i].key
    ensures UniqueKeys(s) ==> UniqueKeys(r)
  {
    if s == [] then [Entry(key, value, expiry)]
    else if s[0].key == key then [Entry(key, value, expiry)] + s[1..]
    else [s[0]] + Store(s[1..], key, value, expiry)
  }

  /** `del cache[key]` (and `cache.pop(key, None)`): every other entry stays,
      in order. */
  function Remove(s: seq<Entry>, key: string): (r: seq<Entry>)
    ensures KeySet(r) == KeySet(s) - {key}
    ensures |r| <= |s|
    ensures UniqueKeys(s) ==> UniqueKeys(r)
  {
    if s == [] then []
    else if s[0].key == key then Remove(s[1..], key)
    else [s[0]] + Remove(s[1..], key)
  }

  /** Deleting the keys of `keys` one after the other. */
  function RemoveKeys(s: seq<Entry>, keys: seq<string>): (r: seq<Entry>)
    ensures UniqueKeys(s) ==> UniqueKeys(r)
    decreases |keys|
  {
    if keys == [] then s else RemoveKeys(Remove(s, keys[0]), keys[1..])
  }

  /** `list(cache.keys())`. */
  function KeyList(s: seq<Entry>): (ks: seq<string>)
    ensures |ks| == |s|
    ensures forall i :: 0 <= i < |s| ==> ks[i] == s[i].key
  {
    if s == [] then [] else [s[0].key] + KeyList(s[1..])
  }

  lemma {:induction false} RemoveAbsent(s: seq<Entry>, key: string)
    requires key !in KeySet(s)
    ensures Remove(s, key) == s
  {
    if s != [] {
      RemoveAbsent(s[1..], key);
    }
  }

  /** In a dict, deleting the first key drops exactly the first entry. */
  lemma RemoveHead(s: seq<Entry>)
    requires UniqueKeys(s) && s != []
    ensures Remove(s, s[0].key) == s[1..]
  {
    RemoveAbsent(s[1..], s[0].key);
  }

  /** Deleting other keys leaves the entry of `key` as it was. */
  lemma {:induction false} LookupRemove(s: seq<Entry>, key: string, other: string)
    requires other != key
    ensures Lookup(Remove(s, key), other) == Lookup(s, other)
  {
    if s != [] {
      LookupRemove(s[1..], key, other);
    }
  }

  /** After a store, the key reads as stored and every other key as before. */
  lemma {:induction false} LookupStore(s: seq<Entry>, key: string, value: Value, expiry: Option<int>, other: string)
    ensures Lookup(Store(s, key, value, expiry), key) == Some(Entry(key, value, expiry))
    ensures other != key ==> Lookup(Store(s, key, value, expiry), other) == Lookup(s, other)
  {
    if s != [] && s[0].key != key {
      LookupStore(s[1..], key, value, expiry, other);
    }
  }

  lemma {:induction false} KeySetIndex(s: seq<Entry>, i: nat)
    requires i < |s|
    ensures s[i].key in KeySet(s)
  {
    if i > 0 {
      KeySetIndex(s[1..], i - 1);
    }
  }

  lemma {:induction false} UniqueSuffix(s: seq<Entry>, i: nat)
    requires i <= |s|
    ensures UniqueKeys(s) ==> UniqueKeys(s[i..])
  {
    if i > 0 {
      assert s[1..][i - 1..] == s[i..];
      UniqueSuffix(s[1..], i - 1);
    }
  }

  // ---------------------------------------------------------------------
  // Expiry
  // ---------------------------------------------------------------------

  /** `expiry and expiry < now`: what `_cleanup_expired` removes. */
  predicate Expired(e: Entry, now: int) {
    e.expiry.Some? && e.expiry.value != 0 && e.expiry.value < now
  }

  /** `not expiry or expiry > now`: what `get` returns. */
  predicate Live(e: Entry, now: int) {
    e.expiry.None? || e.expiry.value == 0 || e.expiry.value > now
  }

  /** `time.time() + ttl if ttl else None`. */
  function ExpiryFor(ttl: Option<int>, now: int): (r: Option<int>)
    ensures r.None? <==> ttl.None? || ttl.value == 0
    ensures r.Some? ==> r.value - now == ttl.value
  {
    if ttl.Some? && ttl.value != 0 then Some(now + ttl.value) else None
  }

  /** The state after `_cleanup_expired`: the entries that have not expired,
      in order. */
  function Cleanup(s: seq<Entry>, now: int): (r: seq<Entry>)
    ensures |r| <= |s|
    ensures KeySet(r) <= KeySet(s)
    ensures forall e :: e in r ==> e in s && !Expired(e, now)
    ensures UniqueKeys(s) ==> UniqueKeys(r)
  {
    if s == [] then []
    else if Expired(s[0], now) then Cleanup(s[1..], now)
    else [s[0]] + Cleanup(s[1..], now)
  }

  /** Cleanup keeps every entry that has not expired. */
  lemma {:induction false} CleanupKeeps(s: seq<Entry>, now: int, e: Entry)
    requires e in s && !Expired(e, now)
    ensures e in Cleanup(s, now)
  {
    if s[0] != e {
      assert e in s[1..];
      CleanupKeeps(s[1..], now, e);
    }
  }

  /** Cleanup works entry by entry: the order of what it keeps is the order
      of the dict. */
  lemma {:induction false} CleanupAppend(a: seq<Entry>, b: seq<Entry>, now: int)
    ensures Cleanup(a + b, now) == Cleanup(a, now) + Cleanup(b, now)
  {
    if a == [] {
      assert a + b == b;
    } else {
      assert (a + b)[0] == a[0] && (a + b)[1..] == a[1..] + b;
      CleanupAppend(a[1..], b, now);
    }
  }

  /** The keys the comprehension of `_cleanup_expired` collects, in order. */
  function ExpiredKeys(s: seq<Entry>, now: int): (ks: seq<string>)
    ensures forall k :: k in ks ==> k in KeySet(s)
    ensures forall k :: k in ks <==> exists i :: 0 <= i < |s| && s[i].key == k && Expired(s[i], now)
  {
    if s == [] then []
    else if Expired(s[0], now) then [s[0].key] + ExpiredKeys(s[1..], now)
    else ExpiredKeys(s[1..], now)
  }

  lemma {:induction false} RemoveKeysCons(x: Entry, t: seq<Entry>, keys: seq<string>)
    requires x.key !in keys
    ensures RemoveKeys([x] + t, keys) == [x] + RemoveKeys(t, keys)
    decreases |keys|
  {
    if keys != [] {
      assert ([x] + t)[1..] == t;
      RemoveKeysCons(x, Remove(t, keys[0]), keys[1..]);
    }
  }

  /** Deleting the collected keys one by one leaves exactly the entries
      that have not expired. */
  lemma {:induction false} RemoveExpiredKeys(s: seq<Entry>, now: int)
    requires UniqueKeys(s)
    ensures RemoveKeys(s, ExpiredKeys(s, now)) == Cleanup(s, now)
  {
    if s != [] {
      var rest := ExpiredKeys(s[1..], now);
      RemoveExpiredKeys(s[1..], now);
      if Expired(s[0], now) {
        RemoveHead(s);
        var ks := [s[0].key] + rest;
        assert ExpiredKeys(s, now) == ks && ks[1..] == rest;
        assert RemoveKeys(s, ks) == RemoveKeys(s[1..], rest);
      } else {
        assert ExpiredKeys(s, now) == rest;
        assert s[0].key !in rest;
        assert s == [s[0]] + s[1..];
        RemoveKeysCons(s[0], s[1..], rest);
      }
    }
  }

  /** One deletion of a loop over `keys`, seen from the whole loop. */
  lemma RemoveKeysStep(s: seq<Entry>, keys: seq<string>, i: nat)
    requires i < |keys|
    ensures RemoveKeys(Remove(s, keys[i]), keys[i + 1..]) == RemoveKeys(s, keys[i..])
  {
    assert keys[i..][0] == keys[i] && keys[i..][1..] == keys[i + 1..];
  }

  /** Deleting the first `n` keys of a dict drops its first `n` entries. */
  lemma {:induction false} RemoveKeyPrefix(s: seq<Entry>, n: nat)
    requires UniqueKeys(s) && n <= |s|
    ensures RemoveKeys(s, KeyList(s)[..n]) == s[n..]
  {
    if n > 0 {
      var ks := KeyList(s)[..n];
      assert ks[0] == s[0].key;
      assert ks[1..] == KeyList(s[1..])[..n - 1];
      RemoveHead(s);
      RemoveKeyPrefix(s[1..], n - 1);
      assert s[1..][n - 1..] == s[n..];
    }
  }

  /** With unique keys, cleanup keeps an entry's lookup exactly when it has
      not expired. */
  lemma {:induction false} LookupCleanup(s: seq<Entry>, key: string, now: int)
    requires UniqueKeys(s)
    ensures Lookup(Cleanup(s, now), key) ==
      if Lookup(s, key).Some? && !Expired(Lookup(s, key).value, now) then Lookup(s, key) else None
  {
    if s != [] {
      LookupCleanup(s[1..], key, now);
      if s[0].key == key {
        assert Lookup(s[1..], key).None?;
      }
    }
  }

  // ---------------------------------------------------------------------
  // Eviction
  // ---------------------------------------------------------------------

  function Min(a: int, b: int): int {
    if a <= b then a else b
  }

  /** The state after `_evict_if_needed`: when the dict holds `max_size` or
      more entries, the oldest `len - max_size + 1` are dropped. */
  function Evicted(s: seq<Entry>, maxSize: int): (r: seq<Entry>)
    ensures |r| <= |s| && r == s[|s| - |r|..]
    ensures |s| < maxSize ==> r == s
    ensures |s| >= maxSize >= 1 ==> |r| == maxSize - 1
    ensures UniqueKeys(s) ==> UniqueKeys(r)
  {
    if |s| >= maxSize then
      var n := Min(|s| - maxSize + 1, |s|);
      UniqueSuffix(s, n);
      s[n..]
    else s
  }

  // ---------------------------------------------------------------------
  // Whole operations on the dict
  // ---------------------------------------------------------------------

  /** What `get(key)` returns: `None` is a miss. */
  function GetResult(s: seq<Entry>, key: string, now: int): Value {
    var c := Cleanup(s, now);
    var found := Lookup(c, key);
    if found.Some? && Live(found.value, now) then found.value.value else VNone
  }

  /** The dict after `get(key)`: cleaned up, and the entry of `key` deleted
      when it is present but no longer live. */
  function GetState(s: seq<Entry>, key: string, now: int): (r: seq<Entry>)
    ensures UniqueKeys(s) ==> UniqueKeys(r)
  {
    var c := Cleanup(s, now);
    var found := Lookup(c, key);
    if found.Some? && !Live(found.value, now) then Remove(c, key) else c
  }

  /** The dict after `set(key, value, ttl)`. */
  function SetState(s: seq<Entry>, maxSize: int, key: string, value: Value, ttl: Option<int>, now: int): (r: seq<Entry>)
    ensures UniqueKeys(s) ==> UniqueKeys(r)
    ensures key in KeySet(r)
  {
    Store(Evicted(Cleanup(s, now), maxSize), key, value, ExpiryFor(ttl, now))
  }

  /** `get` returns a value exactly when the key is present and its expiry
      is absent or strictly later than now. */
  lemma GetMeaning(s: seq<Entry>, key: string, now: int)
    requires UniqueKeys(s)
    ensures GetResult(s, key, now) ==
      if Lookup(s, key).Some? && Live(Lookup(s, key).value, now) then Lookup(s, key).value.value else VNone
  {
    LookupCleanup(s, key, now);
  }

  /** An entry whose expiry equals the current time survives cleanup but is
      deleted by the read. */
  lemma GetDropsEntryExpiringNow(s: seq<Entry>, key: string, now: int)
    requires UniqueKeys(s)
    requires Lookup(s, key).Some? && Lookup(s, key).value.expiry == Some(now) && now != 0
    ensures GetResult(s, key, now) == VNone
    ensures key !in KeySet(GetState(s, key, now))
    ensures key in KeySet(Cleanup(s, now))
  {
    LookupCleanup(s, key, now);
  }

  /** After any `set`, the dict holds at most `max_size` entries. */
  lemma SetSizeBound(s: seq<Entry>, maxSize: int, key: string, value: Value, ttl: Option<int>, now: int)
    requires maxSize >= 1
    ensures |SetState(s, maxSize, key, value, ttl, now)| <= maxSize
  {
  }

  /** A stored value is read back until its time-to-live runs out: forever
      for a `None` or 0 ttl, up to (not including) `now + ttl` otherwise. */
  lemma SetThenGet(s: seq<Entry>, maxSize: int, key: string, value: Value, ttl: Option<int>, now: nat, later: int)
    requires UniqueKeys(s)
    requires ttl.None? || ttl.value >= 0
    ensures GetResult(SetState(s, maxSize, key, value, ttl, now), key, later) ==
      if ttl.None? || ttl.value == 0 || later < now + ttl.value then value else VNone
  {
    var c := Evicted(Cleanup(s, now), maxSize);
    var e := Entry(key, value, ExpiryFor(ttl, now));
    var r := SetState(s, maxSize, key, value, ttl, now);
    assert Lookup(r, key) == Some(e) by {
      LookupStore(c, key, value, ExpiryFor(ttl, now), key);
    }
    GetMeaning(r, key, later);
    assert Live(e, later) <==> ttl.None? || ttl.value == 0 || later < now + ttl.value;
  }

  /** A `get` at the instant of the `set` sees the value (eviction runs
      before the insertion). */
  lemma SetThenGetNow(s: seq<Entry>, maxSize: int, key: string, value: Value, ttl: Option<int>, now: nat)
    requires UniqueKeys(s)
    requires ttl.None? || ttl.value >= 0
    ensures GetResult(SetState(s, maxSize, key, value, ttl, now), key, now) == value
  {
    SetThenGet(s, maxSize, key, value, ttl, now, now);
  }

  /** `set` leaves every other key's entry alone unless cleanup or eviction
      removed it. */
  lemma SetKeepsOthers(s: seq<Entry>, maxSize: int, key: string, value: Value, ttl: Option<int>, now: int, other: string)
    requires other != key
    ensures Lookup(SetState(s, maxSize, key, value, ttl, now), other) == Lookup(Evicted(Cleanup(s, now), maxSize), other)
  {
    LookupStore(Evicted(Cleanup(s, now), maxSize), key, value, ExpiryFor(ttl, now), other);
  }

  /** Re-setting a key that survived cleanup and eviction keeps its place:
      the order is insertion order, not recency of use. */
  lemma SetKeepsPlace(s: seq<Entry>, maxSize: int, key: string, value: Value, ttl: Option<int>, now: int, i: nat)
    requires var c := Evicted(Cleanup(s, now), maxSize); i < |c| && c[i].key == key
    ensures SetState(s, maxSize, key, value, ttl, now)[i].key == key
    ensures |SetState(s, maxSize, key, value, ttl, now)| == |Evicted(Cleanup(s, now), maxSize)|
  {
    var c := Evicted(Cleanup(s, now), maxSize);
    KeySetIndex(c, i);
  }

  // ---------------------------------------------------------------------
  // MemoryCache
  // ---------------------------------------------------------------------

  class MemoryCache {
    var entries: seq<Entry>
    var maxSize: int

    predicate Valid()
      reads this
    {
      UniqueKeys(entries)
    }

    constructor (maxSize: int := DefaultMaxSize)
      ensures Valid() && entries == [] && this.maxSize == maxSize
    {
      entries := [];
      this.maxSize := maxSize;
    }

    /** `_cleanup_expired`: collect the expired keys, then delete them. */
    method CleanupExpired(now: int)
      requires Valid()
      modifies this
      ensures Valid() && maxSize == old(maxSize)
      ensures entries == Cleanup(old(entries), now)
    {
      var expired := ExpiredKeys(entries, now);
      RemoveExpiredKeys(entries, now);
      var i := 0;
      while i < |expired|
        invariant 0 <= i <= |expired|
        invariant UniqueKeys(entries) && maxSize == old(maxSize)
        invariant RemoveKeys(entries, expired[i..]) == Cleanup(old(entries), now)
      {
        RemoveKeysStep(entries, expired, i);
        entries := Remove(entries, expired[i]);
        i := i + 1;
      }
    }

    /** `_evict_if_needed`: when full, delete the oldest keys. */
    method EvictIfNeeded()
      requires Valid()
      modifies this
      ensures Valid() && maxSize == old(maxSize)
      ensures entries == Evicted(old(entries), maxSize)
    {
      if |entries| >= maxSize {
        var n := Min(|entries| - maxSize + 1, |entries|);
        var keys := KeyList(entries)[..n];
        RemoveKeyPrefix(entries, n);
        var i := 0;
        while i < |keys|
          invariant 0 <= i <= |keys|
          invariant UniqueKeys(entries) && maxSize == old(maxSize)
          invariant RemoveKeys(entries, keys[i..]) == old(entries)[n..]
        {
          RemoveKeysStep(entries, keys, i);
          entries := Remove(entries, keys[i]);
          i := i + 1;
        }
      }
    }

    /** `get(key)`: `VNone` on a miss, so a stored `None` reads as a miss. */
    method Get(key: string, now: int) returns (r: Value)
      requires Valid()
      modifies this
      ensures Valid() && maxSize == old(maxSize)
      ensures r == GetResult(old(entries), key, now)
      ensures entries == GetState(old(entries), key, now)
    {
      CleanupExpired(now);
      var found := Lookup(entries, key);
      if found.Some? {
        if Live(found.value, now) {
          return found.value.value;
        }
        entries := Remove(entries, key);
      }
      return VNone;
    }

    /** `set(key, value, ttl)`. */
    method Set(key: string, value: Value, ttl: Option<int>, now: int)
      requires Valid()
      modifies this
      ensures Valid() && maxSize == old(maxSize)
      ensures entries == SetState(old(entries), maxSize, key, value, ttl, now)
    {
      CleanupExpired(now);
      EvictIfNeeded();
      var expiry := ExpiryFor(ttl, now);
      entries := Store(entries, key, value, expiry);
    }

    /** `delete(key)`: a no-op when the key is absent. */
    method Delete(key: string)
      requires Valid()
      modifies this
      ensures Valid() && maxSize == old(maxSize)
      ensures entries == Remove(old(entries), key)
    {
      entries := Remove(entries, key);
    }

    method Clear()
      modifies this
      ensures Valid() && maxSize == old(maxSize) && entries == []
    {
      entries := [];
    }

    /** `exists(key)` is `get(key) is not None`, with the same effect on the
        dict. */
    method Exists(key: string, now: int) returns (b: bool)
      requires Valid()
      modifies this
      ensures Valid() && maxSize == old(maxSize)
      ensures b <==> GetResult(old(entries), key, now) != VNone
      ensures entries == GetState(old(entries), key, now)
    {
      var r := Get(key, now);
      b := r != VNone;
    }
  }

  // ---------------------------------------------------------------------
  // CacheManager and cached_method
  // ---------------------------------------------------------------------

  /** `ttl if ttl is not None else self.default_ttl`. */
  function EffectiveTtl(ttl: Option<int>, defaultTtl: Option<int>): Option<int> {
    if ttl.Some? then ttl else defaultTtl
  }

  /** Through the manager, an explicit ttl of 0 means "never expires" even
      though a default exists, while an omitted ttl takes the default. */
  lemma ManagerTtl(s: seq<Entry>, maxSize: int, key: string, value: Value, ttl: Option<int>,
                   defaultTtl: Option<int>, now: nat, later: int)
    requires UniqueKeys(s)
    requires ttl.None? || ttl.value >= 0
    requires defaultTtl.None? || defaultTtl.value >= 0
    ensures ttl == Some(0) ==>
      GetResult(SetState(s, maxSize, key, value, EffectiveTtl(ttl, defaultTtl), now), key, later) == value
    ensures ttl.None? && defaultTtl == Some(DefaultTtl) ==>
      GetResult(SetState(s, maxSize, key, value, EffectiveTtl(ttl, defaultTtl), now), key, later) ==
      if later < now + DefaultTtl then value else VNone
  {
    SetThenGet(s, maxSize, key, value, EffectiveTtl(ttl, defaultTtl), now, later);
  }

  class CacheManager {
    const backend: MemoryCache
    var defaultTtl: Option<int>

    predicate Valid()
      reads this, backend
    {
      backend.Valid()
    }

    /** `CacheManager(backend)`, with `default_ttl` 300 unless given. */
    constructor (backend: MemoryCache, defaultTtl: Option<int>)
      requires backend.Valid()
      ensures this.backend == backend && this.defaultTtl == defaultTtl && Valid()
    {
      this.backend := backend;
      this.defaultTtl := defaultTtl;
    }

    method Get(key: string, now: int) returns (r: Value)
      requires Valid()
      modifies backend
      ensures Valid() && backend.maxSize == old(backend.maxSize)
      ensures r == GetResult(old(backend.entries), key, now)
      ensures backend.entries == GetState(old(backend.entries), key, now)
    {
      r := backend.Get(key, now);
    }

    /** `set`: the default ttl applies only when no ttl is given. */
    method Set(key: string, value: Value, ttl: Option<int>, now: int)
      requires Valid()
      modifies backend
      ensures Valid() && backend.maxSize == old(backend.maxSize)
      ensures backend.entries ==
        SetState(old(backend.entries), backend.maxSize, key, value, EffectiveTtl(ttl, defaultTtl), now)
    {
      var cacheTtl := if ttl.Some? then ttl else defaultTtl;
      backend.Set(key, value, cacheTtl, now);
    }

    method Delete(key: string)
      requires Valid()
      modifies backend
      ensures Valid() && backend.maxSize == old(backend.maxSize)
      ensures backend.entries == Remove(old(backend.entries), key)
    {
      backend.Delete(key);
    }

    /** `clear`, and `invalidate_table_cache`, which clears everything. */
    method Clear()
      requires Valid()
      modifies backend
      ensures Valid() && backend.maxSize == old(backend.maxSize) && backend.entries == []
    {
      backend.Clear();
    }
  }

  /** The wrapper `cached_method` puts around a method, for one call: a
      cached result other than `None` is served; otherwise the method runs
      (its result is `computed`) and the result is stored. `called` tells
      whether the method ran. */
  method CachedCall(m: CacheManager, key: string, ttl: Option<int>, computed: Value, now: int)
    returns (r: Value, called: bool)
    requires m.Valid()
    modifies m.backend
    ensures m.Valid()
    ensures var hit := GetResult(old(m.backend.entries), key, now);
      && (called <==> hit == VNone)
      && r == (if called then computed else hit)
      && m.backend.entries == (if called
        then SetState(GetState(old(m.backend.entries), key, now), m.backend.maxSize, key, computed,
                      EffectiveTtl(ttl, m.defaultTtl), now)
        else GetState(old(m.backend.entries), key, now))
  {
    var cached := m.Get(key, now);
    if cached != VNone {
      return cached, false;
    }
    m.Set(key, computed, ttl, now);
    return computed, true;
  }

  /** Once a call has computed and stored a non-`None` result, a second call
      with the same key at the same instant is served from the cache. */
  lemma CachedCallThenHit(s: seq<Entry>, maxSize: int, key: string, computed: Value, ttl: Option<int>, now: nat)
    requires UniqueKeys(s)
    requires ttl.None? || ttl.value >= 0
    requires computed != VNone
    ensures GetResult(SetState(GetState(s, key, now), maxSize, key, computed, ttl, now), key, now) == computed
  {
    SetThenGetNow(GetState(s, key, now), maxSize, key, computed, ttl, now);
  }

  // ---------------------------------------------------------------------
  // create_cache_manager
  // ---------------------------------------------------------------------

  datatype BackendKind = MemoryBackend | DiskBackend | RedisBackend

  function BackendTypeName(k: BackendKind): string {
    match k
    case MemoryBackend => "memory"
    case DiskBackend => "disk"
    case RedisBackend => "redis"
  }

  /** The backend choice of `create_cache_manager`. */
  function ParseBackendType(name: string): (r: Result<BackendKind, string>)
    ensures r.Ok? ==> BackendTypeName(r.value) == name
    ensures r.Err? ==> r.error == "Unknown backend type: " + name && forall k :: BackendTypeName(k) != name
  {
    if name == "memory" then Ok(MemoryBackend)
    else if name == "disk" then Ok(DiskBackend)
    else if name == "redis" then Ok(RedisBackend)
    else Err("Unknown backend type: " + name)
  }

  lemma ParseBackendTypeName(k: BackendKind)
    ensures ParseBackendType(BackendTypeName(k)) == Ok(k)
  {
  }

  /** `create_cache_manager('memory', max_size=...)`: an empty memory cache
      behind a manager with the default ttl of 300. */
  method CreateMemoryCacheManager(maxSize: int) returns (m: CacheManager)
    ensures fresh(m) && fresh(m.backend) && m.Valid()
    ensures m.backend.entries == [] && m.backend.maxSize == maxSize && m.defaultTtl == Some(DefaultTtl)
  {
    var backend := new MemoryCache(maxSize);
    m := new CacheManager(backend, Some(DefaultTtl));
  }

  // ---------------------------------------------------------------------
  // CacheStats
  // ---------------------------------------------------------------------

  datatype StatsSnapshot = StatsSnapshot(
    hits: nat, misses: nat, sets: nat, deletes: nat, hitRate: real, totalRequests: nat)

  class CacheStats {
    var hits: nat
    var misses: nat
    var sets: nat
    var deletes: nat

    constructor ()
      ensures hits == 0 && misses == 0 && sets == 0 && deletes == 0
    {
      hits, misses, sets, deletes := 0, 0, 0, 0;
    }

    /** `hit_rate`: the share of requests that hit, 0 with no requests. */
    function HitRate(): (r: real)
      reads this
      ensures hits + misses == 0 ==> r == 0.0
      ensures hits + misses > 0 ==> r * (hits + misses) as real == hits as real
      ensures 0.0 <= r <= 1.0
    {
      var total := hits + misses;
      if total > 0 then hits as real / total as real else 0.0
    }

    method RecordHit()
      modifies this
      ensures hits == old(hits) + 1 && misses == old(misses) && sets == old(sets) && deletes == old(deletes)
    {
      hits := hits + 1;
    }

    method RecordMiss()
      modifies this
      ensures misses == old(misses) + 1 && hits == old(hits) && sets == old(sets) && deletes == old(deletes)
    {
      misses := misses + 1;
    }

    method RecordSet()
      modifies this
      ensures sets == old(sets) + 1 && hits == old(hits) && misses == old(misses) && deletes == old(deletes)
    {
      sets := sets + 1;
    }

    method RecordDelete()
      modifies this
      ensures deletes == old(deletes) + 1 && hits == old(hits) && misses == old(misses) && sets == old(sets)
    {
      deletes := deletes + 1;
    }

    method Reset()
      modifies this
      ensures hits == 0 && misses == 0 && sets == 0 && deletes == 0
    {
      hits, misses, sets, deletes := 0, 0, 0, 0;
    }

    /** `to_dict`: the four counters, the hit rate and `hits + misses`. */
    function ToDict(): (d: StatsSnapshot)
      reads this
      ensures d.totalRequests == d.hits + d.misses
      ensures d.hits == hits && d.misses == misses && d.sets == sets && d.deletes == deletes
      ensures d.totalRequests == 0 ==> d.hitRate == 0.0
    {
      StatsSnapshot(hits, misses, sets, deletes, HitRate(), hits + misses)
    }
  }
}
