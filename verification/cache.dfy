/** `ResponseCache` (app/swarm/coordinator.py:8-21): a dict bounded by `max_size` that, when full,
    forgets the entry inserted first before storing a new one. */
module Cache {
  import opened Wrappers
  import opened Dicts

  /** The cache's dict, in insertion order, and its bound. */
  datatype Cache<K, V> = Cache(entries: Dict<K, V>, maxSize: int)

  /** What `set` can raise: `next(iter({}))` on an empty dict when the bound is zero or negative. */
  datatype CacheError = StopIteration

  /** The shape every cache built from `ResponseCache()` by `set` keeps. */
  predicate Valid<K(==), V>(c: Cache<K, V>) {
    DistinctKeys(c.entries) && (c.maxSize >= 1 ==> |c.entries| <= c.maxSize)
  }

  /** `ResponseCache(max_size)`: a cache that holds nothing yet, with the given bound, and that
      already has the shape `set` keeps. */
  function Empty<K(==, !new), V>(maxSize: int): (c: Cache<K, V>)
    ensures Valid(c) && c.maxSize == maxSize
    ensures forall k :: Lookup(c, k).None?
  {
    Cache([], maxSize)
  }

  /** The bound `ResponseCache()` takes when none is given. */
  const DefaultMaxSize: int := 100

  /** `ResponseCache()`, as `SwarmCoordinator.__init__` builds it. */
  function Default<K(==, !new), V>(): Cache<K, V> {
    Empty(DefaultMaxSize)
  }

  /** With the default bound, `set` never raises, and the cache never holds more than a hundred
      entries, however many keys are stored. */
  lemma DefaultStore<K, V>(c: Cache<K, V>, k: K, v: V)
    requires Valid(c) && c.maxSize == DefaultMaxSize
    ensures Store(c, k, v).Success?
    ensures Valid(Store(c, k, v).value) && Store(c, k, v).value.maxSize == DefaultMaxSize
    ensures |Store(c, k, v).value.entries| <= 100
  {
    StoreFails(c, k, v);
    StoreValid(c, k, v);
  }

  /** `get`: the stored value, or `None`. It reads and changes nothing. */
  function Lookup<K(==), V>(c: Cache<K, V>, k: K): Option<V> {
    Get(c.entries, k)
  }

  /** `set`: when the dict holds `max_size` entries or more, the earliest-inserted one is deleted
      first; then `k` is stored. */
  function Store<K(==), V>(c: Cache<K, V>, k: K, v: V): Result<Cache<K, V>, CacheError> {
    if |c.entries| >= c.maxSize then
      if |c.entries| == 0 then Failure(StopIteration)
      else Success(c.(entries := Put(DropOldest(c.entries), k, v)))
    else Success(c.(entries := Put(c.entries, k, v)))
  }

  /** `set` fails exactly on an empty cache whose bound is not positive. */
  lemma StoreFails<K, V>(c: Cache<K, V>, k: K, v: V)
    ensures Store(c, k, v).Failure? <==> |c.entries| == 0 && c.maxSize <= 0
  {
  }

  /** After `set(k, v)`, `get(k)` is `v`. */
  lemma StoreThenLookup<K, V>(c: Cache<K, V>, k: K, v: V)
    requires Store(c, k, v).Success?
    ensures Lookup(Store(c, k, v).value, k) == Some(v)
  {
    var e := if |c.entries| >= c.maxSize then DropOldest(c.entries) else c.entries;
    PutGet(e, k, v);
  }

  /** `set` keeps the keys distinct and, for a bound of at least one, the size within it; the bound
      itself never changes. */
  lemma StoreValid<K, V>(c: Cache<K, V>, k: K, v: V)
    requires Valid(c) && Store(c, k, v).Success?
    ensures Valid(Store(c, k, v).value)
    ensures Store(c, k, v).value.maxSize == c.maxSize
  {
    var e := if |c.entries| >= c.maxSize then DropOldest(c.entries) else c.entries;
    assert DistinctKeys(e);
    PutDistinct(e, k, v);
  }

  /** Below the bound nothing is evicted: every other key keeps its value, an existing key keeps
      its position, and a new key goes last. */
  lemma StoreBelowBound<K, V>(c: Cache<K, V>, k: K, v: V, other: K)
    requires |c.entries| < c.maxSize && other != k
    ensures Store(c, k, v).Success?
    ensures Lookup(Store(c, k, v).value, other) == Lookup(c, other)
    ensures HasKey(c.entries, k) ==> Keys(Store(c, k, v).value.entries) == Keys(c.entries)
    ensures !HasKey(c.entries, k) ==> Keys(Store(c, k, v).value.entries) == Keys(c.entries) + [k]
  {
    PutOther(c.entries, k, v, other);
    PutKeys(c.entries, k, v);
  }

  /** At the bound, the earliest-inserted key goes first (first in, first out, whatever was read
      since) and no other key changes, except that `k` then holds `v`. */
  lemma StoreEvictsOldest<K, V>(c: Cache<K, V>, k: K, v: V, other: K)
    requires Valid(c) && |c.entries| >= c.maxSize && |c.entries| > 0 && other != k
    ensures Store(c, k, v).Success?
    ensures other == c.entries[0].0 ==> Lookup(Store(c, k, v).value, other).None?
    ensures other != c.entries[0].0 ==> Lookup(Store(c, k, v).value, other) == Lookup(c, other)
  {
    PutOther(DropOldest(c.entries), k, v, other);
    DropOldestGet(c.entries, other);
  }

  /** Setting a key that is already present in a full cache: the oldest key moves to the newest
      position, and any other key keeps its place while the oldest one goes, so the cache shrinks
      by one. */
  lemma StoreExistingWhenFull<K, V>(c: Cache<K, V>, k: K, v: V)
    requires Valid(c) && |c.entries| >= c.maxSize && HasKey(c.entries, k)
    ensures Store(c, k, v).Success?
    ensures k == c.entries[0].0 ==> Keys(Store(c, k, v).value.entries) == Keys(c.entries)[1..] + [k]
    ensures k != c.entries[0].0 ==> Keys(Store(c, k, v).value.entries) == Keys(c.entries)[1..]
    ensures k != c.entries[0].0 ==> |Store(c, k, v).value.entries| == |c.entries| - 1
  {
    var e := DropOldest(c.entries);
    DropOldestGet(c.entries, k);
    PutKeys(e, k, v);
    if k != c.entries[0].0 {
      assert HasKey(e, k);
    }
  }
}
