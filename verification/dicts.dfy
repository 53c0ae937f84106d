/** Python's `dict` as the model needs it: a sequence of entries in insertion order.
    Lookups find the first entry with a key; `Put` keeps keys distinct. */
module Dicts {
  import opened Wrappers

  type Dict<K, V> = seq<(K, V)>

  /** The keys of `d`, in insertion order (what `iter(d)` yields). */
  function Keys<K, V>(d: Dict<K, V>): (ks: seq<K>)
    ensures |ks| == |d|
    ensures forall i :: 0 <= i < |d| ==> ks[i] == d[i].0
  {
    seq(|d|, i requires 0 <= i < |d| => d[i].0)
  }

  /** No key occurs twice; every `Dict` built by `Put` from the empty one has this shape. */
  predicate DistinctKeys<K(==), V>(d: Dict<K, V>) {
    forall i, j :: 0 <= i < j < |d| ==> d[i].0 != d[j].0
  }

  /** The position of the first entry whose key is `k`. */
  function IndexOf<K(==), V>(d: Dict<K, V>, k: K): (r: Option<nat>)
    ensures r.Some? ==> r.value < |d| && d[r.value].0 == k
    ensures r.Some? ==> forall i :: 0 <= i < r.value ==> d[i].0 != k
    ensures r.None? ==> forall i :: 0 <= i < |d| ==> d[i].0 != k
    decreases |d|
  {
    if |d| == 0 then None
    else if d[0].0 == k then Some(0)
    else match IndexOf(d[1..], k)
      case None => None
      case Some(i) => Some(i + 1)
  }

  /** Python's `k in d`. */
  predicate HasKey<K(==), V>(d: Dict<K, V>, k: K) {
    IndexOf(d, k).Some?
  }

  /** Python's `d.get(k)`: the value stored under `k`, or `None`. */
  function Get<K(==), V>(d: Dict<K, V>, k: K): Option<V> {
    match IndexOf(d, k)
    case None => None
    case Some(i) => Some(d[i].1)
  }

  /** The entry at `i` answers a lookup of its key when no earlier entry has that key. */
  lemma GetAt<K, V>(d: Dict<K, V>, k: K, i: nat)
    requires i < |d| && d[i].0 == k
    requires forall j :: 0 <= j < i ==> d[j].0 != k
    ensures Get(d, k) == Some(d[i].1)
  {
  }

  /** `k in d` holds exactly when `k` is one of the keys. */
  lemma HasKeyIffKey<K, V>(d: Dict<K, V>, k: K)
    ensures HasKey(d, k) <==> k in Keys(d)
  {
    if k in Keys(d) {
      var i :| 0 <= i < |Keys(d)| && Keys(d)[i] == k;
      assert d[i].0 == k;
    }
  }

  /** A key is in a concatenation exactly when it is in one of the parts. */
  lemma HasKeyConcat<K, V>(a: Dict<K, V>, b: Dict<K, V>, k: K)
    ensures HasKey(a + b, k) <==> HasKey(a, k) || HasKey(b, k)
  {
    HasKeyIffKey(a + b, k);
    HasKeyIffKey(a, k);
    HasKeyIffKey(b, k);
    assert Keys(a + b) == Keys(a) + Keys(b);
  }

  /** Python's `d[k] = v`: an existing key keeps its position and takes the new value; a new key is
      appended at the end. */
  function Put<K(==), V>(d: Dict<K, V>, k: K, v: V): (r: Dict<K, V>)
    ensures HasKey(d, k) ==> |r| == |d|
    ensures !HasKey(d, k) ==> |r| == |d| + 1
  {
    match IndexOf(d, k)
    case Some(i) => d[i := (k, v)]
    case None => d + [(k, v)]
  }

  /** After `d[k] = v`, `d.get(k)` is `v`. */
  lemma PutGet<K, V>(d: Dict<K, V>, k: K, v: V)
    ensures Get(Put(d, k, v), k) == Some(v)
  {
    var r := Put(d, k, v);
    match IndexOf(d, k)
    case Some(i) =>
      assert r[i].0 == k;
      forall j | 0 <= j < i ensures r[j].0 != k {
        assert r[j] == d[j];
      }
      assert IndexOf(r, k) == Some(i);
    case None =>
      assert r[|d|].0 == k;
      forall j | 0 <= j < |d| ensures r[j].0 != k {
        assert r[j] == d[j];
      }
      assert IndexOf(r, k) == Some(|d|);
  }

  /** `d[k] = v` leaves every other key's lookup as it was. */
  lemma PutOther<K, V>(d: Dict<K, V>, k: K, v: V, other: K)
    requires other != k
    ensures Get(Put(d, k, v), other) == Get(d, other)
  {
    var r := Put(d, k, v);
    assert forall j :: 0 <= j < |d| ==> r[j].0 == d[j].0 && (d[j].0 == other ==> r[j] == d[j]);
    if |r| > |d| {
      assert r[|d|].0 == k;
    }
    match IndexOf(d, other)
    case Some(i) =>
      assert IndexOf(r, other) == Some(i);
    case None =>
      assert IndexOf(r, other).None?;
  }

  /** `d[k] = v` keeps the key order, appending `k` only when it is new. */
  lemma PutKeys<K, V>(d: Dict<K, V>, k: K, v: V)
    ensures HasKey(d, k) ==> Keys(Put(d, k, v)) == Keys(d)
    ensures !HasKey(d, k) ==> Keys(Put(d, k, v)) == Keys(d) + [k]
  {
  }

  /** `d[k] = v` keeps keys distinct. */
  lemma PutDistinct<K, V>(d: Dict<K, V>, k: K, v: V)
    requires DistinctKeys(d)
    ensures DistinctKeys(Put(d, k, v))
  {
  }

  /** Python's `del d[next(iter(d))]`: the earliest-inserted entry goes. */
  function DropOldest<K, V>(d: Dict<K, V>): (r: Dict<K, V>)
    requires |d| > 0
    ensures |r| == |d| - 1
    ensures Keys(r) == Keys(d)[1..]
  {
    d[1..]
  }

  /** Dropping the oldest entry of a dict with distinct keys removes that key and changes no other
      lookup. */
  lemma DropOldestGet<K, V>(d: Dict<K, V>, k: K)
    requires |d| > 0 && DistinctKeys(d)
    ensures k == d[0].0 ==> Get(DropOldest(d), k).None?
    ensures k != d[0].0 ==> Get(DropOldest(d), k) == Get(d, k)
  {
    var r := DropOldest(d);
    if k == d[0].0 {
      forall j | 0 <= j < |r| ensures r[j].0 != k {
        assert r[j] == d[j + 1];
      }
    }
  }

  /** A dict comprehension `{k: v for k, v in pairs}`: each pair is stored in turn, so a later
      duplicate key overwrites the earlier value in the earlier position. */
  function FromPairs<K(==), V>(pairs: seq<(K, V)>): (d: Dict<K, V>)
    ensures DistinctKeys(d)
    decreases |pairs|
  {
    if |pairs| == 0 then []
    else
      var init := FromPairs(pairs[..|pairs| - 1]);
      var last := pairs[|pairs| - 1];
      PutDistinct(init, last.0, last.1);
      Put(init, last.0, last.1)
  }

  /** The value of the last pair in `pairs` whose key is `k`. */
  function LastValue<K(==), V>(pairs: seq<(K, V)>, k: K): Option<V>
    decreases |pairs|
  {
    if |pairs| == 0 then None
    else if pairs[|pairs| - 1].0 == k then Some(pairs[|pairs| - 1].1)
    else LastValue(pairs[..|pairs| - 1], k)
  }

  /** Looking a key up in the comprehension gives the value of its last pair. */
  lemma {:induction false} FromPairsGet<K, V>(pairs: seq<(K, V)>, k: K)
    ensures Get(FromPairs(pairs), k) == LastValue(pairs, k)
    decreases |pairs|
  {
    if |pairs| > 0 {
      var init := pairs[..|pairs| - 1];
      var last := pairs[|pairs| - 1];
      FromPairsGet(init, k);
      if last.0 == k {
        PutGet(FromPairs(init), k, last.1);
      } else {
        PutOther(FromPairs(init), last.0, last.1, k);
      }
    }
  }

  /** Every key of the comprehension comes from some pair, and every pair's key is present. */
  lemma {:induction false} FromPairsKeys<K, V>(pairs: seq<(K, V)>, k: K)
    ensures k in Keys(FromPairs(pairs)) <==> exists i :: 0 <= i < |pairs| && pairs[i].0 == k
    decreases |pairs|
  {
    if |pairs| > 0 {
      var init := pairs[..|pairs| - 1];
      var last := pairs[|pairs| - 1];
      FromPairsKeys(init, k);
      PutKeys(FromPairs(init), last.0, last.1);
      HasKeyIffKey(FromPairs(init), last.0);
      if exists i :: 0 <= i < |pairs| && pairs[i].0 == k {
        var i :| 0 <= i < |pairs| && pairs[i].0 == k;
        if i < |pairs| - 1 {
          assert init[i].0 == k;
        }
      }
      if exists i :: 0 <= i < |init| && init[i].0 == k {
        var i :| 0 <= i < |init| && init[i].0 == k;
        assert pairs[i].0 == k;
      }
    }
  }
}
