/** Python's insertion-ordered `dict`, as a sequence of key/value pairs.
    Assigning an existing key keeps its position; a new key goes last. */
module Dicts {
  import opened Wrappers

  type Dict<K, V> = seq<(K, V)>

  function Keys<K, V>(d: Dict<K, V>): (r: seq<K>)
    ensures |r| == |d|
    ensures forall i :: 0 <= i < |d| ==> r[i] == d[i].0
  {
    seq(|d|, i requires 0 <= i < |d| => d[i].0)
  }

  predicate HasKey<K(==), V>(d: Dict<K, V>, k: K) {
    exists i :: 0 <= i < |d| && d[i].0 == k
  }

  predicate DistinctKeys<K(==), V>(d: Dict<K, V>) {
    forall i, j :: 0 <= i < j < |d| ==> d[i].0 != d[j].0
  }

  /** `d.get(k)`. */
  function Get<K(==), V>(d: Dict<K, V>, k: K): (r: Option<V>)
    ensures r.None? <==> !HasKey(d, k)
    ensures r.Some? ==> exists i :: 0 <= i < |d| && d[i] == (k, r.value)
    decreases |d|
  {
    if |d| == 0 then None
    else if d[0].0 == k then Some(d[0].1)
    else
      var r := Get(d[1..], k);
      assert forall i :: 0 < i < |d| ==> d[i] == d[1..][i - 1];
      assert HasKey(d[1..], k) ==> HasKey(d, k);
      r
  }

  /** `d[k] = v`. */
  function Put<K(==), V>(d: Dict<K, V>, k: K, v: V): (r: Dict<K, V>)
    decreases |d|
  {
    if |d| == 0 then [(k, v)]
    else if d[0].0 == k then [(k, v)] + d[1..]
    else [d[0]] + Put(d[1..], k, v)
  }

  lemma {:induction false} PutKeys<K, V>(d: Dict<K, V>, k: K, v: V)
    ensures HasKey(d, k) ==> Keys(Put(d, k, v)) == Keys(d)
    ensures !HasKey(d, k) ==> Keys(Put(d, k, v)) == Keys(d) + [k]
    decreases |d|
  {
    if |d| > 0 && d[0].0 != k {
      PutKeys(d[1..], k, v);
      assert HasKey(d, k) <==> HasKey(d[1..], k) by {
        if HasKey(d, k) {
          var i :| 0 <= i < |d| && d[i].0 == k;
          assert d[1..][i - 1].0 == k;
        }
        if HasKey(d[1..], k) {
          var i :| 0 <= i < |d[1..]| && d[1..][i].0 == k;
          assert d[i + 1].0 == k;
        }
      }
    }
    if |d| > 0 && d[0].0 == k {
      assert Keys(Put(d, k, v)) == [k] + Keys(d)[1..];
    }
  }

  lemma {:induction false} PutGet<K, V>(d: Dict<K, V>, k: K, v: V, j: K)
    requires DistinctKeys(d)
    ensures DistinctKeys(Put(d, k, v))
    ensures Get(Put(d, k, v), j) == if j == k then Some(v) else Get(d, j)
    decreases |d|
  {
    if |d| > 0 && d[0].0 != k {
      PutGet(d[1..], k, v, j);
      PutKeys(d[1..], k, v);
      var p := Put(d[1..], k, v);
      forall i | 0 <= i < |p| ensures p[i].0 != d[0].0 {
        assert Keys(p)[i] == p[i].0;
        if i < |d[1..]| { assert Keys(p)[i] == Keys(d[1..])[i] == d[i + 1].0; }
      }
    }
  }

  /** A dict literal built from pairs, later pairs overwriting earlier ones
      (`dict(pairs)`, `{k: v for k, v in pairs}`). */
  function FromPairs<K(==), V>(pairs: seq<(K, V)>): (r: Dict<K, V>)
    decreases |pairs|
  {
    if |pairs| == 0 then [] else Put(FromPairs(pairs[..|pairs| - 1]), pairs[|pairs| - 1].0, pairs[|pairs| - 1].1)
  }

  lemma {:induction false} FromPairsDistinct<K, V>(pairs: seq<(K, V)>)
    ensures DistinctKeys(FromPairs(pairs))
    decreases |pairs|
  {
    if |pairs| > 0 {
      var last := pairs[|pairs| - 1];
      FromPairsDistinct(pairs[..|pairs| - 1]);
      PutGet(FromPairs(pairs[..|pairs| - 1]), last.0, last.1, last.0);
    }
  }

  /** A dict built from pairs with distinct keys holds exactly those keys,
      each with its own value. */
  lemma {:induction false} FromPairsGet<K, V>(pairs: seq<(K, V)>, k: K)
    requires DistinctKeys(pairs)
    ensures HasKey(FromPairs(pairs), k) <==> HasKey(pairs, k)
    ensures Get(FromPairs(pairs), k) == Get(pairs, k)
    decreases |pairs|
  {
    if |pairs| > 0 {
      var init := pairs[..|pairs| - 1];
      var last := pairs[|pairs| - 1];
      assert DistinctKeys(init);
      FromPairsGet(init, k);
      FromPairsDistinct(init);
      PutGet(FromPairs(init), last.0, last.1, k);
      GetSnoc(init, last, k);
    }
  }

  /** Looking up in a list of pairs with one more pair at the end. */
  lemma {:induction false} GetSnoc<K, V>(d: Dict<K, V>, last: (K, V), k: K)
    requires !HasKey(d, last.0)
    ensures Get(d + [last], k) == if HasKey(d, k) then Get(d, k) else if k == last.0 then Some(last.1) else None
    decreases |d|
  {
    if |d| > 0 {
      assert (d + [last])[1..] == d[1..] + [last];
      if d[0].0 != k {
        assert forall i :: 0 <= i < |d[1..]| ==> d[1..][i] == d[i + 1];
        GetSnoc(d[1..], last, k);
        assert HasKey(d, k) <==> HasKey(d[1..], k) by {
          if HasKey(d, k) {
            var i :| 0 <= i < |d| && d[i].0 == k;
            assert d[1..][i - 1].0 == k;
          }
          if HasKey(d[1..], k) {
            var i :| 0 <= i < |d[1..]| && d[1..][i].0 == k;
            assert d[i + 1].0 == k;
          }
        }
      }
    }
  }

  /** Keys survive building a dict from pairs. */
  lemma {:induction false} FromPairsKeys<K, V>(pairs: seq<(K, V)>, k: K)
    ensures HasKey(FromPairs(pairs), k) <==> HasKey(pairs, k)
    decreases |pairs|
  {
    if |pairs| > 0 {
      var init := pairs[..|pairs| - 1];
      var last := pairs[|pairs| - 1];
      FromPairsKeys(init, k);
      FromPairsDistinct(init);
      PutGet(FromPairs(init), last.0, last.1, k);
      assert HasKey(pairs, k) <==> HasKey(init, k) || last.0 == k by {
        if HasKey(pairs, k) {
          var i :| 0 <= i < |pairs| && pairs[i].0 == k;
          if i < |init| { assert init[i].0 == k; }
        }
        if HasKey(init, k) {
          var i :| 0 <= i < |init| && init[i].0 == k;
          assert pairs[i].0 == k;
        }
      }
    }
  }

  /** Writing `v` into a dict whose values are all `v` keeps them all `v`. */
  lemma {:induction false} PutValues<K, V>(d: Dict<K, V>, k: K, v: V)
    requires forall i :: 0 <= i < |d| ==> d[i].1 == v
    ensures forall i :: 0 <= i < |Put(d, k, v)| ==> Put(d, k, v)[i].1 == v
    decreases |d|
  {
    if |d| > 0 && d[0].0 != k {
      assert forall i :: 0 <= i < |d[1..]| ==> d[1..][i] == d[i + 1];
      PutValues(d[1..], k, v);
    }
  }

  /** A dict built from pairs that all carry `v` maps every key to `v`. */
  lemma {:induction false} FromPairsValues<K, V>(pairs: seq<(K, V)>, v: V)
    requires forall i :: 0 <= i < |pairs| ==> pairs[i].1 == v
    ensures forall i :: 0 <= i < |FromPairs(pairs)| ==> FromPairs(pairs)[i].1 == v
    decreases |pairs|
  {
    if |pairs| > 0 {
      var init := pairs[..|pairs| - 1];
      FromPairsValues(init, v);
      PutValues(FromPairs(init), pairs[|pairs| - 1].0, v);
    }
  }
}
