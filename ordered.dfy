/**
 * JavaScript objects and `Map`s as the extension uses them: key/value pairs kept
 * in insertion order.  Reading a key finds its last binding; writing an existing
 * key replaces that binding where it stands, writing a fresh key appends it.
 */
module Ordered {
  import opened Wrappers

  type Assoc<K, V> = seq<(K, V)>

  /** `m[k]` / `m.get(k)`: the last binding of `k`, if any. */
  function Lookup<K(==), V>(m: Assoc<K, V>, k: K): Option<V>
    decreases |m|
  {
    if |m| == 0 then None
    else if m[|m| - 1].0 == k then Some(m[|m| - 1].1)
    else Lookup(m[..|m| - 1], k)
  }

  /** `k in m` / `m.has(k)`. */
  predicate Has<K(==), V>(m: Assoc<K, V>, k: K)
  {
    Lookup(m, k).Some?
  }

  function Keys<K, V>(m: Assoc<K, V>): set<K>
  {
    set i | 0 <= i < |m| :: m[i].0
  }

  /** No key is bound twice (every JavaScript object and `Map` has this shape). */
  predicate Unique<K(==), V>(m: Assoc<K, V>)
  {
    forall i, j :: 0 <= i < j < |m| ==> m[i].0 != m[j].0
  }

  function ReplaceLast<K(==), V>(m: Assoc<K, V>, k: K, v: V): Assoc<K, V>
    decreases |m|
  {
    if |m| == 0 then []
    else if m[|m| - 1].0 == k then m[..|m| - 1] + [(k, v)]
    else ReplaceLast(m[..|m| - 1], k, v) + [m[|m| - 1]]
  }

  /** `m[k] = v` / `m.set(k, v)`. */
  function Put<K(==), V>(m: Assoc<K, V>, k: K, v: V): Assoc<K, V>
  {
    if Has(m, k) then ReplaceLast(m, k, v) else m + [(k, v)]
  }

  /** `delete m[k]` / `storage.removeItem(k)`: every binding of `k` goes. */
  function Remove<K(==), V>(m: Assoc<K, V>, k: K): Assoc<K, V>
    decreases |m|
  {
    if |m| == 0 then []
    else if m[|m| - 1].0 == k then Remove(m[..|m| - 1], k)
    else Remove(m[..|m| - 1], k) + [m[|m| - 1]]
  }

  /** `Object.entries(src).forEach(([k, v]) => dst.set(k, v))`. */
  function PutAll<K(==), V>(dst: Assoc<K, V>, src: Assoc<K, V>): Assoc<K, V>
    decreases |src|
  {
    if |src| == 0 then dst
    else Put(PutAll(dst, src[..|src| - 1]), src[|src| - 1].0, src[|src| - 1].1)
  }

  lemma {:induction false} HasKeys<K, V>(m: Assoc<K, V>, k: K)
    ensures Has(m, k) <==> k in Keys(m)
    decreases |m|
  {
    if |m| > 0 {
      var init := m[..|m| - 1];
      assert m == init + [m[|m| - 1]];
      HasKeys(init, k);
      assert Keys(m) == Keys(init) + {m[|m| - 1].0} by {
        forall x | x in Keys(m) ensures x in Keys(init) + {m[|m| - 1].0} {
          var i :| 0 <= i < |m| && m[i].0 == x;
          if i < |m| - 1 { assert init[i].0 == x; }
        }
        forall x | x in Keys(init) ensures x in Keys(m) {
          var i :| 0 <= i < |init| && init[i].0 == x;
          assert m[i].0 == x;
        }
      }
    }
  }

  /** A key that is found is bound, to the value found, at some position. */
  lemma {:induction false} LookupFound<K, V>(m: Assoc<K, V>, k: K)
    requires Has(m, k)
    ensures exists i :: 0 <= i < |m| && m[i] == (k, Lookup(m, k).value)
    decreases |m|
  {
    var n := |m| - 1;
    if m[n].0 != k {
      LookupFound(m[..n], k);
      var i :| 0 <= i < n && m[..n][i] == (k, Lookup(m[..n], k).value);
      assert m[i] == m[..n][i];
    }
  }

  lemma {:induction false} LookupAppend<K, V>(m: Assoc<K, V>, k: K, v: V, j: K)
    ensures Lookup(m + [(k, v)], j) == if j == k then Some(v) else Lookup(m, j)
  {
    assert (m + [(k, v)])[..|m|] == m;
  }

  lemma {:induction false} LookupReplaceLast<K, V>(m: Assoc<K, V>, k: K, v: V, j: K)
    requires Has(m, k)
    ensures Lookup(ReplaceLast(m, k, v), j) == if j == k then Some(v) else Lookup(m, j)
    ensures |ReplaceLast(m, k, v)| == |m|
    ensures forall i :: 0 <= i < |m| ==> ReplaceLast(m, k, v)[i].0 == m[i].0
    decreases |m|
  {
    var init := m[..|m| - 1];
    if m[|m| - 1].0 == k {
      LookupAppend(init, k, v, j);
    } else {
      LookupReplaceLast(init, k, v, j);
      LookupAppend(ReplaceLast(init, k, v), m[|m| - 1].0, m[|m| - 1].1, j);
    }
  }

  /** Writing a key makes it read back, and leaves every other key as it was. */
  lemma LookupPut<K, V>(m: Assoc<K, V>, k: K, v: V, j: K)
    ensures Lookup(Put(m, k, v), j) == if j == k then Some(v) else Lookup(m, j)
  {
    if Has(m, k) {
      LookupReplaceLast(m, k, v, j);
    } else {
      LookupAppend(m, k, v, j);
    }
  }

  /** Overwriting an existing key changes no position and no other key. */
  lemma PutInPlace<K, V>(m: Assoc<K, V>, k: K, v: V)
    requires Has(m, k)
    ensures |Put(m, k, v)| == |m|
    ensures forall i :: 0 <= i < |m| ==> Put(m, k, v)[i].0 == m[i].0
  {
    LookupReplaceLast(m, k, v, k);
  }

  lemma {:induction false} LookupRemove<K, V>(m: Assoc<K, V>, k: K, j: K)
    ensures Lookup(Remove(m, k), j) == if j == k then None else Lookup(m, j)
    decreases |m|
  {
    if |m| > 0 {
      var init := m[..|m| - 1];
      LookupRemove(init, k, j);
      if m[|m| - 1].0 != k {
        LookupAppend(Remove(init, k), m[|m| - 1].0, m[|m| - 1].1, j);
      }
    }
  }

  /** Copying every entry of `src` into `dst`: later bindings in `src` win. */
  lemma {:induction false} LookupPutAll<K, V>(dst: Assoc<K, V>, src: Assoc<K, V>, j: K)
    ensures Lookup(PutAll(dst, src), j) == if Has(src, j) then Lookup(src, j) else Lookup(dst, j)
    decreases |src|
  {
    if |src| > 0 {
      var init := src[..|src| - 1];
      LookupPutAll(dst, init, j);
      LookupPut(PutAll(dst, init), src[|src| - 1].0, src[|src| - 1].1, j);
    }
  }

  lemma {:induction false} UniqueAfterPut<K, V>(m: Assoc<K, V>, k: K, v: V)
    requires Unique(m)
    ensures Unique(Put(m, k, v))
  {
    if Has(m, k) {
      PutInPlace(m, k, v);
    } else {
      HasKeys(m, k);
      forall i | 0 <= i < |m| ensures m[i].0 != k {
        assert m[i].0 in Keys(m);
      }
    }
  }

  lemma {:induction false} UniquePutAll<K, V>(dst: Assoc<K, V>, src: Assoc<K, V>)
    requires Unique(dst)
    ensures Unique(PutAll(dst, src))
    decreases |src|
  {
    if |src| > 0 {
      UniquePutAll(dst, src[..|src| - 1]);
      UniqueAfterPut(PutAll(dst, src[..|src| - 1]), src[|src| - 1].0, src[|src| - 1].1);
    }
  }

  /** In a map binding each key once, the last key is not bound earlier. */
  lemma UniqueLastFresh<K, V>(m: Assoc<K, V>)
    requires Unique(m) && |m| > 0
    ensures Unique(m[..|m| - 1])
    ensures !Has(m[..|m| - 1], m[|m| - 1].0)
  {
    var init := m[..|m| - 1];
    HasKeys(init, m[|m| - 1].0);
  }

  /** Copying a map that binds each key once into an empty one reproduces it. */
  lemma {:induction false} PutAllFresh<K, V>(m: Assoc<K, V>)
    requires Unique(m)
    ensures PutAll([], m) == m
    decreases |m|
  {
    if |m| > 0 {
      UniqueLastFresh(m);
      PutAllFresh(m[..|m| - 1]);
      assert m == m[..|m| - 1] + [m[|m| - 1]];
    }
  }
}
