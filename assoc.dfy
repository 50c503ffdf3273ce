/**
 * An insertion-ordered dictionary, as JavaScript's plain objects behave under
 * spreading: setting a present key replaces its value where it stands, setting
 * a new key appends it; iteration follows insertion order.
 */
module Assoc {
  import opened Wrappers

  function Keys<K, V>(m: seq<(K, V)>): (r: seq<K>)
    ensures |r| == |m| && forall i :: 0 <= i < |m| ==> r[i] == m[i].0
  {
    if m == [] then [] else [m[0].0] + Keys(m[1..])
  }

  /** No key occurs twice: what every object satisfies. */
  predicate DistinctKeys<K(==), V>(m: seq<(K, V)>) {
    forall i, j :: 0 <= i < j < |m| ==> m[i].0 != m[j].0
  }

  /** `obj[k]`, `undefined` being `None`. */
  function Get<K(==), V(==)>(m: seq<(K, V)>, k: K): (r: Option<V>)
    ensures r.None? <==> k !in Keys(m)
    ensures r.Some? ==> (k, r.value) in m
  {
    if m == [] then None
    else if m[0].0 == k then Some(m[0].1)
    else
      assert m == [m[0]] + m[1..];
      Get(m[1..], k)
  }

  /** With distinct keys, `get` of the key at position `i` is the value stored there. */
  lemma {:induction false} GetAt<K, V>(m: seq<(K, V)>, i: nat)
    requires DistinctKeys(m) && i < |m|
    ensures Get(m, m[i].0) == Some(m[i].1)
  {
    if i > 0 {
      assert m[0].0 != m[i].0;
      assert m[1..][i - 1] == m[i];
      GetAt(m[1..], i - 1);
    }
  }

  /** The position of a present key. */
  function IndexOf<K(==), V>(m: seq<(K, V)>, k: K): (i: nat)
    requires k in Keys(m)
    ensures i < |m| && m[i].0 == k
  {
    if m[0].0 == k then 0
    else
      assert Keys(m) == [m[0].0] + Keys(m[1..]);
      1 + IndexOf(m[1..], k)
  }

  /** `obj[k] = v`: a present key keeps its place and takes the new value, a new key goes
      at the end. */
  function Put<K(==), V>(m: seq<(K, V)>, k: K, v: V): (r: seq<(K, V)>)
    requires DistinctKeys(m)
    ensures Keys(r) == if k in Keys(m) then Keys(m) else Keys(m) + [k]
    ensures DistinctKeys(r)
  {
    if k in Keys(m) then
      var r := m[IndexOf(m, k) := (k, v)];
      assert Keys(r) == Keys(m);
      r
    else
      var r := m + [(k, v)];
      assert Keys(r) == Keys(m) + [k];
      r
  }

  /** `Put` stores `(k, v)` at `k`'s place and leaves every other entry where it was. */
  lemma PutShape<K, V>(m: seq<(K, V)>, k: K, v: V)
    requires DistinctKeys(m)
    ensures var r := Put(m, k, v);
            && (forall i :: 0 <= i < |m| && m[i].0 != k ==> r[i] == m[i])
            && (k in Keys(m) ==> r[IndexOf(m, k)] == (k, v))
            && (k !in Keys(m) ==> r[|m|] == (k, v))
  {
  }

  /** After `obj[k] = v`, reading `k` gives `v` and every other key reads as before. */
  lemma GetPut<K, V>(m: seq<(K, V)>, k: K, v: V, k2: K)
    requires DistinctKeys(m)
    ensures Get(Put(m, k, v), k2) == if k2 == k then Some(v) else Get(m, k2)
  {
    var r := Put(m, k, v);
    PutShape(m, k, v);
    if k2 == k {
      GetAt(r, if k in Keys(m) then IndexOf(m, k) else |m|);
    } else if k2 in Keys(m) {
      var j := IndexOf(m, k2);
      GetAt(r, j);
      GetAt(m, j);
    } else {
      assert k2 !in Keys(r);
    }
  }

  /** The values in key order, as `Array.from(map.values())` lists them. */
  function Values<K, V>(m: seq<(K, V)>): (r: seq<V>)
    ensures |r| == |m| && forall i :: 0 <= i < |m| ==> r[i] == m[i].1
  {
    if m == [] then [] else [m[0].1] + Values(m[1..])
  }

  /** `map.delete(k)`: the entry for `k` goes, the others keep their order. */
  function Remove<K(==), V>(m: seq<(K, V)>, k: K): (r: seq<(K, V)>)
    ensures |r| <= |m|
  {
    if m == [] then []
    else if m[0].0 == k then Remove(m[1..], k)
    else [m[0]] + Remove(m[1..], k)
  }

  /** After `map.delete(k)`, `k` reads as missing and every other key as before. */
  lemma {:induction false} GetRemove<K, V>(m: seq<(K, V)>, k: K, k2: K)
    ensures Get(Remove(m, k), k2) == if k2 == k then None else Get(m, k2)
  {
    if m != [] {
      GetRemove(m[1..], k, k2);
      if m[0].0 != k {
        var rest := Remove(m[1..], k);
        assert ([m[0]] + rest)[1..] == rest;
      }
    }
  }

  /** `map.delete` keeps only keys that were there, and not the one deleted. */
  lemma {:induction false} RemoveKeys<K, V>(m: seq<(K, V)>, k: K)
    ensures forall x :: x in Keys(Remove(m, k)) ==> x in Keys(m) && x != k
  {
    if m != [] {
      RemoveKeys(m[1..], k);
      assert Keys(m) == [m[0].0] + Keys(m[1..]);
      if m[0].0 != k {
        assert Keys(Remove(m, k)) == [m[0].0] + Keys(Remove(m[1..], k));
      }
    }
  }

  lemma {:induction false} RemoveDistinct<K, V>(m: seq<(K, V)>, k: K)
    requires DistinctKeys(m)
    ensures DistinctKeys(Remove(m, k))
  {
    if m != [] {
      assert DistinctKeys(m[1..]);
      RemoveDistinct(m[1..], k);
      if m[0].0 != k {
        var rest := Remove(m[1..], k);
        RemoveKeys(m[1..], k);
        assert m[0].0 !in Keys(m[1..]);
        DistinctCons(m[0], rest);
      }
    }
  }

  lemma DistinctCons<K, V>(x: (K, V), rest: seq<(K, V)>)
    requires DistinctKeys(rest) && x.0 !in Keys(rest)
    ensures DistinctKeys([x] + rest)
  {
    var r := [x] + rest;
    forall i, j | 0 <= i < j < |r| ensures r[i].0 != r[j].0 {
      assert r[j] == rest[j - 1];
      if i == 0 {
        assert Keys(rest)[j - 1] == r[j].0;
      } else {
        assert r[i] == rest[i - 1];
      }
    }
  }
  /** `map.set(k, f(map.get(k) || zero))`: the first entry for `k` takes the new value where
      it stands; a new key is appended with `f(zero)`. */
  function Update<K(==), V>(m: seq<(K, V)>, k: K, zero: V, f: V -> V): (r: seq<(K, V)>)
    ensures |r| >= |m|
  {
    if m == [] then [(k, f(zero))]
    else if m[0].0 == k then [(k, f(m[0].1))] + m[1..]
    else [m[0]] + Update(m[1..], k, zero, f)
  }

  /** What `map.get(k) || zero` reads. */
  function GetOr<K(==), V(==)>(m: seq<(K, V)>, k: K, zero: V): V {
    if Get(m, k).Some? then Get(m, k).value else zero
  }

  /** After the update, `k` reads as `f` of what it read before, every other key as
      before. */
  lemma {:induction false} GetUpdate<K, V>(m: seq<(K, V)>, k: K, zero: V, f: V -> V, k2: K)
    ensures Get(Update(m, k, zero, f), k2) == if k2 == k then Some(f(GetOr(m, k, zero))) else Get(m, k2)
  {
    if m != [] && m[0].0 != k {
      GetUpdate(m[1..], k, zero, f, k2);
      var rest := Update(m[1..], k, zero, f);
      assert ([m[0]] + rest)[1..] == rest;
    }
  }

  /** The update adds `k` to the keys and no other. */
  lemma {:induction false} UpdateKeys<K, V>(m: seq<(K, V)>, k: K, zero: V, f: V -> V)
    ensures forall x :: x in Keys(Update(m, k, zero, f)) <==> x == k || x in Keys(m)
  {
    if m != [] {
      assert Keys(m) == [m[0].0] + Keys(m[1..]);
      if m[0].0 == k {
        assert Keys(Update(m, k, zero, f)) == [k] + Keys(m[1..]);
      } else {
        UpdateKeys(m[1..], k, zero, f);
        assert Keys(Update(m, k, zero, f)) == [m[0].0] + Keys(Update(m[1..], k, zero, f));
      }
    }
  }

  lemma {:induction false} UpdateDistinct<K, V>(m: seq<(K, V)>, k: K, zero: V, f: V -> V)
    requires DistinctKeys(m)
    ensures DistinctKeys(Update(m, k, zero, f))
  {
    if m != [] {
      assert DistinctKeys(m[1..]);
      assert Keys(m) == [m[0].0] + Keys(m[1..]);
      assert m[0].0 !in Keys(m[1..]);
      if m[0].0 == k {
        DistinctCons((k, f(m[0].1)), m[1..]);
      } else {
        UpdateDistinct(m[1..], k, zero, f);
        UpdateKeys(m[1..], k, zero, f);
        DistinctCons(m[0], Update(m[1..], k, zero, f));
      }
    }
  }
}
