/** A dictionary that keeps its items in the order in which their keys were first put. */
module OrderedDictionary {
  import opened Wrappers

  type Dict<K, V> = seq<(K, V)>

  function Find<K(==), V>(d: Dict<K, V>, k: K): Option<V> {
    if d == [] then None else if d[0].0 == k then Some(d[0].1) else Find(d[1..], k)
  }

  function Put<K(==), V>(d: Dict<K, V>, k: K, v: V): Dict<K, V> {
    if d == [] then [(k, v)]
    else if d[0].0 == k then [(k, v)] + d[1..]
    else [d[0]] + Put(d[1..], k, v)
  }

  function Remove<K(==), V>(d: Dict<K, V>, k: K): Dict<K, V> {
    if d == [] then [] else if d[0].0 == k then d[1..] else [d[0]] + Remove(d[1..], k)
  }

  function Values<K, V>(d: Dict<K, V>): (vs: seq<V>)
    ensures |vs| == |d| && forall i | 0 <= i < |d| :: vs[i] == d[i].1
  {
    seq(|d|, i requires 0 <= i < |d| => d[i].1)
  }

  ghost predicate Distinct<K, V>(d: Dict<K, V>) {
    forall i, j | 0 <= i < j < |d| :: d[i].0 != d[j].0
  }

  ghost function AsMap<K, V>(d: Dict<K, V>): map<K, V> {
    if d == [] then map[] else AsMap(d[1..])[d[0].0 := d[0].1]
  }

  lemma {:induction false} AsMapHas<K, V>(d: Dict<K, V>, k: K)
    ensures k in AsMap(d) <==> exists i :: 0 <= i < |d| && d[i].0 == k
    ensures Find(d, k) == if k in AsMap(d) then Some(AsMap(d)[k]) else None
  {
    if d != [] {
      AsMapHas(d[1..], k);
      if d[0].0 != k && k in AsMap(d[1..]) {
        var i :| 0 <= i < |d[1..]| && d[1..][i].0 == k;
        assert d[i + 1].0 == k;
      }
      if i :| 0 < i < |d| && d[i].0 == k {
        assert d[1..][i - 1].0 == k;
      }
    }
  }

  lemma DistinctCons<K, V>(d: Dict<K, V>)
    requires d != []
    ensures Distinct(d) <==> d[0].0 !in AsMap(d[1..]) && Distinct(d[1..])
  {
    AsMapHas(d[1..], d[0].0);
    assert forall i | 0 < i < |d| :: d[i] == d[1..][i - 1];
  }

  lemma {:induction false} PutIsUpdate<K, V>(d: Dict<K, V>, k: K, v: V)
    requires Distinct(d)
    ensures AsMap(Put(d, k, v)) == AsMap(d)[k := v] && Distinct(Put(d, k, v))
  {
    if d != [] {
      var d' := Put(d, k, v);
      DistinctCons(d);
      if d[0].0 == k {
        assert d'[1..] == d[1..];
      } else {
        PutIsUpdate(d[1..], k, v);
        assert d'[1..] == Put(d[1..], k, v);
      }
      DistinctCons(d');
    }
  }

  lemma {:induction false} RemoveIsRemoval<K, V>(d: Dict<K, V>, k: K)
    requires Distinct(d)
    ensures AsMap(Remove(d, k)) == AsMap(d) - {k} && Distinct(Remove(d, k))
  {
    if d != [] {
      DistinctCons(d);
      if d[0].0 != k {
        RemoveIsRemoval(d[1..], k);
        assert Remove(d, k)[1..] == Remove(d[1..], k);
        DistinctCons(Remove(d, k));
      }
    }
  }

  /** Putting replaces in place, or appends. */
  lemma {:induction false} PutInPlace<K, V>(d: Dict<K, V>, k: K, v: V)
    requires Distinct(d)
    ensures Find(d, k).None? ==> Put(d, k, v) == d + [(k, v)]
    ensures forall i | 0 <= i < |d| && d[i].0 == k :: Put(d, k, v) == d[i := (k, v)]
  {
    if d != [] && d[0].0 != k {
      DistinctCons(d);
      PutInPlace(d[1..], k, v);
      assert d == [d[0]] + d[1..];
      forall i | 0 < i < |d| && d[i].0 == k ensures Put(d, k, v) == d[i := (k, v)] {
        assert d[1..][i - 1].0 == k;
      }
    }
  }

  /** Removing closes the gap. */
  lemma {:induction false} RemoveInPlace<K, V>(d: Dict<K, V>, k: K)
    requires Distinct(d)
    ensures Find(d, k).None? ==> Remove(d, k) == d
    ensures forall i | 0 <= i < |d| && d[i].0 == k :: Remove(d, k) == d[..i] + d[i + 1..]
  {
    if d != [] && d[0].0 != k {
      DistinctCons(d);
      RemoveInPlace(d[1..], k);
      assert d == [d[0]] + d[1..];
      forall i | 0 < i < |d| && d[i].0 == k ensures Remove(d, k) == d[..i] + d[i + 1..] {
        assert d[1..][i - 1].0 == k;
      }
    }
  }

  // ---------- renaming the keys ----------

  function Rename<K, L, V>(d: Dict<K, V>, f: K -> L): (r: Dict<L, V>)
    ensures |r| == |d| && forall i | 0 <= i < |d| :: r[i] == (f(d[i].0), d[i].1)
  {
    seq(|d|, i requires 0 <= i < |d| => (f(d[i].0), d[i].1))
  }

  ghost predicate Injective<K(!new), L>(f: K -> L) {
    forall k, l :: f(k) == f(l) ==> k == l
  }

  lemma RenameCons<K, L, V>(item: (K, V), d: Dict<K, V>, f: K -> L)
    ensures Rename([item] + d, f) == [(f(item.0), item.1)] + Rename(d, f)
  {
  }

  lemma {:induction false} PutRenamed<K(!new), L, V>(d: Dict<K, V>, f: K -> L, k: K, v: V)
    requires Injective(f)
    ensures Rename(Put(d, k, v), f) == Put(Rename(d, f), f(k), v)
  {
    if d != [] {
      assert Rename(d, f)[1..] == Rename(d[1..], f);
      if d[0].0 != k {
        assert f(d[0].0) != f(k);
        PutRenamed(d[1..], f, k, v);
        RenameCons(d[0], Put(d[1..], k, v), f);
      }
    }
  }

  lemma {:induction false} RemoveRenamed<K(!new), L, V>(d: Dict<K, V>, f: K -> L, k: K)
    requires Injective(f)
    ensures Rename(Remove(d, k), f) == Remove(Rename(d, f), f(k))
  {
    if d != [] {
      assert Rename(d, f)[1..] == Rename(d[1..], f);
      if d[0].0 != k {
        assert f(d[0].0) != f(k);
        RemoveRenamed(d[1..], f, k);
        RenameCons(d[0], Remove(d[1..], k), f);
      }
    }
  }
}
