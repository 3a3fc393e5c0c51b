/** A map that remembers insertion order, as a list of entries: setting a present key
    keeps its place, and entries are visited oldest first. */
module OrderedMaps {
  import opened Domain

  predicate Has<K(==), V>(m: seq<(K, V)>, k: K) {
    exists i :: 0 <= i < |m| && m[i].0 == k
  }

  predicate Distinct<K(==), V>(m: seq<(K, V)>) {
    forall i, j :: 0 <= i < j < |m| ==> m[i].0 != m[j].0
  }

  function Get<K(==), V>(m: seq<(K, V)>, k: K): Option<V> {
    if m == [] then None else if m[0].0 == k then Some(m[0].1) else Get(m[1..], k)
  }

  function Put<K(==), V>(m: seq<(K, V)>, k: K, v: V): seq<(K, V)> {
    if m == [] then [(k, v)]
    else if m[0].0 == k then [(k, v)] + m[1..]
    else [m[0]] + Put(m[1..], k, v)
  }

  function Del<K(==), V>(m: seq<(K, V)>, k: K): seq<(K, V)> {
    if m == [] then []
    else if m[0].0 == k then Del(m[1..], k)
    else [m[0]] + Del(m[1..], k)
  }

  lemma {:induction false} GetHas<K, V>(m: seq<(K, V)>, k: K)
    ensures Get(m, k).Some? <==> Has(m, k)
    ensures Get(m, k).Some? ==> (k, Get(m, k).value) in m
  {
    if m != [] && m[0].0 != k {
      GetHas(m[1..], k);
      if i :| 0 <= i < |m[1..]| && m[1..][i].0 == k { assert m[i + 1].0 == k; }
      if i :| 0 <= i < |m| && m[i].0 == k { assert m[1..][i - 1].0 == k; }
    }
  }

  lemma {:induction false} GetPut<K, V>(m: seq<(K, V)>, k: K, v: V, j: K)
    ensures Get(Put(m, k, v), j) == if j == k then Some(v) else Get(m, j)
  {
    if m != [] && m[0].0 != k {
      GetPut(m[1..], k, v, j);
      assert Put(m, k, v)[1..] == Put(m[1..], k, v);
    } else if m != [] {
      assert Put(m, k, v)[1..] == m[1..];
    } else {
      assert Put(m, k, v)[1..] == [];
    }
  }

  lemma {:induction false} GetDel<K, V>(m: seq<(K, V)>, k: K, j: K)
    ensures Get(Del(m, k), j) == if j == k then None else Get(m, j)
  {
    if m != [] {
      GetDel(m[1..], k, j);
      if m[0].0 != k { assert Del(m, k)[1..] == Del(m[1..], k); }
    }
  }

  lemma {:induction false} DistinctTail<K, V>(m: seq<(K, V)>)
    requires Distinct(m) && m != []
    ensures Distinct(m[1..]) && Get(m[1..], m[0].0).None?
  {
    GetHas(m[1..], m[0].0);
    forall i | 0 <= i < |m[1..]| ensures m[1..][i].0 != m[0].0 {
      assert m[1..][i] == m[i + 1];
    }
  }

  lemma {:induction false} DistinctCons<K, V>(k: K, v: V, m: seq<(K, V)>)
    requires Distinct(m) && Get(m, k).None?
    ensures Distinct([(k, v)] + m)
  {
    GetHas(m, k);
  }

  lemma {:induction false} PutDistinct<K, V>(m: seq<(K, V)>, k: K, v: V)
    requires Distinct(m)
    ensures Distinct(Put(m, k, v))
  {
    if m != [] && m[0].0 != k {
      DistinctTail(m);
      PutDistinct(m[1..], k, v);
      GetPut(m[1..], k, v, m[0].0);
      DistinctCons(m[0].0, m[0].1, Put(m[1..], k, v));
    }
  }

  lemma {:induction false} DelDistinct<K, V>(m: seq<(K, V)>, k: K)
    requires Distinct(m)
    ensures Distinct(Del(m, k))
  {
    if m != [] {
      DistinctTail(m);
      DelDistinct(m[1..], k);
      GetDel(m[1..], k, m[0].0);
      if m[0].0 != k { DistinctCons(m[0].0, m[0].1, Del(m[1..], k)); }
    }
  }

  lemma {:induction false} EntryGet<K, V>(m: seq<(K, V)>, k: K, v: V)
    requires Distinct(m)
    ensures (k, v) in m <==> Get(m, k) == Some(v)
  {
    if m != [] {
      DistinctTail(m);
      EntryGet(m[1..], k, v);
      assert m == [m[0]] + m[1..];
    }
  }
}
