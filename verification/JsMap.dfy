/** An insertion-ordered map: setting a key that is present keeps its place, a new key goes last. */
module JsMap {
  import opened Prelude

  datatype Pair<K, V> = Pair(key: K, value: V)

  function Get<K(==), V>(m: seq<Pair<K, V>>, k: K): Option<V> {
    if m == [] then None else if m[0].key == k then Some(m[0].value) else Get(m[1..], k)
  }

  predicate Has<K(==), V>(m: seq<Pair<K, V>>, k: K) { Get(m, k).Some? }

  function Put<K(==), V>(m: seq<Pair<K, V>>, k: K, v: V): seq<Pair<K, V>> {
    if m == [] then [Pair(k, v)]
    else if m[0].key == k then [Pair(k, v)] + m[1..]
    else [m[0]] + Put(m[1..], k, v)
  }

  function Remove<K(==), V>(m: seq<Pair<K, V>>, k: K): seq<Pair<K, V>> {
    if m == [] then [] else if m[0].key == k then m[1..] else [m[0]] + Remove(m[1..], k)
  }

  function Values<K, V>(m: seq<Pair<K, V>>): (vs: seq<V>)
    ensures |vs| == |m| && forall i :: 0 <= i < |m| ==> vs[i] == m[i].value
  {
    seq(|m|, i requires 0 <= i < |m| => m[i].value)
  }

  /** A key appears once. */
  ghost predicate Keyed<K, V>(m: seq<Pair<K, V>>) {
    forall i, j :: 0 <= i < j < |m| ==> m[i].key != m[j].key
  }

  lemma {:induction false} GetAt<K, V>(m: seq<Pair<K, V>>, i: nat)
    requires Keyed(m) && i < |m|
    ensures Get(m, m[i].key) == Some(m[i].value)
  {
    if i > 0 {
      assert m[1..][i - 1] == m[i];
      GetAt(m[1..], i - 1);
    }
  }

  lemma {:induction false} GetFinds<K, V>(m: seq<Pair<K, V>>, k: K)
    ensures Get(m, k).None? ==> forall i :: 0 <= i < |m| ==> m[i].key != k
    ensures Get(m, k).Some? ==> exists i :: 0 <= i < |m| && m[i] == Pair(k, Get(m, k).value)
  {
    if m != [] {
      GetFinds(m[1..], k);
      if m[0].key == k {
        assert m[0] == Pair(k, Get(m, k).value);
      } else if Get(m, k).Some? {
        var i :| 0 <= i < |m[1..]| && m[1..][i] == Pair(k, Get(m[1..], k).value);
        assert m[i + 1] == Pair(k, Get(m, k).value);
      } else {
        forall i | 0 <= i < |m| ensures m[i].key != k {
          if i > 0 { assert m[1..][i - 1] == m[i]; }
        }
      }
    }
  }

  lemma {:induction false} PutGet<K, V>(m: seq<Pair<K, V>>, k: K, v: V, j: K)
    ensures Get(Put(m, k, v), j) == if j == k then Some(v) else Get(m, j)
  {
    if m != [] {
      PutGet(m[1..], k, v, j);
    }
  }

  lemma {:induction false} PutNew<K, V>(m: seq<Pair<K, V>>, k: K, v: V)
    requires !Has(m, k)
    ensures Put(m, k, v) == m + [Pair(k, v)]
  {
    if m != [] {
      PutNew(m[1..], k, v);
    }
  }

  /** Setting the last entry again, after all before it, gives the map back. */
  lemma PutLast<K, V>(m: seq<Pair<K, V>>)
    requires Keyed(m) && m != []
    ensures var last := m[|m| - 1]; Put(m[..|m| - 1], last.key, last.value) == m
  {
    var init, last := m[..|m| - 1], m[|m| - 1];
    GetFinds(init, last.key);
    PutNew(init, last.key, last.value);
    assert m == init + [Pair(last.key, last.value)];
  }

  lemma {:induction false} PutKeyed<K, V>(m: seq<Pair<K, V>>, k: K, v: V)
    requires Keyed(m)
    ensures Keyed(Put(m, k, v))
    ensures forall p :: p in Put(m, k, v) ==> p == Pair(k, v) || p in m
  {
    if m != [] && m[0].key != k {
      assert forall i :: 0 <= i < |m[1..]| ==> m[1..][i] == m[i + 1];
      PutKeyed(m[1..], k, v);
      var rest := Put(m[1..], k, v);
      assert Put(m, k, v) == [m[0]] + rest;
      forall p | p in rest ensures p.key != m[0].key {
        if p != Pair(k, v) {
          var i :| 0 <= i < |m[1..]| && m[1..][i] == p;
          assert m[i + 1] == p;
        }
      }
    }
  }

  lemma KeyedCons<K, V>(p: Pair<K, V>, m: seq<Pair<K, V>>)
    requires Keyed(m) && forall q :: q in m ==> q.key != p.key
    ensures Keyed([p] + m)
  {
  }

  lemma {:induction false} RemoveKeyed<K, V>(m: seq<Pair<K, V>>, k: K)
    requires Keyed(m)
    ensures Keyed(Remove(m, k)) && !Has(Remove(m, k), k)
    ensures forall p :: p in Remove(m, k) ==> p in m && p.key != k
    ensures forall p :: p in m && p.key != k ==> p in Remove(m, k)
  {
    if m != [] {
      var rest := m[1..];
      assert forall i :: 0 <= i < |rest| ==> rest[i] == m[i + 1];
      assert forall p :: p in m <==> p == m[0] || p in rest;
      RemoveKeyed(rest, k);
      if m[0].key == k {
        GetFinds(rest, k);
        assert forall p :: p in rest ==> p.key != k;
      } else {
        assert Remove(m, k) == [m[0]] + Remove(rest, k);
        forall q | q in Remove(rest, k) ensures q.key != m[0].key {
          assert q in rest;
          var i :| 0 <= i < |rest| && rest[i] == q;
          assert m[i + 1] == q;
        }
        KeyedCons(m[0], Remove(rest, k));
      }
    }
  }

  /** Removing a key takes that entry away and leaves every other, in place. */
  lemma {:induction false} RemoveGet<K, V>(m: seq<Pair<K, V>>, k: K, j: K)
    requires Keyed(m)
    ensures Get(Remove(m, k), j) == if j == k then None else Get(m, j)
    ensures |Remove(m, k)| == if Has(m, k) then |m| - 1 else |m|
  {
    if m != [] {
      assert forall i :: 0 <= i < |m[1..]| ==> m[1..][i] == m[i + 1];
      RemoveGet(m[1..], k, j);
      if m[0].key == k {
        GetFinds(m[1..], k);
      }
    }
  }

  /** Adding an entry at the end: it is found under its key, everything else as before. */
  lemma {:induction false} AppendGet<K, V>(m: seq<Pair<K, V>>, k: K, v: V, j: K)
    requires !Has(m, k)
    ensures Get(m + [Pair(k, v)], j) == if j == k then Some(v) else Get(m, j)
  {
    PutNew(m, k, v);
    PutGet(m, k, v, j);
  }
}
