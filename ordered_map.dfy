/** A JavaScript `Map` as the routes use it: entries in insertion order, where `set` on an existing key
    keeps the key's position and replaces its value, and `values()` iterates in that order. */
module OrderedMap {
  import opened Common

  datatype Entry<K, V> = Entry(key: K, value: V)

  /** `Array.from(m.keys())`. */
  function Keys<K, V>(m: seq<Entry<K, V>>): (ks: seq<K>)
    ensures |ks| == |m| && forall i :: 0 <= i < |m| ==> ks[i] == m[i].key
  {
    if m == [] then [] else [m[0].key] + Keys(m[1..])
  }

  /** `Array.from(m.values())`. */
  function Values<K, V>(m: seq<Entry<K, V>>): (vs: seq<V>)
    ensures |vs| == |m| && forall i :: 0 <= i < |m| ==> vs[i] == m[i].value
  {
    if m == [] then [] else [m[0].value] + Values(m[1..])
  }

  /** The position of key `k`, or -1. */
  function Find<K(==), V>(m: seq<Entry<K, V>>, k: K): (r: int)
    ensures -1 <= r < |m|
    ensures r == -1 <==> k !in Keys(m)
    ensures 0 <= r ==> m[r].key == k && forall i :: 0 <= i < r ==> m[i].key != k
  {
    if m == [] then -1
    else if m[0].key == k then 0
    else
      var r := Find(m[1..], k);
      assert Keys(m) == [m[0].key] + Keys(m[1..]);
      if r == -1 then -1 else r + 1
  }

  /** `m.get(k)`. */
  function Get<K(==), V>(m: seq<Entry<K, V>>, k: K): Option<V> {
    var i := Find(m, k);
    if i < 0 then None else Some(m[i].value)
  }

  lemma InKeysGet<K, V>(m: seq<Entry<K, V>>, k: K)
    ensures k in Keys(m) <==> Get(m, k).Some?
  {
  }

  /** In a map with distinct keys, the entry at `p` is the one `get` finds. */
  lemma IndexGet<K, V>(m: seq<Entry<K, V>>, p: int)
    requires DistinctKeys(m) && 0 <= p < |m|
    ensures Get(m, m[p].key) == Some(m[p].value)
  {
    assert Keys(m)[p] == m[p].key;
  }

  ghost predicate DistinctKeys<K, V>(m: seq<Entry<K, V>>) {
    forall i, j :: 0 <= i < j < |m| ==> m[i].key != m[j].key
  }

  lemma FindSameKeys<K, V>(m: seq<Entry<K, V>>, m': seq<Entry<K, V>>, k: K)
    requires |m| <= |m'|
    requires forall i :: 0 <= i < |m| ==> m'[i].key == m[i].key
    requires k in Keys(m)
    ensures Find(m', k) == Find(m, k)
  {
    var a, b := Find(m', k), Find(m, k);
    assert m'[b].key == k;
    assert a != -1;

  }

  /** `m.set(k, v)`. */
  function Set<K(==,!new), V>(m: seq<Entry<K, V>>, k: K, v: V): (r: seq<Entry<K, V>>)
    ensures Keys(r) == if k in Keys(m) then Keys(m) else Keys(m) + [k]
    ensures Get(r, k) == Some(v)
    ensures forall k' :: k' != k ==> Get(r, k') == Get(m, k')
    ensures DistinctKeys(m) ==> DistinctKeys(r)
  {
    var i := Find(m, k);
    var r := if i < 0 then m + [Entry(k, v)] else m[i := Entry(k, v)];
    SetKeys(m, k, v, i, r);
    SetGet(m, k, v, i, r);
    r
  }

  lemma SetKeys<K, V>(m: seq<Entry<K, V>>, k: K, v: V, i: int, r: seq<Entry<K, V>>)
    requires i == Find(m, k)
    requires r == if i < 0 then m + [Entry(k, v)] else m[i := Entry(k, v)]
    ensures forall j :: 0 <= j < |m| ==> r[j].key == m[j].key
    ensures Keys(r) == if k in Keys(m) then Keys(m) else Keys(m) + [k]
    ensures DistinctKeys(m) ==> DistinctKeys(r)
  {
    assert forall j :: 0 <= j < |m| ==> r[j].key == m[j].key;
  }

  lemma SetGet<K(!new), V>(m: seq<Entry<K, V>>, k: K, v: V, i: int, r: seq<Entry<K, V>>)
    requires i == Find(m, k)
    requires r == if i < 0 then m + [Entry(k, v)] else m[i := Entry(k, v)]
    requires forall j :: 0 <= j < |m| ==> r[j].key == m[j].key
    requires Keys(r) == if k in Keys(m) then Keys(m) else Keys(m) + [k]
    ensures Get(r, k) == Some(v)
    ensures forall k' :: k' != k ==> Get(r, k') == Get(m, k')
  {
    SetGetKey(m, k, v, i, r);
    forall k' | k' != k ensures Get(r, k') == Get(m, k') {
      SetGetOther(m, k, v, i, r, k');
    }
  }

  lemma SetGetKey<K, V>(m: seq<Entry<K, V>>, k: K, v: V, i: int, r: seq<Entry<K, V>>)
    requires i == Find(m, k)
    requires r == if i < 0 then m + [Entry(k, v)] else m[i := Entry(k, v)]
    requires forall j :: 0 <= j < |m| ==> r[j].key == m[j].key
    requires Keys(r) == if k in Keys(m) then Keys(m) else Keys(m) + [k]
    ensures Get(r, k) == Some(v)
  {
    if 0 <= i {
      FindSameKeys(m, r, k);
    } else {
      assert Keys(r)[|m|] == k;
      var f := Find(r, k);
      assert r[f].key == k;
      assert f == |m|;
    }
  }

  lemma SetGetOther<K, V>(m: seq<Entry<K, V>>, k: K, v: V, i: int, r: seq<Entry<K, V>>, k': K)
    requires k' != k
    requires i == Find(m, k)
    requires r == if i < 0 then m + [Entry(k, v)] else m[i := Entry(k, v)]
    requires forall j :: 0 <= j < |m| ==> r[j].key == m[j].key
    requires Keys(r) == if k in Keys(m) then Keys(m) else Keys(m) + [k]
    ensures Get(r, k') == Get(m, k')
  {
    if k' in Keys(m) {
      FindSameKeys(m, r, k');
      var j := Find(m, k');
      assert r[j].key == k';
      assert r[j] == m[j];
    } else {
      assert k' !in Keys(r);
    }
  }

  /** `new Map(pairs)`: each pair is `set` in order. */
  function Build<K(==,!new), V>(ps: seq<Entry<K, V>>): seq<Entry<K, V>> {
    if ps == [] then [] else Set(Build(ps[..|ps| - 1]), ps[|ps| - 1].key, ps[|ps| - 1].value)
  }

  /** Reference definition: keep `s[i]` exactly when it does not occur in `s[..i]`. */
  function FirstOccurrences<K(==)>(s: seq<K>): seq<K> {
    if s == [] then []
    else FirstOccurrences(s[..|s| - 1]) + (if s[|s| - 1] in s[..|s| - 1] then [] else [s[|s| - 1]])
  }

  /** Reference definition: the value of the last pair with key `k`. */
  function LastValue<K(==), V>(ps: seq<Entry<K, V>>, k: K): Option<V> {
    if ps == [] then None
    else if ps[|ps| - 1].key == k then Some(ps[|ps| - 1].value)
    else LastValue(ps[..|ps| - 1], k)
  }

  lemma KeysPrefix<K, V>(ps: seq<Entry<K, V>>)
    requires ps != []
    ensures Keys(ps[..|ps| - 1]) == Keys(ps)[..|ps| - 1]
  {
  }

  /** A built map has each key once, the keys in the order of their first occurrence, and for each
      key the value of its last occurrence. */
  lemma BuildSpec<K(!new), V>(ps: seq<Entry<K, V>>)
    ensures DistinctKeys(Build(ps))
    ensures Keys(Build(ps)) == FirstOccurrences(Keys(ps))
    ensures forall k :: Get(Build(ps), k) == LastValue(ps, k)
  {
    BuildDistinct(ps);
    BuildKeys(ps);
    BuildGet(ps);
  }

  lemma {:induction false} BuildDistinct<K(!new), V>(ps: seq<Entry<K, V>>)
    ensures DistinctKeys(Build(ps))
  {
    if ps != [] {
      BuildDistinct(ps[..|ps| - 1]);
    }
  }

  lemma {:induction false} BuildKeys<K(!new), V>(ps: seq<Entry<K, V>>)
    ensures Keys(Build(ps)) == FirstOccurrences(Keys(ps))
  {
    if ps != [] {
      var p := ps[..|ps| - 1];
      var e := ps[|ps| - 1];
      BuildKeys(p);
      KeysPrefix(ps);
      assert Keys(ps)[|ps| - 1] == e.key;
      FirstOccurrencesSet(Keys(p));
      assert Build(ps) == Set(Build(p), e.key, e.value);
    }
  }

  lemma {:induction false} BuildGet<K(!new), V>(ps: seq<Entry<K, V>>)
    ensures forall k :: Get(Build(ps), k) == LastValue(ps, k)
  {
    if ps != [] {
      var p := ps[..|ps| - 1];
      var e := ps[|ps| - 1];
      BuildGet(p);
      assert Build(ps) == Set(Build(p), e.key, e.value);
    }
  }

  lemma {:induction false} FirstOccurrencesSet<K>(s: seq<K>)
    ensures forall x :: x in FirstOccurrences(s) <==> x in s
  {
    if s != [] {
      FirstOccurrencesSet(s[..|s| - 1]);
      assert s == s[..|s| - 1] + [s[|s| - 1]];
    }
  }

  /** The first-occurrence list never repeats an element. */
  lemma {:induction false} FirstOccurrencesDistinct<K>(s: seq<K>)
    ensures forall i, j :: 0 <= i < j < |FirstOccurrences(s)| ==> FirstOccurrences(s)[i] != FirstOccurrences(s)[j]
  {
    if s != [] {
      var p := s[..|s| - 1];
      FirstOccurrencesDistinct(p);
      FirstOccurrencesSet(p);
    }
  }

  /** Every value of a built map comes from a pair whose key and value satisfy `P`, when all do. */
  lemma {:induction false} BuildKeepsPairs<K(!new), V>(ps: seq<Entry<K, V>>, P: (K, V) -> bool)
    requires forall i :: 0 <= i < |ps| ==> P(ps[i].key, ps[i].value)
    ensures forall i :: 0 <= i < |Build(ps)| ==> P(Build(ps)[i].key, Build(ps)[i].value)
  {
    if ps != [] {
      var p := ps[..|ps| - 1];
      BuildKeepsPairs(p, P);
      var m := Build(p);
      var e := ps[|ps| - 1];
      var r := Build(ps);
      forall i | 0 <= i < |r| ensures P(r[i].key, r[i].value) {
        var j := Find(m, e.key);
        if j < 0 {
          if i < |m| { assert r[i] == m[i]; } else { assert r[i] == e; }
        } else {
          if i == j { assert r[i] == e; } else { assert r[i] == m[i]; }
        }
      }
    }
  }
}
