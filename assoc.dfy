/**
 * Insertion-ordered dictionaries: a list of (key, value) entries with distinct keys.
 * They stand for the .NET dictionaries whose entries the code enumerates. The
 * order is fixed here as the order in which keys were first added; a
 * ConcurrentDictionary enumerates in an unspecified order instead.
 */
module Assoc {
  import opened Common

  function Keys<K, V>(a: seq<(K, V)>): (ks: seq<K>)
    ensures |ks| == |a|
    ensures forall i :: 0 <= i < |a| ==> ks[i] == a[i].0
  {
    if |a| == 0 then [] else [a[0].0] + Keys(a[1..])
  }

  /** The values, in enumeration order. */
  function Values<K, V>(a: seq<(K, V)>): (vs: seq<V>)
    ensures |vs| == |a|
    ensures forall i :: 0 <= i < |a| ==> vs[i] == a[i].1
  {
    if |a| == 0 then [] else [a[0].1] + Values(a[1..])
  }

  predicate UniqueKeys<K(==), V>(a: seq<(K, V)>)
  {
    forall i, j :: 0 <= i < j < |a| ==> a[i].0 != a[j].0
  }

  /** TryGetValue: the value stored under `k`, or None when the key is absent. */
  function Lookup<K(==), V>(a: seq<(K, V)>, k: K): (r: Option<V>)
    ensures r.None? <==> k !in Keys(a)
    ensures r.Some? ==> exists i :: 0 <= i < |a| && a[i] == (k, r.value)
  {
    if |a| == 0 then None
    else if a[0].0 == k then Some(a[0].1)
    else
      assert Keys(a) == [a[0].0] + Keys(a[1..]);
      var r := Lookup(a[1..], k);
      assert r.Some? ==> exists i :: 0 <= i < |a[1..]| && a[1..][i] == (k, r.value);
      r
  }

  /** AddOrUpdate / the indexer's setter: replaces the value in place when the key is present, appends otherwise. */
  function Put<K(==), V>(a: seq<(K, V)>, k: K, v: V): (r: seq<(K, V)>)
    ensures Keys(r) == if k in Keys(a) then Keys(a) else Keys(a) + [k]
  {
    if |a| == 0 then [(k, v)]
    else if a[0].0 == k then
      assert Keys(a) == [a[0].0] + Keys(a[1..]);
      var r := [(k, v)] + a[1..];
      assert Keys(r) == [k] + Keys(a[1..]);
      r
    else
      assert Keys(a) == [a[0].0] + Keys(a[1..]);
      var rest := Put(a[1..], k, v);
      var r := [a[0]] + rest;
      assert Keys(r) == [a[0].0] + Keys(rest);
      r
  }

  lemma {:induction false} LookupPut<K, V>(a: seq<(K, V)>, k: K, v: V, k': K)
    ensures Lookup(Put(a, k, v), k') == if k' == k then Some(v) else Lookup(a, k')
  {
    if |a| > 0 && a[0].0 != k {
      var rest := Put(a[1..], k, v);
      assert Put(a, k, v) == [a[0]] + rest;
      assert ([a[0]] + rest)[1..] == rest;
      LookupPut(a[1..], k, v, k');
    } else if |a| > 0 {
      assert Put(a, k, v)[1..] == a[1..];
    }
  }

  lemma UniqueAfterPut<K, V>(a: seq<(K, V)>, k: K, v: V)
    requires UniqueKeys(a)
    ensures UniqueKeys(Put(a, k, v))
  {
    var r := Put(a, k, v);
    var ka, kr := Keys(a), Keys(r);
    forall i, j | 0 <= i < j < |r| ensures r[i].0 != r[j].0 {
      assert kr[i] == r[i].0 && kr[j] == r[j].0;
      if k in ka {
        assert ka[i] == a[i].0 && ka[j] == a[j].0;
      } else if j < |a| {
        assert ka[i] == a[i].0 && ka[j] == a[j].0;
      } else {
        assert kr[j] == k && kr[i] == ka[i];
      }
    }
  }

  lemma LookupAt<K, V>(a: seq<(K, V)>, i: nat)
    requires UniqueKeys(a) && i < |a|
    ensures Lookup(a, a[i].0) == Some(a[i].1)
  {
    if i > 0 {
      assert a[0].0 != a[i].0;
      assert UniqueKeys(a[1..]) && a[1..][i - 1] == a[i];
      LookupAt(a[1..], i - 1);
    }
  }

  /** Adding an absent key appends the entry. */
  lemma {:induction false} PutNew<K, V>(a: seq<(K, V)>, k: K, v: V)
    requires k !in Keys(a)
    ensures Put(a, k, v) == a + [(k, v)]
  {
    if |a| > 0 {
      assert Keys(a) == [a[0].0] + Keys(a[1..]);
      PutNew(a[1..], k, v);
      assert a == [a[0]] + a[1..];
    }
  }

  /** With distinct keys, updating a present key replaces its entry where it stands. */
  lemma {:induction false} PutAt<K, V>(a: seq<(K, V)>, i: nat, v: V)
    requires UniqueKeys(a) && i < |a|
    ensures Put(a, a[i].0, v) == a[i := (a[i].0, v)]
  {
    var k := a[i].0;
    if i > 0 {
      UniqueTail(a, i);
      PutAt(a[1..], i - 1, v);
      PutUnfold(a, k, v);
      ConsUpdate(a, i, (k, v));
    } else {
      assert Put(a, k, v) == [(k, v)] + a[1..];
    }
  }

  lemma UniqueTail<K, V>(a: seq<(K, V)>, i: nat)
    requires UniqueKeys(a) && 0 < i < |a|
    ensures UniqueKeys(a[1..]) && a[1..][i - 1] == a[i] && a[0].0 != a[i].0
  {
  }

  lemma PutUnfold<K, V>(a: seq<(K, V)>, k: K, v: V)
    requires |a| > 0 && a[0].0 != k
    ensures Put(a, k, v) == [a[0]] + Put(a[1..], k, v)
  {
  }

  lemma ConsUpdate<T>(a: seq<T>, i: nat, x: T)
    requires 0 < i < |a|
    ensures [a[0]] + a[1..][i - 1 := x] == a[i := x]
  {
  }
}
