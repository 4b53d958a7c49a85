/** A Python `dict` as the servers use it: a sequence of (key, value) entries in
    insertion order. The order matters wherever the servers take the first
    matching entry with `next(...)` or walk `list(d.keys())`. */
module Dict {
  import opened Common

  type Dict<K, V> = seq<(K, V)>

  /** No key occurs twice. */
  predicate Valid<K(==), V>(d: Dict<K, V>) {
    forall i, j :: 0 <= i < j < |d| ==> d[i].0 != d[j].0
  }

  /** `list(d.keys())` */
  function Keys<K, V>(d: Dict<K, V>): (r: seq<K>)
    ensures |r| == |d|
    ensures forall i :: 0 <= i < |d| ==> r[i] == d[i].0
    decreases |d|
  {
    if d == [] then [] else [d[0].0] + Keys(d[1..])
  }

  /** `d.values()`, in insertion order. */
  function Values<K, V>(d: Dict<K, V>): (r: seq<V>)
    ensures |r| == |d|
    ensures forall i :: 0 <= i < |d| ==> r[i] == d[i].1
    decreases |d|
  {
    if d == [] then [] else [d[0].1] + Values(d[1..])
  }

  /** `d.get(k)` */
  function Lookup<K(==), V>(d: Dict<K, V>, k: K): (r: Option<V>)
    ensures r.None? <==> forall i :: 0 <= i < |d| ==> d[i].0 != k
    ensures r.Some? ==> exists i :: 0 <= i < |d| && d[i] == (k, r.value)
    decreases |d|
  {
    if d == [] then None
    else if d[0].0 == k then Some(d[0].1)
    else Lookup(d[1..], k)
  }

  /** `k in d` */
  predicate Has<K(==), V>(d: Dict<K, V>, k: K) {
    Lookup(d, k).Some?
  }

  /** In a valid dict, the entry stored at position i is what `Lookup` finds. */
  lemma {:induction false} LookupAt<K, V>(d: Dict<K, V>, i: nat)
    requires Valid(d) && i < |d|
    ensures Lookup(d, d[i].0) == Some(d[i].1)
    decreases |d|
  {
    if i > 0 {
      assert d[0].0 != d[i].0;
      assert Valid(d[1..]) by {
        forall a, b | 0 <= a < b < |d| - 1 ensures d[1..][a].0 != d[1..][b].0 {
          assert d[1..][a] == d[a + 1] && d[1..][b] == d[b + 1];
        }
      }
      assert d[1..][i - 1] == d[i];
      LookupAt(d[1..], i - 1);
    }
  }

  /** `d[k] = v`: an existing key keeps its position and gets the new value,
      a new key goes last. */
  function Put<K(==), V>(d: Dict<K, V>, k: K, v: V): (r: Dict<K, V>)
    ensures Lookup(r, k) == Some(v)
    decreases |d|
  {
    if d == [] then [(k, v)]
    else if d[0].0 == k then [(k, v)] + d[1..]
    else [d[0]] + Put(d[1..], k, v)
  }

  lemma {:induction false} PutOther<K, V>(d: Dict<K, V>, k: K, v: V, k': K)
    requires k' != k
    ensures Lookup(Put(d, k, v), k') == Lookup(d, k')
    decreases |d|
  {
    if d != [] && d[0].0 != k {
      var r := Put(d, k, v);
      assert r[1..] == Put(d[1..], k, v);
      PutOther(d[1..], k, v, k');
    } else if d != [] {
      assert Put(d, k, v)[1..] == d[1..];
    }
  }

  /** Insertion order: overwriting keeps the key sequence, a new key is appended. */
  lemma {:induction false} PutKeys<K, V>(d: Dict<K, V>, k: K, v: V)
    ensures Has(d, k) ==> Keys(Put(d, k, v)) == Keys(d)
    ensures !Has(d, k) ==> Keys(Put(d, k, v)) == Keys(d) + [k]
    decreases |d|
  {
    if d != [] && d[0].0 != k {
      PutKeys(d[1..], k, v);
      var rest := Put(d[1..], k, v);
      assert ([d[0]] + rest)[1..] == rest;
      assert Has(d, k) == Has(d[1..], k);
    }
  }

  /** `del d[k]`: here defined on every dict; the servers only call it on present keys,
      except where they guard it. */
  function Del<K(==), V>(d: Dict<K, V>, k: K): (r: Dict<K, V>)
    ensures Lookup(r, k) == None
    ensures |r| <= |d|
    decreases |d|
  {
    if d == [] then []
    else if d[0].0 == k then Del(d[1..], k)
    else [d[0]] + Del(d[1..], k)
  }

  lemma {:induction false} DelOther<K, V>(d: Dict<K, V>, k: K, k': K)
    requires k' != k
    ensures Lookup(Del(d, k), k') == Lookup(d, k')
    decreases |d|
  {
    if d != [] {
      DelOther(d[1..], k, k');
      if d[0].0 != k {
        assert Del(d, k)[1..] == Del(d[1..], k);
      }
    }
  }

  lemma {:induction false} DelAbsent<K, V>(d: Dict<K, V>, k: K)
    requires !Has(d, k)
    ensures Del(d, k) == d
    decreases |d|
  {
    if d != [] {
      DelAbsent(d[1..], k);
    }
  }

  /** A dict is valid exactly when its first key does not recur and the rest is valid. */
  lemma ValidCons<K, V>(d: Dict<K, V>)
    requires d != []
    ensures Valid(d) <==> !Has(d[1..], d[0].0) && Valid(d[1..])
  {
    if Valid(d) {
      assert forall a, b :: 0 <= a < b < |d| - 1 ==> d[1..][a] == d[a + 1] && d[1..][b] == d[b + 1];
    }
    if !Has(d[1..], d[0].0) && Valid(d[1..]) {
      forall i, j | 0 <= i < j < |d| ensures d[i].0 != d[j].0 {
        if i == 0 {
          assert d[1..][j - 1] == d[j];
        } else {
          assert d[1..][i - 1] == d[i] && d[1..][j - 1] == d[j];
        }
      }
    }
  }

  /** `d[k] = v` keeps a dict a dict. */
  lemma {:induction false} PutValid<K, V>(d: Dict<K, V>, k: K, v: V)
    requires Valid(d)
    ensures Valid(Put(d, k, v))
    decreases |d|
  {
    var r := Put(d, k, v);
    if d == [] {
    } else if d[0].0 == k {
      ValidCons(d);
      assert r[1..] == d[1..];
      ValidCons(r);
    } else {
      ValidCons(d);
      PutValid(d[1..], k, v);
      assert r[1..] == Put(d[1..], k, v);
      PutOther(d[1..], k, v, d[0].0);
      ValidCons(r);
    }
  }

  /** `del d[k]` keeps a dict a dict. */
  lemma {:induction false} DelValid<K, V>(d: Dict<K, V>, k: K)
    requires Valid(d)
    ensures Valid(Del(d, k))
    decreases |d|
  {
    if d != [] {
      ValidCons(d);
      DelValid(d[1..], k);
      if d[0].0 != k {
        var r := Del(d, k);
        assert r[1..] == Del(d[1..], k);
        DelOther(d[1..], k, d[0].0);
        ValidCons(r);
      }
    }
  }

  /** Index of the first entry satisfying `p`: `next((k for k, v in d.items() if p(k, v)), None)`. */
  function FirstIndex<K, V>(d: Dict<K, V>, p: (K, V) -> bool): (r: Option<nat>)
    ensures r.Some? ==> r.value < |d| && p(d[r.value].0, d[r.value].1)
    ensures r.Some? ==> forall j :: 0 <= j < r.value ==> !p(d[j].0, d[j].1)
    ensures r.None? ==> forall j :: 0 <= j < |d| ==> !p(d[j].0, d[j].1)
    decreases |d|
  {
    if d == [] then None
    else if p(d[0].0, d[0].1) then Some(0)
    else
      match FirstIndex(d[1..], p)
      case None => None
      case Some(i) => Some(i + 1)
  }

  /** Key of the first entry satisfying `p`. */
  function FirstKey<K, V>(d: Dict<K, V>, p: (K, V) -> bool): (r: Option<K>)
    ensures r.None? <==> forall j :: 0 <= j < |d| ==> !p(d[j].0, d[j].1)
    ensures r.Some? ==> exists i :: 0 <= i < |d| && d[i].0 == r.value && p(d[i].0, d[i].1)
  {
    match FirstIndex(d, p)
    case None => None
    case Some(i) => Some(d[i].0)
  }

  /** In a valid table, the entry `FirstKey` finds is the one `Lookup` returns for its key. */
  lemma FirstKeyLookup<K, V>(d: Dict<K, V>, p: (K, V) -> bool)
    requires Valid(d) && FirstKey(d, p).Some?
    ensures var k := FirstKey(d, p).value;
      Lookup(d, k).Some? && p(k, Lookup(d, k).value)
  {
    var i := FirstIndex(d, p).value;
    LookupAt(d, i);
  }
}
