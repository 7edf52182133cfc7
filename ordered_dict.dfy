/**
 * A Python `dict` whose iteration order matters: a sequence of key/value
 * pairs in insertion order. Assigning to a present key replaces its value
 * where it stands; assigning to an absent key appends it.
 */
module OrderedDict {
  import opened Wrappers

  type Dict<K, V> = seq<(K, V)>

  /** `list(d.keys())`. */
  function Keys<K, V>(d: Dict<K, V>): (ks: seq<K>)
    ensures |ks| == |d|
    ensures forall i :: 0 <= i < |d| ==> ks[i] == d[i].0
  {
    seq(|d|, i requires 0 <= i < |d| => d[i].0)
  }

  /** No key occurs twice: the invariant of every Python dict. */
  ghost predicate NoDupKeys<K, V>(d: Dict<K, V>)
  {
    forall i, j :: 0 <= i < j < |d| ==> d[i].0 != d[j].0
  }

  /** `d.get(k)`. */
  function Get<K(==), V>(d: Dict<K, V>, k: K): (r: Option<V>)
    ensures r.None? <==> k !in Keys(d)
    ensures r.Some? ==> exists i :: 0 <= i < |d| && d[i] == (k, r.value)
  {
    if d == [] then None
    else if d[0].0 == k then Some(d[0].1)
    else
      var r := Get(d[1..], k);
      assert Keys(d) == [d[0].0] + Keys(d[1..]);
      if r.Some? then
        ghost var i :| 0 <= i < |d[1..]| && d[1..][i] == (k, r.value);
        assert d[i + 1] == (k, r.value);
        r
      else r
  }

  /** `d[k] = v`. */
  function Put<K(==), V>(d: Dict<K, V>, k: K, v: V): (r: Dict<K, V>)
    ensures Keys(r) == if k in Keys(d) then Keys(d) else Keys(d) + [k]
    ensures forall i :: 0 <= i < |d| && d[i].0 != k ==> r[i] == d[i]
  {
    if d == [] then [(k, v)]
    else if d[0].0 == k then
      KeysCons((k, v), d[1..]);
      KeysCons(d[0], d[1..]);
      assert d == [d[0]] + d[1..];
      [(k, v)] + d[1..]
    else
      var rest := Put(d[1..], k, v);
      KeysCons(d[0], d[1..]);
      KeysCons(d[0], rest);
      assert d == [d[0]] + d[1..];
      [d[0]] + rest
  }

  lemma KeysCons<K, V>(e: (K, V), d: Dict<K, V>)
    ensures Keys([e] + d) == [e.0] + Keys(d)
  {
  }

  /** After `d[k] = v`, looking up `k` gives `v` and every other key is unaffected. */
  lemma {:induction false} GetPut<K, V>(d: Dict<K, V>, k: K, v: V, k': K)
    ensures Get(Put(d, k, v), k') == if k' == k then Some(v) else Get(d, k')
  {
    if d != [] && d[0].0 != k {
      GetPut(d[1..], k, v, k');
    }
  }

  /** Assigning an absent key appends it. */
  lemma {:induction false} PutAbsent<K, V>(d: Dict<K, V>, k: K, v: V)
    requires k !in Keys(d)
    ensures Put(d, k, v) == d + [(k, v)]
  {
    if d != [] {
      assert Keys(d) == [d[0].0] + Keys(d[1..]);
      PutAbsent(d[1..], k, v);
      assert d == [d[0]] + d[1..];
    }
  }

  /** In a dict without duplicate keys, an entry's key does not occur before it. */
  lemma KeyNotBefore<K, V>(d: Dict<K, V>, i: nat)
    requires NoDupKeys(d) && i < |d|
    ensures d[i].0 !in Keys(d[..i])
  {
    forall j | 0 <= j < i ensures Keys(d[..i])[j] != d[i].0 {
      assert Keys(d[..i])[j] == d[j].0;
    }
  }

  /** Looking up in a concatenation finds the first part's entry first. */
  lemma {:induction false} GetAppend<K, V>(d1: Dict<K, V>, d2: Dict<K, V>, k: K)
    ensures Get(d1 + d2, k) == if k in Keys(d1) then Get(d1, k) else Get(d2, k)
  {
    if d1 != [] {
      assert Keys(d1) == [d1[0].0] + Keys(d1[1..]);
      assert (d1 + d2)[0] == d1[0];
      assert (d1 + d2)[1..] == d1[1..] + d2;
      if d1[0].0 != k {
        GetAppend(d1[1..], d2, k);
        assert Get(d1 + d2, k) == Get(d1[1..] + d2, k);
        assert Get(d1, k) == Get(d1[1..], k);
      }
    } else {
      assert d1 + d2 == d2;
    }
  }

  /** In a dict without duplicate keys, looking up an entry's key finds that entry's value. */
  lemma {:induction false} GetAt<K, V>(d: Dict<K, V>, i: nat)
    requires NoDupKeys(d) && i < |d|
    ensures Get(d, d[i].0) == Some(d[i].1)
  {
    if i > 0 {
      assert d[1..][i - 1] == d[i];
      GetAt(d[1..], i - 1);
    }
  }

  /** Assigning the next entry of a dict to its prefix extends the prefix by that entry. */
  lemma PutNext<K, V>(d: Dict<K, V>, i: nat)
    requires NoDupKeys(d) && i < |d|
    ensures Put(d[..i], d[i].0, d[i].1) == d[..i + 1]
  {
    KeyNotBefore(d, i);
    PutAbsent(d[..i], d[i].0, d[i].1);
    assert d[..i + 1] == d[..i] + [d[i]];
  }

  /** Assignment keeps the keys distinct. */
  lemma PutNoDup<K, V>(d: Dict<K, V>, k: K, v: V)
    requires NoDupKeys(d)
    ensures NoDupKeys(Put(d, k, v))
  {
    var r := Put(d, k, v);
    forall i, j | 0 <= i < j < |r| ensures r[i].0 != r[j].0 {
      assert Keys(r)[i] == r[i].0 && Keys(r)[j] == r[j].0;
    }
  }

  /** The dict as a plain map from keys to values. */
  function ToMap<K(==), V>(d: Dict<K, V>): (m: map<K, V>)
    ensures m.Keys == set i | 0 <= i < |d| :: d[i].0
    ensures forall k :: k in m ==> Get(d, k) == Some(m[k])
  {
    if d == [] then map[]
    else
      var m := ToMap(d[1..]);
      assert Keys(d) == [d[0].0] + Keys(d[1..]);
      ghost var tail := set i | 0 <= i < |d[1..]| :: d[1..][i].0;
      assert (set i | 0 <= i < |d| :: d[i].0) == {d[0].0} + tail by {
        forall x | x in (set i | 0 <= i < |d| :: d[i].0) ensures x in {d[0].0} + tail {
          var i :| 0 <= i < |d| && d[i].0 == x;
          if i > 0 { assert d[1..][i - 1].0 == x; }
        }
      }
      m[d[0].0 := d[0].1]
  }
}
