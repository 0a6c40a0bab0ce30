/** Python dictionaries whose insertion order matters, as association lists: the pairs
    in insertion order, each key at most once. */
module Dicts {
  import opened Outcomes

  type Dict<V> = seq<(string, V)>

  function Keys<V>(d: Dict<V>): (ks: seq<string>)
    ensures |ks| == |d|
    ensures forall i :: 0 <= i < |d| ==> ks[i] == d[i].0
  {
    seq(|d|, i requires 0 <= i < |d| => d[i].0)
  }

  predicate UniqueKeys<V>(d: Dict<V>) {
    forall i, j :: 0 <= i < j < |d| ==> d[i].0 != d[j].0
  }

  /** `d.get(k)`. */
  function Lookup<V>(d: Dict<V>, k: string): Option<V>
    decreases |d|
  {
    if d == [] then None
    else if d[0].0 == k then Some(d[0].1)
    else Lookup(d[1..], k)
  }

  /** `get` finds exactly the keys the dictionary has. */
  lemma {:induction false} LookupKeys<V>(d: Dict<V>, k: string)
    ensures Lookup(d, k).None? <==> k !in Keys(d)
    decreases |d|
  {
    if d != [] {
      LookupKeys(d[1..], k);
      assert Keys(d) == [d[0].0] + Keys(d[1..]);
    }
  }

  /** In a dictionary, the value stored under a key is the one `get` returns. */
  lemma {:induction false} LookupAt<V>(d: Dict<V>, i: nat)
    requires UniqueKeys(d) && i < |d|
    ensures Lookup(d, d[i].0) == Some(d[i].1)
    decreases i
  {
    if i > 0 {
      assert d[1..][i - 1] == d[i];
      LookupAt(d[1..], i - 1);
    }
  }

  /** `d[k] = v`: an existing key keeps its place and takes the new value; a new key is
      appended. */
  function Set<V>(d: Dict<V>, k: string, v: V): (r: Dict<V>)
    ensures |r| == |d| || |r| == |d| + 1
    decreases |d|
  {
    if d == [] then [(k, v)]
    else if d[0].0 == k then [(k, v)] + d[1..]
    else [d[0]] + Set(d[1..], k, v)
  }

  /** `d[k] = v` keeps the key order, and a new key goes last. */
  lemma {:induction false} SetKeys<V>(d: Dict<V>, k: string, v: V)
    ensures k in Keys(d) ==> Keys(Set(d, k, v)) == Keys(d)
    ensures k !in Keys(d) ==> Keys(Set(d, k, v)) == Keys(d) + [k]
    decreases |d|
  {
    if d != [] {
      assert Keys(d) == [d[0].0] + Keys(d[1..]);
      if d[0].0 != k {
        var t := Set(d[1..], k, v);
        SetKeys(d[1..], k, v);
        assert Keys([d[0]] + t) == [d[0].0] + Keys(t);
      } else {
        assert Keys(Set(d, k, v)) == [k] + Keys(d[1..]);
      }
    }
  }

  /** After `d[k] = v`, `k` gives `v` and every other key what it gave before. */
  lemma {:induction false} SetLookup<V>(d: Dict<V>, k: string, v: V, q: string)
    ensures Lookup(Set(d, k, v), q) == if q == k then Some(v) else Lookup(d, q)
    decreases |d|
  {
    if d != [] && d[0].0 != k {
      SetLookup(d[1..], k, v, q);
    }
  }

  /** `d[k] = v` keeps every key at most once. */
  lemma SetUnique<V>(d: Dict<V>, k: string, v: V)
    requires UniqueKeys(d)
    ensures UniqueKeys(Set(d, k, v))
  {
    var r := Set(d, k, v);
    SetKeys(d, k, v);
    forall i, j | 0 <= i < j < |r| ensures r[i].0 != r[j].0 {
      assert Keys(r)[i] == r[i].0 && Keys(r)[j] == r[j].0;
      if j >= |d| {
        assert Keys(r)[i] == Keys(d)[i];
      } else {
        assert Keys(d)[i] == d[i].0 && Keys(d)[j] == d[j].0;
      }
    }
  }
}
