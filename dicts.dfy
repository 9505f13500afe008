// Python dictionaries whose iteration order the programs depend on
// (OrderedDict, and plain dicts read in the order they were filled), as
// sequences of key/value pairs with distinct keys.
module Dicts {
  import opened Wrappers

  /** `d.get(k)`: the value of the first pair with key `k`. */
  function Get<V>(d: seq<(string, V)>, k: string): Option<V>
    decreases |d|
  {
    if d == [] then None
    else if d[0].0 == k then Some(d[0].1)
    else Get(d[1..], k)
  }

  /** `d[k] = v`: an existing key keeps its position, a new key goes last. */
  function Store<V>(d: seq<(string, V)>, k: string, v: V): seq<(string, V)>
    decreases |d|
  {
    if d == [] then [(k, v)]
    else if d[0].0 == k then [(k, v)] + d[1..]
    else [d[0]] + Store(d[1..], k, v)
  }

  /** After `d[k] = v`, `k` maps to `v`, every other key is unchanged, and the size grows only for a new key. */
  lemma {:induction false} StoreFacts<V>(d: seq<(string, V)>, k: string, v: V)
    ensures Get(Store(d, k, v), k) == Some(v)
    ensures forall k2 :: k2 != k ==> Get(Store(d, k, v), k2) == Get(d, k2)
    ensures |Store(d, k, v)| == if Get(d, k).Some? then |d| else |d| + 1
    decreases |d|
  {
    if d != [] && d[0].0 != k {
      StoreFacts(d[1..], k, v);
      assert Store(d, k, v)[1..] == Store(d[1..], k, v);
    }
  }

  /** `d.keys()`, in order. */
  function Keys<V>(d: seq<(string, V)>): (r: seq<string>)
    ensures |r| == |d|
    ensures forall i :: 0 <= i < |d| ==> r[i] == d[i].0
  {
    seq(|d|, i requires 0 <= i < |d| => d[i].0)
  }

  /** A key is present exactly when it is one of the keys. */
  lemma {:induction false} GetKeys<V>(d: seq<(string, V)>, k: string)
    ensures Get(d, k).Some? <==> k in Keys(d)
    decreases |d|
  {
    if d != [] {
      GetKeys(d[1..], k);
      assert Keys(d) == [d[0].0] + Keys(d[1..]);
    }
  }

  /** Storing a key that is not there yet appends it after the existing keys. */
  lemma {:induction false} StoreNewKey<V>(d: seq<(string, V)>, k: string, v: V)
    requires Get(d, k).None?
    ensures Store(d, k, v) == d + [(k, v)]
    decreases |d|
  {
    if d != [] {
      StoreNewKey(d[1..], k, v);
    }
  }

  /** Storing twice under one key is storing the second value: the key keeps the position the first store gave it. */
  lemma {:induction false} StoreTwice<V>(d: seq<(string, V)>, k: string, v: V, w: V)
    ensures Store(Store(d, k, v), k, w) == Store(d, k, w)
    decreases |d|
  {
    if d != [] && d[0].0 != k {
      StoreTwice(d[1..], k, v, w);
      assert Store(d, k, v)[1..] == Store(d[1..], k, v);
    }
  }

  /** Storing never moves the first key. */
  lemma StoreKeepsFirst<V>(d: seq<(string, V)>, k: string, v: V)
    requires d != []
    ensures Store(d, k, v) != [] && Store(d, k, v)[0].0 == d[0].0
  {
  }
}
