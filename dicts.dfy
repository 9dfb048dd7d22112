/**
 * Python dictionaries keyed by strings: assigning to a new key appends it to
 * the iteration order, assigning to a present key overwrites the value and
 * leaves the key where it was.
 */
module Dicts {
  import opened Registry

  datatype Dict<V> = Dict(keys: seq<string>, values: map<string, V>)
  {
    /** The iteration order lists each key once, and exactly the mapped keys. */
    predicate Valid()
    {
      NoDup(keys) && (forall k | k in keys :: k in values) && (forall k | k in values :: k in keys)
    }

    /** `d[k] = v`. */
    function Put(k: string, v: V): (r: Dict<V>)
      requires Valid()
      ensures r.Valid()
      ensures r.values == values[k := v]
      ensures keys <= r.keys
      ensures k in values ==> r.keys == keys
      ensures k !in values ==> r.keys == keys + [k]
    {
      if k in values then Dict(keys, values[k := v]) else Dict(keys + [k], values[k := v])
    }

    /** `d.items()`, in iteration order. */
    function Items(): (items: seq<(string, V)>)
      requires Valid()
      ensures |items| == |keys|
      ensures forall i | 0 <= i < |items| :: items[i].0 == keys[i] && items[i].1 == values[keys[i]]
    {
      seq(|keys|, i requires 0 <= i < |keys| => (keys[i], values[keys[i]]))
    }
  }

  function Empty<V>(): (d: Dict<V>)
    ensures d.Valid() && |d.keys| == 0
  {
    Dict([], map[])
  }

  /** The keys of a sequence of items. */
  function ItemKeys<V>(items: seq<(string, V)>): (ks: seq<string>)
    ensures |ks| == |items| && forall i | 0 <= i < |items| :: ks[i] == items[i].0
  {
    seq(|items|, i requires 0 <= i < |items| => items[i].0)
  }

  /** No later element of `xs` than the one at `i` has the same key. */
  ghost predicate LastWithKey<T>(xs: seq<T>, key: T -> string, i: int)
    requires 0 <= i < |xs|
  {
    forall j | i < j < |xs| :: key(xs[j]) != key(xs[i])
  }

  /** `{key(x): val(x) for x in xs}` evaluated on top of `d`: one assignment per
      element, in order. */
  function FoldPut<T, V>(d: Dict<V>, xs: seq<T>, key: T -> string, val: T -> V): (r: Dict<V>)
    requires d.Valid()
    ensures r.Valid()
    ensures d.keys <= r.keys
    decreases |xs|
  {
    if |xs| == 0 then d else FoldPut(d.Put(key(xs[0]), val(xs[0])), xs[1..], key, val)
  }

  /** The keys of the result are those of `d` and those of the elements. */
  lemma {:induction false} FoldPutKeys<T, V>(d: Dict<V>, xs: seq<T>, key: T -> string, val: T -> V, k: string)
    requires d.Valid()
    ensures k in FoldPut(d, xs, key, val).values <==> k in d.values || exists i | 0 <= i < |xs| :: key(xs[i]) == k
    decreases |xs|
  {
    if |xs| > 0 {
      FoldPutKeys(d.Put(key(xs[0]), val(xs[0])), xs[1..], key, val, k);
      if exists i | 0 <= i < |xs| :: key(xs[i]) == k {
        var i :| 0 <= i < |xs| && key(xs[i]) == k;
        if i > 0 { assert key(xs[1..][i - 1]) == k; }
      }
    }
  }

  /** A key no element carries keeps its value from `d`. */
  lemma {:induction false} FoldPutKeeps<T, V>(d: Dict<V>, xs: seq<T>, key: T -> string, val: T -> V, k: string)
    requires d.Valid() && k in d.values
    requires forall i | 0 <= i < |xs| :: key(xs[i]) != k
    ensures k in FoldPut(d, xs, key, val).values && FoldPut(d, xs, key, val).values[k] == d.values[k]
    decreases |xs|
  {
    if |xs| > 0 {
      assert forall i | 0 <= i < |xs[1..]| :: xs[1..][i] == xs[i + 1];
      FoldPutKeeps(d.Put(key(xs[0]), val(xs[0])), xs[1..], key, val, k);
    }
  }

  /** Later elements overwrite earlier ones: a key ends up with the value of the
      last element that carries it. */
  lemma {:induction false} FoldPutLastWins<T, V>(d: Dict<V>, xs: seq<T>, key: T -> string, val: T -> V, i: int)
    requires d.Valid() && 0 <= i < |xs| && LastWithKey(xs, key, i)
    ensures key(xs[i]) in FoldPut(d, xs, key, val).values
    ensures FoldPut(d, xs, key, val).values[key(xs[i])] == val(xs[i])
    decreases |xs|
  {
    var d1 := d.Put(key(xs[0]), val(xs[0]));
    assert forall j | 0 <= j < |xs[1..]| :: xs[1..][j] == xs[j + 1];
    if i == 0 {
      FoldPutKeeps(d1, xs[1..], key, val, key(xs[0]));
    } else {
      FoldPutLastWins(d1, xs[1..], key, val, i - 1);
    }
  }
}
