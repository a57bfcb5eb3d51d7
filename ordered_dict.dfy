/**
  A JavaScript object used as a dictionary: the keys in the order they were
  first assigned, and the value currently stored under each key.
  Assigning `obj[k] = v` appends `k` to the order only when it is new.
 */
module OrderedDict {

  /** True when no element of `ks` occurs twice. */
  ghost predicate Distinct<K>(ks: seq<K>) {
    forall i, j :: 0 <= i < j < |ks| ==> ks[i] != ks[j]
  }

  /** `ks` with `k` appended, unless `k` is already in it. */
  function AddNew<K(==, !new)>(ks: seq<K>, k: K): (r: seq<K>)
    ensures forall x :: x in r <==> x in ks || x == k
    ensures |ks| <= |r| <= |ks| + 1
  {
    if k in ks then ks else ks + [k]
  }

  lemma AddNewDistinct<K(!new)>(ks: seq<K>, k: K)
    requires Distinct(ks)
    ensures Distinct(AddNew(ks, k))
  {
  }

  /** In a list without repeats, no element occurs before its own position. */
  lemma DistinctNotBefore<K>(ks: seq<K>, i: int)
    requires Distinct(ks)
    requires 0 <= i < |ks|
    ensures ks[i] !in ks[..i]
  {
  }

  datatype Dict<K(==, !new), V> = Dict(keys: seq<K>, entries: map<K, V>) {

    /** Every key is listed once, and exactly the keys that hold a value are listed. */
    ghost predicate Valid() {
      && Distinct(keys)
      && (forall k :: k in entries <==> k in keys)
    }

    /** The value stored under `k`, or `default` when `k` holds none (`obj[k] || default`). */
    function Get(k: K, default: V): V {
      if k in entries then entries[k] else default
    }

    /** `obj[k] = v`. */
    function Put(k: K, v: V): Dict<K, V> {
      Dict(AddNew(keys, k), entries[k := v])
    }
  }

  /** The object literal `{}`. */
  function Empty<K(==, !new), V>(): (d: Dict<K, V>)
    ensures d.Valid() && d.keys == [] && d.entries == map[]
  {
    Dict([], map[])
  }

  /**
    Assignment keeps a dictionary well formed, stores the new value, leaves
    every other key's value alone, and moves no key that was already there.
   */
  lemma PutFacts<K(!new), V>(d: Dict<K, V>, k: K, v: V)
    requires d.Valid()
    ensures d.Put(k, v).Valid()
    ensures d.Put(k, v).entries.Keys == d.entries.Keys + {k}
    ensures d.Put(k, v).entries[k] == v
    ensures forall x :: x in d.entries && x != k ==> d.Put(k, v).entries[x] == d.entries[x]
    ensures k in d.entries ==> d.Put(k, v).keys == d.keys
    ensures k !in d.entries ==> d.Put(k, v).keys == d.keys + [k]
  {
    AddNewDistinct(d.keys, k);
  }

  /** Assigning a key that is not there yet appends it to the order. */
  lemma PutNew<K(!new), V>(d: Dict<K, V>, k: K, v: V)
    requires d.Valid()
    requires k !in d.keys
    ensures d.Put(k, v).Valid()
    ensures d.Put(k, v).keys == d.keys + [k]
  {
    PutFacts(d, k, v);
  }

  /** Assigning a key that is already there keeps the order. */
  lemma PutExisting<K(!new), V>(d: Dict<K, V>, k: K, v: V)
    requires d.Valid()
    requires k in d.keys
    ensures d.Put(k, v).Valid()
    ensures d.Put(k, v).keys == d.keys
  {
    PutFacts(d, k, v);
  }

  /** Assignment keeps a dictionary well formed. */
  lemma PutValid<K(!new), V>(d: Dict<K, V>, k: K, v: V)
    requires d.Valid()
    ensures d.Put(k, v).Valid()
  {
    AddNewDistinct(d.keys, k);
  }
}
