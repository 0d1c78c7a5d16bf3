/**
 * Python's `dict`: a finite map that remembers the order in which its keys
 * were first inserted. Overwriting an existing key keeps its position.
 */
module Dicts {

  datatype Dict<K(==), V> = Dict(keys: seq<K>, entries: map<K, V>)
  {
    /** Each key appears once in the insertion order, and the order lists exactly the mapped keys. */
    predicate Valid() {
      && (forall i, j :: 0 <= i < j < |keys| ==> keys[i] != keys[j])
      && (forall k :: k in entries ==> k in keys)
      && (forall i :: 0 <= i < |keys| ==> keys[i] in entries)
    }

    /** `len(d)` */
    function Len(): (n: nat) {
      |keys|
    }

    /** `d[k] = v` */
    function Put(k: K, v: V): (d: Dict<K, V>)
    {
      if k in entries then Dict(keys, entries[k := v]) else Dict(keys + [k], entries[k := v])
    }

    /**
     * After `d[k] = v`, `k` maps to `v`, every other key keeps its value, and
     * the keys already present keep their positions in the insertion order.
     */
    lemma PutSemantics(k: K, v: V)
      ensures k in Put(k, v).entries && Put(k, v).entries[k] == v
      ensures Put(k, v).entries.Keys == entries.Keys + {k}
      ensures Put(k, v).entries - {k} == entries - {k}
      ensures |keys| <= |Put(k, v).keys| && Put(k, v).keys[..|keys|] == keys
    {
    }

    /** Storing a new key appends it to the insertion order. */
    lemma PutNewKey(k: K, v: V)
      requires k !in entries
      ensures Put(k, v).keys == keys + [k]
    {
    }

    /** Storing a key keeps the dict invariant, and grows the dict by one exactly when the key is new. */
    lemma PutValid(k: K, v: V)
      requires Valid()
      ensures Put(k, v).Valid()
      ensures Put(k, v).Len() == if k in entries then Len() else Len() + 1
    {
    }
  }

  /** `{}` */
  function Empty<K(==), V>(): (d: Dict<K, V>)
    ensures d.Valid() && d.Len() == 0 && d.entries == map[]
  {
    Dict([], map[])
  }

  /** A sequence that agrees with a prefix of `u` still agrees after appending `u`'s next element. */
  lemma AppendAgrees<T>(t: seq<T>, x: T, u: seq<T>)
    requires |t| < |u| && x == u[|t|]
    requires forall i :: 0 <= i < |t| ==> t[i] == u[i]
    ensures forall i :: 0 <= i < |t| + 1 ==> (t + [x])[i] == u[i]
  {
  }

  /** Membership in a prefix one element longer, as the loops over keys extend it. */
  lemma PrefixStep<T>(s: seq<T>, n: nat, x: T)
    requires 0 < n <= |s|
    ensures x in s[..n] <==> x in s[..n - 1] || x == s[n - 1]
  {
    assert s[..n] == s[..n - 1] + [s[n - 1]];
  }
}
