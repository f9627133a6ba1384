/** A Python dict: a finite map that remembers the order its keys were inserted in. */
module PyDict {
  import opened Base

  datatype Dict<K(==), V> = Dict(keys: seq<K>, at: map<K, V>) {

    ghost predicate Valid() {
      && Distinct(keys)
      && (forall k | k in keys :: k in at)
      && (forall k | k in at :: k in keys)
    }

    /** `d[k] = v`: an existing key keeps its place. */
    function Put(k: K, v: V): (r: Dict<K, V>)
      requires Valid()
      ensures r.Valid() && r.at == at[k := v]
    {
      Dict(if k in at then keys else keys + [k], at[k := v])
    }

    /** `d.pop(k, None)`. */
    function Pop(k: K): (r: Dict<K, V>)
      requires Valid()
      ensures r.Valid() && r.at == at - {k}
    {
      WithoutKeeps(keys, k);
      Dict(Without(keys, k), at - {k})
    }
  }

  function Without<K(==)>(keys: seq<K>, k: K): (r: seq<K>)
    ensures forall x | x in r :: x in keys && x != k
    ensures forall x | x in keys && x != k :: x in r
  {
    if keys == [] then []
    else
      assert keys == [keys[0]] + keys[1..];
      if keys[0] == k then Without(keys[1..], k)
      else [keys[0]] + Without(keys[1..], k)
  }

  lemma {:induction false} WithoutKeeps<K>(keys: seq<K>, k: K)
    requires Distinct(keys)
    ensures Distinct(Without(keys, k))
  {
    if keys != [] {
      WithoutKeeps(keys[1..], k);
      var rest := Without(keys[1..], k);
      assert keys[0] !in rest;
      assert Distinct([keys[0]] + rest);
    }
  }

  /** A new key goes to the end and a known one keeps its place; a popped one leaves the others in order. */
  lemma OrderKept<K, V>(d: Dict<K, V>, before: seq<K>, k: K, after: seq<K>, v: V)
    requires d.Valid() && k !in before && k !in after
    ensures d.keys == before + [k] + after ==>
              d.Put(k, v).keys == before + [k] + after && d.Pop(k).keys == before + after
    ensures k !in d.at ==> d.Put(k, v).keys == d.keys + [k] && d.Pop(k).keys == d.keys
  {
    WithoutAt(before, k, after);
    if k !in d.at {
      NotWithout(d.keys, k);
    }
  }

  lemma {:induction false} NotWithout<K>(keys: seq<K>, k: K)
    requires k !in keys
    ensures Without(keys, k) == keys
  {
    if keys != [] {
      NotWithout(keys[1..], k);
    }
  }

  lemma {:induction false} WithoutAt<K>(before: seq<K>, k: K, after: seq<K>)
    requires k !in before && k !in after
    ensures Without(before + [k] + after, k) == before + after
  {
    var keys := before + [k] + after;
    if before == [] {
      assert keys[1..] == after && before + after == after;
      NotWithout(after, k);
    } else {
      assert keys[1..] == before[1..] + [k] + after;
      WithoutAt(before[1..], k, after);
    }
  }

  lemma PutPop<K, V>(d: Dict<K, V>, k: K, v: V)
    requires d.Valid() && k in d.at
    ensures d.Put(k, v).Pop(k) == d.Pop(k)
  {
    assert d.Put(k, v).Pop(k).at == d.Pop(k).at;
  }
}
