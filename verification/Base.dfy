/** Small vocabulary shared by every part of the model. */
module Base {

  datatype Option<+T> = None | Some(value: T)

  /** One octet, as it appears in a Python `bytes` value. */
  type byte = b: int | 0 <= b < 256

  type bytes = seq<byte>

  ghost predicate Distinct<T>(items: seq<T>) {
    forall i, j | 0 <= i < j < |items| :: items[i] != items[j]
  }

  /** The numbers below n. */
  function Below(n: nat): (r: set<nat>)
    ensures forall j: nat :: j in r <==> j < n
    ensures |r| == n
  {
    if n == 0 then {} else Below(n - 1) + {n - 1}
  }

  /** The members of a full mesh of n members other than `me`. */
  function Others(n: nat, me: nat): (r: set<nat>)
    ensures forall j: nat :: j in r <==> j < n && j != me
    ensures me < n ==> |r| == n - 1
  {
    Below(n) - {me}
  }

  lemma SubsetSize<T>(a: set<T>, b: set<T>)
    requires a <= b
    ensures |a| <= |b|
    ensures |a| == |b| ==> a == b
  {
    assert b == a + (b - a);
    assert |b| == |a| + |b - a|;
    if |a| == |b| {
      assert b - a == {};
    }
  }
}
