/** Sums over the values of a finite map: what every page computes with
    `Object.values(m).reduce((sum, v) => sum + v, 0)`. */
module Tally {

  /** The sum of the values of `m`. `Object.values` visits integer keys in
      ascending order and string keys in insertion order; the sum does not
      depend on the order (MapSumRemove holds for every key). */
  ghost function MapSum<K>(m: map<K, int>): (s: int)
    ensures (forall k :: k in m ==> m[k] >= 0) ==> s >= 0
    decreases |m|
  {
    if m == map[] then 0
    else
      var k :| k in m;
      m[k] + MapSum(m - {k})
  }

  /** Any key can be taken out first: the sum is independent of the visiting order. */
  lemma {:induction false} MapSumRemove<K>(m: map<K, int>, k: K)
    requires k in m
    ensures MapSum(m) == m[k] + MapSum(m - {k})
    decreases |m|
  {
    var j :| j in m && MapSum(m) == m[j] + MapSum(m - {j});
    if j != k {
      MapSumRemove(m - {j}, k);
      MapSumRemove(m - {k}, j);
      assert m - {j} - {k} == m - {k} - {j};
    }
  }

  /** Writing one entry changes the sum by the new value alone; overwriting
      an existing entry swaps its old value for the new one. */
  lemma MapSumUpdate<K>(m: map<K, int>, k: K, v: int)
    ensures MapSum(m[k := v]) == MapSum(m - {k}) + v
    ensures k in m ==> MapSum(m[k := v]) == MapSum(m) - m[k] + v
  {
    MapSumRemove(m[k := v], k);
    assert m[k := v] - {k} == m - {k};
    if k in m {
      MapSumRemove(m, k);
    }
  }

  /** When every value lies in [lo, hi], the sum lies in [lo * |m|, hi * |m|]. */
  lemma {:induction false} MapSumBounds<K>(m: map<K, int>, lo: int, hi: int)
    requires forall k :: k in m ==> lo <= m[k] <= hi
    ensures lo * |m| <= MapSum(m) <= hi * |m|
    decreases |m|
  {
    if m != map[] {
      var k :| k in m;
      MapSumRemove(m, k);
      MapSumBounds(m - {k}, lo, hi);
      var n := |m - {k}|;
      assert |m| == n + 1;
      MulSucc(lo, n);
      MulSucc(hi, n);
    }
  }

  lemma MulSucc(a: int, n: nat)
    ensures a * (n + 1) == a * n + a
  {
  }

  ghost predicate Distinct<K>(s: seq<K>) {
    forall i, j :: 0 <= i < j < |s| ==> s[i] != s[j]
  }

  /** The sum of `m`'s values taken in the order of `keys`: the reference
      definition that a fixed question order gives. */
  function SumAlong<K>(m: map<K, int>, keys: seq<K>): int
    requires forall k :: k in keys ==> k in m
  {
    if keys == [] then 0 else m[keys[0]] + SumAlong(m, keys[1..])
  }

  lemma {:induction false} SumAlongFrame<K>(m1: map<K, int>, m2: map<K, int>, keys: seq<K>)
    requires forall k :: k in keys ==> k in m1 && k in m2 && m1[k] == m2[k]
    ensures SumAlong(m1, keys) == SumAlong(m2, keys)
  {
    if keys != [] {
      SumAlongFrame(m1, m2, keys[1..]);
    }
  }

  /** A map whose keys are exactly the distinct `keys` sums to the
      in-order sum: the unordered reduction agrees with the ordered one. */
  lemma {:induction false} MapSumAlong<K>(m: map<K, int>, keys: seq<K>)
    requires Distinct(keys)
    requires forall k :: k in m <==> k in keys
    ensures MapSum(m) == SumAlong(m, keys)
    decreases |keys|
  {
    if keys == [] {
      assert m == map[];
    } else {
      var k := keys[0];
      var rest := m - {k};
      MapSumRemove(m, k);
      forall x
        ensures x in rest <==> x in keys[1..]
      {
        if x in keys[1..] {
          var i :| 0 <= i < |keys[1..]| && keys[1..][i] == x;
          assert keys[i + 1] == x;
        }
        if x in keys && x != k {
          var i :| 0 <= i < |keys| && keys[i] == x;
          assert keys[1..][i - 1] == x;
        }
      }
      MapSumAlong(rest, keys[1..]);
      SumAlongFrame(rest, m, keys[1..]);
    }
  }

  /** When every value met along `keys` lies in [lo, hi], the in-order sum lies in [lo * |keys|, hi * |keys|]. */
  lemma {:induction false} SumAlongBounds<K>(m: map<K, int>, keys: seq<K>, lo: int, hi: int)
    requires forall k :: k in keys ==> k in m && lo <= m[k] <= hi
    ensures lo * |keys| <= SumAlong(m, keys) <= hi * |keys|
  {
    if keys != [] {
      SumAlongBounds(m, keys[1..], lo, hi);
      MulSucc(lo, |keys[1..]|);
      MulSucc(hi, |keys[1..]|);
    }
  }

  /** The reduction itself: one accumulator, one value added per step. */
  method SumValues<K>(m: map<K, int>) returns (total: int)
    ensures total == MapSum(m)
  {
    total := 0;
    var rest := m;
    while rest != map[]
      invariant total + MapSum(rest) == MapSum(m)
      decreases |rest|
    {
      var k :| k in rest;
      MapSumRemove(rest, k);
      total := total + rest[k];
      rest := rest - {k};
    }
  }
}
