/**
 * Sums of the values of a finite map. JavaScript sums such values by
 * iterating over an object's keys; the sum does not depend on the order,
 * so it is defined here by removing an arbitrary key.
 */
module MapSums {
  import opened Common

  /** Some key of a non-empty map. */
  ghost function Pick<K, V>(m: map<K, V>): (k: K)
    requires |m| > 0
    ensures k in m
  {
    var k :| k in m; k
  }

  ghost function SumInts<K>(m: map<K, int>): int
    decreases |m|
  {
    if |m| == 0 then 0
    else
      var k := Pick(m);
      assert |m - {k}| < |m| by {
        assert (m - {k}).Keys == m.Keys - {k};
      }
      m[k] + SumInts(m - {k})
  }

  ghost function SumReals<K>(m: map<K, real>): real
    decreases |m|
  {
    if |m| == 0 then 0.0
    else
      var k := Pick(m);
      assert |m - {k}| < |m| by {
        assert (m - {k}).Keys == m.Keys - {k};
      }
      m[k] + SumReals(m - {k})
  }

  /** The value under `k`, or 0 when `k` is absent (JavaScript's `m[k] || 0`). */
  function GetInt<K>(m: map<K, int>, k: K): int
  {
    if k in m then m[k] else 0
  }

  function GetReal<K>(m: map<K, real>, k: K): real
  {
    if k in m then m[k] else 0.0
  }

  /** Any key may be the one taken out first. */
  lemma {:induction false} SumIntsRemove<K>(m: map<K, int>, k: K)
    requires k in m
    ensures SumInts(m) == m[k] + SumInts(m - {k})
    decreases |m|
  {
    var j := Pick(m);
    if j != k {
      assert (m - {j}).Keys == m.Keys - {j};
      assert (m - {k}).Keys == m.Keys - {k};
      SumIntsRemove(m - {j}, k);
      SumIntsRemove(m - {k}, j);
      assert m - {j} - {k} == m - {k} - {j};
    }
  }

  lemma {:induction false} SumRealsRemove<K>(m: map<K, real>, k: K)
    requires k in m
    ensures SumReals(m) == m[k] + SumReals(m - {k})
    decreases |m|
  {
    var j := Pick(m);
    if j != k {
      assert (m - {j}).Keys == m.Keys - {j};
      assert (m - {k}).Keys == m.Keys - {k};
      SumRealsRemove(m - {j}, k);
      SumRealsRemove(m - {k}, j);
      assert m - {j} - {k} == m - {k} - {j};
    }
  }

  /** Overwriting one entry changes the sum by the difference. */
  lemma SumIntsUpdate<K>(m: map<K, int>, k: K, v: int)
    ensures SumInts(m[k := v]) == SumInts(m) - GetInt(m, k) + v
  {
    SumIntsRemove(m[k := v], k);
    RemoveAfterUpdate(m, k, v);
    if k in m {
      SumIntsRemove(m, k);
    } else {
      RemoveAbsent(m, k);
    }
  }

  lemma SumRealsUpdate<K>(m: map<K, real>, k: K, v: real)
    ensures SumReals(m[k := v]) == SumReals(m) - GetReal(m, k) + v
  {
    SumRealsRemove(m[k := v], k);
    RemoveAfterUpdate(m, k, v);
    if k in m {
      SumRealsRemove(m, k);
    } else {
      RemoveAbsent(m, k);
    }
  }

  lemma RemoveAfterUpdate<K, V>(m: map<K, V>, k: K, v: V)
    ensures m[k := v] - {k} == m - {k}
  {
  }

  lemma RemoveAbsent<K, V>(m: map<K, V>, k: K)
    requires k !in m
    ensures m - {k} == m
  {
  }

  /** A sum of non-negative values is non-negative. */
  lemma {:induction false} SumIntsNonNegative<K>(m: map<K, int>)
    requires forall k :: k in m ==> m[k] >= 0
    ensures SumInts(m) >= 0
    decreases |m|
  {
    if |m| > 0 {
      var k :| k in m;
      SumIntsRemove(m, k);
      assert (m - {k}).Keys == m.Keys - {k};
      SumIntsNonNegative(m - {k});
    }
  }

  /** A second write to the same key hides the first. */
  lemma UpdateTwice<K, V>(m: map<K, V>, k: K, a: V, b: V)
    ensures m[k := a][k := b] == m[k := b]
  {
  }

  /** Overriding with an empty map changes nothing. */
  lemma PlusEmpty<K, V>(m: map<K, V>, e: map<K, V>)
    requires e == map[]
    ensures m + e == m
  {
  }

  lemma PlusUpdate<K, V>(a: map<K, V>, b: map<K, V>, k: K, v: V)
    ensures (a + b)[k := v] == a + b[k := v]
  {
  }

  /** Overriding twice with the same map is overriding once. */
  lemma PlusAgain<K, V>(m: map<K, V>, a: map<K, V>)
    ensures m + a + a == m + a
  {
  }

  lemma PlusAssoc<K, V>(a: map<K, V>, b: map<K, V>, c: map<K, V>)
    ensures a + b + c == a + (b + c)
  {
  }

  /**
   * The values under the keys `ks`, in that order, an absent key counting
   * as 0: what a loop `for (k of ks) sum += m[k] || 0` computes.
   */
  function SumAlong<K>(m: map<K, int>, ks: seq<K>): int
  {
    if ks == [] then 0 else SumAlong(m, ks[..|ks| - 1]) + GetInt(m, ks[|ks| - 1])
  }

  ghost function Elements<K>(ks: seq<K>): set<K>
  {
    set k | k in ks
  }

  /** Along duplicate-free keys, the sum is the whole sum less the keys not visited. */
  lemma {:induction false} SumAlongRest<K>(m: map<K, int>, ks: seq<K>)
    requires Distinct(ks)
    ensures SumAlong(m, ks) + SumInts(m - Elements(ks)) == SumInts(m)
    decreases |ks|
  {
    if ks == [] {
      assert m - Elements(ks) == m;
    } else {
      RemoveSnoc(m, ks);
      SumAlongRest(m, ks[..|ks| - 1]);
      SumAlongRestStep(m, ks);
    }
  }

  lemma SumAlongRestStep<K>(m: map<K, int>, ks: seq<K>)
    requires Distinct(ks) && ks != []
    requires SumAlong(m, ks[..|ks| - 1]) + SumInts(m - Elements(ks[..|ks| - 1])) == SumInts(m)
    ensures SumAlong(m, ks) + SumInts(m - Elements(ks)) == SumInts(m)
  {
    var init, k := ks[..|ks| - 1], ks[|ks| - 1];
    var rest := m - Elements(init);
    RemoveSnoc(m, ks);
    if k in m {
      SumIntsRemove(rest, k);
    }
  }

  /** The keys left after visiting `ks` are those left after its prefix, less its last key. */
  lemma RemoveSnoc<K>(m: map<K, int>, ks: seq<K>)
    requires Distinct(ks) && ks != []
    ensures Distinct(ks[..|ks| - 1])
    ensures m - Elements(ks) == (m - Elements(ks[..|ks| - 1])) - {ks[|ks| - 1]}
    ensures ks[|ks| - 1] in m ==> ks[|ks| - 1] in m - Elements(ks[..|ks| - 1])
    ensures ks[|ks| - 1] !in m ==> m - Elements(ks) == m - Elements(ks[..|ks| - 1])
  {
    DistinctSnoc(ks);
  }

  /** Splitting the last key off a duplicate-free sequence. */
  lemma DistinctSnoc<K>(ks: seq<K>)
    requires Distinct(ks) && ks != []
    ensures Distinct(ks[..|ks| - 1])
    ensures ks[|ks| - 1] !in Elements(ks[..|ks| - 1])
    ensures Elements(ks) == Elements(ks[..|ks| - 1]) + {ks[|ks| - 1]}
  {
    var init, k := ks[..|ks| - 1], ks[|ks| - 1];
    assert ks == init + [k];
  }

  /** Visiting every key exactly once, in any order, gives the sum. */
  lemma SumAlongAll<K>(m: map<K, int>, ks: seq<K>)
    requires Distinct(ks) && forall k :: k in m <==> k in ks
    ensures SumAlong(m, ks) == SumInts(m)
  {
    SumAlongRest(m, ks);
    assert m - Elements(ks) == map[];
  }

  /** With no negative value, visiting some keys once each sums to at most the whole. */
  lemma SumAlongAtMost<K>(m: map<K, int>, ks: seq<K>)
    requires Distinct(ks) && forall k :: k in m ==> m[k] >= 0
    ensures SumAlong(m, ks) <= SumInts(m)
  {
    SumAlongRest(m, ks);
    SumIntsNonNegative(m - Elements(ks));
  }

  /**
   * Adds each value of `m` into `acc` under the same key, an absent key
   * counting as 0: `acc[k] = (acc[k] || 0) + m[k]` for every key of `m`.
   */
  function AddInto<K>(acc: map<K, int>, m: map<K, int>): map<K, int>
  {
    map k | k in acc.Keys + m.Keys :: GetInt(acc, k) + GetInt(m, k)
  }

  /** The entries of `m` under the keys in `ks`. */
  function Restrict<K, V>(m: map<K, V>, ks: set<K>): map<K, V>
  {
    map k | k in m && k in ks :: m[k]
  }

  /** Adding one more key of `m` into the running sums is one update of `acc`. */
  lemma AddIntoStep<K>(acc: map<K, int>, m: map<K, int>, done: set<K>, k: K)
    requires k in m && k !in done
    ensures AddInto(acc, Restrict(m, done + {k}))
         == AddInto(acc, Restrict(m, done))[k := GetInt(AddInto(acc, Restrict(m, done)), k) + m[k]]
  {
  }

  lemma AddIntoBounds<K>(acc: map<K, int>, m: map<K, int>)
    ensures AddInto(acc, Restrict(m, {})) == acc
    ensures Restrict(m, m.Keys) == m
  {
  }

  /** Adding a map into another adds up their sums. */
  lemma {:induction false} SumAddInto<K>(acc: map<K, int>, m: map<K, int>)
    ensures SumInts(AddInto(acc, m)) == SumInts(acc) + SumInts(m)
    decreases |m|
  {
    if |m| == 0 {
      AddIntoEmpty(acc, m);
    } else {
      var k := Pick(m);
      RemoveShrinks(m, k);
      SumAddInto(acc, m - {k});
      SumAddIntoRemove(acc, m, k);
      SumIntsRemove(m, k);
    }
  }

  lemma SumAddIntoRemove<K>(acc: map<K, int>, m: map<K, int>, k: K)
    requires k in m
    ensures SumInts(AddInto(acc, m)) == SumInts(AddInto(acc, m - {k})) + m[k]
  {
    AddIntoRemove(acc, m, k);
    SumAfterAdd(AddInto(acc, m), AddInto(acc, m - {k}), k, m[k]);
  }

  lemma AddIntoEmpty<K>(acc: map<K, int>, m: map<K, int>)
    requires |m| == 0
    ensures AddInto(acc, m) == acc && SumInts(m) == 0
  {
    assert m == map[];
  }

  /** Adding `x` to the value under `k` adds `x` to the sum. */
  lemma SumAddOne<K>(before: map<K, int>, k: K, x: int)
    ensures SumInts(before[k := GetInt(before, k) + x]) == SumInts(before) + x
  {
    SumIntsUpdate(before, k, GetInt(before, k) + x);
  }

  lemma SumAfterAdd<K>(after: map<K, int>, before: map<K, int>, k: K, x: int)
    requires after == before[k := GetInt(before, k) + x]
    ensures SumInts(after) == SumInts(before) + x
  {
    SumAddOne(before, k, x);
  }

  lemma AddIntoRemove<K>(acc: map<K, int>, m: map<K, int>, k: K)
    requires k in m
    ensures AddInto(acc, m) == AddInto(acc, m - {k})[k := GetInt(AddInto(acc, m - {k}), k) + m[k]]
  {
    var a, b := AddInto(acc, m), AddInto(acc, m - {k});
    var c := b[k := GetInt(b, k) + m[k]];
    assert a.Keys == c.Keys;
    forall j | j in a
      ensures a[j] == c[j]
    {
      if j != k {
        assert GetInt(m, j) == GetInt(m - {k}, j);
      }
    }
  }

  lemma RemoveShrinks<K, V>(m: map<K, V>, k: K)
    requires k in m
    ensures |m - {k}| < |m|
  {
    assert (m - {k}).Keys == m.Keys - {k};
  }
}
