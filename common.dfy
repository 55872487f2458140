/**
 * Small helpers shared by the model: an Option type for JavaScript's
 * null/undefined, and models of the two array library calls the bot relies
 * on, `Array.prototype.indexOf` and `Array.prototype.sort` with a
 * descending comparator (`(a, b) => key(b) - key(a)`), which is stable.
 */
module Common {

  datatype Option<+T> = None | Some(value: T)

  function Min(a: int, b: int): int
  {
    if a <= b then a else b
  }

  /** No element occurs twice. */
  ghost predicate Distinct<T>(xs: seq<T>)
  {
    forall i, j :: 0 <= i < j < |xs| ==> xs[i] != xs[j]
  }

  /** Keys never increase from left to right. */
  ghost predicate NonIncreasing<T>(xs: seq<T>, key: T -> int)
  {
    forall i, j :: 0 <= i < j < |xs| ==> key(xs[j]) <= key(xs[i])
  }

  /** `xs.indexOf(x)`: the first position of `x`, or -1 when it is absent. */
  function IndexOf<T(==)>(xs: seq<T>, x: T): (r: int)
    ensures -1 <= r < |xs|
    ensures r == -1 <==> x !in xs
    ensures 0 <= r ==> xs[r] == x && x !in xs[..r]
  {
    if xs == [] then -1
    else if xs[0] == x then 0
    else
      var r := IndexOf(xs[1..], x);
      assert xs[1..][..if r < 0 then 0 else r] == xs[1..1 + (if r < 0 then 0 else r)];
      if r == -1 then -1 else r + 1
  }

  /** The first occurrence of an element of a duplicate-free sequence is its position. */
  lemma IndexOfDistinct<T>(xs: seq<T>, k: int)
    requires Distinct(xs) && 0 <= k < |xs|
    ensures IndexOf(xs, xs[k]) == k
  {
  }

  /** Appending a new element keeps a sequence duplicate-free. */
  lemma DistinctAppend<T>(xs: seq<T>, x: T)
    requires Distinct(xs) && x !in xs
    ensures Distinct(xs + [x])
  {
  }

  /**
   * Inserts `x` in front of the first element whose key is not larger than
   * its own, so that `x` precedes every element of equal key.
   */
  function InsertDesc<T>(x: T, xs: seq<T>, key: T -> int): (r: seq<T>)
    ensures multiset(r) == multiset(xs) + multiset{x}
    ensures |r| == |xs| + 1
  {
    if xs == [] || key(xs[0]) <= key(x) then
      [x] + xs
    else
      assert xs == [xs[0]] + xs[1..];
      [xs[0]] + InsertDesc(x, xs[1..], key)
  }

  lemma {:induction false} InsertDescSorted<T>(x: T, xs: seq<T>, key: T -> int)
    requires NonIncreasing(xs, key)
    ensures NonIncreasing(InsertDesc(x, xs, key), key)
    ensures InsertDesc(x, xs, key)[0] == x || (xs != [] && InsertDesc(x, xs, key)[0] == xs[0])
  {
    if xs == [] || key(xs[0]) <= key(x) {
      var r := [x] + xs;
      forall i, j | 0 <= i < j < |r| ensures key(r[j]) <= key(r[i]) {
        if i > 0 {
          assert r[i] == xs[i - 1] && r[j] == xs[j - 1];
        } else {
          assert r[j] == xs[j - 1];
        }
      }
    } else {
      var tail := xs[1..];
      assert NonIncreasing(tail, key);
      InsertDescSorted(x, tail, key);
      var rest := InsertDesc(x, tail, key);
      var r := [xs[0]] + rest;
      assert key(rest[0]) <= key(xs[0]);
      forall i, j | 0 <= i < j < |r| ensures key(r[j]) <= key(r[i]) {
        if i > 0 {
          assert r[i] == rest[i - 1] && r[j] == rest[j - 1];
        } else if j > 1 {
          assert r[j] == rest[j - 1];
          assert key(rest[j - 1]) <= key(rest[0]);
        }
      }
    }
  }

  lemma DistinctByMultiset<T>(xs: seq<T>)
    ensures Distinct(xs) <==> forall y :: multiset(xs)[y] <= 1
  {
    if Distinct(xs) {
      DistinctHasSmallCounts(xs);
    } else {
      var i, j :| 0 <= i < j < |xs| && xs[i] == xs[j];
      var y := xs[i];
      assert xs == xs[..j] + [xs[j]] + xs[j + 1..];
      assert y in xs[..j];
      assert multiset(xs) == multiset(xs[..j]) + multiset{y} + multiset(xs[j + 1..]);
      assert multiset(xs)[y] >= 2;
    }
  }

  lemma {:induction false} DistinctHasSmallCounts<T>(xs: seq<T>)
    requires Distinct(xs)
    ensures forall y :: multiset(xs)[y] <= 1
  {
    if xs != [] {
      var tail := xs[1..];
      assert Distinct(tail);
      DistinctHasSmallCounts(tail);
      assert xs == [xs[0]] + tail;
      assert xs[0] !in tail;
      assert multiset(xs) == multiset{xs[0]} + multiset(tail);
    }
  }

  /** A permutation of a duplicate-free sequence is duplicate-free. */
  lemma PermutationDistinct<T>(xs: seq<T>, ys: seq<T>)
    requires multiset(xs) == multiset(ys) && Distinct(xs)
    ensures Distinct(ys)
  {
    DistinctByMultiset(xs);
    DistinctByMultiset(ys);
  }

  /**
   * Stable sort into non-increasing key order: the front element is
   * inserted before every later element of equal key.
   */
  function SortDesc<T>(xs: seq<T>, key: T -> int): (r: seq<T>)
    ensures multiset(r) == multiset(xs)
    ensures |r| == |xs|
  {
    if xs == [] then []
    else
      assert xs == [xs[0]] + xs[1..];
      InsertDesc(xs[0], SortDesc(xs[1..], key), key)
  }

  lemma {:induction false} SortDescSorted<T>(xs: seq<T>, key: T -> int)
    ensures NonIncreasing(SortDesc(xs, key), key)
  {
    if xs != [] {
      SortDescSorted(xs[1..], key);
      InsertDescSorted(xs[0], SortDesc(xs[1..], key), key);
    }
  }

  /** Inserting `x` keeps the relative order of the other elements. */
  lemma {:induction false} InsertDescKeepsOrder<T>(x: T, r: seq<T>, key: T -> int, a: T, b: T)
    requires a in r && b in r && a != x && b != x
    requires IndexOf(r, a) < IndexOf(r, b)
    ensures IndexOf(InsertDesc(x, r, key), a) < IndexOf(InsertDesc(x, r, key), b)
  {
    var ins := InsertDesc(x, r, key);
    assert a in multiset(ins) && b in multiset(ins);
    if key(r[0]) <= key(x) {
      assert ins[1..] == r;
    } else if a != r[0] {
      assert ins[1..] == InsertDesc(x, r[1..], key);
      InsertDescKeepsOrder(x, r[1..], key, a, b);
    }
  }

  /** Inserting `x` puts it before every other element of equal key. */
  lemma {:induction false} InsertDescBeforeEqual<T>(x: T, r: seq<T>, key: T -> int, b: T)
    requires b in r && b != x && key(b) == key(x)
    ensures IndexOf(InsertDesc(x, r, key), x) < IndexOf(InsertDesc(x, r, key), b)
  {
    var ins := InsertDesc(x, r, key);
    assert b in multiset(ins);
    if key(r[0]) > key(x) {
      assert ins[1..] == InsertDesc(x, r[1..], key);
      assert x in multiset(ins[1..]);
      InsertDescBeforeEqual(x, r[1..], key, b);
    }
  }

  /**
   * `SortDesc` is stable: of two elements of equal key in a duplicate-free
   * input, the earlier one stays in front.
   */
  lemma {:induction false} SortDescStable<T>(xs: seq<T>, key: T -> int, i: int, j: int)
    requires Distinct(xs) && 0 <= i < j < |xs| && key(xs[i]) == key(xs[j])
    ensures IndexOf(SortDesc(xs, key), xs[i]) < IndexOf(SortDesc(xs, key), xs[j])
  {
    var tail := xs[1..];
    var r := SortDesc(tail, key);
    assert xs[j] == tail[j - 1] && xs[j] in multiset(r);
    if i == 0 {
      InsertDescBeforeEqual(xs[0], r, key, xs[j]);
    } else {
      assert xs[i] == tail[i - 1] && xs[i] in multiset(r);
      SortDescStable(tail, key, i - 1, j - 1);
      InsertDescKeepsOrder(xs[0], r, key, xs[i], xs[j]);
    }
  }

  /** Membership survives a permutation. */
  lemma MultisetMembership<T>(xs: seq<T>, ys: seq<T>, y: T)
    requires multiset(xs) == multiset(ys)
    ensures y in xs <==> y in ys
  {
    assert y in xs <==> y in multiset(xs);
    assert y in ys <==> y in multiset(ys);
  }

  /**
   * The next key a `for ... in` loop visits: some element of the keys not
   * yet visited (the model does not fix the engine's key order).
   */
  method Choose<T>(s: set<T>) returns (x: T)
    requires s != {}
    ensures x in s
  {
    x :| x in s;
  }
}
