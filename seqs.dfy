/** Sequence operations shared by the list logic: `Array.prototype.filter`,
    `reduce` to a sum, and a stable sort by an integer key. */
module Seqs {

  /** `xs.filter(p)`. */
  function Filter<T>(xs: seq<T>, p: T -> bool): (r: seq<T>)
    ensures |r| <= |xs|
  {
    if xs == [] then [] else (if p(xs[0]) then [xs[0]] else []) + Filter(xs[1..], p)
  }

  /** `ys` can be obtained from `xs` by deleting elements (order is kept). */
  predicate IsSubsequence<T(==)>(ys: seq<T>, xs: seq<T>)
    decreases |xs|
  {
    if ys == [] then true
    else if xs == [] then false
    else if ys[0] == xs[0] then IsSubsequence(ys[1..], xs[1..])
    else IsSubsequence(ys, xs[1..])
  }

  /** The filter keeps exactly the elements satisfying `p`, with their multiplicity. */
  lemma {:induction false} FilterCount<T>(xs: seq<T>, p: T -> bool, x: T)
    ensures multiset(Filter(xs, p))[x] == if p(x) then multiset(xs)[x] else 0
  {
    if xs != [] {
      FilterCount(xs[1..], p, x);
      assert xs == [xs[0]] + xs[1..];
    }
  }

  lemma FilterMembers<T>(xs: seq<T>, p: T -> bool)
    ensures forall x :: x in Filter(xs, p) <==> x in xs && p(x)
  {
    forall x ensures x in Filter(xs, p) <==> x in xs && p(x) {
      FilterCount(xs, p, x);
    }
  }

  /** The filter only deletes: its result is a subsequence of its input. */
  lemma {:induction false} FilterIsSubsequence<T>(xs: seq<T>, p: T -> bool)
    ensures IsSubsequence(Filter(xs, p), xs)
  {
    if xs != [] {
      FilterIsSubsequence(xs[1..], p);
      var r := Filter(xs[1..], p);
      if !p(xs[0]) {
        assert Filter(xs, p) == r;
        if r != [] {
          FilterMembers(xs[1..], p);
          assert r[0] in r;
          assert r[0] != xs[0];
        }
      }
    }
  }

  /** A filter that every element passes changes nothing. */
  lemma {:induction false} FilterAll<T>(xs: seq<T>, p: T -> bool)
    requires forall i :: 0 <= i < |xs| ==> p(xs[i])
    ensures Filter(xs, p) == xs
  {
    if xs != [] {
      FilterAll(xs[1..], p);
      assert xs == [xs[0]] + xs[1..];
    }
  }

  /** The filter comes out empty exactly when no element passes. */
  lemma FilterEmpty<T>(xs: seq<T>, p: T -> bool)
    ensures Filter(xs, p) == [] <==> forall i :: 0 <= i < |xs| ==> !p(xs[i])
  {
    FilterMembers(xs, p);
    if Filter(xs, p) != [] {
      var r := Filter(xs, p);
      assert r[0] in r;
    }
  }

  /** `xs.reduce((sum, x) => sum + f(x), 0)`. */
  function Sum<T>(xs: seq<T>, f: T -> int): int {
    if xs == [] then 0 else f(xs[0]) + Sum(xs[1..], f)
  }

  /** A sum over everything is the sum over the part a filter keeps plus the
      sum over the part it drops. */
  lemma {:induction false} SumSplit<T>(xs: seq<T>, f: T -> int, p: T -> bool, q: T -> bool)
    requires forall x :: q(x) == !p(x)
    ensures Sum(xs, f) == Sum(Filter(xs, p), f) + Sum(Filter(xs, q), f)
  {
    if xs != [] {
      SumSplit(xs[1..], f, p, q);
      var a, b := Filter(xs, p), Filter(xs, q);
      if p(xs[0]) {
        assert a == [xs[0]] + Filter(xs[1..], p) && b == Filter(xs[1..], q);
        assert a[1..] == Filter(xs[1..], p);
      } else {
        assert b == [xs[0]] + Filter(xs[1..], q) && a == Filter(xs[1..], p);
        assert b[1..] == Filter(xs[1..], q);
      }
    }
  }

  /** Taking out the term at `j`. */
  lemma {:induction false} SumRemove<T>(ys: seq<T>, j: nat, f: T -> int)
    requires j < |ys|
    ensures Sum(ys, f) == f(ys[j]) + Sum(ys[..j] + ys[j + 1..], f)
  {
    if j == 0 {
      assert ys[..0] + ys[1..] == ys[1..];
    } else {
      var t := ys[1..];
      SumRemove(t, j - 1, f);
      var rest := ys[..j] + ys[j + 1..];
      assert rest[0] == ys[0];
      assert rest[1..] == t[..j - 1] + t[j..];
    }
  }

  /** Matching the head of `xs` with `ys[j]` leaves two permutations. */
  lemma MultisetRemove<T>(xs: seq<T>, ys: seq<T>, j: nat)
    requires multiset(xs) == multiset(ys) && xs != [] && j < |ys| && ys[j] == xs[0]
    ensures multiset(xs[1..]) == multiset(ys[..j] + ys[j + 1..])
  {
    var rest := ys[..j] + ys[j + 1..];
    assert ys == ys[..j] + [ys[j]] + ys[j + 1..];
    assert xs == [xs[0]] + xs[1..];
    assert multiset(ys) == multiset(ys[..j]) + multiset{ys[j]} + multiset(ys[j + 1..]);
    assert multiset(rest) == multiset(ys[..j]) + multiset(ys[j + 1..]);
    forall y ensures multiset(xs[1..])[y] == multiset(rest)[y] {
      assert multiset(xs)[y] == multiset{xs[0]}[y] + multiset(xs[1..])[y];
    }
    assert multiset(xs[1..]) == multiset(rest);
  }

  /** A sum does not depend on the order of its terms. */
  lemma {:induction false} SumPermutation<T>(xs: seq<T>, ys: seq<T>, f: T -> int)
    requires multiset(xs) == multiset(ys)
    ensures Sum(xs, f) == Sum(ys, f)
    decreases |xs|
  {
    if xs == [] {
      assert |ys| == |multiset(ys)| == 0;
    } else {
      assert xs[0] in multiset(ys);
      var j :| 0 <= j < |ys| && ys[j] == xs[0];
      MultisetRemove(xs, ys, j);
      SumRemove(ys, j, f);
      SumPermutation(xs[1..], ys[..j] + ys[j + 1..], f);
    }
  }

  // ---------------------------------------------------------------- sort

  predicate SortedBy<T>(xs: seq<T>, key: T -> int) {
    forall i, j :: 0 <= i < j < |xs| ==> key(xs[i]) <= key(xs[j])
  }

  /** Inserts `x` before the first element whose key is not smaller. */
  function Insert<T>(x: T, xs: seq<T>, key: T -> int): (r: seq<T>)
    ensures multiset(r) == multiset(xs) + multiset{x}
  {
    if xs == [] || key(x) <= key(xs[0]) then [x] + xs
    else
      assert xs == [xs[0]] + xs[1..];
      [xs[0]] + Insert(x, xs[1..], key)
  }

  /** A sorted sequence stays sorted under a head no greater than its elements. */
  lemma SortedCons<T>(h: T, r: seq<T>, key: T -> int)
    requires SortedBy(r, key) && forall i :: 0 <= i < |r| ==> key(h) <= key(r[i])
    ensures SortedBy([h] + r, key)
  {
    var c := [h] + r;
    forall i, j | 0 <= i < j < |c| ensures key(c[i]) <= key(c[j]) {
      assert c[j] == r[j - 1];
      if i > 0 {
        assert c[i] == r[i - 1];
      }
    }
  }

  /** A lower bound on `x` and on every element of `xs` bounds the insertion. */
  lemma InsertBound<T>(x: T, xs: seq<T>, key: T -> int, b: int)
    requires b <= key(x) && forall i :: 0 <= i < |xs| ==> b <= key(xs[i])
    ensures forall i :: 0 <= i < |Insert(x, xs, key)| ==> b <= key(Insert(x, xs, key)[i])
  {
    var r := Insert(x, xs, key);
    forall i | 0 <= i < |r| ensures b <= key(r[i]) {
      assert r[i] in multiset(r);
      assert r[i] == x || r[i] in xs;
    }
  }

  /** Inserting into a sorted sequence keeps it sorted. */
  lemma {:induction false} InsertSorted<T>(x: T, xs: seq<T>, key: T -> int)
    requires SortedBy(xs, key)
    ensures SortedBy(Insert(x, xs, key), key)
  {
    if xs == [] || key(x) <= key(xs[0]) {
      SortedCons(x, xs, key);
    } else {
      InsertSorted(x, xs[1..], key);
      InsertBound(x, xs[1..], key, key(xs[0]));
      SortedCons(xs[0], Insert(x, xs[1..], key), key);
    }
  }

  /** The sort `Array.prototype.sort` performs with a comparator returning
      `key(a) - key(b)`. */
  function SortByKey<T>(xs: seq<T>, key: T -> int): (r: seq<T>)
    ensures SortedBy(r, key)
    ensures multiset(r) == multiset(xs)
  {
    if xs == [] then []
    else
      assert xs == [xs[0]] + xs[1..];
      InsertSorted(xs[0], SortByKey(xs[1..], key), key);
      Insert(xs[0], SortByKey(xs[1..], key), key)
  }
}
