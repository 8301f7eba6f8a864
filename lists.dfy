/**
 * The list operations the aggregator is built from: `filter`, `map`,
 * summing with `reduce`, and `Array.prototype.sort` with a numeric
 * comparator.
 *
 * Every grouped view of the dashboard ends with a sort by one number (a
 * profit, an amount, a month position). `SortBy` sorts by ascending key;
 * a descending sort is a sort by the negated key.
 */
module Lists {

  /** `s.filter(p)`. */
  function Filter<T>(s: seq<T>, p: T -> bool): (r: seq<T>)
    ensures |r| <= |s|
    ensures forall i :: 0 <= i < |r| ==> p(r[i])
  {
    if s == [] then []
    else
      var rest := Filter(s[..|s| - 1], p);
      if p(s[|s| - 1]) then rest + [s[|s| - 1]] else rest
  }

  /** Each kept element is an element of the input that satisfies `p`. */
  lemma {:induction false} FilterFrom<T>(s: seq<T>, p: T -> bool, y: nat)
    requires y < |Filter(s, p)|
    ensures exists i :: 0 <= i < |s| && s[i] == Filter(s, p)[y] && p(s[i])
    decreases |s|
  {
    var q := s[..|s| - 1];
    if y < |Filter(q, p)| {
      FilterFrom(q, p, y);
      var i :| 0 <= i < |q| && q[i] == Filter(q, p)[y] && p(q[i]);
      assert s[i] == q[i];
    } else {
      assert s[|s| - 1] == Filter(s, p)[y];
    }
  }

  /** Each element of the input that satisfies `p` is kept. */
  lemma {:induction false} FilterKeeps<T>(s: seq<T>, p: T -> bool, i: nat)
    requires i < |s| && p(s[i])
    ensures exists y :: 0 <= y < |Filter(s, p)| && Filter(s, p)[y] == s[i]
    decreases |s|
  {
    var q := s[..|s| - 1];
    if i < |q| {
      FilterKeeps(q, p, i);
      var y :| 0 <= y < |Filter(q, p)| && Filter(q, p)[y] == q[i];
      assert Filter(s, p)[y] == s[i];
    } else {
      assert Filter(s, p)[|Filter(s, p)| - 1] == s[i];
    }
  }

  /** `s.map(f)`. */
  function Map<A, B>(s: seq<A>, f: A -> B): (r: seq<B>)
    ensures |r| == |s|
    ensures forall i :: 0 <= i < |s| ==> r[i] == f(s[i])
  {
    if s == [] then [] else Map(s[..|s| - 1], f) + [f(s[|s| - 1])]
  }

  lemma MapAppend<A, B>(a: seq<A>, b: seq<A>, f: A -> B)
    ensures Map(a + b, f) == Map(a, f) + Map(b, f)
  {
  }

  predicate SortedBy<T>(s: seq<T>, key: T -> int) {
    forall i, j :: 0 <= i < j < |s| ==> key(s[i]) <= key(s[j])
  }

  /** Puts `x` before the first element whose key is not smaller than its own. */
  function Insert<T>(x: T, s: seq<T>, key: T -> int): (r: seq<T>)
    requires SortedBy(s, key)
    ensures SortedBy(r, key)
    ensures multiset(r) == multiset(s) + multiset{x}
    ensures |r| == |s| + 1
  {
    if s == [] then [x]
    else if key(x) <= key(s[0]) then [x] + s
    else
      var rest := Insert(x, s[1..], key);
      assert s == [s[0]] + s[1..];
      LowerBound(s[0], x, s[1..], rest, key);
      [s[0]] + rest
  }

  /** A key below those of `x` and of all of `s` stays below every element of a permutation of them. */
  lemma LowerBound<T>(h: T, x: T, s: seq<T>, r: seq<T>, key: T -> int)
    requires key(h) <= key(x)
    requires forall k :: 0 <= k < |s| ==> key(h) <= key(s[k])
    requires multiset(r) == multiset(s) + multiset{x}
    ensures forall k :: 0 <= k < |r| ==> key(h) <= key(r[k])
  {
    forall k | 0 <= k < |r|
      ensures key(h) <= key(r[k])
    {
      assert r[k] in multiset(r);
      if r[k] != x {
        assert r[k] in multiset(s);
        var i :| 0 <= i < |s| && s[i] == r[k];
      }
    }
  }

  /** The elements of `s` ordered by ascending key: a sorted permutation. */
  function SortBy<T>(s: seq<T>, key: T -> int): (r: seq<T>)
    ensures SortedBy(r, key)
    ensures multiset(r) == multiset(s)
    ensures |r| == |s|
  {
    if s == [] then []
    else
      assert s == [s[0]] + s[1..];
      Insert(s[0], SortBy(s[1..], key), key)
  }

  /** Every element of a sorted list comes from the input. */
  lemma SortByFrom<T>(s: seq<T>, key: T -> int, j: nat)
    requires j < |SortBy(s, key)|
    ensures exists i :: 0 <= i < |s| && s[i] == SortBy(s, key)[j]
  {
    var r := SortBy(s, key);
    assert r[j] in multiset(s);
    assert r[j] in s;
  }

  /** Every element of the input is in the sorted list. */
  lemma SortByKeeps<T>(s: seq<T>, key: T -> int, i: nat)
    requires i < |s|
    ensures exists j :: 0 <= j < |SortBy(s, key)| && s[i] == SortBy(s, key)[j]
  {
    var r := SortBy(s, key);
    assert s[i] in multiset(r);
    assert s[i] in r;
  }

  /** The image of every element survives mapping and sorting. */
  lemma MapSortKeeps<A, B>(s: seq<A>, f: A -> B, key: B -> int, x: nat)
    requires x < |s|
    ensures exists j :: 0 <= j < |SortBy(Map(s, f), key)| && SortBy(Map(s, f), key)[j] == f(s[x])
  {
    SortByKeeps(Map(s, f), key, x);
  }

  /** Every element of a mapped and sorted list is the image of an element. */
  lemma MapSortFrom<A, B>(s: seq<A>, f: A -> B, key: B -> int, j: nat)
    requires j < |SortBy(Map(s, f), key)|
    ensures exists x :: 0 <= x < |s| && SortBy(Map(s, f), key)[j] == f(s[x])
  {
    SortByFrom(Map(s, f), key, j);
  }

  lemma SortedKeysDistinctStrict<T>(s: seq<T>, key: T -> int)
    requires SortedBy(s, key)
    requires forall i, j :: 0 <= i < j < |s| ==> key(s[i]) != key(s[j])
    ensures forall i, j :: 0 <= i < j < |s| ==> key(s[i]) < key(s[j])
  {
  }

  // ----- Sums -----

  function SumOf<T>(s: seq<T>, f: T -> int): int {
    if s == [] then 0 else SumOf(s[..|s| - 1], f) + f(s[|s| - 1])
  }

  lemma {:induction false} SumOfAppend<T>(a: seq<T>, b: seq<T>, f: T -> int)
    ensures SumOf(a + b, f) == SumOf(a, f) + SumOf(b, f)
    decreases |b|
  {
    if b == [] {
      assert a + b == a;
    } else {
      assert (a + b)[..|a + b| - 1] == a + b[..|b| - 1];
      SumOfAppend(a, b[..|b| - 1], f);
    }
  }

  /** A sum does not depend on the order of its terms. */
  lemma {:induction false} SumOfPermutation<T>(a: seq<T>, b: seq<T>, f: T -> int)
    requires multiset(a) == multiset(b)
    ensures SumOf(a, f) == SumOf(b, f)
    decreases |a|
  {
    if a != [] {
      var x := a[|a| - 1];
      var a' := a[..|a| - 1];
      assert a == a' + [x];
      assert x in multiset(b);
      var j :| 0 <= j < |b| && b[j] == x;
      var b' := b[..j] + b[j + 1..];
      MultisetRemove(b, j);
      assert multiset(a') == multiset(a) - multiset{x};
      SumOfPermutation(a', b', f);
      SumOfRemove(b, j, f);
    }
  }

  lemma MultisetRemove<T>(b: seq<T>, j: nat)
    requires j < |b|
    ensures multiset(b[..j] + b[j + 1..]) == multiset(b) - multiset{b[j]}
  {
    assert b == b[..j] + [b[j]] + b[j + 1..];
  }

  lemma SumOfRemove<T>(b: seq<T>, j: nat, f: T -> int)
    requires j < |b|
    ensures SumOf(b, f) == SumOf(b[..j] + b[j + 1..], f) + f(b[j])
  {
    var x := b[j];
    assert b == b[..j] + ([x] + b[j + 1..]);
    SumOfAppend(b[..j], [x] + b[j + 1..], f);
    SumOfAppend([x], b[j + 1..], f);
    SumOfAppend(b[..j], b[j + 1..], f);
    assert SumOf([x], f) == f(x) by {
      assert [x][..0] == [];
    }
  }

  function SumOfReal<T>(s: seq<T>, f: T -> real): real {
    if s == [] then 0.0 else SumOfReal(s[..|s| - 1], f) + f(s[|s| - 1])
  }

  /** Percentages of a common whole add up to the percentage of the sum. */
  lemma {:induction false} SumOfShares<T>(s: seq<T>, f: T -> int, g: T -> real, whole: real)
    requires whole > 0.0
    requires forall i :: 0 <= i < |s| ==> g(s[i]) == (f(s[i]) as real / whole) * 100.0
    ensures SumOfReal(s, g) == (SumOf(s, f) as real / whole) * 100.0
    decreases |s|
  {
    if s != [] {
      var p := s[..|s| - 1];
      SumOfShares(p, f, g, whole);
      var a, b := SumOf(p, f) as real, f(s[|s| - 1]) as real;
      assert (a / whole) * 100.0 + (b / whole) * 100.0 == ((a + b) / whole) * 100.0;
    }
  }

  /** Summing `g` over a mapped list is summing `g` after `f` over the list. */
  lemma {:induction false} SumOfMap<A, B>(s: seq<A>, f: A -> B, g: B -> int, h: A -> int)
    requires forall x :: h(x) == g(f(x))
    ensures SumOf(Map(s, f), g) == SumOf(s, h)
    decreases |s|
  {
    if s != [] {
      var m := Map(s, f);
      assert m[..|m| - 1] == Map(s[..|s| - 1], f);
      SumOfMap(s[..|s| - 1], f, g, h);
    }
  }

  /** Sums of two functions that agree on every element are equal. */
  lemma {:induction false} SumOfPointwise<T>(s: seq<T>, f: T -> int, g: T -> int)
    requires forall i :: 0 <= i < |s| ==> f(s[i]) == g(s[i])
    ensures SumOf(s, f) == SumOf(s, g)
    decreases |s|
  {
    if s != [] {
      SumOfPointwise(s[..|s| - 1], f, g);
    }
  }

  lemma {:induction false} FilterAppend<T>(a: seq<T>, b: seq<T>, p: T -> bool)
    ensures Filter(a + b, p) == Filter(a, p) + Filter(b, p)
    decreases |b|
  {
    if b == [] {
      assert a + b == a;
    } else {
      assert (a + b)[..|a + b| - 1] == a + b[..|b| - 1];
      FilterAppend(a, b[..|b| - 1], p);
    }
  }

  /** Filtering a reordering gives a reordering of the filtered list. */
  lemma {:induction false} FilterPermutation<T>(a: seq<T>, b: seq<T>, p: T -> bool)
    requires multiset(a) == multiset(b)
    ensures multiset(Filter(a, p)) == multiset(Filter(b, p))
    decreases |a|
  {
    if a == [] {
      assert |b| == |multiset(b)| == 0;
    } else {
      var x := a[|a| - 1];
      var a' := a[..|a| - 1];
      assert a == a' + [x];
      assert x in multiset(b);
      var j :| 0 <= j < |b| && b[j] == x;
      MultisetRemove(b, j);
      assert multiset(a') == multiset(a) - multiset{x};
      FilterPermutation(a', b[..j] + b[j + 1..], p);
      FilterRemove(b, j, p);
    }
  }

  /** Taking element `j` out of a list takes it out of the filtered list when it was kept. */
  lemma FilterRemove<T>(b: seq<T>, j: nat, p: T -> bool)
    requires j < |b|
    ensures multiset(Filter(b, p)) ==
      multiset(Filter(b[..j] + b[j + 1..], p)) + (if p(b[j]) then multiset{b[j]} else multiset{})
  {
    var l, r := b[..j], b[j + 1..];
    assert b == l + ([b[j]] + r);
    FilterAppend(l, [b[j]] + r, p);
    FilterAppend([b[j]], r, p);
    FilterAppend(l, r, p);
    assert Filter([b[j]], p) == if p(b[j]) then [b[j]] else [] by {
      assert [b[j]][..0] == [];
    }
  }

  /** Mapping a reordering gives a reordering of the mapped list. */
  lemma {:induction false} MapPermutation<A, B>(a: seq<A>, b: seq<A>, f: A -> B)
    requires multiset(a) == multiset(b)
    ensures multiset(Map(a, f)) == multiset(Map(b, f))
    decreases |a|
  {
    if a == [] {
      assert |b| == |multiset(b)| == 0;
    } else {
      var x := a[|a| - 1];
      var a' := a[..|a| - 1];
      assert a == a' + [x];
      assert x in multiset(b);
      var j :| 0 <= j < |b| && b[j] == x;
      var b' := b[..j] + b[j + 1..];
      MultisetRemove(b, j);
      assert multiset(a') == multiset(a) - multiset{x};
      MapPermutation(a', b', f);
      assert Map(a, f) == Map(a', f) + [f(x)];
      MapRemove(b, j, f);
    }
  }

  /** Taking element `j` out of a list takes its image out of the mapped list. */
  lemma MapRemove<A, B>(b: seq<A>, j: nat, f: A -> B)
    requires j < |b|
    ensures multiset(Map(b, f)) == multiset(Map(b[..j] + b[j + 1..], f)) + multiset{f(b[j])}
  {
    var l, r := b[..j], b[j + 1..];
    assert b == l + ([b[j]] + r);
    MapAppend(l, [b[j]] + r, f);
    MapAppend([b[j]], r, f);
    MapAppend(l, r, f);
  }

  /** In a strictly ascending list the head has the least key, and the only element with that key is the head. */
  lemma HeadIsLeast<T>(b: seq<T>, key: T -> int, x: T)
    requires forall i, j :: 0 <= i < j < |b| ==> key(b[i]) < key(b[j])
    requires x in b
    ensures key(b[0]) <= key(x)
    ensures key(b[0]) == key(x) ==> b[0] == x
  {
    var k :| 0 <= k < |b| && b[k] == x;
    if k > 0 {
      assert key(b[0]) < key(b[k]);
    }
  }

  /** The tail of a strictly ascending list is strictly ascending. */
  lemma StrictTail<T>(a: seq<T>, key: T -> int)
    requires a != []
    requires forall i, j :: 0 <= i < j < |a| ==> key(a[i]) < key(a[j])
    ensures forall i, j :: 0 <= i < j < |a[1..]| ==> key(a[1..][i]) < key(a[1..][j])
  {
    forall i, j | 0 <= i < j < |a[1..]|
      ensures key(a[1..][i]) < key(a[1..][j])
    {
      assert a[1..][i] == a[i + 1] && a[1..][j] == a[j + 1];
    }
  }

  /** Two non-empty lists strictly ascending by the same key and holding the same elements share their head and their tail's elements. */
  lemma SameHead<T>(a: seq<T>, b: seq<T>, key: T -> int)
    requires a != [] && multiset(a) == multiset(b)
    requires forall i, j :: 0 <= i < j < |a| ==> key(a[i]) < key(a[j])
    requires forall i, j :: 0 <= i < j < |b| ==> key(b[i]) < key(b[j])
    ensures b != [] && a[0] == b[0]
    ensures multiset(a[1..]) == multiset(b[1..])
  {
    assert |b| == |multiset(b)| == |a|;
    assert a[0] in multiset(b) && b[0] in multiset(a);
    HeadIsLeast(b, key, a[0]);
    HeadIsLeast(a, key, b[0]);
    assert a == [a[0]] + a[1..] && b == [b[0]] + b[1..];
    assert multiset(a[1..]) == multiset(a) - multiset{a[0]};
    assert multiset(b[1..]) == multiset(b) - multiset{b[0]};
  }

  /** Two lists strictly ascending by the same key and holding the same elements are the same list. */
  lemma {:induction false} StrictlySortedUnique<T>(a: seq<T>, b: seq<T>, key: T -> int)
    requires multiset(a) == multiset(b)
    requires forall i, j :: 0 <= i < j < |a| ==> key(a[i]) < key(a[j])
    requires forall i, j :: 0 <= i < j < |b| ==> key(b[i]) < key(b[j])
    ensures a == b
    decreases |a|
  {
    if a == [] {
      assert |b| == |multiset(b)| == 0;
    } else {
      SameHead(a, b, key);
      StrictTail(a, key);
      StrictTail(b, key);
      StrictlySortedUnique(a[1..], b[1..], key);
      assert a == [a[0]] + a[1..] && b == [b[0]] + b[1..];
    }
  }

  /** No two elements of `s` agree on `f`. */
  predicate DistinctBy<T, K(==)>(s: seq<T>, f: T -> K) {
    forall i, j :: 0 <= i < j < |s| ==> f(s[i]) != f(s[j])
  }

  lemma {:induction false} DistinctCountsOnce<T>(s: seq<T>, x: T)
    requires forall i, j :: 0 <= i < j < |s| ==> s[i] != s[j]
    ensures multiset(s)[x] <= 1
    decreases |s|
  {
    if s != [] {
      var p := s[..|s| - 1];
      assert s == p + [s[|s| - 1]];
      DistinctCountsOnce(p, x);
      if s[|s| - 1] == x {
        assert x !in p;
      }
    }
  }

  lemma RepeatCountsTwice<T>(s: seq<T>, i: nat, j: nat)
    requires i < j < |s| && s[i] == s[j]
    ensures multiset(s)[s[i]] >= 2
  {
    assert s == s[..i] + [s[i]] + s[i + 1..j] + [s[j]] + s[j + 1..];
  }

  /** Taking element `j` out of a list without repeats leaves a list without repeats that lacks exactly that element. */
  lemma DropDistinct<T>(b: seq<T>, j: nat)
    requires j < |b|
    requires forall i, k :: 0 <= i < k < |b| ==> b[i] != b[k]
    ensures var b' := b[..j] + b[j + 1..];
      (forall i, k :: 0 <= i < k < |b'| ==> b'[i] != b'[k])
      && (forall y :: y in b' <==> y in b && y != b[j])
  {
    var b' := b[..j] + b[j + 1..];
    forall i, k | 0 <= i < k < |b'|
      ensures b'[i] != b'[k]
    {
      var i', k' := if i < j then i else i + 1, if k < j then k else k + 1;
      assert b'[i] == b[i'] && b'[k] == b[k'] && i' < k';
    }
    forall y
      ensures y in b' <==> y in b && y != b[j]
    {
      if y in b' {
        var i :| 0 <= i < |b'| && b'[i] == y;
        var i' := if i < j then i else i + 1;
        assert b[i'] == y && i' != j;
      }
      if y in b && y != b[j] {
        var i :| 0 <= i < |b| && b[i] == y;
        assert y == b'[if i < j then i else i - 1];
      }
    }
  }

  lemma HeadIsElement<T>(b: seq<T>)
    requires b != []
    ensures b[0] in b
  {
  }

  /** Two lists without repeats that hold the same elements are reorderings of each other. */
  lemma {:induction false} DistinctSameElements<T>(a: seq<T>, b: seq<T>)
    requires forall i, j :: 0 <= i < j < |a| ==> a[i] != a[j]
    requires forall i, j :: 0 <= i < j < |b| ==> b[i] != b[j]
    requires forall x :: x in a <==> x in b
    ensures multiset(a) == multiset(b)
    decreases |a|
  {
    if a == [] {
      if b != [] {
        HeadIsElement(b);
        assert false;
      }
    } else {
      var x := a[|a| - 1];
      assert x in b;
      var j :| 0 <= j < |b| && b[j] == x;
      DropDistinct(a, |a| - 1);
      DropDistinct(b, j);
      var a', b' := a[..|a| - 1] + a[|a|..], b[..j] + b[j + 1..];
      DistinctSameElements(a', b');
      PutBack(a, b, j);
    }
  }

  /** Lists that agree once their last and their `j`-th elements are removed, and agree on those, are reorderings. */
  lemma PutBack<T>(a: seq<T>, b: seq<T>, j: nat)
    requires a != [] && j < |b| && a[|a| - 1] == b[j]
    requires multiset(a[..|a| - 1] + a[|a|..]) == multiset(b[..j] + b[j + 1..])
    ensures multiset(a) == multiset(b)
  {
    assert a[..|a| - 1] + a[|a|..] == a[..|a| - 1];
    assert a == a[..|a| - 1] + [b[j]];
    assert b == b[..j] + [b[j]] + b[j + 1..];
  }

  /** Reordering keeps elements distinct by `f`. */
  lemma PermutationKeepsDistinct<T, K>(a: seq<T>, b: seq<T>, f: T -> K)
    requires multiset(a) == multiset(b)
    requires DistinctBy(a, f)
    ensures DistinctBy(b, f)
  {
    forall i, j | 0 <= i < j < |b|
      ensures f(b[i]) != f(b[j])
    {
      assert b[i] in multiset(a) && b[j] in multiset(a);
      var i' :| 0 <= i' < |a| && a[i'] == b[i];
      var j' :| 0 <= j' < |a| && a[j'] == b[j];
      if b[i] == b[j] {
        RepeatCountsTwice(b, i, j);
        DistinctCountsOnce(a, b[i]);
      } else {
        assert i' != j';
      }
    }
  }
}
