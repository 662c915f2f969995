/** An optional value: an absent property, a missing entry, a refused update. */
module Options {
  datatype Option<T> = None | Some(value: T)
}

/**
  * Sequence helpers standing for the array methods the code calls
  * (`filter`, `reduce`, `sort`, `find`), with the facts the rest of the model
  * needs about them.
  */
module Seqs {

  import opened Options

  /** `s.filter(p)`: the elements satisfying `p`, in their original order. */
  function Filter<T>(s: seq<T>, p: T -> bool): (r: seq<T>)
    ensures |r| <= |s|
  {
    if s == [] then []
    else
      assert s == [s[0]] + s[1..];
      if p(s[0]) then [s[0]] + Filter(s[1..], p)
      else Filter(s[1..], p)
  }

  /** The elements kept are those of `s` that satisfy `p`. */
  lemma {:induction false} FilterMembers<T>(s: seq<T>, p: T -> bool)
    ensures forall i :: 0 <= i < |Filter(s, p)| ==> Filter(s, p)[i] in s && p(Filter(s, p)[i])
    ensures forall i :: 0 <= i < |s| && p(s[i]) ==> s[i] in Filter(s, p)
  {
    if s != [] {
      FilterMembers(s[1..], p);
      assert s == [s[0]] + s[1..];
    }
  }

  /** Membership in a filtered sequence. */
  lemma FilterIn<T>(s: seq<T>, p: T -> bool)
    ensures forall x :: x in Filter(s, p) <==> x in s && p(x)
  {
    FilterMembers(s, p);
    forall x | x in Filter(s, p)
      ensures x in s && p(x)
    {
      var i :| 0 <= i < |Filter(s, p)| && Filter(s, p)[i] == x;
    }
    forall x | x in s && p(x)
      ensures x in Filter(s, p)
    {
      var i :| 0 <= i < |s| && s[i] == x;
    }
  }

  lemma FilterAppend<T>(a: seq<T>, b: seq<T>, p: T -> bool)
    ensures Filter(a + b, p) == Filter(a, p) + Filter(b, p)
  {
    if a != [] {
      assert (a + b)[0] == a[0];
      assert (a + b)[1..] == a[1..] + b;
      FilterAppend(a[1..], b, p);
    } else {
      assert a + b == b;
    }
  }

  /** Filtering one element further along a sequence keeps that element exactly when it satisfies `p`. */
  lemma FilterPrefixStep<T>(s: seq<T>, i: nat, p: T -> bool)
    requires i < |s|
    ensures Filter(s[..i + 1], p) == if p(s[i]) then Filter(s[..i], p) + [s[i]] else Filter(s[..i], p)
  {
    assert s[..i + 1] == s[..i] + [s[i]];
    FilterAppend(s[..i], [s[i]], p);
    assert [s[i]][1..] == [];
  }

  /** Filtering with a predicate that every element satisfies changes nothing. */
  lemma FilterAll<T>(s: seq<T>, p: T -> bool)
    requires forall i :: 0 <= i < |s| ==> p(s[i])
    ensures Filter(s, p) == s
  {
    if s != [] {
      FilterAll(s[1..], p);
    }
  }

  /** Filtering with a predicate no element satisfies leaves nothing. */
  lemma FilterNone<T>(s: seq<T>, p: T -> bool)
    requires forall i :: 0 <= i < |s| ==> !p(s[i])
    ensures Filter(s, p) == []
  {
    if s != [] {
      FilterNone(s[1..], p);
    }
  }

  /** A filter that keeps as many elements as it was given dropped none of them. */
  lemma {:induction false} FilterSameLength<T>(s: seq<T>, p: T -> bool)
    ensures |Filter(s, p)| == |s| ==> Filter(s, p) == s
    decreases |s|
  {
    if s != [] {
      FilterSameLength(s[1..], p);
    }
  }

  /** Splitting a filter predicate into two that never hold together splits the count. */
  lemma {:induction false} CountSplit<T>(s: seq<T>, p: T -> bool, q: T -> bool, r: T -> bool)
    requires forall x :: p(x) <==> q(x) || r(x)
    requires forall x :: !(q(x) && r(x))
    ensures Count(s, p) == Count(s, q) + Count(s, r)
    decreases |s|
  {
    if s != [] {
      CountSplit(s[1..], p, q, r);
    }
  }

  /** No element occurs twice. */
  predicate Distinct<T(==)>(s: seq<T>)
  {
    forall i, j :: 0 <= i < j < |s| ==> s[i] != s[j]
  }

  /** Appending a new element keeps a list free of repeats. */
  lemma DistinctAppend<T>(s: seq<T>, x: T)
    requires Distinct(s) && x !in s
    ensures Distinct(s + [x])
  {
    forall i, j | 0 <= i < j < |s| + 1
      ensures (s + [x])[i] != (s + [x])[j]
    {
      if j == |s| {
        assert s[i] in s;
      }
    }
  }

  /** Filtering keeps a sequence free of repeats. */
  lemma {:induction false} FilterDistinct<T>(s: seq<T>, p: T -> bool)
    requires Distinct(s)
    ensures Distinct(Filter(s, p))
    decreases |s|
  {
    if s != [] {
      FilterDistinct(s[1..], p);
      FilterIn(s[1..], p);
      forall k | 0 <= k < |s[1..]|
        ensures s[1..][k] != s[0]
      {
        assert s[1..][k] == s[k + 1];
      }
    }
  }

  /** The number of elements satisfying `p`. */
  function Count<T>(s: seq<T>, p: T -> bool): (n: nat)
    ensures n <= |s|
  {
    |Filter(s, p)|
  }

  /** `s.reduce((acc, x) => acc + f(x), 0)`. */
  function Sum<T>(s: seq<T>, f: T -> int): int
  {
    if s == [] then 0 else f(s[0]) + Sum(s[1..], f)
  }

  lemma SumAppend<T>(a: seq<T>, b: seq<T>, f: T -> int)
    ensures Sum(a + b, f) == Sum(a, f) + Sum(b, f)
  {
    if a != [] {
      assert (a + b)[0] == a[0];
      assert (a + b)[1..] == a[1..] + b;
      SumAppend(a[1..], b, f);
    } else {
      assert a + b == b;
    }
  }

  lemma SumNonNegative<T>(s: seq<T>, f: T -> int)
    requires forall i :: 0 <= i < |s| ==> f(s[i]) >= 0
    ensures Sum(s, f) >= 0
  {
    if s != [] {
      SumNonNegative(s[1..], f);
    }
  }

  /** Summing the elements that satisfy `p` and those that do not gives the whole sum. */
  lemma SumPartition<T>(s: seq<T>, f: T -> int, p: T -> bool)
    ensures Sum(Filter(s, p), f) + Sum(Filter(s, x => !p(x)), f) == Sum(s, f)
  {
    if s != [] {
      SumPartition(s[1..], f, p);
    }
  }

  /** Elements satisfying `p` and elements satisfying `!p` together make up the sequence. */
  lemma CountPartition<T>(s: seq<T>, p: T -> bool)
    ensures Count(s, p) + Count(s, x => !p(x)) == |s|
  {
    if s != [] {
      CountPartition(s[1..], p);
    }
  }

  /** No element satisfies both predicates, so their counts fit in the sequence. */
  lemma {:induction false} CountDisjoint<T>(s: seq<T>, p: T -> bool, q: T -> bool)
    requires forall i :: 0 <= i < |s| ==> !(p(s[i]) && q(s[i]))
    ensures Count(s, p) + Count(s, q) <= |s|
  {
    if s != [] {
      CountDisjoint(s[1..], p, q);
      assert s == [s[0]] + s[1..];
    }
  }

  /** Whatever satisfies `p` satisfies `q`, so `q` counts at least as many. */
  lemma {:induction false} CountMonotone<T>(s: seq<T>, p: T -> bool, q: T -> bool)
    requires forall i :: 0 <= i < |s| ==> p(s[i]) ==> q(s[i])
    ensures Count(s, p) <= Count(s, q)
  {
    if s != [] {
      CountMonotone(s[1..], p, q);
      assert s == [s[0]] + s[1..];
    }
  }

  /** Dropping elements does not raise a sum of non-negative terms. */
  lemma {:induction false} SumFilterBound<T>(s: seq<T>, f: T -> int, p: T -> bool)
    requires forall i :: 0 <= i < |s| ==> f(s[i]) >= 0
    ensures 0 <= Sum(Filter(s, p), f) <= Sum(s, f)
  {
    if s != [] {
      SumFilterBound(s[1..], f, p);
      assert s == [s[0]] + s[1..];
    }
  }

  /** `s.map(f)`. */
  function Map<T, U>(s: seq<T>, f: T -> U): (r: seq<U>)
    ensures |r| == |s|
    ensures forall i :: 0 <= i < |s| ==> r[i] == f(s[i])
  {
    seq(|s|, i requires 0 <= i < |s| => f(s[i]))
  }

  // ---------------------------------------------------------------------
  // Numeric sort (`sort((a, b) => a - b)`)
  // ---------------------------------------------------------------------

  predicate Ascending(s: seq<int>)
  {
    forall i, j :: 0 <= i < j < |s| ==> s[i] <= s[j]
  }

  predicate StrictlyAscending(s: seq<int>)
  {
    forall i, j :: 0 <= i < j < |s| ==> s[i] < s[j]
  }

  function InsertAscending(x: int, s: seq<int>): (r: seq<int>)
    requires Ascending(s)
    ensures Ascending(r)
    ensures multiset(r) == multiset(s) + multiset{x}
    ensures |r| == |s| + 1
  {
    AscendingSplit(s);
    if s == [] || x <= s[0] then
      ConsAscending(x, s);
      [x] + s
    else
      var rest := InsertAscending(x, s[1..]);
      LowerBoundKept(s[0], rest, s[1..], x);
      ConsAscending(s[0], rest);
      assert s == [s[0]] + s[1..];
      [s[0]] + rest
  }

  /** An ascending sequence is its least element followed by an ascending rest. */
  lemma AscendingSplit(s: seq<int>)
    requires Ascending(s)
    ensures s != [] ==> Ascending(s[1..]) && forall i :: 0 <= i < |s| ==> s[0] <= s[i]
  {
  }

  /** A lower bound of an ascending sequence can go in front of it. */
  lemma ConsAscending(a: int, r: seq<int>)
    requires Ascending(r) && forall i :: 0 <= i < |r| ==> a <= r[i]
    ensures Ascending([a] + r)
  {
    var t := [a] + r;
    forall i, j | 0 <= i < j < |t|
      ensures t[i] <= t[j]
    {
      assert t[j] == r[j - 1];
      if i > 0 {
        assert t[i] == r[i - 1];
      }
    }
  }

  /** A rearrangement of `s` plus `x` keeps any lower bound of both. */
  lemma LowerBoundKept(lo: int, r: seq<int>, s: seq<int>, x: int)
    requires multiset(r) == multiset(s) + multiset{x}
    requires forall i :: 0 <= i < |s| ==> lo <= s[i]
    requires lo <= x
    ensures forall i :: 0 <= i < |r| ==> lo <= r[i]
  {
    forall i | 0 <= i < |r|
      ensures lo <= r[i]
    {
      assert r[i] in multiset(r);
      if r[i] != x {
        assert r[i] in multiset(s);
      }
    }
  }

  /** The ascending arrangement of `s`. */
  function SortAscending(s: seq<int>): (r: seq<int>)
    ensures Ascending(r)
    ensures multiset(r) == multiset(s)
    ensures |r| == |s|
  {
    if s == [] then []
    else
      assert s == [s[0]] + s[1..];
      InsertAscending(s[0], SortAscending(s[1..]))
  }

  /** An ascending sequence is its own ascending arrangement. */
  lemma {:induction false} SortAscendingKeepsAscending(s: seq<int>)
    requires Ascending(s)
    ensures SortAscending(s) == s
  {
    if s != [] {
      SortAscendingKeepsAscending(s[1..]);
      assert s == [s[0]] + s[1..];
    }
  }

  /** Sorting keeps exactly the same members. */
  lemma SortAscendingMembers(s: seq<int>)
    ensures forall x :: x in SortAscending(s) <==> x in s
  {
    var r := SortAscending(s);
    forall x
      ensures x in r <==> x in s
    {
      assert x in r <==> x in multiset(r);
      assert x in s <==> x in multiset(s);
    }
  }

  /** `s.find(x => x > bound)`. */
  function FirstAbove(s: seq<int>, bound: int): (r: Option<int>)
    ensures r.None? <==> forall i :: 0 <= i < |s| ==> s[i] <= bound
    ensures r.Some? ==> r.value in s && r.value > bound
    ensures r.Some? && Ascending(s) ==> forall i :: 0 <= i < |s| && s[i] > bound ==> r.value <= s[i]
  {
    if s == [] then None
    else if s[0] > bound then Some(s[0])
    else FirstAbove(s[1..], bound)
  }

  // ---------------------------------------------------------------------
  // Distinct values, largest first (`Array.from(new Set(s)).sort().reverse()`)
  // ---------------------------------------------------------------------

  predicate StrictlyDescending(s: seq<int>)
  {
    forall i, j :: 0 <= i < j < |s| ==> s[i] > s[j]
  }

  function InsertDescending(x: int, s: seq<int>): (r: seq<int>)
    requires StrictlyDescending(s)
    ensures StrictlyDescending(r)
    ensures forall y :: y in r <==> y in s || y == x
  {
    if s == [] || x > s[0] then [x] + s
    else if x == s[0] then s
    else
      var rest := InsertDescending(x, s[1..]);
      forall i | 0 <= i < |rest|
        ensures rest[i] < s[0]
      {
        assert rest[i] in rest;
        if rest[i] != x {
          var k :| 0 <= k < |s[1..]| && s[1..][k] == rest[i];
          assert s[k + 1] == rest[i];
        }
      }
      assert s == [s[0]] + s[1..];
      [s[0]] + rest
  }

  /** The distinct values of `s`, largest first. */
  function DistinctDescending(s: seq<int>): (r: seq<int>)
    ensures StrictlyDescending(r)
    ensures forall y :: y in r <==> y in s
  {
    if s == [] then []
    else
      assert forall y :: y in s <==> y == s[0] || y in s[1..];
      InsertDescending(s[0], DistinctDescending(s[1..]))
  }

  // ---------------------------------------------------------------------
  // Comparator sort: descending by `k1`, ties descending by `k2`
  // ---------------------------------------------------------------------

  /** `a` sorts strictly before `b`. */
  predicate Outranks<T>(a: T, b: T, k1: T -> int, k2: T -> int)
  {
    k1(a) > k1(b) || (k1(a) == k1(b) && k2(a) > k2(b))
  }

  predicate SortedBy<T>(s: seq<T>, k1: T -> int, k2: T -> int)
  {
    forall i, j :: 0 <= i < j < |s| ==> !Outranks(s[j], s[i], k1, k2)
  }

  /** Inserts `x` before the first element that does not outrank it (so equal elements keep their order). */
  function InsertBy<T>(x: T, s: seq<T>, k1: T -> int, k2: T -> int): (r: seq<T>)
    requires SortedBy(s, k1, k2)
    ensures SortedBy(r, k1, k2)
    ensures multiset(r) == multiset(s) + multiset{x}
    ensures |r| == |s| + 1
  {
    if s == [] || !Outranks(s[0], x, k1, k2) then [x] + s
    else
      var rest := InsertBy(x, s[1..], k1, k2);
      NotAboveKept(s[0], rest, s[1..], x, k1, k2);
      assert s == [s[0]] + s[1..];
      [s[0]] + rest
  }

  lemma NotAboveKept<T>(top: T, r: seq<T>, s: seq<T>, x: T, k1: T -> int, k2: T -> int)
    requires multiset(r) == multiset(s) + multiset{x}
    requires forall i :: 0 <= i < |s| ==> !Outranks(s[i], top, k1, k2)
    requires !Outranks(x, top, k1, k2)
    ensures forall i :: 0 <= i < |r| ==> !Outranks(r[i], top, k1, k2)
  {
    forall i | 0 <= i < |r|
      ensures !Outranks(r[i], top, k1, k2)
    {
      assert r[i] in multiset(r);
      if r[i] != x {
        assert r[i] in multiset(s);
      }
    }
  }

  /** `s.sort(comparator)` for a comparator ordering by `k1`, then `k2`, both descending. */
  function SortBy<T>(s: seq<T>, k1: T -> int, k2: T -> int): (r: seq<T>)
    ensures SortedBy(r, k1, k2)
    ensures multiset(r) == multiset(s)
    ensures |r| == |s|
  {
    if s == [] then []
    else
      assert s == [s[0]] + s[1..];
      InsertBy(s[0], SortBy(s[1..], k1, k2), k1, k2)
  }

  /** Sorting keeps exactly the same members. */
  lemma SortByMembers<T>(s: seq<T>, k1: T -> int, k2: T -> int)
    ensures forall i :: 0 <= i < |SortBy(s, k1, k2)| ==> SortBy(s, k1, k2)[i] in s
    ensures forall i :: 0 <= i < |s| ==> s[i] in SortBy(s, k1, k2)
  {
    var r := SortBy(s, k1, k2);
    forall i | 0 <= i < |r|
      ensures r[i] in s
    {
      assert r[i] in multiset(r);
    }
    forall i | 0 <= i < |s|
      ensures s[i] in r
    {
      assert s[i] in multiset(s);
    }
  }
}
