/** List operations shared by the rankings and filters of the model.

    `SortDesc` is Python's `sorted(xs, key=k, reverse=True)` (and `list.sort`
    with the same arguments): a stable sort into non-increasing key order in
    which elements with equal keys keep their input order. It is written as an
    insertion sort whose properties are proved once and used by every ranking.

    `Filter` is the list comprehension `[x for x in xs if p(x)]`, and also
    what a loop that appends the elements passing a test builds. */
module Lists {

  /** Inserts `x` in front of the first element whose key is not above the
      key of `x`; `x` thus precedes every later element with an equal key. */
  function Insert<T>(x: T, t: seq<T>, key: T -> int): seq<T> {
    if t == [] || key(x) >= key(t[0]) then [x] + t
    else [t[0]] + Insert(x, t[1..], key)
  }

  function SortDesc<T>(s: seq<T>, key: T -> int): seq<T> {
    if s == [] then [] else Insert(s[0], SortDesc(s[1..], key), key)
  }

  ghost predicate NonIncreasing<T>(s: seq<T>, key: T -> int) {
    forall i, j :: 0 <= i < j < |s| ==> key(s[i]) >= key(s[j])
  }

  /** The elements whose key is `v`, in order. */
  function WithKey<T>(s: seq<T>, key: T -> int, v: int): seq<T> {
    if s == [] then []
    else (if key(s[0]) == v then [s[0]] else []) + WithKey(s[1..], key, v)
  }

  /** No two elements share a projection (for instance a record's code). */
  ghost predicate DistinctBy<T, U>(s: seq<T>, proj: T -> U) {
    forall i, j :: 0 <= i < j < |s| ==> proj(s[i]) != proj(s[j])
  }

  lemma {:induction false} InsertPermutation<T>(x: T, t: seq<T>, key: T -> int)
    ensures |Insert(x, t, key)| == |t| + 1
    ensures multiset(Insert(x, t, key)) == multiset([x] + t)
    ensures forall y :: y in Insert(x, t, key) <==> y == x || y in t
  {
    if t != [] && key(x) < key(t[0]) {
      InsertPermutation(x, t[1..], key);
      assert t == [t[0]] + t[1..];
    }
  }

  /** Every key of the insertion result is at most `b` when the key of `x`
      and every key of `t` are. */
  lemma {:induction false} InsertKeyBound<T>(x: T, t: seq<T>, key: T -> int, b: int)
    requires key(x) <= b
    requires forall i :: 0 <= i < |t| ==> key(t[i]) <= b
    ensures forall i :: 0 <= i < |Insert(x, t, key)| ==> key(Insert(x, t, key)[i]) <= b
  {
    if t != [] && key(x) < key(t[0]) {
      InsertKeyBound(x, t[1..], key, b);
    }
  }

  lemma {:induction false} InsertSorted<T>(x: T, t: seq<T>, key: T -> int)
    requires NonIncreasing(t, key)
    ensures NonIncreasing(Insert(x, t, key), key)
  {
    if t != [] && key(x) < key(t[0]) {
      assert NonIncreasing(t[1..], key);
      InsertSorted(x, t[1..], key);
      InsertKeyBound(x, t[1..], key, key(t[0]));
    }
  }

  /** The sort returns a permutation of its input in non-increasing key order. */
  lemma {:induction false} SortDescSortedPermutation<T>(s: seq<T>, key: T -> int)
    ensures |SortDesc(s, key)| == |s|
    ensures multiset(SortDesc(s, key)) == multiset(s)
    ensures forall y :: y in SortDesc(s, key) <==> y in s
    ensures NonIncreasing(SortDesc(s, key), key)
  {
    if s != [] {
      SortDescSortedPermutation(s[1..], key);
      InsertPermutation(s[0], SortDesc(s[1..], key), key);
      InsertSorted(s[0], SortDesc(s[1..], key), key);
      assert s == [s[0]] + s[1..];
    }
  }

  lemma {:induction false} InsertWithKey<T>(x: T, t: seq<T>, key: T -> int, v: int)
    ensures WithKey(Insert(x, t, key), key, v)
            == (if key(x) == v then [x] else []) + WithKey(t, key, v)
  {
    var xs := if key(x) == v then [x] else [];
    if t != [] && key(x) < key(t[0]) {
      var rest := Insert(x, t[1..], key);
      var ts := if key(t[0]) == v then [t[0]] else [];
      InsertWithKey(x, t[1..], key, v);
      assert ([t[0]] + rest)[1..] == rest;
      assert WithKey(Insert(x, t, key), key, v) == ts + (xs + WithKey(t[1..], key, v));
      assert xs == [] || ts == [];
      assert WithKey(t, key, v) == ts + WithKey(t[1..], key, v);
    } else {
      assert ([x] + t)[1..] == t;
    }
  }

  /** Stability: among the elements of any one key, the sort keeps the
      input order. */
  lemma {:induction false} SortDescStable<T>(s: seq<T>, key: T -> int, v: int)
    ensures WithKey(SortDesc(s, key), key, v) == WithKey(s, key, v)
  {
    if s != [] {
      SortDescStable(s[1..], key, v);
      InsertWithKey(s[0], SortDesc(s[1..], key), key, v);
    }
  }

  /** A list already in non-increasing key order is left as it is, so
      sorting twice is sorting once. */
  lemma {:induction false} SortDescOfSorted<T>(s: seq<T>, key: T -> int)
    requires NonIncreasing(s, key)
    ensures SortDesc(s, key) == s
  {
    if s != [] {
      assert NonIncreasing(s[1..], key);
      SortDescOfSorted(s[1..], key);
      assert s == [s[0]] + s[1..];
    }
  }

  /** No element of the insertion result has projection `p` when neither
      `x` nor any element of `t` has it. */
  lemma {:induction false} InsertAvoids<T, U>(x: T, t: seq<T>, key: T -> int, proj: T -> U, p: U)
    requires proj(x) != p
    requires forall i :: 0 <= i < |t| ==> proj(t[i]) != p
    ensures forall i :: 0 <= i < |Insert(x, t, key)| ==> proj(Insert(x, t, key)[i]) != p
  {
    if t != [] && key(x) < key(t[0]) {
      InsertAvoids(x, t[1..], key, proj, p);
    }
  }

  lemma {:induction false} SortDescAvoids<T, U>(s: seq<T>, key: T -> int, proj: T -> U, p: U)
    requires forall i :: 0 <= i < |s| ==> proj(s[i]) != p
    ensures forall i :: 0 <= i < |SortDesc(s, key)| ==> proj(SortDesc(s, key)[i]) != p
  {
    if s != [] {
      SortDescAvoids(s[1..], key, proj, p);
      InsertAvoids(s[0], SortDesc(s[1..], key), key, proj, p);
    }
  }

  lemma {:induction false} InsertDistinctBy<T, U>(x: T, t: seq<T>, key: T -> int, proj: T -> U)
    requires DistinctBy(t, proj)
    requires forall i :: 0 <= i < |t| ==> proj(t[i]) != proj(x)
    ensures DistinctBy(Insert(x, t, key), proj)
  {
    if t != [] && key(x) < key(t[0]) {
      assert DistinctBy(t[1..], proj);
      InsertDistinctBy(x, t[1..], key, proj);
      InsertAvoids(x, t[1..], key, proj, proj(t[0]));
    }
  }

  /** Sorting does not create two elements with the same projection. */
  lemma {:induction false} SortDescDistinctBy<T, U>(s: seq<T>, key: T -> int, proj: T -> U)
    requires DistinctBy(s, proj)
    ensures DistinctBy(SortDesc(s, key), proj)
  {
    if s != [] {
      assert DistinctBy(s[1..], proj);
      SortDescDistinctBy(s[1..], key, proj);
      SortDescAvoids(s[1..], key, proj, proj(s[0]));
      InsertDistinctBy(s[0], SortDesc(s[1..], key), key, proj);
    }
  }

  function Filter<T>(s: seq<T>, p: T -> bool): seq<T> {
    if s == [] then []
    else Filter(s[..|s| - 1], p) + (if p(s[|s| - 1]) then [s[|s| - 1]] else [])
  }

  /** The filter keeps exactly the elements that pass, and no more of them
      than the input has. */
  lemma {:induction false} FilterMembers<T>(s: seq<T>, p: T -> bool)
    ensures |Filter(s, p)| <= |s|
    ensures forall i :: 0 <= i < |Filter(s, p)| ==> p(Filter(s, p)[i])
    ensures forall y :: y in Filter(s, p) <==> y in s && p(y)
  {
    if s != [] {
      FilterMembers(s[..|s| - 1], p);
      assert s == s[..|s| - 1] + [s[|s| - 1]];
    }
  }

  /** Filtering distributes over concatenation: the kept elements stay in
      their input order. */
  lemma {:induction false} FilterConcat<T>(a: seq<T>, b: seq<T>, p: T -> bool)
    ensures Filter(a + b, p) == Filter(a, p) + Filter(b, p)
  {
    if b != [] {
      FilterConcat(a, b[..|b| - 1], p);
      assert (a + b)[..|a + b| - 1] == a + b[..|b| - 1];
    } else {
      assert a + b == a;
    }
  }

  /** A list whose every element passes is returned unchanged. */
  lemma {:induction false} FilterAllPass<T>(s: seq<T>, p: T -> bool)
    requires forall i :: 0 <= i < |s| ==> p(s[i])
    ensures Filter(s, p) == s
  {
    if s != [] {
      FilterAllPass(s[..|s| - 1], p);
    }
  }

  /** No element of the filtered list has projection `q` when none of the
      input has. */
  lemma {:induction false} FilterAvoids<T, U>(s: seq<T>, p: T -> bool, proj: T -> U, q: U)
    requires forall i :: 0 <= i < |s| ==> proj(s[i]) != q
    ensures forall i :: 0 <= i < |Filter(s, p)| ==> proj(Filter(s, p)[i]) != q
  {
    if s != [] {
      FilterAvoids(s[..|s| - 1], p, proj, q);
    }
  }

  lemma {:induction false} FilterDistinctBy<T, U>(s: seq<T>, p: T -> bool, proj: T -> U)
    requires DistinctBy(s, proj)
    ensures DistinctBy(Filter(s, p), proj)
  {
    if s != [] {
      var init := s[..|s| - 1];
      assert DistinctBy(init, proj);
      FilterDistinctBy(init, p, proj);
      FilterAvoids(init, p, proj, proj(s[|s| - 1]));
    }
  }

  /** Filtering a non-increasing list keeps it non-increasing. */
  lemma {:induction false} FilterSorted<T>(s: seq<T>, p: T -> bool, key: T -> int)
    requires NonIncreasing(s, key)
    ensures NonIncreasing(Filter(s, p), key)
  {
    if s != [] {
      var init := s[..|s| - 1];
      assert NonIncreasing(init, key);
      FilterSorted(init, p, key);
      FilterKeyBelow(init, p, key, key(s[|s| - 1]));
    }
  }

  lemma {:induction false} FilterKeyBelow<T>(s: seq<T>, p: T -> bool, key: T -> int, b: int)
    requires forall i :: 0 <= i < |s| ==> key(s[i]) >= b
    ensures forall i :: 0 <= i < |Filter(s, p)| ==> key(Filter(s, p)[i]) >= b
  {
    if s != [] {
      FilterKeyBelow(s[..|s| - 1], p, key, b);
    }
  }

  lemma {:induction false} WithKeyConcat<T>(a: seq<T>, b: seq<T>, key: T -> int, v: int)
    ensures WithKey(a + b, key, v) == WithKey(a, key, v) + WithKey(b, key, v)
  {
    if a != [] {
      WithKeyConcat(a[1..], b, key, v);
      assert (a + b)[1..] == a[1..] + b;
    } else {
      assert a + b == b;
    }
  }

  /** A filter that keeps every element of key `v` leaves the elements of
      that key, in their order, as they were. */
  lemma {:induction false} FilterWithKey<T>(s: seq<T>, p: T -> bool, key: T -> int, v: int)
    requires forall x :: key(x) == v ==> p(x)
    ensures WithKey(Filter(s, p), key, v) == WithKey(s, key, v)
  {
    if s != [] {
      var init, last := s[..|s| - 1], s[|s| - 1];
      FilterWithKey(init, p, key, v);
      WithKeyConcat(Filter(init, p), if p(last) then [last] else [], key, v);
      WithKeyConcat(init, [last], key, v);
      assert s == init + [last];
    }
  }
}
