/** The list comprehensions and sorts the services run over their stores. */
module Collections {
  /** `[x for x in s if p(x)]`: keeps, in order, the elements satisfying `p`. */
  function Filter<T(!new)>(s: seq<T>, p: T -> bool): (r: seq<T>)
    ensures |r| <= |s|
    ensures forall x :: x in r <==> x in s && p(x)
    ensures forall i :: 0 <= i < |r| ==> p(r[i])
    ensures multiset(r) <= multiset(s)
    decreases |s|
  {
    if |s| == 0 then []
    else
      assert s == [s[0]] + s[1..];
      if p(s[0]) then [s[0]] + Filter(s[1..], p) else Filter(s[1..], p)
  }

  /** Filtering distributes over concatenation. */
  lemma {:induction false} FilterConcat<T(!new)>(a: seq<T>, b: seq<T>, p: T -> bool)
    ensures Filter(a + b, p) == Filter(a, p) + Filter(b, p)
    decreases |a|
  {
    if |a| > 0 {
      assert (a + b)[1..] == a[1..] + b;
      FilterConcat(a[1..], b, p);
    } else {
      assert a + b == b;
    }
  }

  /** A filter keeps every copy of an element it accepts and none of one it
      rejects. */
  lemma {:induction false} FilterMultiset<T(!new)>(s: seq<T>, p: T -> bool, x: T)
    ensures multiset(Filter(s, p))[x] == if p(x) then multiset(s)[x] else 0
    decreases |s|
  {
    if |s| > 0 {
      FilterMultiset(s[1..], p, x);
      assert s == [s[0]] + s[1..];
    }
  }

  /** Reordering a sequence does not change how many of its elements a
      filter keeps. */
  lemma FilterCountPermutation<T(!new)>(a: seq<T>, b: seq<T>, p: T -> bool)
    requires multiset(a) == multiset(b)
    ensures |Filter(a, p)| == |Filter(b, p)|
  {
    forall x ensures multiset(Filter(a, p))[x] == multiset(Filter(b, p))[x] {
      FilterMultiset(a, p, x);
      FilterMultiset(b, p, x);
    }
    assert multiset(Filter(a, p)) == multiset(Filter(b, p));
  }

  /** Filtering distributes over appending, so a record appended to a store
      shows up at the end of every query it matches. */
  lemma {:induction false} FilterAppend<T(!new)>(s: seq<T>, x: T, p: T -> bool)
    ensures Filter(s + [x], p) == Filter(s, p) + (if p(x) then [x] else [])
    decreases |s|
  {
    if |s| == 0 {
      assert s + [x] == [x];
    } else {
      assert (s + [x])[1..] == s[1..] + [x];
      FilterAppend(s[1..], x, p);
    }
  }

  /** `sorted(xs, key=...)` and `list.sort(key=...)` on an integer key (the
      backend sorts records by a timestamp) are stable; the model is an
      insertion sort that places each element after every earlier element
      whose key is not larger. */
  ghost predicate SortedBy<T>(s: seq<T>, key: T -> int) {
    forall i, j :: 0 <= i < j < |s| ==> key(s[i]) <= key(s[j])
  }

  /** Inserts `x` after the last element of `s` whose key is at most `key(x)`. */
  function InsertBy<T>(s: seq<T>, x: T, key: T -> int): (r: seq<T>)
    ensures multiset(r) == multiset(s) + multiset{x}
    decreases |s|
  {
    if |s| == 0 || key(s[|s| - 1]) <= key(x) then s + [x]
    else
      assert s == s[..|s| - 1] + [s[|s| - 1]];
      InsertBy(s[..|s| - 1], x, key) + [s[|s| - 1]]
  }

  function SortBy<T>(s: seq<T>, key: T -> int): (r: seq<T>)
    ensures multiset(r) == multiset(s)
    decreases |s|
  {
    if |s| == 0 then []
    else
      assert s == s[..|s| - 1] + [s[|s| - 1]];
      InsertBy(SortBy(s[..|s| - 1], key), s[|s| - 1], key)
  }

  /** Every element of an insertion is the inserted one or an old one. */
  lemma InsertByElements<T>(s: seq<T>, x: T, key: T -> int)
    ensures forall y :: y in InsertBy(s, x, key) ==> y == x || y in s
  {
    var r := InsertBy(s, x, key);
    forall y | y in r ensures y == x || y in s {
      assert y in multiset(r);
    }
  }

  /** An element whose key bounds every key of an ordered sequence can
      follow it. */
  lemma SortedSnoc<T>(s: seq<T>, z: T, key: T -> int)
    requires SortedBy(s, key)
    requires forall y :: y in s ==> key(y) <= key(z)
    ensures SortedBy(s + [z], key)
  {
    var r := s + [z];
    forall i, j | 0 <= i < j < |r| ensures key(r[i]) <= key(r[j]) {
      if j == |s| {
        assert r[i] == s[i];
      }
    }
  }

  /** The last element of an ordered sequence has the largest key. */
  lemma SortedLastIsMax<T>(s: seq<T>, key: T -> int)
    requires |s| > 0 && SortedBy(s, key)
    ensures forall y :: y in s ==> key(y) <= key(s[|s| - 1])
  {
    forall y | y in s ensures key(y) <= key(s[|s| - 1]) {
      var k :| 0 <= k < |s| && s[k] == y;
    }
  }

  lemma {:induction false} InsertBySorted<T>(s: seq<T>, x: T, key: T -> int)
    requires SortedBy(s, key)
    ensures SortedBy(InsertBy(s, x, key), key)
    decreases |s|
  {
    if |s| == 0 || key(s[|s| - 1]) <= key(x) {
      assert InsertBy(s, x, key) == s + [x];
      if |s| > 0 {
        SortedLastIsMax(s, key);
      }
      SortedSnoc(s, x, key);
    } else {
      var p := s[..|s| - 1];
      var last := s[|s| - 1];
      assert SortedBy(p, key);
      var q := InsertBy(p, x, key);
      assert InsertBy(s, x, key) == q + [last];
      InsertBySorted(p, x, key);
      InsertByElements(p, x, key);
      SortedLastIsMax(s, key);
      assert forall y :: y in p ==> y in s;
      SortedSnoc(q, last, key);
    }
  }

  /** The result is ordered by key and holds exactly the input's elements. */
  lemma {:induction false} SortBySorted<T>(s: seq<T>, key: T -> int)
    ensures SortedBy(SortBy(s, key), key)
    ensures multiset(SortBy(s, key)) == multiset(s)
    ensures |SortBy(s, key)| == |s|
    decreases |s|
  {
    if |s| > 0 {
      SortBySorted(s[..|s| - 1], key);
      InsertBySorted(SortBy(s[..|s| - 1], key), s[|s| - 1], key);
    }
    assert |multiset(SortBy(s, key))| == |multiset(s)|;
  }

  /** The elements of `s` whose key is `k`, in order. */
  function WithKey<T>(s: seq<T>, key: T -> int, k: int): seq<T>
    decreases |s|
  {
    if |s| == 0 then []
    else WithKey(s[..|s| - 1], key, k) + (if key(s[|s| - 1]) == k then [s[|s| - 1]] else [])
  }

  /** Appending an element adds it to the elements with its key, and
      leaves the others as they were. */
  lemma WithKeyAppend<T>(s: seq<T>, x: T, key: T -> int, k: int)
    ensures WithKey(s + [x], key, k) == WithKey(s, key, k) + (if key(x) == k then [x] else [])
  {
    assert (s + [x])[..|s|] == s;
  }

  /** Inserting `x` adds it at the end of the elements that share its key:
      the elements inserted after it all have a larger key. */
  lemma {:induction false} InsertByWithKey<T>(s: seq<T>, x: T, key: T -> int, k: int)
    ensures WithKey(InsertBy(s, x, key), key, k) == WithKey(s, key, k) + (if key(x) == k then [x] else [])
    decreases |s|
  {
    if |s| == 0 || key(s[|s| - 1]) <= key(x) {
      assert InsertBy(s, x, key) == s + [x];
      WithKeyAppend(s, x, key, k);
    } else {
      var front := s[..|s| - 1];
      var last := s[|s| - 1];
      var ins := InsertBy(front, x, key);
      assert InsertBy(s, x, key) == ins + [last];
      InsertByWithKey(front, x, key, k);
      WithKeyAppend(ins, last, key, k);
      assert !(key(x) == k && key(last) == k);
    }
  }

  /** The sort is stable: the elements sharing any one key value come out
      in the order they went in. */
  lemma {:induction false} SortByStable<T>(s: seq<T>, key: T -> int, k: int)
    ensures WithKey(SortBy(s, key), key, k) == WithKey(s, key, k)
    decreases |s|
  {
    if |s| > 0 {
      var front := s[..|s| - 1];
      var last := s[|s| - 1];
      assert SortBy(s, key) == InsertBy(SortBy(front, key), last, key);
      SortByStable(front, key, k);
      InsertByWithKey(SortBy(front, key), last, key, k);
    }
  }

  /** A sequence already in key order is left as it is, as a stable sort does. */
  lemma {:induction false} SortBySortedInput<T>(s: seq<T>, key: T -> int)
    requires SortedBy(s, key)
    ensures SortBy(s, key) == s
    decreases |s|
  {
    if |s| > 0 {
      var p := s[..|s| - 1];
      var last := s[|s| - 1];
      assert SortBy(s, key) == InsertBy(SortBy(p, key), last, key);
      assert SortedBy(p, key);
      SortBySortedInput(p, key);
      if |p| > 0 {
        assert key(p[|p| - 1]) <= key(last);
      }
      assert InsertBy(p, last, key) == p + [last];
      assert s == p + [last];
    }
  }
}
