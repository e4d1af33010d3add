/** Sequence operations with the meaning of the JavaScript array methods the
    source uses: `filter`, a stable `sort`, `slice` and `Math.max(0, ...)`. */
module Seqs {
  import opened Wrappers

  /** `a` is `b` with some elements left out and the order of the rest kept. */
  predicate IsSubsequence<T(==)>(a: seq<T>, b: seq<T>)
    decreases |b|
  {
    a == [] || (b != [] && ((a[0] == b[0] && IsSubsequence(a[1..], b[1..])) || IsSubsequence(a, b[1..])))
  }

  /** `Array.prototype.filter`: the elements that satisfy `p`, in their order. */
  function Filter<T(==)>(s: seq<T>, p: T -> bool): (r: seq<T>)
    ensures |r| <= |s|
    ensures forall i :: 0 <= i < |r| ==> r[i] in s && p(r[i])
    ensures forall i :: 0 <= i < |s| && p(s[i]) ==> s[i] in r
  {
    if s == [] then []
    else if p(s[0]) then [s[0]] + Filter(s[1..], p)
    else Filter(s[1..], p)
  }

  /** A filter keeps the order of what it keeps. */
  lemma {:induction false} FilterIsSubsequence<T>(s: seq<T>, p: T -> bool)
    ensures IsSubsequence(Filter(s, p), s)
  {
    if s != [] {
      FilterIsSubsequence(s[1..], p);
      if p(s[0]) {
        var r := Filter(s, p);
        assert r[0] == s[0] && r[1..] == Filter(s[1..], p);
      }
    }
  }

  /** A filter keeps every copy of what it keeps: each element satisfying
      `p` occurs in the result as often as in `s`, the others not at all. */
  lemma {:induction false} FilterMultiplicity<T>(s: seq<T>, p: T -> bool)
    ensures forall x :: multiset(Filter(s, p))[x] == (if p(x) then multiset(s)[x] else 0)
  {
    if s != [] {
      FilterMultiplicity(s[1..], p);
      assert s == [s[0]] + s[1..];
      assert multiset(s) == multiset([s[0]]) + multiset(s[1..]);
      if p(s[0]) {
        assert multiset(Filter(s, p)) == multiset([s[0]]) + multiset(Filter(s[1..], p));
      }
    }
  }

  /** Two lists with the same elements counted with their multiplicity have the same members. */
  lemma SameMembers<T>(a: seq<T>, b: seq<T>)
    requires multiset(a) == multiset(b)
    ensures forall x :: x in a <==> x in b
  {
    forall x
      ensures x in a <==> x in b
    {
      assert x in a <==> x in multiset(a);
      assert x in b <==> x in multiset(b);
    }
  }

  /** How many elements satisfy `p`. */
  function Count<T(==)>(s: seq<T>, p: T -> bool): nat
  {
    |Filter(s, p)|
  }

  /** Filtering a prefix extended by one element: what a loop over `s` needs. */
  lemma {:induction false} FilterSnoc<T>(s: seq<T>, x: T, p: T -> bool)
    ensures Filter(s + [x], p) == Filter(s, p) + (if p(x) then [x] else [])
  {
    if s != [] {
      assert (s + [x])[1..] == s[1..] + [x];
      FilterSnoc(s[1..], x, p);
    }
  }

  /** Filtering distributes over concatenation. */
  lemma {:induction false} FilterConcat<T>(a: seq<T>, b: seq<T>, p: T -> bool)
    ensures Filter(a + b, p) == Filter(a, p) + Filter(b, p)
  {
    if a == [] {
      assert a + b == b;
    } else {
      assert (a + b)[0] == a[0];
      assert (a + b)[1..] == a[1..] + b;
      FilterConcat(a[1..], b, p);
      if p(a[0]) {
        assert Filter(a + b, p) == [a[0]] + (Filter(a[1..], p) + Filter(b, p));
      }
    }
  }

  /** Two filters in a row keep what satisfies both. */
  lemma {:induction false} FilterFilter<T>(s: seq<T>, p: T -> bool, q: T -> bool, both: T -> bool)
    requires forall i :: 0 <= i < |s| ==> both(s[i]) == (p(s[i]) && q(s[i]))
    ensures Filter(Filter(s, p), q) == Filter(s, both)
  {
    if s != [] {
      FilterFilter(s[1..], p, q, both);
      if p(s[0]) {
        var rest := Filter(s[1..], p);
        assert ([s[0]] + rest)[0] == s[0];
        assert ([s[0]] + rest)[1..] == rest;
      }
    }
  }

  /** A filter whose predicate holds of every element changes nothing. */
  lemma {:induction false} FilterAll<T>(s: seq<T>, p: T -> bool)
    requires forall i :: 0 <= i < |s| ==> p(s[i])
    ensures Filter(s, p) == s
  {
    if s != [] {
      FilterAll(s[1..], p);
    }
  }

  /** A filter that passes the first n elements and no other keeps those n. */
  lemma FilterPrefix<T>(s: seq<T>, n: nat, p: T -> bool)
    requires n <= |s|
    requires forall k :: 0 <= k < |s| ==> (p(s[k]) <==> k < n)
    ensures Filter(s, p) == s[..n]
  {
    var a, b := s[..n], s[n..];
    assert s == a + b;
    FilterConcat(a, b, p);
    FilterAll(a, p);
    FilterNone(b, p);
  }

  /** Filtering depends only on what the predicate says about the elements. */
  lemma {:induction false} FilterExt<T>(s: seq<T>, p: T -> bool, q: T -> bool)
    requires forall i :: 0 <= i < |s| ==> p(s[i]) == q(s[i])
    ensures Filter(s, p) == Filter(s, q)
  {
    if s != [] {
      FilterExt(s[1..], p, q);
    }
  }

  /** A filter no element passes gives the empty list. */
  lemma {:induction false} FilterNone<T>(s: seq<T>, p: T -> bool)
    requires forall i :: 0 <= i < |s| ==> !p(s[i])
    ensures Filter(s, p) == []
  {
    if s != [] {
      FilterNone(s[1..], p);
    }
  }

  /** `Array.prototype.findIndex`, with -1 as None: the first element that satisfies `p`. */
  function FirstIndex<T>(s: seq<T>, p: T -> bool): (r: Option<nat>)
    ensures r.None? <==> forall i :: 0 <= i < |s| ==> !p(s[i])
    ensures r.Some? ==> r.value < |s| && p(s[r.value]) && forall j :: 0 <= j < r.value ==> !p(s[j])
  {
    if s == [] then None
    else if p(s[0]) then Some(0)
    else
      match FirstIndex(s[1..], p)
      case None => None
      case Some(i) => Some(i + 1)
  }

  /** `Array.prototype.find`: the first element that satisfies `p`. */
  function Find<T>(s: seq<T>, p: T -> bool): (r: Option<T>)
    ensures r.None? <==> forall i :: 0 <= i < |s| ==> !p(s[i])
    ensures r.Some? ==> exists i :: 0 <= i < |s| && s[i] == r.value && p(s[i]) && forall j :: 0 <= j < i ==> !p(s[j])
  {
    match FirstIndex(s, p)
    case None => None
    case Some(i) => Some(s[i])
  }

  predicate SortedBy<T>(s: seq<T>, key: T -> int)
  {
    forall i, j :: 0 <= i < j < |s| ==> key(s[i]) <= key(s[j])
  }

  /** Insertion of `x` in front of the first element whose key is not smaller. */
  function InsertBy<T(==)>(x: T, s: seq<T>, key: T -> int): (r: seq<T>)
    requires SortedBy(s, key)
    ensures SortedBy(r, key)
    ensures multiset(r) == multiset(s) + multiset{x}
    ensures r != [] && (key(r[0]) == key(x) || (s != [] && key(r[0]) == key(s[0])))
  {
    if s == [] || key(x) <= key(s[0]) then
      SortedCons(x, s, key);
      [x] + s
    else
      var t := InsertBy(x, s[1..], key);
      assert key(s[0]) <= key(t[0]);
      assert s == [s[0]] + s[1..];
      SortedCons(s[0], t, key);
      [s[0]] + t
  }

  /** A sorted list stays sorted behind a head whose key is not above its first. */
  lemma SortedCons<T>(h: T, t: seq<T>, key: T -> int)
    requires SortedBy(t, key) && (t == [] || key(h) <= key(t[0]))
    ensures SortedBy([h] + t, key)
  {
    var r := [h] + t;
    forall i, j | 0 <= i < j < |r|
      ensures key(r[i]) <= key(r[j])
    {
      if i == 0 {
        assert key(t[0]) <= key(t[j - 1]);
      }
    }
  }

  /** A stable sort by ascending `key`: the `Array.prototype.sort` call with
      the comparator `key(a) - key(b)`. */
  function SortBy<T(==)>(s: seq<T>, key: T -> int): (r: seq<T>)
    ensures SortedBy(r, key)
    ensures multiset(r) == multiset(s)
    ensures |r| == |s|
  {
    if s == [] then []
    else
      assert s == [s[0]] + s[1..];
      InsertBy(s[0], SortBy(s[1..], key), key)
  }

  /** Stability of InsertBy: elements of one key keep their relative order. */
  lemma {:induction false} InsertByStable<T>(x: T, s: seq<T>, key: T -> int, k: int)
    requires SortedBy(s, key)
    ensures Filter(InsertBy(x, s, key), y => key(y) == k) == Filter([x] + s, y => key(y) == k)
  {
    if s != [] && key(s[0]) < key(x) {
      InsertByStable(x, s[1..], key, k);
      assert ([x] + s)[1..] == s;
      assert ([s[0]] + InsertBy(x, s[1..], key))[1..] == InsertBy(x, s[1..], key);
      assert ([x] + s[1..])[1..] == s[1..];
    }
  }

  /** Stability of SortBy: filtering by one key value commutes with sorting. */
  lemma {:induction false} SortByStable<T>(s: seq<T>, key: T -> int, k: int)
    ensures Filter(SortBy(s, key), y => key(y) == k) == Filter(s, y => key(y) == k)
  {
    if s != [] {
      SortByStable(s[1..], key, k);
      InsertByStable(s[0], SortBy(s[1..], key), key, k);
    }
  }

  /** The index normalisation of `Array.prototype.slice`: a negative index
      counts from the end, and the result is clamped into [0, n]. */
  function RelativeIndex(i: int, n: nat): (r: nat)
    ensures r <= n
  {
    if i < 0 then (if n + i < 0 then 0 else n + i)
    else if i > n then n
    else i
  }

  /** `s.slice(b, e)`. */
  function JsSlice<T>(s: seq<T>, b: int, e: int): (r: seq<T>)
    ensures |r| <= |s|
    ensures 0 <= b <= e ==> |r| <= e - b
    ensures 0 <= b < |s| && b < e ==> r == s[b..if e <= |s| then e else |s|]
    ensures 0 <= b && 0 <= e && (|s| <= b || e <= b) ==> r == []
  {
    var lo, hi := RelativeIndex(b, |s|), RelativeIndex(e, |s|);
    if lo < hi then s[lo..hi] else []
  }

  /** The index page `page` (from 1) starts at: `(page - 1) * pageSize`. */
  function PageStart(page: int, pageSize: int): (r: int)
    ensures 1 <= page && 0 <= pageSize ==> 0 <= r
  {
    (page - 1) * pageSize
  }

  /** Page `page` (from 1) of `pageSize` items: `s.slice(start, start + pageSize)` with `start = PageStart(page, pageSize)`. */
  function PageOf<T>(s: seq<T>, page: int, pageSize: int): (r: seq<T>)
    ensures 1 <= page && 0 <= pageSize ==> |r| <= pageSize
    ensures 1 <= page && 0 <= pageSize ==>
      forall i :: 0 <= i < |r| ==> PageStart(page, pageSize) + i < |s| && r[i] == s[PageStart(page, pageSize) + i]
    ensures 1 <= page && 0 <= pageSize && PageStart(page, pageSize) + pageSize <= |s| ==> |r| == pageSize
    ensures 1 <= page && 0 <= pageSize ==>
      var st := PageStart(page, pageSize);
      && (st < |s| ==> r == s[st..if st + pageSize <= |s| then st + pageSize else |s|])
      && (|s| <= st ==> r == [])
  {
    var start := PageStart(page, pageSize);
    PageFacts(s, page, pageSize);
    JsSlice(s, start, start + pageSize)
  }

  lemma PageFacts<T>(s: seq<T>, page: int, pageSize: int)
    ensures 1 <= page && 0 <= pageSize ==>
      var start := PageStart(page, pageSize);
      var r := JsSlice(s, start, start + pageSize);
      && |r| <= pageSize
      && (forall i :: 0 <= i < |r| ==> start + i < |s| && r[i] == s[start + i])
      && (start + pageSize <= |s| ==> |r| == pageSize)
      && (start < |s| ==> r == s[start..if start + pageSize <= |s| then start + pageSize else |s|])
      && (|s| <= start ==> r == [])
  {
    SliceFrom(s, PageStart(page, pageSize), pageSize);
  }

  /** `n` items from index `start`: at most `n`, each the item at its place, and `n` when there are enough. */
  lemma SliceFrom<T>(s: seq<T>, start: int, n: int)
    ensures 0 <= start && 0 <= n ==>
      var r := JsSlice(s, start, start + n);
      && |r| <= n
      && (forall i :: 0 <= i < |r| ==> start + i < |s| && r[i] == s[start + i])
      && (start + n <= |s| ==> |r| == n)
      && (start < |s| ==> r == s[start..if start + n <= |s| then start + n else |s|])
      && (|s| <= start ==> r == [])
  {
  }

  /** Consecutive pages are consecutive pieces of the list. */
  lemma {:induction false} PagesConsecutive<T>(s: seq<T>, page: int, pageSize: int)
    requires 1 <= page && 0 <= pageSize && PageStart(page + 1, pageSize) <= |s|
    ensures PageOf(s, page, pageSize) + PageOf(s, page + 1, pageSize)
            == s[PageStart(page, pageSize)..if PageStart(page + 2, pageSize) <= |s| then PageStart(page + 2, pageSize) else |s|]
  {
    NextPageStart(page, pageSize);
    NextPageStart(page + 1, pageSize);
  }

  /** Each page starts `pageSize` after the one before. */
  lemma NextPageStart(page: int, pageSize: int)
    ensures PageStart(page + 1, pageSize) == PageStart(page, pageSize) + pageSize
  {
  }

  /** `Math.max(0, ...s.map(key))`. */
  function MaxOrZero<T>(s: seq<T>, key: T -> int): (m: int)
    ensures 0 <= m
    ensures forall i :: 0 <= i < |s| ==> key(s[i]) <= m
    ensures m == 0 || exists i :: 0 <= i < |s| && key(s[i]) == m
  {
    if s == [] then 0
    else
      var rest := MaxOrZero(s[1..], key);
      assert forall i :: 1 <= i < |s| ==> s[i] == s[1..][i - 1];
      if key(s[0]) > rest then key(s[0]) else rest
  }
}
