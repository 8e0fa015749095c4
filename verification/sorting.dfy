/**
 * `Array.prototype.sort` with a comparator, which ECMAScript requires to be stable.
 * A comparator result <= 0 lets `a` stay ahead of `b` (a NaN result counts as 0, so the
 * callers map NaN to 0.0). The model sorts by stable insertion; for a comparator that is
 * a total preorder on the input, every stable sort yields this same order.
 */
module Sorting {
  import opened Seqs

  /** Every earlier element may stay ahead of every later one. */
  ghost predicate SortedBy<T>(cmp: (T, T) -> real, s: seq<T>) {
    forall i, j :: 0 <= i < j < |s| ==> cmp(s[i], s[j]) <= 0.0
  }

  /** On the elements of `s`, "may stay ahead of" is total and transitive. */
  ghost predicate TotalPreorderOn<T(!new)>(cmp: (T, T) -> real, s: seq<T>) {
    && (forall a, b :: a in s && b in s ==> cmp(a, b) <= 0.0 || cmp(b, a) <= 0.0)
    && (forall a, b, c :: a in s && b in s && c in s && cmp(a, b) <= 0.0 && cmp(b, c) <= 0.0 ==> cmp(a, c) <= 0.0)
  }

  /** `a` and `b` tie: neither has to go after the other. */
  predicate Tie<T>(cmp: (T, T) -> real, a: T, b: T) {
    cmp(a, b) <= 0.0 && cmp(b, a) <= 0.0
  }

  /** The test "ties with `x`". */
  function TiesWith<T>(cmp: (T, T) -> real, x: T): T -> bool {
    y => Tie(cmp, x, y)
  }

  /** `x` placed ahead of the first element of `ys` it may stay ahead of. */
  function Insert<T(!new)>(x: T, ys: seq<T>, cmp: (T, T) -> real): (r: seq<T>)
    ensures multiset(r) == multiset(ys) + multiset{x}
    decreases |ys|
  {
    if |ys| == 0 then [x]
    else if cmp(x, ys[0]) <= 0.0 then [x] + ys
    else
      assert ys == [ys[0]] + ys[1..];
      [ys[0]] + Insert(x, ys[1..], cmp)
  }

  /** Sorts `s` by inserting each element into the sorted rest of the list behind it. */
  function Sort<T(!new)>(s: seq<T>, cmp: (T, T) -> real): (r: seq<T>)
    ensures multiset(r) == multiset(s)
    ensures |r| == |s|
    decreases |s|
  {
    if |s| == 0 then []
    else
      assert s == [s[0]] + s[1..];
      Insert(s[0], Sort(s[1..], cmp), cmp)
  }

  /** Inserting into a sorted list keeps it sorted. */
  lemma {:induction false} InsertSorted<T(!new)>(x: T, ys: seq<T>, cmp: (T, T) -> real, dom: seq<T>)
    requires TotalPreorderOn(cmp, dom)
    requires x in dom && forall y :: y in ys ==> y in dom
    requires SortedBy(cmp, ys)
    ensures SortedBy(cmp, Insert(x, ys, cmp))
    decreases |ys|
  {
    if |ys| > 0 {
      if cmp(x, ys[0]) <= 0.0 {
        PrependSorted(x, ys, cmp, dom);
      } else {
        InsertSorted(x, ys[1..], cmp, dom);
        var rest := Insert(x, ys[1..], cmp);
        forall k | 0 <= k < |rest|
          ensures cmp(ys[0], rest[k]) <= 0.0
        {
          assert rest[k] in multiset(rest);
          if rest[k] != x {
            assert rest[k] in multiset(ys[1..]);
            var j :| 0 <= j < |ys[1..]| && ys[1..][j] == rest[k];
            assert ys[j + 1] == rest[k];
          } else {
            assert ys[0] in dom;
          }
        }
        ConsSorted(ys[0], rest, cmp);
      }
    }
  }

  /** An element that may stay ahead of the head of a sorted list may stay ahead of all of it. */
  lemma PrependSorted<T(!new)>(x: T, ys: seq<T>, cmp: (T, T) -> real, dom: seq<T>)
    requires TotalPreorderOn(cmp, dom)
    requires x in dom && forall y :: y in ys ==> y in dom
    requires SortedBy(cmp, ys)
    requires |ys| > 0 && cmp(x, ys[0]) <= 0.0
    ensures SortedBy(cmp, [x] + ys)
  {
    forall j | 0 <= j < |ys|
      ensures cmp(x, ys[j]) <= 0.0
    {
      if j > 0 {
        assert cmp(ys[0], ys[j]) <= 0.0;
        assert ys[0] in dom && ys[j] in dom;
      }
    }
    ConsSorted(x, ys, cmp);
  }

  /** A head that may stay ahead of every element of a sorted tail gives a sorted list. */
  lemma ConsSorted<T>(x: T, ys: seq<T>, cmp: (T, T) -> real)
    requires SortedBy(cmp, ys)
    requires forall k :: 0 <= k < |ys| ==> cmp(x, ys[k]) <= 0.0
    ensures SortedBy(cmp, [x] + ys)
  {
    var r := [x] + ys;
    forall i, j | 0 <= i < j < |r|
      ensures cmp(r[i], r[j]) <= 0.0
    {
      assert r[j] == ys[j - 1];
      if i > 0 {
        assert r[i] == ys[i - 1];
      }
    }
  }

  /** For a total preorder the sort yields an ordered permutation. */
  lemma {:induction false} SortSorted<T(!new)>(s: seq<T>, cmp: (T, T) -> real)
    requires TotalPreorderOn(cmp, s)
    ensures SortedBy(cmp, Sort(s, cmp))
    decreases |s|
  {
    if |s| > 0 {
      assert forall y :: y in s[1..] ==> y in s;
      SortSorted(s[1..], cmp);
      var rest := Sort(s[1..], cmp);
      forall y | y in rest
        ensures y in s
      {
        assert y in multiset(rest);
      }
      InsertSorted(s[0], rest, cmp, s);
    }
  }

  /** A list that is already in order comes back unchanged. */
  lemma {:induction false} SortOfSortedIsIdentity<T(!new)>(s: seq<T>, cmp: (T, T) -> real)
    requires SortedBy(cmp, s)
    ensures Sort(s, cmp) == s
    decreases |s|
  {
    if |s| > 0 {
      assert SortedBy(cmp, s[1..]);
      SortOfSortedIsIdentity(s[1..], cmp);
      if |s| > 1 {
        assert cmp(s[0], s[1]) <= 0.0;
        assert s[1..][0] == s[1];
      }
      assert [s[0]] + s[1..] == s;
    }
  }

  /** Sorting twice is sorting once. */
  lemma SortIdempotent<T(!new)>(s: seq<T>, cmp: (T, T) -> real)
    requires TotalPreorderOn(cmp, s)
    ensures Sort(Sort(s, cmp), cmp) == Sort(s, cmp)
  {
    SortSorted(s, cmp);
    SortOfSortedIsIdentity(Sort(s, cmp), cmp);
  }

  /** Inserting `a` puts it ahead of every element it ties with. */
  lemma {:induction false} InsertKeepsTies<T(!new)>(a: T, ys: seq<T>, cmp: (T, T) -> real, x: T)
    requires Tie(cmp, x, a) ==> forall y :: y in ys && cmp(a, y) > 0.0 ==> !Tie(cmp, x, y)
    ensures Filter(Insert(a, ys, cmp), TiesWith(cmp, x))
         == (if Tie(cmp, x, a) then [a] else []) + Filter(ys, TiesWith(cmp, x))
    decreases |ys|
  {
    if |ys| == 0 {
      FilterCons(a, [], TiesWith(cmp, x));
      assert [a] + [] == [a];
    } else if cmp(a, ys[0]) <= 0.0 {
      FilterCons(a, ys, TiesWith(cmp, x));
    } else {
      assert ys == [ys[0]] + ys[1..];
      InsertKeepsTies(a, ys[1..], cmp, x);
      InsertPastHead(a, ys[0], ys[1..], cmp, x);
    }
  }

  /** One step of InsertKeepsTies: `a` moves past a head it does not tie with. */
  lemma InsertPastHead<T(!new)>(a: T, head: T, tail: seq<T>, cmp: (T, T) -> real, x: T)
    requires cmp(a, head) > 0.0
    requires Tie(cmp, x, a) ==> !Tie(cmp, x, head)
    requires Filter(Insert(a, tail, cmp), TiesWith(cmp, x))
          == (if Tie(cmp, x, a) then [a] else []) + Filter(tail, TiesWith(cmp, x))
    ensures Filter(Insert(a, [head] + tail, cmp), TiesWith(cmp, x))
         == (if Tie(cmp, x, a) then [a] else []) + Filter([head] + tail, TiesWith(cmp, x))
  {
    var e := TiesWith(cmp, x);
    var inserted := Insert(a, tail, cmp);
    assert ([head] + tail)[0] == head && ([head] + tail)[1..] == tail;
    assert Insert(a, [head] + tail, cmp) == [head] + inserted;
    FilterCons(head, inserted, e);
    FilterCons(head, tail, e);
    var f := Filter(tail, e);
    assert e(head) == Tie(cmp, x, head);
    if Tie(cmp, x, a) {
      assert Filter([head] + inserted, e) == [] + Filter(inserted, e);
      assert Filter([head] + tail, e) == [] + f;
      assert [] + f == f;
      assert [] + Filter(inserted, e) == Filter(inserted, e);
    } else {
      var fh := if e(head) then [head] else [];
      assert Filter(inserted, e) == [] + f == f;
      assert Filter([head] + inserted, e) == fh + f;
      assert Filter([head] + tail, e) == fh + f;
      assert [] + (fh + f) == fh + f;
    }
  }

  /** Under a total preorder, nothing `a` has to go after ties with what `a` ties with. */
  lemma SkippedDoNotTie<T(!new)>(a: T, ys: seq<T>, cmp: (T, T) -> real, x: T, dom: seq<T>)
    requires TotalPreorderOn(cmp, dom)
    requires a in dom && x in dom && forall y :: y in ys ==> y in dom
    ensures Tie(cmp, x, a) ==> forall y :: y in ys && cmp(a, y) > 0.0 ==> !Tie(cmp, x, y)
  {
  }

  /** Stability: the elements tying with any `x` keep their relative order. */
  lemma {:induction false} SortStable<T(!new)>(s: seq<T>, cmp: (T, T) -> real, x: T)
    requires TotalPreorderOn(cmp, s)
    requires x in s
    ensures Filter(Sort(s, cmp), TiesWith(cmp, x)) == Filter(s, TiesWith(cmp, x))
  {
    SortStableWithin(s, cmp, x, s);
  }

  lemma {:induction false} SortStableWithin<T(!new)>(s: seq<T>, cmp: (T, T) -> real, x: T, dom: seq<T>)
    requires TotalPreorderOn(cmp, dom)
    requires x in dom && forall y :: y in s ==> y in dom
    ensures Filter(Sort(s, cmp), TiesWith(cmp, x)) == Filter(s, TiesWith(cmp, x))
    decreases |s|
  {
    if |s| > 0 {
      SortStableWithin(s[1..], cmp, x, dom);
      var rest := Sort(s[1..], cmp);
      forall y | y in rest
        ensures y in dom
      {
        assert y in multiset(rest);
        assert y in s[1..];
      }
      SkippedDoNotTie(s[0], rest, cmp, x, dom);
      InsertKeepsTies(s[0], rest, cmp, x);
    }
  }
}
