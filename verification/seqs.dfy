/**
 * The array operations the pages' state updates are built from: `filter`, `map`
 * restricted to matching records, and the append/remove of a multi-select list.
 */
module Seqs {

  /** `sub` is `s` with zero or more elements dropped and the rest kept in order. */
  predicate IsSubseq<T(==)>(sub: seq<T>, s: seq<T>)
    decreases |s|
  {
    if |sub| == 0 then true
    else if |s| == 0 then false
    else (sub[0] == s[0] && IsSubseq(sub[1..], s[1..])) || IsSubseq(sub, s[1..])
  }

  /** A subsequence keeps no element more often than the original holds it. */
  lemma {:induction false} SubseqMultiset<T>(sub: seq<T>, s: seq<T>)
    requires IsSubseq(sub, s)
    ensures multiset(sub) <= multiset(s)
    decreases |s|
  {
    if |sub| > 0 {
      assert s == [s[0]] + s[1..];
      if sub[0] == s[0] && IsSubseq(sub[1..], s[1..]) {
        assert sub == [sub[0]] + sub[1..];
        SubseqMultiset(sub[1..], s[1..]);
      } else {
        SubseqMultiset(sub, s[1..]);
      }
    }
  }

  /** Every sequence is a subsequence of itself. */
  lemma {:induction false} SubseqRefl<T>(s: seq<T>)
    ensures IsSubseq(s, s)
    decreases |s|
  {
    if |s| > 0 {
      SubseqRefl(s[1..]);
    }
  }

  /** `Array.prototype.filter`: the elements of `s` that satisfy `p`. */
  function Filter<T>(s: seq<T>, p: T -> bool): (r: seq<T>)
    ensures |r| <= |s|
    ensures forall x :: x in r ==> p(x)
    decreases |s|
  {
    if |s| == 0 then []
    else if p(s[0]) then [s[0]] + Filter(s[1..], p)
    else Filter(s[1..], p)
  }

  /**
   * Filter keeps the satisfying elements in their original order, each exactly as often
   * as `s` holds it, and drops every other element.
   */
  lemma {:induction false} FilterSelects<T(!new)>(s: seq<T>, p: T -> bool)
    ensures IsSubseq(Filter(s, p), s)
    ensures forall x :: multiset(Filter(s, p))[x] == if p(x) then multiset(s)[x] else 0
    decreases |s|
  {
    if |s| > 0 {
      FilterSelects(s[1..], p);
      var rest := Filter(s[1..], p);
      assert s == [s[0]] + s[1..];
      if p(s[0]) {
        assert ([s[0]] + rest)[1..] == rest;
      }
    }
  }

  /** An element survives Filter exactly when it was in `s` and satisfies `p`. */
  lemma FilterMembers<T(!new)>(s: seq<T>, p: T -> bool)
    ensures forall y :: y in Filter(s, p) <==> y in s && p(y)
  {
    FilterSelects(s, p);
    forall y
      ensures y in Filter(s, p) <==> y in s && p(y)
    {
      assert (y in Filter(s, p)) == (y in multiset(Filter(s, p)));
      assert (y in s) == (y in multiset(s));
    }
  }

  /**
   * The contract of Filter pins its result down: any subsequence of `s` that holds
   * exactly the satisfying elements, with their multiplicities, is Filter's result.
   */
  lemma {:induction false} FilterUnique<T(!new)>(s: seq<T>, p: T -> bool, r: seq<T>)
    requires IsSubseq(r, s)
    requires forall x :: multiset(r)[x] == if p(x) then multiset(s)[x] else 0
    ensures r == Filter(s, p)
    decreases |s|
  {
    if |s| == 0 {
      assert |r| == 0;
    } else {
      assert s == [s[0]] + s[1..];
      var x := s[0];
      if p(x) {
        assert multiset(r)[x] == multiset(s)[x] > 0;
        assert |r| > 0;
        if r[0] == x && IsSubseq(r[1..], s[1..]) {
          assert r == [x] + r[1..];
          FilterUnique(s[1..], p, r[1..]);
        } else {
          SubseqMultiset(r, s[1..]);
          assert false;
        }
      } else {
        if |r| > 0 {
          assert r[0] in multiset(r);
          assert r[0] != x;
          assert IsSubseq(r, s[1..]);
        }
        FilterUnique(s[1..], p, r);
      }
    }
  }

  /** Filtering a list with a known head. */
  lemma FilterCons<T(!new)>(h: T, t: seq<T>, p: T -> bool)
    ensures Filter([h] + t, p) == (if p(h) then [h] else []) + Filter(t, p)
  {
    assert ([h] + t)[1..] == t;
  }

  /** A filter whose test every element passes returns its input unchanged. */
  lemma {:induction false} FilterKeepsAll<T(!new)>(s: seq<T>, p: T -> bool)
    requires forall x :: x in s ==> p(x)
    ensures Filter(s, p) == s
    decreases |s|
  {
    if |s| > 0 {
      FilterKeepsAll(s[1..], p);
    }
  }

  /** Two tests that agree everywhere filter alike. */
  lemma {:induction false} FilterCongruent<T>(s: seq<T>, p: T -> bool, q: T -> bool)
    requires forall x :: p(x) == q(x)
    ensures Filter(s, p) == Filter(s, q)
    decreases |s|
  {
    if |s| > 0 {
      FilterCongruent(s[1..], p, q);
    }
  }

  /** A subsequence never has more passing elements than the sequence it was taken from. */
  lemma {:induction false} FilterSubseqLength<T>(sub: seq<T>, s: seq<T>, p: T -> bool)
    requires IsSubseq(sub, s)
    ensures |Filter(sub, p)| <= |Filter(s, p)|
    decreases |s|
  {
    if |sub| > 0 {
      if sub[0] == s[0] && IsSubseq(sub[1..], s[1..]) {
        FilterSubseqLength(sub[1..], s[1..], p);
      } else {
        FilterSubseqLength(sub, s[1..], p);
      }
    }
  }

  /** Filter keeps the whole input exactly when every element passes. */
  lemma FilterLengthAll<T(!new)>(s: seq<T>, p: T -> bool)
    ensures |Filter(s, p)| == |s| <==> forall x :: x in s ==> p(x)
  {
    if forall x :: x in s ==> p(x) {
      FilterKeepsAll(s, p);
    } else {
      var k :| 0 <= k < |s| && !p(s[k]);
      FilterShorter(s, p, k);
    }
  }

  /** An element that fails the test makes the result shorter than the input. */
  lemma {:induction false} FilterShorter<T>(s: seq<T>, p: T -> bool, k: nat)
    requires k < |s| && !p(s[k])
    ensures |Filter(s, p)| < |s|
    decreases |s|
  {
    if k > 0 {
      FilterShorter(s[1..], p, k - 1);
    }
  }

  /** Filter returns nothing exactly when no element passes. */
  lemma FilterEmpty<T(!new)>(s: seq<T>, p: T -> bool)
    ensures |Filter(s, p)| == 0 <==> forall x :: x in s ==> !p(x)
  {
    FilterMembers(s, p);
    if |Filter(s, p)| > 0 {
      assert Filter(s, p)[0] in Filter(s, p);
    }
  }

  /** Filtering an already filtered list by the same test changes nothing. */
  lemma FilterIdempotent<T(!new)>(s: seq<T>, p: T -> bool)
    ensures Filter(Filter(s, p), p) == Filter(s, p)
  {
    FilterKeepsAll(Filter(s, p), p);
  }

  /**
   * Replacing some elements by images that pass the test exactly when the originals did
   * keeps the number of passing elements.
   */
  lemma {:induction false} FilterUpdateLength<T>(s: seq<T>, p: T -> bool, sel: T -> bool, f: T -> T)
    requires forall x :: p(f(x)) == p(x)
    ensures |Filter(UpdateWhere(s, sel, f), p)| == |Filter(s, p)|
    decreases |s|
  {
    if |s| > 0 {
      var u := UpdateWhere(s, sel, f);
      assert u[1..] == UpdateWhere(s[1..], sel, f);
      FilterUpdateLength(s[1..], p, sel, f);
      assert p(u[0]) == p(s[0]);
    }
  }

  /** Filtering by a test and by its negation splits the input: the two lengths add up. */
  lemma {:induction false} FilterComplementLength<T(!new)>(s: seq<T>, p: T -> bool, q: T -> bool)
    requires forall x :: q(x) == !p(x)
    ensures |Filter(s, p)| + |Filter(s, q)| == |s|
    decreases |s|
  {
    if |s| > 0 {
      FilterComplementLength(s[1..], p, q);
    }
  }

  /** `s.map(x => sel(x) ? f(x) : x)`: the matching elements are replaced by their image under `f`. */
  function UpdateWhere<T>(s: seq<T>, sel: T -> bool, f: T -> T): (r: seq<T>)
    ensures |r| == |s|
    ensures forall i :: 0 <= i < |s| && !sel(s[i]) ==> r[i] == s[i]
    ensures forall i :: 0 <= i < |s| && sel(s[i]) ==> r[i] == f(s[i])
  {
    seq(|s|, i requires 0 <= i < |s| => if sel(s[i]) then f(s[i]) else s[i])
  }

  /**
   * The multi-select handlers: `checked ? [...prev, x] : prev.filter(y => y !== x)`.
   */
  function SetChecked<T(==,!new)>(selected: seq<T>, x: T, checked: bool): (r: seq<T>)
    ensures checked ==> |r| == |selected| + 1 && r[..|selected|] == selected && r[|selected|] == x
    ensures !checked ==> x !in r && IsSubseq(r, selected)
    ensures !checked ==> forall y :: y != x ==> multiset(r)[y] == multiset(selected)[y]
    ensures forall y :: y in r <==> if checked then y in selected || y == x else y in selected && y != x
  {
    if checked then selected + [x]
    else
      FilterSelects(selected, Other(x));
      FilterMembers(selected, Other(x));
      Filter(selected, Other(x))
  }

  /** The test `y => y !== x`. */
  function Other<T(==)>(x: T): T -> bool {
    y => y != x
  }

  /** Checking a fresh entry and unchecking it again restores the list. */
  lemma CheckThenUncheck<T(!new)>(selected: seq<T>, x: T)
    requires x !in selected
    ensures SetChecked(SetChecked(selected, x, true), x, false) == selected
  {
    var grown := SetChecked(selected, x, true);
    var back := SetChecked(grown, x, false);
    SubseqRefl(selected);
    assert grown == selected + [x];
    forall y
      ensures multiset(selected)[y] == if y != x then multiset(grown)[y] else 0
    {
      assert multiset(grown) == multiset(selected) + multiset{x};
    }
    assert IsSubseq(selected, grown) by {
      SubseqAppend(selected, selected, [x]);
    }
    FilterUnique(grown, Other(x), selected);
  }

  /** Appending to the larger sequence keeps a subsequence a subsequence. */
  lemma {:induction false} SubseqAppend<T>(sub: seq<T>, s: seq<T>, t: seq<T>)
    requires IsSubseq(sub, s)
    ensures IsSubseq(sub, s + t)
    decreases |s|
  {
    if |sub| > 0 {
      assert (s + t)[1..] == s[1..] + t;
      if sub[0] == s[0] && IsSubseq(sub[1..], s[1..]) {
        SubseqAppend(sub[1..], s[1..], t);
      } else {
        SubseqAppend(sub, s[1..], t);
      }
    }
  }
}
