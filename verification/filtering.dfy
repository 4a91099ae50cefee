/** `Array.prototype.filter` on sequences: keep, in their original order,
    the elements a predicate accepts. */
module Filtering {

  /** `a` can be obtained from `b` by deleting elements, keeping the order. */
  predicate IsSubsequence<T(==)>(a: seq<T>, b: seq<T>)
    decreases |b|
  {
    a == [] ||
    (b != [] && ((a[0] == b[0] && IsSubsequence(a[1..], b[1..])) || IsSubsequence(a, b[1..])))
  }

  /** No element occurs twice. */
  predicate Distinct<T(==)>(s: seq<T>) {
    forall i, j :: 0 <= i < j < |s| ==> s[i] != s[j]
  }

  /** `s.filter(keep)`. */
  function Filter<T(!new)>(s: seq<T>, keep: T -> bool): (r: seq<T>)
    ensures |r| <= |s|
    ensures forall x :: x in r <==> x in s && keep(x)
    ensures IsSubsequence(r, s)
  {
    if s == [] then []
    else if keep(s[0]) then [s[0]] + Filter(s[1..], keep)
    else Filter(s[1..], keep)
  }

  /** Every sequence is a subsequence of itself. */
  lemma {:induction false} SubsequenceOfSelf<T>(s: seq<T>)
    ensures IsSubsequence(s, s)
    decreases |s|
  {
    if s != [] {
      SubsequenceOfSelf(s[1..]);
    }
  }

  /** Every element of a subsequence is an element of the whole. */
  lemma {:induction false} SubsequenceMembers<T(!new)>(a: seq<T>, b: seq<T>)
    requires IsSubsequence(a, b)
    ensures forall x :: x in a ==> x in b
    decreases |b|
  {
    if a != [] {
      if a[0] == b[0] && IsSubsequence(a[1..], b[1..]) {
        SubsequenceMembers(a[1..], b[1..]);
        assert forall x :: x in a ==> x == a[0] || x in a[1..];
      } else {
        SubsequenceMembers(a, b[1..]);
      }
    }
  }

  /** A filter that accepts every element returns the sequence unchanged. */
  lemma {:induction false} FilterKeepsAll<T(!new)>(s: seq<T>, keep: T -> bool)
    requires forall i :: 0 <= i < |s| ==> keep(s[i])
    ensures Filter(s, keep) == s
  {
    if s != [] {
      FilterKeepsAll(s[1..], keep);
      assert [s[0]] + s[1..] == s;
    }
  }

  /** A filter that accepts no element returns the empty sequence. */
  lemma {:induction false} FilterKeepsNone<T(!new)>(s: seq<T>, keep: T -> bool)
    requires forall i :: 0 <= i < |s| ==> !keep(s[i])
    ensures Filter(s, keep) == []
  {
    if s != [] {
      FilterKeepsNone(s[1..], keep);
    }
  }

  /** Filtering never duplicates: a sequence without repeats stays so. */
  lemma {:induction false} FilterDistinct<T(!new)>(s: seq<T>, keep: T -> bool)
    requires Distinct(s)
    ensures Distinct(Filter(s, keep))
  {
    if s != [] {
      FilterDistinct(s[1..], keep);
      assert s[0] !in s[1..];
    }
  }

  /** Filtering by two predicates in turn is filtering by their conjunction. */
  lemma {:induction false} FilterTwice<T(!new)>(s: seq<T>, first: T -> bool, second: T -> bool, both: T -> bool)
    requires forall x :: both(x) == (first(x) && second(x))
    ensures Filter(Filter(s, first), second) == Filter(s, both)
  {
    if s != [] {
      FilterTwice(s[1..], first, second, both);
      if first(s[0]) {
        assert Filter(s, first) == [s[0]] + Filter(s[1..], first);
        assert Filter(s, first)[1..] == Filter(s[1..], first);
      }
    }
  }

  /** Two predicates that agree on the elements of `s` filter it alike. */
  lemma {:induction false} FilterAgreeing<T(!new)>(s: seq<T>, a: T -> bool, b: T -> bool)
    requires forall x :: x in s ==> a(x) == b(x)
    ensures Filter(s, a) == Filter(s, b)
  {
    if s != [] {
      FilterAgreeing(s[1..], a, b);
    }
  }

  /** The filter is the only subsequence of a repeat-free sequence that holds
      exactly the accepted elements: "what `filter` returns" stated without
      reference to how it computes. */
  lemma {:induction false} FilterUnique<T(!new)>(r: seq<T>, s: seq<T>, keep: T -> bool)
    requires Distinct(s)
    requires IsSubsequence(r, s)
    requires forall x :: x in r <==> x in s && keep(x)
    ensures r == Filter(s, keep)
    decreases |s|
  {
    if s == [] {
      assert r == [];
    } else if r == [] {
      FilterKeepsNone(s, keep);
    } else {
      assert s[0] !in s[1..];
      assert Distinct(s[1..]);
      if r[0] == s[0] && IsSubsequence(r[1..], s[1..]) {
        assert r[0] !in r[1..] by {
          SubsequenceMembers(r[1..], s[1..]);
        }
        forall x ensures x in r[1..] <==> x in s[1..] && keep(x) {
          assert x in r <==> x == r[0] || x in r[1..];
          assert x in s <==> x == s[0] || x in s[1..];
        }
        FilterUnique(r[1..], s[1..], keep);
        assert r == [r[0]] + r[1..];
      } else {
        assert IsSubsequence(r, s[1..]);
        SubsequenceMembers(r, s[1..]);
        forall x ensures x in r <==> x in s[1..] && keep(x) {
          assert x in s <==> x == s[0] || x in s[1..];
        }
        FilterUnique(r, s[1..], keep);
      }
    }
  }

  /** Concatenation is associative. */
  lemma ConcatAssociative<T>(x: seq<T>, y: seq<T>, z: seq<T>)
    ensures x + (y + z) == (x + y) + z
  {
    assert forall i :: 0 <= i < |x| + |y| + |z| ==> (x + (y + z))[i] == ((x + y) + z)[i];
  }

  /** Filtering a concatenation filters each part. */
  lemma {:induction false} FilterAppend<T(!new)>(a: seq<T>, b: seq<T>, keep: T -> bool)
    ensures Filter(a + b, keep) == Filter(a, keep) + Filter(b, keep)
  {
    if a == [] {
      assert a + b == b;
    } else {
      var ab, rest, fb := a + b, Filter(a[1..], keep), Filter(b, keep);
      assert ab != [] && ab[0] == a[0] && ab[1..] == a[1..] + b;
      FilterAppend(a[1..], b, keep);
      assert Filter(ab[1..], keep) == rest + fb;
      if keep(a[0]) {
        assert Filter(ab, keep) == [a[0]] + (rest + fb);
        assert Filter(a, keep) == [a[0]] + rest;
        ConcatAssociative([a[0]], rest, fb);
      } else {
        assert Filter(ab, keep) == rest + fb;
        assert Filter(a, keep) == rest;
      }
    }
  }

  /** Strictly increasing indices, all below `n`. */
  predicate IndicesBelow(picks: seq<nat>, n: nat) {
    (forall j, k :: 0 <= j < k < |picks| ==> picks[j] < picks[k]) &&
    (forall j :: 0 <= j < |picks| ==> picks[j] < n)
  }

  /** The elements of `s` at the given indices, in that order. */
  function Pick<T>(s: seq<T>, picks: seq<nat>): (r: seq<T>)
    requires IndicesBelow(picks, |s|)
    ensures |r| == |picks| && forall j :: 0 <= j < |picks| ==> r[j] == s[picks[j]]
  {
    seq(|picks|, j requires 0 <= j < |picks| => s[picks[j]])
  }

  /** Filtering a sequence with its last element split off. */
  lemma {:induction false} FilterSnoc<T(!new)>(s: seq<T>, keep: T -> bool)
    requires s != []
    ensures Filter(s, keep) == Filter(s[..|s| - 1], keep) + (if keep(s[|s| - 1]) then [s[|s| - 1]] else [])
  {
    var n := |s| - 1;
    var init, last := s[..n], [s[n]];
    assert s == init + last;
    FilterAppend(init, last, keep);
    assert Filter(last, keep) == (if keep(s[n]) then [s[n]] else []) by {
      assert last[1..] == [];
    }
  }

  /** When the last element is accepted, it is the last index picked. */
  lemma LastPicked(picks: seq<nat>, n: nat)
    requires IndicesBelow(picks, n + 1) && n in picks
    ensures picks[|picks| - 1] == n && IndicesBelow(picks[..|picks| - 1], n)
    ensures forall i :: 0 <= i < n ==> (i in picks <==> i in picks[..|picks| - 1])
  {
    var last := |picks| - 1;
    var k :| 0 <= k < |picks| && picks[k] == n;
    assert picks[last] < n + 1;
    assert picks == picks[..last] + [n];
  }

  /** Picking only indices below `n` reads only the first `n` elements. */
  lemma PickPrefix<T>(s: seq<T>, picks: seq<nat>, n: nat)
    requires n <= |s| && IndicesBelow(picks, n)
    ensures Pick(s, picks) == Pick(s[..n], picks)
  {
  }

  /** Picking the last index adds the last element. */
  lemma PickLast<T>(s: seq<T>, picks: seq<nat>)
    requires s != [] && picks != [] && IndicesBelow(picks, |s|)
    requires picks[|picks| - 1] == |s| - 1 && IndicesBelow(picks[..|picks| - 1], |s| - 1)
    ensures Pick(s, picks) == Pick(s[..|s| - 1], picks[..|picks| - 1]) + [s[|s| - 1]]
  {
  }

  /** The index-based reading of `filter`: the result is the elements at
      exactly the accepted indices, in increasing index order. */
  lemma {:induction false} FilterAtIndices<T(!new)>(s: seq<T>, keep: T -> bool, picks: seq<nat>)
    requires IndicesBelow(picks, |s|)
    requires forall i :: 0 <= i < |s| ==> (keep(s[i]) <==> i in picks)
    ensures Filter(s, keep) == Pick(s, picks)
    decreases |s|
  {
    if picks == [] {
      FilterKeepsNone(s, keep);
    } else {
      assert picks[0] < |s|;
      var n := |s| - 1;
      FilterSnoc(s, keep);
      if keep(s[n]) {
        LastPicked(picks, n);
        FilterAtIndices(s[..n], keep, picks[..|picks| - 1]);
        PickLast(s, picks);
      } else {
        assert IndicesBelow(picks, n) by {
          assert n !in picks;
        }
        FilterAtIndices(s[..n], keep, picks);
        PickPrefix(s, picks, n);
      }
    }
  }
}
