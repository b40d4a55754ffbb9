/**
  Order-preserving filtering and element-wise mapping of sequences: the
  `Array.prototype.filter` and `Array.prototype.map` that the navigation code
  chains together.

  `Filter` is characterised independently of its recursive definition:
  `IsFilterOf(r, s, p)` says that `r` is what remains of `s` after dropping
  exactly the elements that fail `p`, keeping the rest in their original order.
  The lemmas show that `Filter` meets that description and is the only sequence
  that does.
*/
module SeqFilter {

  /** The elements of `s` that satisfy `p`, in their original order. */
  function Filter<T>(s: seq<T>, p: T -> bool): seq<T>
  {
    if |s| == 0 then []
    else if p(s[0]) then [s[0]] + Filter(s[1..], p)
    else Filter(s[1..], p)
  }

  /** `f` applied to every element of `s`, in order. */
  function Map<T, U>(s: seq<T>, f: T -> U): seq<U>
  {
    seq(|s|, k requires 0 <= k < |s| => f(s[k]))
  }

  /** Filtering keeps exactly the elements that satisfy `p`, and never lengthens. */
  lemma {:induction false} FilterMembers<T>(s: seq<T>, p: T -> bool)
    ensures |Filter(s, p)| <= |s|
    ensures forall x :: x in Filter(s, p) ==> x in s && p(x)
    ensures forall x :: x in s && p(x) ==> x in Filter(s, p)
  {
    if |s| > 0 {
      FilterMembers(s[1..], p);
      assert s == [s[0]] + s[1..];
    }
  }

  ghost predicate Increasing(idx: seq<int>)
  {
    forall j, k :: 0 <= j < k < |idx| ==> idx[j] < idx[k]
  }

  /** `idx` lists, in increasing order, exactly the positions of `s` whose element satisfies `p`. */
  ghost predicate EnumeratesSatisfying<T>(idx: seq<int>, s: seq<T>, p: T -> bool)
  {
    && Increasing(idx)
    && (forall k :: 0 <= k < |idx| ==> 0 <= idx[k] < |s|)
    && (forall i :: 0 <= i < |s| ==> (i in idx <==> p(s[i])))
  }

  /** `r` consists of the elements of `s` at the positions `idx`, in the order of `idx`. */
  ghost predicate PicksAt<T>(r: seq<T>, s: seq<T>, idx: seq<int>)
  {
    |r| == |idx| && forall k :: 0 <= k < |idx| ==> 0 <= idx[k] < |s| && r[k] == s[idx[k]]
  }

  /** `r` is `s` with some elements removed and none reordered. */
  ghost predicate IsSubsequence<T>(r: seq<T>, s: seq<T>)
  {
    exists idx :: Increasing(idx) && PicksAt(r, s, idx)
  }

  /** `r` is `s` with exactly the elements that fail `p` removed, and none reordered. */
  ghost predicate IsFilterOf<T>(r: seq<T>, s: seq<T>, p: T -> bool)
  {
    exists idx :: EnumeratesSatisfying(idx, s, p) && PicksAt(r, s, idx)
  }

  function Shift(idx: seq<int>, d: int): (r: seq<int>)
  {
    seq(|idx|, k requires 0 <= k < |idx| => idx[k] + d)
  }

  /** The positions of `s` given the positions `rest` in `s[1..]`, the head included when `head` holds. */
  function ConsPositions(head: bool, rest: seq<int>): seq<int>
  {
    (if head then [0] else []) + Shift(rest, 1)
  }

  lemma ShiftMember(rest: seq<int>, i: int)
    ensures i in Shift(rest, 1) <==> i - 1 in rest
  {
    if i - 1 in rest {
      var k :| 0 <= k < |rest| && rest[k] == i - 1;
      assert Shift(rest, 1)[k] == i;
    }
  }

  lemma ConsPositionsEnumerate<T>(s: seq<T>, p: T -> bool, rest: seq<int>)
    requires |s| > 0 && EnumeratesSatisfying(rest, s[1..], p)
    ensures EnumeratesSatisfying(ConsPositions(p(s[0]), rest), s, p)
  {
    var idx := ConsPositions(p(s[0]), rest);
    var tail := Shift(rest, 1);
    assert Increasing(idx) by {
      assert Increasing(tail);
      assert forall k :: 0 <= k < |tail| ==> tail[k] > 0;
    }
    forall i | 0 <= i < |s|
      ensures i in idx <==> p(s[i])
    {
      ShiftMember(rest, i);
      if i > 0 {
        assert s[1..][i - 1] == s[i];
      }
    }
  }

  lemma ConsPositionsPick<T>(s: seq<T>, p: T -> bool, rest: seq<int>)
    requires |s| > 0 && PicksAt(Filter(s[1..], p), s[1..], rest)
    ensures PicksAt(Filter(s, p), s, ConsPositions(p(s[0]), rest))
  {
    var rem := Filter(s[1..], p);
    var tail := Shift(rest, 1);
    forall k | 0 <= k < |rest|
      ensures 0 <= tail[k] < |s| && rem[k] == s[tail[k]]
    {
      assert s[1..][rest[k]] == s[rest[k] + 1];
    }
    assert PicksAt(rem, s, tail);
    if p(s[0]) {
      assert Filter(s, p) == [s[0]] + rem;
      PicksAtCons(s, rem, tail, 0);
    } else {
      assert Filter(s, p) == rem;
    }
  }

  lemma PicksAtCons<T>(s: seq<T>, r: seq<T>, idx: seq<int>, i: int)
    requires PicksAt(r, s, idx) && 0 <= i < |s|
    ensures PicksAt([s[i]] + r, s, [i] + idx)
  {
  }

  /** `Filter` removes exactly the elements that fail `p` and keeps the others in order. */
  lemma {:induction false} FilterIsFilterOf<T>(s: seq<T>, p: T -> bool)
    ensures IsFilterOf(Filter(s, p), s, p)
  {
    if |s| == 0 {
      assert EnumeratesSatisfying([], s, p) && PicksAt(Filter(s, p), s, []);
    } else {
      FilterIsFilterOf(s[1..], p);
      var rest :| EnumeratesSatisfying(rest, s[1..], p) && PicksAt(Filter(s[1..], p), s[1..], rest);
      ConsPositionsEnumerate(s, p, rest);
      ConsPositionsPick(s, p, rest);
    }
  }

  /** Two increasing sequences with the same elements are equal. */
  lemma {:induction false} IncreasingUnique(a: seq<int>, b: seq<int>)
    requires Increasing(a) && Increasing(b)
    requires forall x :: x in a <==> x in b
    ensures a == b
  {
    SameElementsBothEmpty(a, b);
    if |a| > 0 {
      assert a[0] in a;
      assert b[0] in b;
      assert a[0] == b[0] by {
        var j :| 0 <= j < |b| && b[j] == a[0];
        var i :| 0 <= i < |a| && a[i] == b[0];
        assert b[0] <= b[j];
        assert a[0] <= a[i];
      }
      forall x
        ensures x in a[1..] <==> x in b[1..]
      {
        InTail(a, x);
        InTail(b, x);
      }
      IncreasingUnique(a[1..], b[1..]);
      assert a == [a[0]] + a[1..];
      assert b == [b[0]] + b[1..];
    }
  }

  lemma SameElementsBothEmpty<T>(a: seq<T>, b: seq<T>)
    requires forall x :: x in a <==> x in b
    ensures |a| == 0 <==> |b| == 0
  {
    if |a| > 0 {
      assert a[0] in a;
    }
    if |b| > 0 {
      assert b[0] in b;
    }
  }

  /** In an increasing sequence, the tail holds exactly the elements other than the head. */
  lemma InTail(a: seq<int>, x: int)
    requires Increasing(a) && |a| > 0
    ensures x in a[1..] <==> x in a && x != a[0]
  {
    if x in a && x != a[0] {
      var i :| 0 <= i < |a| && a[i] == x;
      assert a[1..][i - 1] == x;
    }
  }

  /** The positions of the elements that satisfy `p` are determined by `s` and `p` alone. */
  lemma EnumerationUnique<T>(s: seq<T>, p: T -> bool, a: seq<int>, b: seq<int>)
    requires EnumeratesSatisfying(a, s, p) && EnumeratesSatisfying(b, s, p)
    ensures a == b
  {
    forall x
      ensures x in a <==> x in b
    {
      if x in a {
        var k :| 0 <= k < |a| && a[k] == x;
      }
      if x in b {
        var k :| 0 <= k < |b| && b[k] == x;
      }
    }
    IncreasingUnique(a, b);
  }

  /** `Filter` is the only sequence that meets the description `IsFilterOf`. */
  lemma FilterUnique<T>(r: seq<T>, s: seq<T>, p: T -> bool)
    requires IsFilterOf(r, s, p)
    ensures r == Filter(s, p)
  {
    var idx :| EnumeratesSatisfying(idx, s, p) && PicksAt(r, s, idx);
    FilterIsFilterOf(s, p);
    var idx' :| EnumeratesSatisfying(idx', s, p) && PicksAt(Filter(s, p), s, idx');
    EnumerationUnique(s, p, idx, idx');
  }

  /** A sequence is the filtering of `s` by `p` if and only if it meets `IsFilterOf`. */
  lemma FilterCharacterized<T>(r: seq<T>, s: seq<T>, p: T -> bool)
    ensures r == Filter(s, p) <==> IsFilterOf(r, s, p)
  {
    if r == Filter(s, p) {
      FilterIsFilterOf(s, p);
    }
    if IsFilterOf(r, s, p) {
      FilterUnique(r, s, p);
    }
  }

  /** Filtering only removes: its result is a subsequence of its input. */
  lemma FilterIsSubsequence<T>(s: seq<T>, p: T -> bool)
    ensures IsSubsequence(Filter(s, p), s)
  {
    FilterIsFilterOf(s, p);
    var idx :| EnumeratesSatisfying(idx, s, p) && PicksAt(Filter(s, p), s, idx);
  }

  /** When every element satisfies `p`, filtering returns its input unchanged. */
  lemma {:induction false} FilterKeepsAll<T>(s: seq<T>, p: T -> bool)
    requires forall x :: x in s ==> p(x)
    ensures Filter(s, p) == s
  {
    if |s| > 0 {
      FilterKeepsAll(s[1..], p);
      assert s == [s[0]] + s[1..];
    }
  }

  /** When no element satisfies `p`, filtering returns the empty sequence. */
  lemma FilterKeepsNone<T>(s: seq<T>, p: T -> bool)
    requires forall x :: x in s ==> !p(x)
    ensures Filter(s, p) == []
  {
    FilterMembers(s, p);
    SameElementsBothEmpty(Filter(s, p), []);
  }

  /** Filtering twice by the same test is filtering once. */
  lemma FilterIdempotent<T>(s: seq<T>, p: T -> bool)
    ensures Filter(Filter(s, p), p) == Filter(s, p)
  {
    FilterMembers(s, p);
    FilterKeepsAll(Filter(s, p), p);
  }
}
