/** Generic sequence operations: the `Array.prototype.filter` of the ledger views, and what it means
    for one sequence to be an order-preserving subsequence of another. */
module Seqs {

  /** Keeps the elements satisfying `p`, in their original order. */
  function Filter<T(!new)>(s: seq<T>, p: T -> bool): (r: seq<T>)
    ensures |r| <= |s|
    ensures forall x :: x in r <==> x in s && p(x)
  {
    if s == [] then []
    else (if p(s[0]) then [s[0]] else []) + Filter(s[1..], p)
  }

  /** `idx` picks, in strictly increasing positions of `s`, exactly the elements of `r`. */
  ghost predicate Embeds<T(!new)>(r: seq<T>, s: seq<T>, idx: seq<int>) {
    && |idx| == |r|
    && (forall k :: 0 <= k < |idx| ==> 0 <= idx[k] < |s| && s[idx[k]] == r[k])
    && (forall k, m :: 0 <= k < m < |idx| ==> idx[k] < idx[m])
  }

  /** `r` is obtained from `s` by deleting elements, without reordering the rest. */
  ghost predicate IsSubsequence<T(!new)>(r: seq<T>, s: seq<T>) {
    exists idx :: Embeds(r, s, idx)
  }

  /** Moving an embedding into the tail of `s` one position to the right embeds into `s` itself. */
  lemma Shift<T(!new)>(r: seq<T>, s: seq<T>, idx: seq<int>) returns (shifted: seq<int>)
    requires s != [] && Embeds(r, s[1..], idx)
    ensures Embeds(r, s, shifted)
    ensures forall k :: 0 <= k < |shifted| ==> shifted[k] == idx[k] + 1
  {
    shifted := seq(|idx|, k requires 0 <= k < |idx| => idx[k] + 1);
    forall k | 0 <= k < |shifted|
      ensures 0 <= shifted[k] < |s| && s[shifted[k]] == r[k]
    {
      assert s[1..][idx[k]] == r[k];
    }
  }

  /** The positions of `s` that `Filter` keeps, which witness that its result is a subsequence. */
  lemma {:induction false} FilterPositions<T(!new)>(s: seq<T>, p: T -> bool) returns (idx: seq<int>)
    ensures Embeds(Filter(s, p), s, idx)
  {
    if s == [] {
      idx := [];
    } else {
      var rest := FilterPositions(s[1..], p);
      var shifted := Shift(Filter(s[1..], p), s, rest);
      if p(s[0]) {
        idx := [0] + shifted;
        var r := Filter(s, p);
        assert r == [s[0]] + Filter(s[1..], p);
        forall k | 0 <= k < |idx|
          ensures 0 <= idx[k] < |s| && s[idx[k]] == r[k]
        {
          if k > 0 {
            assert idx[k] == shifted[k - 1];
          }
        }
        forall k, m | 0 <= k < m < |idx|
          ensures idx[k] < idx[m]
        {
          if k > 0 {
            assert idx[k] == shifted[k - 1] && idx[m] == shifted[m - 1];
          }
        }
      } else {
        idx := shifted;
      }
    }
  }

  lemma FilterIsSubsequence<T(!new)>(s: seq<T>, p: T -> bool)
    ensures IsSubsequence(Filter(s, p), s)
  {
    var idx := FilterPositions(s, p);
  }

  lemma {:induction false} FilterConcat<T(!new)>(a: seq<T>, b: seq<T>, p: T -> bool)
    ensures Filter(a + b, p) == Filter(a, p) + Filter(b, p)
  {
    if a == [] {
      assert a + b == b;
    } else {
      assert (a + b)[0] == a[0];
      assert (a + b)[1..] == a[1..] + b;
      FilterConcat(a[1..], b, p);
    }
  }

  /** A filter whose predicate holds everywhere keeps the whole sequence. */
  lemma {:induction false} FilterKeepsAll<T(!new)>(s: seq<T>, p: T -> bool)
    requires forall x :: x in s ==> p(x)
    ensures Filter(s, p) == s
  {
    if s != [] {
      assert s[0] in s;
      FilterKeepsAll(s[1..], p);
    }
  }

  /** A filter whose predicate holds nowhere keeps nothing. */
  lemma FilterKeepsNone<T(!new)>(s: seq<T>, p: T -> bool)
    requires forall x :: x in s ==> !p(x)
    ensures Filter(s, p) == []
  {
    if Filter(s, p) != [] {
      assert Filter(s, p)[0] in Filter(s, p);
    }
  }

  /** Filtering by a conjunction is filtering twice. */
  lemma {:induction false} FilterConjunction<T(!new)>(s: seq<T>, p: T -> bool, q: T -> bool, pq: T -> bool)
    requires forall x :: pq(x) == (p(x) && q(x))
    ensures Filter(s, pq) == Filter(Filter(s, p), q)
  {
    if s != [] {
      FilterConjunction(s[1..], p, q, pq);
      var head := if p(s[0]) then [s[0]] else [];
      FilterConcat(head, Filter(s[1..], p), q);
    }
  }

  /** Filtering by `p` and by its negation splits a sequence into two parts that together hold every element
      exactly as often as the sequence does. */
  lemma {:induction false} FilterPartition<T(!new)>(s: seq<T>, p: T -> bool, notP: T -> bool)
    requires forall x :: notP(x) == !p(x)
    ensures multiset(Filter(s, p)) + multiset(Filter(s, notP)) == multiset(s)
  {
    if s != [] {
      var head, tail := s[0], s[1..];
      FilterPartition(tail, p, notP);
      assert s == [head] + tail;
      assert multiset(s) == multiset([head]) + multiset(tail);
      if p(head) {
        assert Filter(s, p) == [head] + Filter(tail, p);
        assert Filter(s, notP) == Filter(tail, notP);
        assert multiset(Filter(s, p)) == multiset([head]) + multiset(Filter(tail, p));
      } else {
        assert Filter(s, p) == Filter(tail, p);
        assert Filter(s, notP) == [head] + Filter(tail, notP);
        assert multiset(Filter(s, notP)) == multiset([head]) + multiset(Filter(tail, notP));
      }
    }
  }
}
