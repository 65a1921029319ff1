/** JavaScript's `Array.prototype.filter` on a sequence, and what it promises:
    the result is the input read at exactly the positions whose element
    passes the test, in the original order. */
module ArrayFilter {

  /** `xs.filter(keep)` */
  function FilterBy<T(==,!new)>(xs: seq<T>, keep: T -> bool): (r: seq<T>)
    ensures |r| <= |xs|
    ensures forall x :: x in r <==> x in xs && keep(x)
  {
    if xs == [] then []
    else (if keep(xs[0]) then [xs[0]] else []) + FilterBy(xs[1..], keep)
  }

  /** `idx` lists positions of `s`, strictly increasing, at which `s` holds `r`'s elements in turn. */
  ghost predicate Embedding<T>(idx: seq<int>, r: seq<T>, s: seq<T>) {
    && |idx| == |r|
    && (forall k :: 0 <= k < |idx| ==> 0 <= idx[k] < |s| && r[k] == s[idx[k]])
    && (forall k, l :: 0 <= k < l < |idx| ==> idx[k] < idx[l])
  }

  /** `r` is `s` with some elements dropped and the rest kept in order. */
  ghost predicate IsSubsequence<T>(r: seq<T>, s: seq<T>) {
    exists idx :: Embedding(idx, r, s)
  }

  /** Every position moved one place to the right. */
  ghost function Shift(idx: seq<int>): seq<int> {
    seq(|idx|, k requires 0 <= k < |idx| => idx[k] + 1)
  }

  /** The positions of `xs` whose elements pass `keep`, in increasing order. */
  ghost function PassingPositions<T>(xs: seq<T>, keep: T -> bool): seq<int> {
    if xs == [] then []
    else (if keep(xs[0]) then [0] else []) + Shift(PassingPositions(xs[1..], keep))
  }

  /** An element in front of the source, taken into the result, extends an embedding. */
  lemma EmbeddingKeep<T>(idx: seq<int>, x: T, r: seq<T>, s: seq<T>)
    requires Embedding(idx, r, s)
    ensures Embedding([0] + Shift(idx), [x] + r, [x] + s)
  {
    var idx', r', s' := [0] + Shift(idx), [x] + r, [x] + s;
    forall k | 0 < k < |idx'|
      ensures 0 <= idx'[k] < |s'| && r'[k] == s'[idx'[k]]
    {
      assert idx'[k] == idx[k - 1] + 1 && r'[k] == r[k - 1];
    }
    forall k, l | 0 <= k < l < |idx'|
      ensures idx'[k] < idx'[l]
    {
      assert idx'[l] == idx[l - 1] + 1;
      if k > 0 {
        assert idx'[k] == idx[k - 1] + 1;
      }
    }
  }

  /** An element in front of the source, left out of the result, extends an embedding. */
  lemma EmbeddingSkip<T>(idx: seq<int>, x: T, r: seq<T>, s: seq<T>)
    requires Embedding(idx, r, s)
    ensures Embedding(Shift(idx), r, [x] + s)
  {
    forall k | 0 <= k < |idx|
      ensures 0 <= Shift(idx)[k] < |s| + 1 && r[k] == ([x] + s)[Shift(idx)[k]]
    {
    }
  }

  /** Position `i` > 0 is in the shifted list exactly when `i - 1` is in the original. */
  lemma ShiftMembership(idx: seq<int>, i: int)
    ensures i in Shift(idx) <==> i - 1 in idx
  {
    if i - 1 in idx {
      var k :| 0 <= k < |idx| && idx[k] == i - 1;
      assert Shift(idx)[k] == i;
    }
  }

  /** The filter's output is its input read at exactly the passing positions, in
      order: no passing element is dropped and no failing one is kept. */
  lemma {:induction false} FilterBySelectsPassingPositions<T(!new)>(xs: seq<T>, keep: T -> bool)
    ensures Embedding(PassingPositions(xs, keep), FilterBy(xs, keep), xs)
    ensures forall i :: 0 <= i < |xs| ==> (i in PassingPositions(xs, keep) <==> keep(xs[i]))
  {
    if xs != [] {
      var x, rest := xs[0], xs[1..];
      assert xs == [x] + rest;
      var tailIdx := PassingPositions(rest, keep);
      FilterBySelectsPassingPositions(rest, keep);
      if keep(x) {
        EmbeddingKeep(tailIdx, x, FilterBy(rest, keep), rest);
      } else {
        EmbeddingSkip(tailIdx, x, FilterBy(rest, keep), rest);
      }
      forall i | 0 <= i < |xs|
        ensures i in PassingPositions(xs, keep) <==> keep(xs[i])
      {
        ShiftMembership(tailIdx, i);
        if i > 0 {
          assert xs[i] == rest[i - 1];
        } else {
          ShiftMembership(tailIdx, 0);
          assert -1 !in tailIdx;
        }
      }
    }
  }

  lemma FilterByIsSubsequence<T(!new)>(xs: seq<T>, keep: T -> bool)
    ensures IsSubsequence(FilterBy(xs, keep), xs)
  {
    FilterBySelectsPassingPositions(xs, keep);
  }

  /** Filtering again with the same test changes nothing. */
  lemma {:induction false} FilterByIdempotent<T(!new)>(xs: seq<T>, keep: T -> bool)
    ensures FilterBy(FilterBy(xs, keep), keep) == FilterBy(xs, keep)
  {
    if xs != [] {
      FilterByIdempotent(xs[1..], keep);
      if keep(xs[0]) {
        assert FilterBy(xs, keep)[1..] == FilterBy(xs[1..], keep);
      } else {
        assert FilterBy(xs, keep) == FilterBy(xs[1..], keep);
      }
    }
  }

  /** A test every element passes keeps the whole input. */
  lemma {:induction false} FilterByAllPass<T(!new)>(xs: seq<T>, keep: T -> bool)
    requires forall x :: x in xs ==> keep(x)
    ensures FilterBy(xs, keep) == xs
  {
    if xs != [] {
      FilterByAllPass(xs[1..], keep);
      assert [xs[0]] + xs[1..] == xs;
    }
  }
}
