/** Sums and images of permuted sequences. */
module Permutations {
  import opened Sums

  /** A permutation contains the last element somewhere, and permutes the rest around it. */
  lemma PullLast<T(!new)>(s: seq<T>, t: seq<T>) returns (before: seq<T>, after: seq<T>)
    requires s != [] && multiset(s) == multiset(t)
    ensures t == before + [s[|s| - 1]] + after
    ensures multiset(s[..|s| - 1]) == multiset(before + after)
  {
    var x := s[|s| - 1];
    assert x in multiset(s);
    assert x in t;
    var j :| 0 <= j < |t| && t[j] == x;
    before, after := t[..j], t[j + 1..];
    assert t == before + [x] + after;
    RestOf(s[..|s| - 1], before, after, x, s, t);
  }

  lemma RestOf<T>(front: seq<T>, before: seq<T>, after: seq<T>, x: T, s: seq<T>, t: seq<T>)
    requires s == front + [x] && t == before + [x] + after && multiset(s) == multiset(t)
    ensures multiset(front) == multiset(before + after)
  {
    assert multiset(s) == multiset(front) + multiset{x};
    assert multiset(t) == multiset(before) + multiset{x} + multiset(after);
    assert multiset(before + after) == multiset(before) + multiset(after);
    assert multiset(front) == multiset(s) - multiset{x};
  }

  lemma {:induction false} SumPermutes<T(!new)>(s: seq<T>, t: seq<T>, f: T -> int)
    requires multiset(s) == multiset(t)
    ensures SeqSum(s, f) == SeqSum(t, f)
    decreases |s|
  {
    if s == [] {
      assert |multiset(t)| == 0;
    } else {
      var before, after := PullLast(s, t);
      SumPermutes(s[..|s| - 1], before + after, f);
      SeqSumAppend(before, s[|s| - 1], f);
      SeqSumConcat(before + [s[|s| - 1]], after, f);
      SeqSumConcat(before, after, f);
    }
  }

  function Image<T, U>(s: seq<T>, f: T -> U): (r: seq<U>)
    ensures |r| == |s|
    ensures forall i :: 0 <= i < |r| ==> r[i] == f(s[i])
  {
    seq(|s|, i requires 0 <= i < |s| => f(s[i]))
  }

  lemma ImageConcat<T, U>(s: seq<T>, t: seq<T>, f: T -> U)
    ensures Image(s + t, f) == Image(s, f) + Image(t, f)
  {
  }

  lemma {:induction false} ImagePermutes<T(!new), U>(s: seq<T>, t: seq<T>, f: T -> U)
    requires multiset(s) == multiset(t)
    ensures multiset(Image(s, f)) == multiset(Image(t, f))
    decreases |s|
  {
    if s == [] {
      assert |multiset(t)| == 0;
    } else {
      var front, x := s[..|s| - 1], s[|s| - 1];
      var before, after := PullLast(s, t);
      ImagePermutes(front, before + after, f);
      assert s == front + [x] && Image([x], f) == [f(x)];
      ImageConcat(front, [x], f);
      ImageConcat(before + [x], after, f);
      ImageConcat(before, [x], f);
      ImageConcat(before, after, f);
      AroundLast(Image(front, f), Image(before, f), Image(after, f), f(x));
    }
  }

  lemma AroundLast<U>(front: seq<U>, before: seq<U>, after: seq<U>, x: U)
    requires multiset(front) == multiset(before + after)
    ensures multiset(front + [x]) == multiset(before + [x] + after)
  {
    assert multiset(before + after) == multiset(before) + multiset(after);
  }
}
