/** Sums of a weight over the entries of a finite map, and over the elements of a sequence. */
module Sums {

  ghost function MapSum<K, V>(m: map<K, V>, f: (K, V) -> int): int
    decreases |m|
  {
    if m == map[] then 0 else
      var k :| k in m;
      assert (m - {k}).Keys == m.Keys - {k};
      f(k, m[k]) + MapSum(m - {k}, f)
  }

  /** The entry summed first does not matter. */
  lemma {:induction false} SumPick<K, V>(m: map<K, V>, f: (K, V) -> int, k: K)
    requires k in m
    ensures MapSum(m, f) == f(k, m[k]) + MapSum(m - {k}, f)
    decreases |m|
  {
    var c :| c in m && MapSum(m, f) == f(c, m[c]) + MapSum(m - {c}, f);
    if c != k {
      assert (m - {c}).Keys == m.Keys - {c} && (m - {k}).Keys == m.Keys - {k};
      SumPick(m - {c}, f, k);
      SumPick(m - {k}, f, c);
      assert m - {c} - {k} == m - {k} - {c};
    }
  }

  /** What a key adds to a sum. */
  function Share<K(==), V>(m: map<K, V>, f: (K, V) -> int, k: K): int {
    if k in m then f(k, m[k]) else 0
  }

  /** A sum without one key, whether the key is in it or not. */
  lemma SumWithout<K, V>(m: map<K, V>, f: (K, V) -> int, k: K)
    ensures MapSum(m, f) == Share(m, f, k) + MapSum(m - {k}, f)
    ensures |m - {k}| <= |m| && (k in m ==> |m - {k}| < |m|)
  {
    if k in m {
      SumPick(m, f, k);
      assert (m - {k}).Keys == m.Keys - {k};
      assert |m| == |m.Keys| && |m - {k}| == |(m - {k}).Keys|;
    } else {
      assert m - {k} == m;
    }
  }

  lemma SumNothing<K, V>(m: map<K, V>, f: (K, V) -> int)
    requires forall k :: k !in m
    ensures MapSum(m, f) == 0
  {
    assert m == map[];
  }

  lemma {:induction false} SharesAgree<K(!new), V, W>(m: map<K, V>, n: map<K, W>, f: (K, V) -> int, g: (K, W) -> int)
    requires forall k :: Share(m, f, k) == Share(n, g, k)
    ensures MapSum(m, f) == MapSum(n, g)
    decreases |m| + |n|
  {
    hide MapSum, Share;
    if k :| k in m || k in n {
      SumWithout(m, f, k);
      SumWithout(n, g, k);
      SharesWithout(m, n, f, g, k, m - {k}, n - {k});
      SharesAgree(m - {k}, n - {k}, f, g);
    } else {
      SumNothing(m, f);
      SumNothing(n, g);
    }
  }

  lemma SharesWithout<K(!new), V, W>(m: map<K, V>, n: map<K, W>, f: (K, V) -> int, g: (K, W) -> int, k: K, m': map<K, V>, n': map<K, W>)
    requires m' == m - {k} && n' == n - {k}
    requires forall x :: Share(m, f, x) == Share(n, g, x)
    ensures Share(m, f, k) == Share(n, g, k)
    ensures forall x :: Share(m', f, x) == Share(n', g, x)
  {
    forall x
      ensures Share(m', f, x) == Share(n', g, x)
    {
      assert Share(m, f, x) == Share(n, g, x);
    }
  }

  /** Two sums agree when every entry that only one of them has weighs nothing. */
  lemma SumAgree<K(!new), V, W>(m: map<K, V>, n: map<K, W>, f: (K, V) -> int, g: (K, W) -> int)
    requires forall k :: k in m && k in n ==> f(k, m[k]) == g(k, n[k])
    requires forall k :: k in m && k !in n ==> f(k, m[k]) == 0
    requires forall k :: k in n && k !in m ==> g(k, n[k]) == 0
    ensures MapSum(m, f) == MapSum(n, g)
  {
    hide MapSum;
    forall k
      ensures Share(m, f, k) == Share(n, g, k)
    {
    }
    SharesAgree(m, n, f, g);
  }

  /** Writing one entry changes the sum by what the entry weighs now minus what it weighed before. */
  lemma {:induction false} SumPut<K, V>(m: map<K, V>, f: (K, V) -> int, k: K, v: V)
    ensures MapSum(m[k := v], f) == MapSum(m, f) + Gain(m, f)(k, v)
  {
    SumPick(m[k := v], f, k);
    if k in m {
      SumPick(m, f, k);
      assert m[k := v] - {k} == m - {k};
    } else {
      assert m[k := v] - {k} == m;
    }
  }

  function Gain<K(==), V>(m: map<K, V>, f: (K, V) -> int): (K, V) -> int {
    (k, v) => f(k, v) - (if k in m then f(k, m[k]) else 0)
  }

  lemma OverlayPut<K, V>(m: map<K, V>, n: map<K, V>, k: K)
    requires k in n
    ensures (m + (n - {k}))[k := n[k]] == m + n
  {
  }

  lemma SameGain<K, V>(m: map<K, V>, n: map<K, V>, f: (K, V) -> int, k: K, v: V)
    requires k !in n
    ensures Gain(m + n, f)(k, v) == Gain(m, f)(k, v)
  {
  }

  /** Overlaying `n` on `m` changes the sum by the gains of the entries of `n`. */
  lemma {:induction false} SumOverlay<K, V>(m: map<K, V>, n: map<K, V>, f: (K, V) -> int)
    ensures MapSum(m + n, f) == MapSum(m, f) + MapSum(n, Gain(m, f))
    decreases |n|
  {
    hide MapSum, Gain;
    if k :| k in n {
      var n' := n - {k};
      SumWithout(n, Gain(m, f), k);
      SumOverlay(m, n', f);
      SumPut(m + n', f, k, n[k]);
      SameGain(m, n', f, k, n[k]);
      OverlayPut(m, n, k);
    } else {
      SumNothing(n, Gain(m, f));
      assert m + n == m;
    }
  }

  /** Sums of weights add up. */
  lemma {:induction false} SumAdd<K, V>(m: map<K, V>, f: (K, V) -> int, g: (K, V) -> int, h: (K, V) -> int)
    requires forall k :: k in m ==> h(k, m[k]) == f(k, m[k]) + g(k, m[k])
    ensures MapSum(m, h) == MapSum(m, f) + MapSum(m, g)
    decreases |m|
  {
    if k :| k in m {
      SumPick(m, f, k);
      SumPick(m, g, k);
      SumPick(m, h, k);
      assert (m - {k}).Keys == m.Keys - {k};
      SumAdd(m - {k}, f, g, h);
    }
  }

  /** A sum of weights that are never negative bounds each of them from above. */
  lemma {:induction false} SumBounds<K, V>(m: map<K, V>, f: (K, V) -> int)
    requires forall k :: k in m ==> f(k, m[k]) >= 0
    ensures MapSum(m, f) >= 0
    ensures forall k :: k in m ==> f(k, m[k]) <= MapSum(m, f)
    decreases |m|
  {
    forall k | k in m
      ensures 0 <= f(k, m[k]) <= MapSum(m, f)
    {
      SumPick(m, f, k);
      assert (m - {k}).Keys == m.Keys - {k};
      SumBounds(m - {k}, f);
    }
    assert m == map[] || exists k :: k in m;
  }

  /** A sum that is not zero has an entry that weighs something. */
  lemma SumWitness<K(!new), V>(m: map<K, V>, f: (K, V) -> int) returns (k: K)
    requires MapSum(m, f) != 0
    ensures k in m && f(k, m[k]) != 0
  {
    if forall x :: x in m ==> f(x, m[x]) == 0 {
      var none: map<K, V> := map[];
      SumAgree(m, none, f, f);
    }
    k :| k in m && f(k, m[k]) != 0;
  }

  /** Weights that differ at one entry only. */
  lemma SumShift<K(!new), V>(m: map<K, V>, f: (K, V) -> int, g: (K, V) -> int, k: K)
    requires k in m
    requires forall x :: x in m && x != k ==> f(x, m[x]) == g(x, m[x])
    ensures MapSum(m, g) == MapSum(m, f) + g(k, m[k]) - f(k, m[k])
  {
    SumPick(m, f, k);
    SumPick(m, g, k);
    SumAgree(m - {k}, m - {k}, f, g);
  }

  lemma {:induction false} SumOnes<K, V>(m: map<K, V>, f: (K, V) -> int)
    requires forall k :: k in m ==> f(k, m[k]) == 1
    ensures MapSum(m, f) == |m|
    decreases |m|
  {
    if k :| k in m {
      SumPick(m, f, k);
      assert (m - {k}).Keys == m.Keys - {k};
      SumOnes(m - {k}, f);
    }
  }

  ghost function SeqSum<T>(s: seq<T>, f: T -> int): int {
    if s == [] then 0 else SeqSum(s[..|s| - 1], f) + f(s[|s| - 1])
  }

  lemma {:induction false} SeqSumAppend<T>(s: seq<T>, x: T, f: T -> int)
    ensures SeqSum(s + [x], f) == SeqSum(s, f) + f(x)
  {
    assert (s + [x])[..|s|] == s;
  }

  lemma {:induction false} SeqSumConcat<T>(s: seq<T>, t: seq<T>, f: T -> int)
    ensures SeqSum(s + t, f) == SeqSum(s, f) + SeqSum(t, f)
  {
    if t == [] {
      assert s + t == s;
    } else {
      var n := |t| - 1;
      SeqSumConcat(s, t[..n], f);
      assert s + t == (s + t[..n]) + [t[n]] && t == t[..n] + [t[n]];
      SeqSumAppend(s + t[..n], t[n], f);
    }
  }

  lemma {:induction false} SeqSumAgree<T>(s: seq<T>, f: T -> int, g: T -> int)
    requires forall x :: x in s ==> f(x) == g(x)
    ensures SeqSum(s, f) == SeqSum(s, g)
  {
    if s != [] {
      SeqSumAgree(s[..|s| - 1], f, g);
    }
  }

  ghost predicate Distinct<T>(s: seq<T>) {
    forall i, j :: 0 <= i < j < |s| ==> s[i] != s[j]
  }
}
