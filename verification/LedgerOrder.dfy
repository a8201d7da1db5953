/**
 The two orders of output references: the crawler compares hashes as lower-case strings, the transaction
 builder compares their bytes.
 */
module LedgerOrder {
  import opened Chain

  // ---------------------------------------------------------------- stable sorting

  /** Behind every element that does not come after it. */
  function InsertBy<T>(x: T, s: seq<T>, cmp: (T, T) -> int): seq<T> {
    if s == [] || cmp(s[|s| - 1], x) <= 0 then s + [x]
    else InsertBy(x, s[..|s| - 1], cmp) + [s[|s| - 1]]
  }

  function SortBy<T>(s: seq<T>, cmp: (T, T) -> int): seq<T> {
    if s == [] then [] else InsertBy(s[|s| - 1], SortBy(s[..|s| - 1], cmp), cmp)
  }

  ghost predicate IsSorted<T>(s: seq<T>, cmp: (T, T) -> int) {
    forall i, j :: 0 <= i < j < |s| ==> cmp(s[i], s[j]) <= 0
  }

  /** A comparator that orders: opposite answers for opposite questions, and transitive. */
  ghost predicate IsOrder<T(!new)>(cmp: (T, T) -> int) {
    && (forall x, y :: cmp(x, y) <= 0 || cmp(y, x) <= 0)
    && (forall x, y, z :: cmp(x, y) <= 0 && cmp(y, z) <= 0 ==> cmp(x, z) <= 0)
  }

  lemma {:induction false} InsertKeeps<T>(x: T, s: seq<T>, cmp: (T, T) -> int)
    ensures multiset(InsertBy(x, s, cmp)) == multiset(s) + multiset{x}
  {
    if s != [] && cmp(s[|s| - 1], x) > 0 {
      InsertKeeps(x, s[..|s| - 1], cmp);
      assert s == s[..|s| - 1] + [s[|s| - 1]];
    }
  }

  lemma {:induction false} SortKeeps<T>(s: seq<T>, cmp: (T, T) -> int)
    ensures multiset(SortBy(s, cmp)) == multiset(s)
  {
    if s != [] {
      SortKeeps(s[..|s| - 1], cmp);
      InsertKeeps(s[|s| - 1], SortBy(s[..|s| - 1], cmp), cmp);
      assert s == s[..|s| - 1] + [s[|s| - 1]];
    }
  }

  lemma InMultiset<T(!new)>(s: seq<T>, t: seq<T>)
    requires multiset(s) == multiset(t)
    ensures |s| == |t| && forall x :: x in s <==> x in t
  {
    assert |multiset(s)| == |s| && |multiset(t)| == |t|;
    forall x
      ensures x in s <==> x in t
    {
      assert x in s <==> x in multiset(s);
      assert x in t <==> x in multiset(t);
    }
  }

  lemma SortMembers<T(!new)>(s: seq<T>, cmp: (T, T) -> int)
    ensures |SortBy(s, cmp)| == |s| && forall x :: x in SortBy(s, cmp) <==> x in s
  {
    SortKeeps(s, cmp);
    InMultiset(SortBy(s, cmp), s);
  }

  lemma AppendSorted<T(!new)>(front: seq<T>, last: T, cmp: (T, T) -> int)
    requires IsSorted(front, cmp) && forall i :: 0 <= i < |front| ==> cmp(front[i], last) <= 0
    ensures IsSorted(front + [last], cmp)
  {
  }

  lemma InsertedBelow<T(!new)>(x: T, s: seq<T>, front: seq<T>, cmp: (T, T) -> int)
    requires s != [] && IsSorted(s, cmp) && cmp(x, s[|s| - 1]) <= 0 && front == InsertBy(x, s[..|s| - 1], cmp)
    ensures forall i :: 0 <= i < |front| ==> cmp(front[i], s[|s| - 1]) <= 0
  {
    var n := |s| - 1;
    InsertKeeps(x, s[..n], cmp);
    hide InsertBy;
    forall i | 0 <= i < |front|
      ensures cmp(front[i], s[n]) <= 0
    {
      assert front[i] in multiset(front);
      if front[i] != x {
        assert front[i] in s[..n];
        var j :| 0 <= j < n && s[j] == front[i];
      }
    }
  }

  lemma {:induction false} InsertSorts<T(!new)>(x: T, s: seq<T>, cmp: (T, T) -> int)
    requires IsSorted(s, cmp) && IsOrder(cmp)
    ensures IsSorted(InsertBy(x, s, cmp), cmp)
  {
    if s != [] {
      var n := |s| - 1;
      if cmp(s[n], x) > 0 {
        InsertSorts(x, s[..n], cmp);
        var front := InsertBy(x, s[..n], cmp);
        InsertedBelow(x, s, front, cmp);
        AppendSorted(front, s[n], cmp);
      }
    }
  }

  lemma {:induction false} SortSorts<T(!new)>(s: seq<T>, cmp: (T, T) -> int)
    requires IsOrder(cmp)
    ensures IsSorted(SortBy(s, cmp), cmp)
  {
    if s != [] {
      SortSorts(s[..|s| - 1], cmp);
      InsertSorts(s[|s| - 1], SortBy(s[..|s| - 1], cmp), cmp);
    }
  }

  /** A sorted list stays as it is. */
  lemma {:induction false} SortedStays<T>(s: seq<T>, cmp: (T, T) -> int)
    requires IsSorted(s, cmp)
    ensures SortBy(s, cmp) == s
  {
    if s != [] {
      SortedStays(s[..|s| - 1], cmp);
    }
  }

  lemma {:induction false} FilterSorted<T(!new)>(s: seq<T>, keep: T -> bool, cmp: (T, T) -> int)
    requires IsSorted(s, cmp)
    ensures IsSorted(Filter(s, keep), cmp)
  {
    if s != [] {
      var n := |s| - 1;
      FilterSorted(s[..n], keep, cmp);
      var front := Filter(s[..n], keep);
      forall i | 0 <= i < |front|
        ensures cmp(front[i], s[n]) <= 0
      {
        assert front[i] in s[..n];
      }
    }
  }

  /** Equal elements are the same. */
  ghost predicate Distinguishes<T>(cmp: (T, T) -> int, s: seq<T>) {
    forall x, y :: x in s && y in s && cmp(x, y) <= 0 && cmp(y, x) <= 0 ==> x == y
  }

  lemma LastSame<T(!new)>(s: seq<T>, t: seq<T>, cmp: (T, T) -> int)
    requires s != [] && IsSorted(s, cmp) && IsSorted(t, cmp) && Distinguishes(cmp, s)
    requires |s| == |t| && forall x :: x in s <==> x in t
    ensures s[|s| - 1] == t[|s| - 1]
  {
    var n := |s| - 1;
    assert s[n] in t && t[n] in s;
    var i :| 0 <= i < |t| && t[i] == s[n];
    var j :| 0 <= j < |s| && s[j] == t[n];
    if i != n && j != n {
      assert cmp(t[i], t[n]) <= 0 && cmp(s[j], s[n]) <= 0;
    }
  }

  /** There is one way to sort elements that compare equal only to themselves. */
  lemma {:induction false} SortedOnce<T(!new)>(s: seq<T>, t: seq<T>, cmp: (T, T) -> int)
    requires IsSorted(s, cmp) && IsSorted(t, cmp) && multiset(s) == multiset(t) && Distinguishes(cmp, s)
    ensures s == t
  {
    InMultiset(s, t);
    if s != [] {
      LastSame(s, t, cmp);
      WithoutLast(s, t, cmp);
      SortedOnce(s[..|s| - 1], t[..|t| - 1], cmp);
      assert s == s[..|s| - 1] + [s[|s| - 1]] && t == t[..|t| - 1] + [t[|t| - 1]];
    }
  }

  lemma WithoutLast<T(!new)>(s: seq<T>, t: seq<T>, cmp: (T, T) -> int)
    requires s != [] && t != [] && IsSorted(s, cmp) && IsSorted(t, cmp) && Distinguishes(cmp, s)
    requires multiset(s) == multiset(t) && s[|s| - 1] == t[|t| - 1]
    ensures IsSorted(s[..|s| - 1], cmp) && IsSorted(t[..|t| - 1], cmp) && Distinguishes(cmp, s[..|s| - 1])
    ensures multiset(s[..|s| - 1]) == multiset(t[..|t| - 1])
  {
    FrontMultiset(s);
    FrontMultiset(t);
    FrontSorted(s, cmp);
    FrontSorted(t, cmp);
    FrontMembers(s);
    hide IsSorted;
  }

  lemma FrontMultiset<T>(s: seq<T>)
    requires s != []
    ensures multiset(s[..|s| - 1]) == multiset(s) - multiset{s[|s| - 1]}
  {
    assert s == s[..|s| - 1] + [s[|s| - 1]];
  }

  lemma FrontSorted<T>(s: seq<T>, cmp: (T, T) -> int)
    requires s != [] && IsSorted(s, cmp)
    ensures IsSorted(s[..|s| - 1], cmp)
  {
  }

  lemma FrontMembers<T(!new)>(s: seq<T>)
    requires s != []
    ensures forall x :: x in s[..|s| - 1] ==> x in s
  {
  }

  /** The order in which the elements arrive does not matter. */
  lemma SortIgnoresArrival<T(!new)>(s: seq<T>, t: seq<T>, cmp: (T, T) -> int)
    requires multiset(s) == multiset(t) && IsOrder(cmp) && Distinguishes(cmp, s)
    ensures SortBy(s, cmp) == SortBy(t, cmp)
  {
    SortSorts(s, cmp);
    SortSorts(t, cmp);
    SortKeeps(s, cmp);
    SortKeeps(t, cmp);
    InMultiset(SortBy(s, cmp), s);
    SortedOnce(SortBy(s, cmp), SortBy(t, cmp), cmp);
  }

  ghost predicate SameSigns<T>(s: seq<T>, f: (T, T) -> int, g: (T, T) -> int) {
    forall x, y :: x in s && y in s ==> (f(x, y) <= 0 <==> g(x, y) <= 0)
  }

  lemma {:induction false} InsertAgrees<T(!new)>(x: T, s: seq<T>, f: (T, T) -> int, g: (T, T) -> int)
    requires forall y :: y in s ==> (f(y, x) <= 0 <==> g(y, x) <= 0)
    ensures InsertBy(x, s, f) == InsertBy(x, s, g)
  {
    if s != [] {
      InsertAgrees(x, s[..|s| - 1], f, g);
    }
  }

  /** Comparators that always agree sort alike. */
  lemma {:induction false} SortAgrees<T(!new)>(s: seq<T>, f: (T, T) -> int, g: (T, T) -> int)
    requires SameSigns(s, f, g)
    ensures SortBy(s, f) == SortBy(s, g)
  {
    if s != [] {
      var n := |s| - 1;
      SortAgrees(s[..n], f, g);
      var front := SortBy(s[..n], f);
      SortMembers(s[..n], f);
      forall y | y in front
        ensures f(y, s[n]) <= 0 <==> g(y, s[n]) <= 0
      {
        assert y in s[..n] && s[n] in s;
      }
      InsertAgrees(s[n], front, f, g);
    }
  }

  // ---------------------------------------------------------------- hex strings and bytes

  predicate IsHexChar(c: char) {
    '0' <= c <= '9' || 'a' <= c <= 'f' || 'A' <= c <= 'F'
  }

  predicate IsHex(s: string) {
    |s| % 2 == 0 && forall i :: 0 <= i < |s| ==> IsHexChar(s[i])
  }

  function LowerChar(c: char): char {
    if 'A' <= c <= 'Z' then (c as int + 32) as char else c
  }

  function Lower(s: string): (r: string)
    ensures |r| == |s| && forall i :: 0 <= i < |s| ==> r[i] == LowerChar(s[i])
  {
    if s == "" then "" else [LowerChar(s[0])] + Lower(s[1..])
  }

  function Nibble(c: char): (n: nat)
    ensures n < 16
  {
    if '0' <= c <= '9' then c as int - '0' as int
    else if 'A' <= c <= 'F' then c as int - 'A' as int + 10
    else if 'a' <= c <= 'f' then c as int - 'a' as int + 10
    else 0
  }

  /** Decoding stops at the first pair that is not hex. */
  function Decode(s: string): seq<nat> {
    if |s| < 2 || !IsHexChar(s[0]) || !IsHexChar(s[1]) then []
    else [Nibble(s[0]) * 16 + Nibble(s[1])] + Decode(s[2..])
  }

  /** Strings compare by code units, a prefix first. */
  function CompareStrings(a: string, b: string): int {
    if a == "" || b == "" then |a| - |b|
    else if a[0] != b[0] then a[0] as int - b[0] as int
    else CompareStrings(a[1..], b[1..])
  }

  function CompareBytes(a: seq<nat>, b: seq<nat>): int {
    if a == [] || b == [] then |a| - |b|
    else if a[0] != b[0] then a[0] - b[0]
    else CompareBytes(a[1..], b[1..])
  }

  predicate SameSign(a: int, b: int) {
    (a < 0 <==> b < 0) && (a == 0 <==> b == 0)
  }

  lemma NibbleOrder(a: char, b: char)
    requires IsHexChar(a) && IsHexChar(b)
    ensures SameSign(LowerChar(a) as int - LowerChar(b) as int, Nibble(a) - Nibble(b))
  {
  }

  /** Lower-case hex strings compare as their bytes do. */
  lemma {:induction false} HexOrderIsByteOrder(a: string, b: string)
    requires IsHex(a) && IsHex(b)
    ensures SameSign(CompareStrings(Lower(a), Lower(b)), CompareBytes(Decode(a), Decode(b)))
    decreases |a|
  {
    if a != "" && b != "" {
      HexOrderIsByteOrder(a[2..], b[2..]);
      FirstPairDecides(a, b);
    } else {
      DecodeLength(a);
      DecodeLength(b);
    }
  }

  /** Two strings differ in their first pair, or compare as the rest does; so do their bytes. */
  lemma FirstPairDecides(a: string, b: string)
    requires IsHex(a) && IsHex(b) && |a| >= 2 && |b| >= 2
    requires SameSign(CompareStrings(Lower(a[2..]), Lower(b[2..])), CompareBytes(Decode(a[2..]), Decode(b[2..])))
    ensures SameSign(CompareStrings(Lower(a), Lower(b)), CompareBytes(Decode(a), Decode(b)))
  {
    NibbleOrder(a[0], b[0]);
    NibbleOrder(a[1], b[1]);
    LowerDrop(a);
    LowerDrop(b);
    hide Nibble, LowerChar, IsHexChar, Lower;
    var x, y := Lower(a), Lower(b);
    assert CompareStrings(x, y) == if x[0] != y[0] then x[0] as int - y[0] as int else CompareStrings(x[1..], y[1..]);
    assert CompareStrings(x[1..], y[1..])
           == if x[1] != y[1] then x[1] as int - y[1] as int else CompareStrings(x[1..][1..], y[1..][1..]);
  }

  lemma LowerDrop(a: string)
    requires |a| >= 2
    ensures Lower(a)[1..][1..] == Lower(a[2..])
  {
    assert Lower(a[2..]) == Lower(a)[1..][1..];
  }

  lemma {:induction false} DecodeLength(a: string)
    requires IsHex(a)
    ensures 2 * |Decode(a)| == |a|
    decreases |a|
  {
    if a != "" {
      DecodeLength(a[2..]);
    }
  }

  // ---------------------------------------------------------------- the comparators

  function CompareOutRef(a: OutPoint, b: OutPoint): int {
    var c := CompareStrings(Lower(a.txHash), Lower(b.txHash));
    if c < 0 then -1 else if c > 0 then 1 else a.outputIndex - b.outputIndex
  }

  function CompareRefBytes(a: OutPoint, b: OutPoint): int {
    var c := CompareBytes(Decode(a.txHash), Decode(b.txHash));
    if c != 0 then c else a.outputIndex - b.outputIndex
  }

  /** The two comparators of output references always agree on which comes first. */
  lemma OrdersCoincide(a: OutPoint, b: OutPoint)
    requires IsHex(a.txHash) && IsHex(b.txHash)
    ensures SameSign(CompareOutRef(a, b), CompareRefBytes(a, b))
  {
    HexOrderIsByteOrder(a.txHash, b.txHash);
  }
}
