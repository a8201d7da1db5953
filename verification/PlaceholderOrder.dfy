/** The lists placeholders are looked up in: their order is the ledger's, and the crawl stores the same positions. */
module PlaceholderOrder {
  import opened Options
  import opened Chain
  import opened LedgerOrder
  import opened LedgerView
  import opened Placeholders
  import Permutations

  function SortInputsLikeBuildooor(refs: seq<OutPoint>): seq<OutPoint> {
    SortBy(refs, CompareRefBytes)
  }

  datatype Withdrawal = Withdrawal(credentialHash: string, isScript: bool)

  /** Script credentials before key credentials, then by hash bytes. */
  function CompareWithdrawals(a: Withdrawal, b: Withdrawal): int {
    if a.isScript != b.isScript then (if a.isScript then -1 else 1)
    else CompareBytes(Decode(a.credentialHash), Decode(b.credentialHash))
  }

  function SortWithdrawalsLikeLedger(entries: seq<Withdrawal>): seq<Withdrawal> {
    SortBy(entries, CompareWithdrawals)
  }

  /** A hash as the build validates it: lower-case hex of whole bytes. */
  predicate IsHash(h: string) {
    IsHex(h) && Lower(h) == h
  }

  ghost predicate ValidRefs(refs: seq<OutPoint>) {
    forall r :: r in refs ==> IsHash(r.txHash)
  }

  lemma OutRefsOrdered()
    ensures IsOrder(CompareOutRef)
  {
    forall x: OutPoint, y: OutPoint
      ensures CompareOutRef(x, y) <= 0 || CompareOutRef(y, x) <= 0
    {
      StringsTotal(Lower(x.txHash), Lower(y.txHash));
    }
    forall x: OutPoint, y: OutPoint, z: OutPoint | CompareOutRef(x, y) <= 0 && CompareOutRef(y, z) <= 0
      ensures CompareOutRef(x, z) <= 0
    {
      OutRefsTransitive(x, y, z);
    }
  }

  /** References that compare equal are the same reference. */
  lemma RefsDistinguished(refs: seq<OutPoint>)
    requires ValidRefs(refs)
    ensures Distinguishes(CompareOutRef, refs)
  {
    forall x, y | x in refs && y in refs && CompareOutRef(x, y) <= 0 && CompareOutRef(y, x) <= 0
      ensures x == y
    {
      StringsTotal(x.txHash, y.txHash);
      StringsEqual(x.txHash, y.txHash);
    }
  }

  /** Sorting by bytes and sorting by lower-case strings give the same list. */
  lemma SortsCoincide(refs: seq<OutPoint>)
    requires forall r :: r in refs ==> IsHex(r.txHash)
    ensures SortInputsLikeBuildooor(refs) == SortBy(refs, CompareOutRef)
  {
    forall x, y | x in refs && y in refs
      ensures CompareRefBytes(x, y) <= 0 <==> CompareOutRef(x, y) <= 0
    {
      OrdersCoincide(x, y);
    }
    SortAgrees(refs, CompareRefBytes, CompareOutRef);
  }

  /** The caller's input order does not matter to any placeholder. */
  lemma ResolutionIgnoresArrival(refs: seq<OutPoint>, other: seq<OutPoint>, ctx: Context, node: Json)
    requires ValidRefs(refs) && multiset(refs) == multiset(other)
    ensures Walk(node, ctx.(inputs := SortInputsLikeBuildooor(refs)), 0) == Walk(node, ctx.(inputs := SortInputsLikeBuildooor(other)), 0)
  {
    InMultiset(refs, other);
    SortsCoincide(refs);
    SortsCoincide(other);
    OutRefsOrdered();
    RefsDistinguished(refs);
    SortIgnoresArrival(refs, other, CompareOutRef);
  }

  // ---------------------------------------------------------------- withdrawals

  lemma {:induction false} BytesTotal(a: seq<nat>, b: seq<nat>)
    ensures SameSign(CompareBytes(a, b), -CompareBytes(b, a))
    ensures CompareBytes(a, b) == 0 <==> a == b
  {
    if a != [] && b != [] && a[0] == b[0] {
      BytesTotal(a[1..], b[1..]);
      assert a == [a[0]] + a[1..] && b == [b[0]] + b[1..];
    }
  }

  lemma {:induction false} BytesTransitive(a: seq<nat>, b: seq<nat>, c: seq<nat>)
    requires CompareBytes(a, b) <= 0 && CompareBytes(b, c) <= 0
    ensures CompareBytes(a, c) <= 0
  {
    if a != [] && b != [] && c != [] && a[0] == b[0] == c[0] {
      BytesTransitive(a[1..], b[1..], c[1..]);
    }
  }

  lemma WithdrawalsOrdered()
    ensures IsOrder(CompareWithdrawals)
  {
    forall x: Withdrawal, y: Withdrawal
      ensures CompareWithdrawals(x, y) <= 0 || CompareWithdrawals(y, x) <= 0
    {
      BytesTotal(Decode(x.credentialHash), Decode(y.credentialHash));
    }
    forall x: Withdrawal, y: Withdrawal, z: Withdrawal | CompareWithdrawals(x, y) <= 0 && CompareWithdrawals(y, z) <= 0
      ensures CompareWithdrawals(x, z) <= 0
    {
      if x.isScript == y.isScript == z.isScript {
        BytesTransitive(Decode(x.credentialHash), Decode(y.credentialHash), Decode(z.credentialHash));
      }
    }
  }

  /** All script withdrawals come before all key withdrawals, each kind by its hash bytes. */
  lemma WithdrawalsSorted(entries: seq<Withdrawal>)
    ensures
      var s := SortWithdrawalsLikeLedger(entries);
      && multiset(s) == multiset(entries)
      && forall i, j :: 0 <= i < j < |s| ==>
           (s[j].isScript ==> s[i].isScript)
           && (s[i].isScript == s[j].isScript ==> CompareBytes(Decode(s[i].credentialHash), Decode(s[j].credentialHash)) <= 0)
  {
    SortKeeps(entries, CompareWithdrawals);
    WithdrawalsOrdered();
    SortSorts(entries, CompareWithdrawals);
    var s := SortWithdrawalsLikeLedger(entries);
    forall i, j | 0 <= i < j < |s|
      ensures (s[j].isScript ==> s[i].isScript)
              && (s[i].isScript == s[j].isScript ==> CompareBytes(Decode(s[i].credentialHash), Decode(s[j].credentialHash)) <= 0)
    {
      assert CompareWithdrawals(s[i], s[j]) <= 0;
    }
  }

  // ---------------------------------------------------------------- the crawl stores the same positions

  function IsRegular(): Input -> bool {
    (i: Input) => !i.isCollateral && !i.isReference
  }

  function Source(i: Input): OutPoint {
    i.source
  }

  function Sources(inputs: seq<Input>): seq<OutPoint> {
    Permutations.Image(inputs, Source)
  }

  lemma AllRegular(inputs: seq<Input>)
    requires inputs != [] && IsSorted(inputs, CompareInputs) && IsRegular()(inputs[|inputs| - 1])
    ensures forall i :: 0 <= i < |inputs| ==> IsRegular()(inputs[i])
    ensures forall x :: x in inputs ==> IsRegular()(x)
  {
    hide CompareOutRef;
    forall i | 0 <= i < |inputs|
      ensures IsRegular()(inputs[i])
    {
      assert i < |inputs| - 1 ==> CompareInputs(inputs[i], inputs[|inputs| - 1]) <= 0;
    }
  }

  /** In ledger order the regular inputs come first: `k` of them. */
  lemma {:induction false} RegularCount(inputs: seq<Input>) returns (k: nat)
    requires IsSorted(inputs, CompareInputs)
    ensures k <= |inputs| && forall i :: 0 <= i < |inputs| ==> (IsRegular()(inputs[i]) <==> i < k)
  {
    k := 0;
    if inputs != [] {
      hide CompareInputs, IsRegular;
      var n := |inputs| - 1;
      if IsRegular()(inputs[n]) {
        AllRegular(inputs);
        k := |inputs|;
      } else {
        FrontSorted(inputs, CompareInputs);
        k := RegularCount(inputs[..n]);
        forall i | 0 <= i < n
          ensures IsRegular()(inputs[i]) <==> i < k
        {
          assert inputs[..n][i] == inputs[i];
        }
      }
    }
  }

  lemma RegularFirst(inputs: seq<Input>)
    requires IsSorted(inputs, CompareInputs)
    ensures |Filter(inputs, IsRegular())| <= |inputs| && Filter(inputs, IsRegular()) == inputs[..|Filter(inputs, IsRegular())|]
    ensures forall i :: 0 <= i < |inputs| ==> (IsRegular()(inputs[i]) <==> i < |Filter(inputs, IsRegular())|)
  {
    hide CompareInputs, IsRegular, Filter;
    var k := RegularCount(inputs);
    KeepAll(inputs[..k], IsRegular());
    NoneLeft(inputs[k..], IsRegular());
    FilterConcat(inputs[..k], inputs[k..], IsRegular());
    assert inputs[..k] + inputs[k..] == inputs && inputs[..k] + [] == inputs[..k];
  }

  /** The outpoints of sorted regular inputs are sorted. */
  lemma SourcesSorted(inputs: seq<Input>)
    requires IsSorted(inputs, CompareInputs) && forall i :: i in inputs ==> IsRegular()(i)
    ensures IsSorted(Sources(inputs), CompareOutRef)
  {
    forall i, j | 0 <= i < j < |inputs|
      ensures CompareOutRef(Sources(inputs)[i], Sources(inputs)[j]) <= 0
    {
      assert inputs[i] in inputs && inputs[j] in inputs;
      assert CompareInputs(inputs[i], inputs[j]) <= 0;
    }
  }

  lemma SourcesValid(inputs: seq<Input>)
    requires forall i :: i in inputs ==> IsHash(i.source.txHash)
    ensures ValidRefs(Sources(inputs))
  {
    forall r | r in Sources(inputs)
      ensures IsHash(r.txHash)
    {
      var i :| 0 <= i < |inputs| && Sources(inputs)[i] == r;
      assert inputs[i] in inputs;
    }
  }

  lemma LeadingSorted(leading: seq<Input>, regular: seq<Input>)
    requires multiset(Sources(leading)) == multiset(Sources(regular)) && ValidRefs(Sources(regular))
    requires IsSorted(Sources(leading), CompareOutRef)
    ensures SortInputsLikeBuildooor(Sources(regular)) == Sources(leading)
  {
    SortsCoincide(Sources(regular));
    OutRefsOrdered();
    RefsDistinguished(Sources(regular));
    SortIgnoresArrival(Sources(regular), Sources(leading), CompareOutRef);
    SortedStays(Sources(leading), CompareOutRef);
  }

  /**
   The position a builder resolves a regular input to is the position under which a crawl stores it: the sorted
   references are the outpoints of the leading stored inputs.
   */
  lemma PositionsCoincide(inputs: seq<Input>)
    requires forall i :: i in inputs ==> IsHash(i.source.txHash)
    ensures
      var stored := LedgerInputOrder(inputs);
      var built := SortInputsLikeBuildooor(Sources(Filter(inputs, IsRegular())));
      |built| <= |stored| && built == Sources(stored[..|built|]) && forall i :: 0 <= i < |stored| ==> (IsRegular()(stored[i]) <==> i < |built|)
  {
    var stored := LedgerInputOrder(inputs);
    var regular := Filter(inputs, IsRegular());
    var leading := Filter(stored, IsRegular());
    InputsOrdered();
    SortSorts(inputs, CompareInputs);
    SortKeeps(inputs, CompareInputs);
    FilterPermutes(stored, inputs, IsRegular());
    RegularFirst(stored);
    FilterSorted(stored, IsRegular(), CompareInputs);
    SourcesSorted(leading);
    Permutations.ImagePermutes(leading, regular, Source);
    SourcesValid(regular);
    LeadingSorted(leading, regular);
  }
}
