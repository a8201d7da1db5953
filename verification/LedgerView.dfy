/**
 A transaction as the ledger applied it: inputs in ledger order, and after a phase-2 failure only collateral
 and reference inputs and the collateral return.
 */
module LedgerView {
  import opened Options
  import opened Chain
  import opened LedgerOrder

  /** Regular inputs first, then collateral, then reference inputs. */
  function Rank(i: Input): int {
    if i.isReference then 2 else if i.isCollateral then 1 else 0
  }

  function CompareInputs(a: Input, b: Input): int {
    if Rank(a) != Rank(b) then Rank(a) - Rank(b) else CompareOutRef(a.source, b.source)
  }

  function LedgerInputOrder(inputs: seq<Input>): seq<Input> {
    SortBy(inputs, CompareInputs)
  }

  function SurvivesFailure(): Input -> bool {
    (i: Input) => i.isCollateral || i.isReference
  }

  function HasFlag(failed: bool): Output -> bool {
    (o: Output) => o.isCollateral == failed
  }

  /** Unknown validity keeps what the source reported, apart from the order of the inputs. */
  function View(t: Tx): Tx {
    var inputs := LedgerInputOrder(t.inputs);
    if t.spendsCollaterals.None? then t.(inputs := inputs)
    else
      var failed := t.spendsCollaterals.value;
      t.(inputs := if failed then Filter(inputs, SurvivesFailure()) else inputs,
         outputs := Filter(t.outputs, HasFlag(failed)),
         mint := if failed then None else t.mint)
  }

  // ---------------------------------------------------------------- the input order orders

  lemma {:induction false} StringsTotal(a: string, b: string)
    ensures SameSign(CompareStrings(a, b), -CompareStrings(b, a))
  {
    if a != "" && b != "" && a[0] == b[0] {
      StringsTotal(a[1..], b[1..]);
    }
  }

  lemma {:induction false} StringsTransitive(a: string, b: string, c: string)
    requires CompareStrings(a, b) <= 0 && CompareStrings(b, c) <= 0
    ensures CompareStrings(a, c) <= 0
    ensures CompareStrings(a, c) == 0 ==> CompareStrings(a, b) == 0 && CompareStrings(b, c) == 0
  {
    if a != "" && b != "" && c != "" {
      if a[0] == b[0] && b[0] == c[0] {
        StringsTransitive(a[1..], b[1..], c[1..]);
      }
    }
  }

  lemma {:induction false} StringsEqual(a: string, b: string)
    ensures CompareStrings(a, b) == 0 <==> a == b
  {
    if a != "" && b != "" && a[0] == b[0] {
      StringsEqual(a[1..], b[1..]);
      assert a == [a[0]] + a[1..] && b == [b[0]] + b[1..];
    }
  }

  lemma OutRefsTransitive(a: OutPoint, b: OutPoint, c: OutPoint)
    requires CompareOutRef(a, b) <= 0 && CompareOutRef(b, c) <= 0
    ensures CompareOutRef(a, c) <= 0
  {
    StringsTransitive(Lower(a.txHash), Lower(b.txHash), Lower(c.txHash));
  }

  lemma InputsOrdered()
    ensures IsOrder(CompareInputs)
  {
    forall x: Input, y: Input
      ensures CompareInputs(x, y) <= 0 || CompareInputs(y, x) <= 0
    {
      StringsTotal(Lower(x.source.txHash), Lower(y.source.txHash));
    }
    forall x: Input, y: Input, z: Input | CompareInputs(x, y) <= 0 && CompareInputs(y, z) <= 0
      ensures CompareInputs(x, z) <= 0
    {
      if Rank(x) == Rank(z) {
        OutRefsTransitive(x.source, y.source, z.source);
      }
    }
  }

  // ---------------------------------------------------------------- the view is stable and keeps the ledger's facts

  lemma {:induction false} FilterTwice<T(!new)>(s: seq<T>, keep: T -> bool)
    ensures Filter(Filter(s, keep), keep) == Filter(s, keep)
  {
    KeepAll(Filter(s, keep), keep);
  }

  /** Taking the view of a view changes nothing. */
  lemma ViewIdempotent(t: Tx)
    ensures View(View(t)) == View(t)
  {
    var inputs := LedgerInputOrder(t.inputs);
    InputsOrdered();
    SortSorts(t.inputs, CompareInputs);
    SortedStays(inputs, CompareInputs);
    FilterSorted(inputs, SurvivesFailure(), CompareInputs);
    SortedStays(Filter(inputs, SurvivesFailure()), CompareInputs);
    FilterTwice(inputs, SurvivesFailure());
    if t.spendsCollaterals.Some? {
      FilterTwice(t.outputs, HasFlag(t.spendsCollaterals.value));
    }
    hide SortBy, Filter, IsSorted, IsOrder;
  }

  /** What a view holds, field by field: after a failure only collateral and reference inputs, the return and no mint. */
  lemma ViewIs(t: Tx)
    ensures
      var v, failed := View(t), t.spendsCollaterals == Some(true);
      && v.hash == t.hash && v.slot == t.slot && v.index == t.index && v.spendsCollaterals == t.spendsCollaterals
      && v.mint == (if failed then None else t.mint)
      && (forall i :: multiset(v.inputs)[i] == if failed && !i.isCollateral && !i.isReference then 0 else multiset(t.inputs)[i])
      && (forall o :: multiset(v.outputs)[o] == if t.spendsCollaterals == Some(!o.isCollateral) then 0 else multiset(t.outputs)[o])
  {
    var inputs := LedgerInputOrder(t.inputs);
    SortKeeps(t.inputs, CompareInputs);
    forall i
      ensures multiset(Filter(inputs, SurvivesFailure()))[i] == if SurvivesFailure()(i) then multiset(t.inputs)[i] else 0
    {
      FilterCounts(inputs, SurvivesFailure(), i);
    }
    if t.spendsCollaterals.Some? {
      forall o
        ensures multiset(Filter(t.outputs, HasFlag(t.spendsCollaterals.value)))[o]
                == if HasFlag(t.spendsCollaterals.value)(o) then multiset(t.outputs)[o] else 0
      {
        FilterCounts(t.outputs, HasFlag(t.spendsCollaterals.value), o);
      }
    }
    hide SortBy, Filter;
  }

  /** Inputs of a view by kind: regular, collateral, reference, each kind by hash and index. */
  lemma ViewOrdered(t: Tx, i: int, j: int)
    requires 0 <= i < j < |View(t).inputs|
    ensures
      var a, b := View(t).inputs[i], View(t).inputs[j];
      && (a.isReference ==> b.isReference)
      && (a.isCollateral && !a.isReference ==> b.isCollateral || b.isReference)
      && (a.isReference == b.isReference && (a.isReference || a.isCollateral == b.isCollateral) ==> CompareOutRef(a.source, b.source) <= 0)
  {
    var inputs := LedgerInputOrder(t.inputs);
    InputsOrdered();
    SortSorts(t.inputs, CompareInputs);
    FilterSorted(inputs, SurvivesFailure(), CompareInputs);
    assert CompareInputs(View(t).inputs[i], View(t).inputs[j]) <= 0;
  }

  lemma {:induction false} FilterStronger<T(!new)>(s: seq<T>, p: T -> bool, q: T -> bool)
    requires forall x :: x in s && p(x) ==> q(x)
    ensures Filter(Filter(s, q), p) == Filter(s, p)
  {
    if s != [] {
      FilterStronger(s[..|s| - 1], p, q);
      FilterAppend(Filter(s[..|s| - 1], q), s[|s| - 1], p);
    }
  }

  /** The view creates exactly the outputs the transaction creates, in the same order. */
  lemma ViewKeepsProduced(t: Tx)
    ensures ProducedOutputs(View(t)) == ProducedOutputs(t)
  {
    if t.spendsCollaterals.None? {
      FilterAgree(t.outputs, o => IsProduced(View(t), o), o => IsProduced(t, o));
    } else {
      var failed := t.spendsCollaterals.value;
      FilterStronger(t.outputs, o => IsProduced(t, o), HasFlag(failed));
      FilterAgree(Filter(t.outputs, HasFlag(failed)), o => IsProduced(View(t), o), o => IsProduced(t, o));
    }
  }

  lemma {:induction false} FilterCounts<T(!new)>(s: seq<T>, keep: T -> bool, x: T)
    ensures multiset(Filter(s, keep))[x] == if keep(x) then multiset(s)[x] else 0
  {
    if s != [] {
      FilterCounts(s[..|s| - 1], keep, x);
      assert s == s[..|s| - 1] + [s[|s| - 1]];
    }
  }

  lemma FilterPermutes<T(!new)>(s: seq<T>, t: seq<T>, keep: T -> bool)
    requires multiset(s) == multiset(t)
    ensures multiset(Filter(s, keep)) == multiset(Filter(t, keep))
  {
    forall x
      ensures multiset(Filter(s, keep))[x] == multiset(Filter(t, keep))[x]
    {
      FilterCounts(s, keep, x);
      FilterCounts(t, keep, x);
    }
  }

  /** The view consumes exactly the inputs the transaction consumes. */
  lemma ViewKeepsConsumed(t: Tx)
    ensures multiset(ConsumedInputs(View(t))) == multiset(ConsumedInputs(t))
  {
    var inputs := LedgerInputOrder(t.inputs);
    SortKeeps(t.inputs, CompareInputs);
    FilterPermutes(inputs, t.inputs, i => IsConsumed(t, i));
    if Failed(t) {
      FilterStronger(inputs, i => IsConsumed(t, i), SurvivesFailure());
      FilterAgree(Filter(inputs, SurvivesFailure()), i => IsConsumed(View(t), i), i => IsConsumed(t, i));
    } else {
      FilterAgree(inputs, i => IsConsumed(View(t), i), i => IsConsumed(t, i));
    }
  }
}
