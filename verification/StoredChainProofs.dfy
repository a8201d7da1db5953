/** Writing transactions and reading them back, and what the stored rows say about phase-2 failures and spenders. */
module StoredChainProofs {
  import opened Options
  import opened Chain
  import opened LedgerOrder
  import opened StoredChain
  import LedgerRules
  import LedgerView
  import Permutations

  // ---------------------------------------------------------------- the key of a transaction

  /** Two positions with fewer than 65536 transactions per block never share a key. */
  lemma TxSeqInjective(slot: nat, index: nat, slot': nat, index': nat)
    requires index < TX_SEQ_SLOT_FACTOR && index' < TX_SEQ_SLOT_FACTOR && TxSeqOf(slot, index) == TxSeqOf(slot', index')
    ensures slot == slot' && index == index'
  {
  }

  ghost predicate DistinctPositions(txs: seq<Tx>) {
    && (forall i :: 0 <= i < |txs| ==> txs[i].index < TX_SEQ_SLOT_FACTOR)
    && (forall i, j :: 0 <= i < j < |txs| ==> (txs[i].slot, txs[i].index) != (txs[j].slot, txs[j].index))
  }

  ghost predicate Keyed<R(!new)>(rows: Tx -> seq<R>, key: R -> nat) {
    forall t, r :: r in rows(t) ==> key(r) == SeqOfTx(t)
  }

  /** No row leaks: the rows with a transaction's key are the rows it wrote. */
  lemma {:induction false} OwnRows<R(!new)>(txs: seq<Tx>, rows: Tx -> seq<R>, key: R -> nat, n: nat)
    requires DistinctPositions(txs) && Keyed(rows, key) && n < |txs|
    ensures Filter(Gather(txs, rows), HasKey(key, SeqOfTx(txs[n]))) == rows(txs[n])
  {
    var front, last := txs[..|txs| - 1], txs[|txs| - 1];
    var keep := HasKey(key, SeqOfTx(txs[n]));
    FilterConcat(Gather(front, rows), rows(last), keep);
    if n < |front| {
      OwnRows(front, rows, key, n);
      OtherKey(txs, n, |front|);
      NoneLeft(rows(last), keep);
    } else {
      OtherRows(front, rows, key, txs[n]);
      KeepAll(rows(last), keep);
    }
  }

  lemma OtherKey(txs: seq<Tx>, i: nat, j: nat)
    requires DistinctPositions(txs) && i < j < |txs|
    ensures SeqOfTx(txs[i]) != SeqOfTx(txs[j])
  {
    if SeqOfTx(txs[i]) == SeqOfTx(txs[j]) {
      TxSeqInjective(txs[i].slot, txs[i].index, txs[j].slot, txs[j].index);
    }
  }

  lemma {:induction false} OtherRows<R(!new)>(front: seq<Tx>, rows: Tx -> seq<R>, key: R -> nat, t: Tx)
    requires Keyed(rows, key) && DistinctPositions(front + [t])
    ensures Filter(Gather(front, rows), HasKey(key, SeqOfTx(t))) == []
  {
    if front != [] {
      var n := |front| - 1;
      var all := front + [t];
      OtherKey(all, n, n + 1);
      assert front[..n] + [t] == all[..n] + [all[n + 1]];
      OtherRows(front[..n], rows, key, t);
      NoneLeft(rows(front[n]), HasKey(key, SeqOfTx(t)));
      FilterConcat(Gather(front[..n], rows), rows(front[n]), HasKey(key, SeqOfTx(t)));
    }
  }

  // ---------------------------------------------------------------- assets of one input or output

  lemma {:induction false} InputAssetsKeyed(t: Tx, n: nat)
    requires n <= |t.inputs|
    ensures forall r :: r in InputAssetRows(t, n) ==> r.txSeq == SeqOfTx(t) && r.position < n
  {
    if n > 0 {
      InputAssetsKeyed(t, n - 1);
    }
  }

  lemma AssetRowsAt(txSeq: nat, position: nat, amount: seq<Amount>, at: nat)
    ensures Filter(AssetRowsOf(txSeq, position, amount), HasKey(AssetKey, (txSeq, at)))
            == if at == position then AssetRowsOf(txSeq, position, amount) else []
  {
    if at == position {
      KeepAll(AssetRowsOf(txSeq, position, amount), HasKey(AssetKey, (txSeq, at)));
    } else {
      NoneLeft(AssetRowsOf(txSeq, position, amount), HasKey(AssetKey, (txSeq, at)));
    }
  }

  lemma NoAssetsAt(rows: seq<AssetRow>, txSeq: nat, at: nat)
    requires forall r :: r in rows ==> r.position != at
    ensures Filter(rows, HasKey(AssetKey, (txSeq, at))) == []
  {
    forall r | r in rows
      ensures !HasKey(AssetKey, (txSeq, at))(r)
    {
      assert AssetKey(r).1 != at;
    }
    NoneLeft(rows, HasKey(AssetKey, (txSeq, at)));
  }

  /** The asset rows at a position are those of the input there. */
  lemma {:induction false} InputAssetsAt(t: Tx, n: nat, i: nat)
    requires i < n <= |t.inputs|
    ensures Filter(InputAssetRows(t, n), HasKey(AssetKey, (SeqOfTx(t), i))) == AssetRowsOf(SeqOfTx(t), i, t.inputs[i].amount)
  {
    hide Filter, AssetRowsOf, HasKey, SeqOfTx;
    var before, last := InputAssetRows(t, n - 1), AssetRowsOf(SeqOfTx(t), n - 1, t.inputs[n - 1].amount);
    FilterConcat(before, last, HasKey(AssetKey, (SeqOfTx(t), i)));
    AssetRowsAt(SeqOfTx(t), n - 1, t.inputs[n - 1].amount, i);
    if i < n - 1 {
      InputAssetsAt(t, n - 1, i);
    } else {
      InputAssetsKeyed(t, n - 1);
      NoAssetsAt(before, SeqOfTx(t), i);
    }
  }

  ghost predicate DistinctOutputs(t: Tx) {
    forall i, j :: 0 <= i < j < |t.outputs| ==> t.outputs[i].outputIndex != t.outputs[j].outputIndex
  }

  lemma {:induction false} OutputAssetsKeyed(t: Tx, n: nat)
    requires n <= |t.outputs|
    ensures forall r :: r in OutputAssetRows(t, n) ==>
              r.txSeq == SeqOfTx(t) && exists j :: 0 <= j < n && t.outputs[j].outputIndex == r.position
  {
    if n > 0 {
      OutputAssetsKeyed(t, n - 1);
    }
  }

  lemma {:induction false} OutputAssetsAt(t: Tx, n: nat, i: nat)
    requires i < n <= |t.outputs| && DistinctOutputs(t)
    ensures Filter(OutputAssetRows(t, n), HasKey(AssetKey, (SeqOfTx(t), t.outputs[i].outputIndex)))
            == AssetRowsOf(SeqOfTx(t), t.outputs[i].outputIndex, t.outputs[i].amount)
  {
    hide Filter, AssetRowsOf, HasKey, SeqOfTx;
    var before, last := OutputAssetRows(t, n - 1), t.outputs[n - 1];
    FilterConcat(before, AssetRowsOf(SeqOfTx(t), last.outputIndex, last.amount), HasKey(AssetKey, (SeqOfTx(t), t.outputs[i].outputIndex)));
    AssetRowsAt(SeqOfTx(t), last.outputIndex, last.amount, t.outputs[i].outputIndex);
    if i < n - 1 {
      OutputAssetsAt(t, n - 1, i);
    } else {
      OutputAssetsKeyed(t, n - 1);
      NoAssetsAt(before, SeqOfTx(t), t.outputs[i].outputIndex);
    }
  }

  // ---------------------------------------------------------------- amounts

  /** The same amounts, lovelace before everything else. */
  ghost predicate SameAmounts(read: seq<Amount>, written: seq<Amount>) {
    && multiset(read) == multiset(written)
    && forall i, j :: 0 <= i < j < |read| && read[j].unit == LOVELACE ==> read[i].unit == LOVELACE
  }

  lemma AmountsSplit(list: seq<Amount>)
    ensures SameAmounts(Filter(list, IsCoin) + Filter(list, IsToken), list)
  {
    var coins: seq<Amount> := Filter(list, IsCoin);
    var tokens: seq<Amount> := Filter(list, IsToken);
    forall x
      ensures multiset(coins + tokens)[x] == multiset(list)[x]
    {
      LedgerView.FilterCounts(list, IsCoin, x);
      LedgerView.FilterCounts(list, IsToken, x);
    }
    var all := coins + tokens;
    assert forall x :: x in coins ==> x.unit == LOVELACE;
    assert forall x :: x in tokens ==> x.unit != LOVELACE;
    forall j | |coins| <= j < |all|
      ensures all[j].unit != LOVELACE
    {
      assert all[j] in tokens;
    }
    forall i | 0 <= i < |coins|
      ensures all[i].unit == LOVELACE
    {
      assert all[i] in coins;
    }
  }

  function AmountOf(r: AssetRow): Amount {
    Amount(r.unit, r.quantity)
  }

  /** Asset rows in any order read back as the amounts that were written. */
  lemma AmountsRead(rows: seq<AssetRow>, txSeq: nat, position: nat, amount: seq<Amount>)
    requires multiset(rows) == multiset(AssetRowsOf(txSeq, position, amount))
    ensures SameAmounts(Amounts(rows), amount)
  {
    var written := AssetRowsOf(txSeq, position, amount);
    ListedPermutes(rows, written);
    assert Listed(written) == amount;
    AmountsSplit(Listed(rows));
  }

  lemma {:induction false} ListedPermutes(s: seq<AssetRow>, t: seq<AssetRow>)
    requires multiset(s) == multiset(t)
    ensures multiset(Listed(s)) == multiset(Listed(t))
  {
    Permutations.ImagePermutes(s, t, AmountOf);
    assert Listed(s) == Permutations.Image(s, AmountOf) && Listed(t) == Permutations.Image(t, AmountOf);
  }

  // ---------------------------------------------------------------- the round trip

  ghost predicate SameInput(read: Input, written: Input) {
    && read.source == written.source && read.address == written.address
    && read.isCollateral == written.isCollateral && read.isReference == written.isReference
    && SameData(read.data, written.data)
    && SameAmounts(read.amount, written.amount)
  }

  ghost predicate SameOutput(read: Output, written: Output) {
    && read.outputIndex == written.outputIndex && read.address == written.address
    && SameData(read.data, written.data)
    && SameAmounts(read.amount, written.amount)
  }

  lemma InputOrder()
    ensures IsOrder(ByInputIndex) && IsOrder(ByOutputIndex)
  {
  }

  lemma RowsKeyed()
    ensures Keyed(InputRows, InputTx) && Keyed(OutputRows, OutputTx)
  {
  }

  lemma InputRowsSorted(t: Tx)
    ensures IsSorted(InputRows(t), ByInputIndex) && Distinguishes(ByInputIndex, InputRows(t))
  {
  }

  lemma OutputRowsDistinguished(t: Tx)
    requires DistinctOutputs(t)
    ensures Distinguishes(ByOutputIndex, OutputRows(t))
  {
  }

  /** The input rows of a transaction come back in the order of its inputs. */
  lemma InputRowsRead(db: Db, txs: seq<Tx>, n: nat)
    requires Holds(db, txs) && DistinctPositions(txs) && n < |txs|
    ensures SortBy(Filter(db.inputs, HasKey(InputTx, SeqOfTx(txs[n]))), ByInputIndex) == InputRows(txs[n])
  {
    hide Filter, SortBy, DistinctPositions, Keyed, IsOrder, IsSorted, Distinguishes, InputRows;
    var t := txs[n];
    RowsKeyed();
    OwnRows(txs, InputRows, InputTx, n);
    LedgerView.FilterPermutes(db.inputs, Gather(txs, InputRows), HasKey(InputTx, SeqOfTx(t)));
    InputOrder();
    InputRowsSorted(t);
    SortIgnoresArrival(InputRows(t), Filter(db.inputs, HasKey(InputTx, SeqOfTx(t))), ByInputIndex);
    SortedStays(InputRows(t), ByInputIndex);
  }

  lemma OutputRowsRead(db: Db, txs: seq<Tx>, n: nat)
    requires Holds(db, txs) && DistinctPositions(txs) && n < |txs| && DistinctOutputs(txs[n])
    ensures SortBy(Filter(db.outputs, HasKey(OutputTx, SeqOfTx(txs[n]))), ByOutputIndex) == SortBy(OutputRows(txs[n]), ByOutputIndex)
  {
    hide Filter, SortBy, DistinctPositions, Keyed, IsOrder, IsSorted, Distinguishes, OutputRows;
    var t := txs[n];
    RowsKeyed();
    OwnRows(txs, OutputRows, OutputTx, n);
    LedgerView.FilterPermutes(db.outputs, Gather(txs, OutputRows), HasKey(OutputTx, SeqOfTx(t)));
    InputOrder();
    OutputRowsDistinguished(t);
    SortIgnoresArrival(OutputRows(t), Filter(db.outputs, HasKey(OutputTx, SeqOfTx(t))), ByOutputIndex);
  }

  /** The asset rows found for an input are those it wrote, in some order. */
  lemma InputAssetsRead(db: Db, txs: seq<Tx>, n: nat, i: nat)
    requires Holds(db, txs) && DistinctPositions(txs) && n < |txs| && i < |txs[n].inputs|
    ensures SameAmounts(Amounts(Filter(db.inputAssets, HasKey(AssetKey, (SeqOfTx(txs[n]), i)))), txs[n].inputs[i].amount)
  {
    var t := txs[n];
    var keep := HasKey(AssetKey, (SeqOfTx(t), i));
    forall x, r | r in AllInputAssets(x)
      ensures AssetTx(r) == SeqOfTx(x)
    {
      InputAssetsKeyed(x, |x.inputs|);
    }
    OwnRows(txs, AllInputAssets, AssetTx, n);
    var all := Gather(txs, AllInputAssets);
    LedgerView.FilterStronger(all, keep, HasKey(AssetTx, SeqOfTx(t)));
    InputAssetsAt(t, |t.inputs|, i);
    LedgerView.FilterPermutes(db.inputAssets, all, keep);
    AmountsRead(Filter(db.inputAssets, keep), SeqOfTx(t), i, t.inputs[i].amount);
  }

  lemma OutputAssetsRead(db: Db, txs: seq<Tx>, n: nat, i: nat)
    requires Holds(db, txs) && DistinctPositions(txs) && n < |txs| && i < |txs[n].outputs| && DistinctOutputs(txs[n])
    ensures SameAmounts(Amounts(Filter(db.outputAssets, HasKey(AssetKey, (SeqOfTx(txs[n]), txs[n].outputs[i].outputIndex)))),
                        txs[n].outputs[i].amount)
  {
    var t := txs[n];
    var keep := HasKey(AssetKey, (SeqOfTx(t), t.outputs[i].outputIndex));
    forall x, r | r in AllOutputAssets(x)
      ensures AssetTx(r) == SeqOfTx(x)
    {
      OutputAssetsKeyed(x, |x.outputs|);
    }
    OwnRows(txs, AllOutputAssets, AssetTx, n);
    var all := Gather(txs, AllOutputAssets);
    LedgerView.FilterStronger(all, keep, HasKey(AssetTx, SeqOfTx(t)));
    OutputAssetsAt(t, |t.outputs|, i);
    LedgerView.FilterPermutes(db.outputAssets, all, keep);
    AmountsRead(Filter(db.outputAssets, keep), SeqOfTx(t), t.outputs[i].outputIndex, t.outputs[i].amount);
  }

  /** A stored transaction reads back with its own inputs, in order, each with its outpoint, data and amounts. */
  lemma InputsRoundTrip(db: Db, txs: seq<Tx>, n: nat, r: Tx)
    requires Holds(db, txs) && DistinctPositions(txs) && n < |txs| && IsRead(db, RowOf(txs[n]), r)
    ensures r.hash == txs[n].hash && r.slot == txs[n].slot && r.index == txs[n].index
    ensures |r.inputs| == |txs[n].inputs|
    ensures forall i :: 0 <= i < |r.inputs| ==> SameInput(r.inputs[i], txs[n].inputs[i])
  {
    InputRowsRead(db, txs, n);
    forall i | 0 <= i < |r.inputs|
      ensures SameInput(r.inputs[i], txs[n].inputs[i])
    {
      InputAssetsRead(db, txs, n, i);
      SameInputRead(txs[n].inputs[i], SeqOfTx(txs[n]), i, Filter(db.inputAssets, HasKey(AssetKey, (SeqOfTx(txs[n]), i))));
      hide Holds, SortBy, Filter, Amounts, SameInput, DistinctPositions;
    }
  }

  lemma SameInputRead(i: Input, txSeq: nat, position: nat, assets: seq<AssetRow>)
    requires SameAmounts(Amounts(assets), i.amount)
    ensures SameInput(ReadInput(InputRowOf(txSeq, position, i), assets), i)
  {
    hide Amounts, SameAmounts;
  }

  /** Outputs listed by strictly ascending index. */
  ghost predicate Ascending(t: Tx) {
    forall i, j :: 0 <= i < j < |t.outputs| ==> t.outputs[i].outputIndex < t.outputs[j].outputIndex
  }

  /** The output read is one that was written. */
  ghost predicate IsWritten(read: Output, written: seq<Output>) {
    exists j :: 0 <= j < |written| && SameOutput(read, written[j])
  }

  /** The output written is one that was read back. */
  ghost predicate IsReadBack(written: Output, read: seq<Output>) {
    exists i :: 0 <= i < |read| && SameOutput(read[i], written)
  }

  /** Every output reads back once, in strictly ascending order of its index; listed in that order, position by position. */
  lemma OutputsRoundTrip(db: Db, txs: seq<Tx>, n: nat, r: Tx)
    requires Holds(db, txs) && DistinctPositions(txs) && n < |txs| && IsRead(db, RowOf(txs[n]), r) && DistinctOutputs(txs[n])
    ensures |r.outputs| == |txs[n].outputs| && Ascending(r)
    ensures forall i :: 0 <= i < |r.outputs| ==> IsWritten(r.outputs[i], txs[n].outputs)
    ensures forall j :: 0 <= j < |txs[n].outputs| ==> IsReadBack(txs[n].outputs[j], r.outputs)
    ensures Ascending(txs[n]) ==> forall i :: 0 <= i < |r.outputs| ==> SameOutput(r.outputs[i], txs[n].outputs[i])
  {
    hide Holds, SortBy, Filter, SameOutput, Ascending, IsRead, DistinctPositions, DistinctOutputs;
    OutputsReadSorted(db, txs, n, r);
    forall i | 0 <= i < |r.outputs|
      ensures IsWritten(r.outputs[i], txs[n].outputs)
      ensures Ascending(txs[n]) ==> SameOutput(r.outputs[i], txs[n].outputs[i])
    {
      var j := ReadWasWritten(db, txs, n, r, i);
    }
    forall j | 0 <= j < |txs[n].outputs|
      ensures IsReadBack(txs[n].outputs[j], r.outputs)
    {
      var i := WrittenIsRead(db, txs, n, r, j);
    }
  }

  lemma ReadWasWritten(db: Db, txs: seq<Tx>, n: nat, r: Tx, i: nat) returns (j: nat)
    requires Holds(db, txs) && DistinctPositions(txs) && n < |txs| && IsRead(db, RowOf(txs[n]), r) && DistinctOutputs(txs[n])
    requires i < |r.outputs|
    ensures j < |txs[n].outputs| && SameOutput(r.outputs[i], txs[n].outputs[j]) && (Ascending(txs[n]) ==> j == i)
  {
    hide Holds, SortBy, Filter, SameOutput, Ascending, IsRead, DistinctPositions, DistinctOutputs, IsSorted;
    OutputsReadSorted(db, txs, n, r);
    OutputRowsSorted(txs[n]);
    var written, rows := OutputRows(txs[n]), SortBy(OutputRows(txs[n]), ByOutputIndex);
    assert rows[i] in rows && rows[i] in written;
    j :| 0 <= j < |written| && written[j] == rows[i] && (Ascending(txs[n]) ==> j == i);
    OutputRead(db, txs, n, r, i, j);
  }

  lemma WrittenIsRead(db: Db, txs: seq<Tx>, n: nat, r: Tx, j: nat) returns (i: nat)
    requires Holds(db, txs) && DistinctPositions(txs) && n < |txs| && IsRead(db, RowOf(txs[n]), r) && DistinctOutputs(txs[n])
    requires j < |txs[n].outputs|
    ensures i < |r.outputs| && SameOutput(r.outputs[i], txs[n].outputs[j])
  {
    hide Holds, SortBy, Filter, SameOutput, Ascending, IsRead, DistinctPositions, DistinctOutputs, IsSorted;
    OutputRowsSorted(txs[n]);
    var written, rows := OutputRows(txs[n]), SortBy(OutputRows(txs[n]), ByOutputIndex);
    assert written[j] in written && written[j] in rows;
    i :| 0 <= i < |rows| && rows[i] == written[j];
    OutputRead(db, txs, n, r, i, j);
  }

  lemma OutputsReadSorted(db: Db, txs: seq<Tx>, n: nat, r: Tx)
    requires Holds(db, txs) && DistinctPositions(txs) && n < |txs| && IsRead(db, RowOf(txs[n]), r) && DistinctOutputs(txs[n])
    ensures |r.outputs| == |txs[n].outputs| && Ascending(r)
  {
    OutputRowsRead(db, txs, n);
    OutputRowsSorted(txs[n]);
    OutputRowsStrict(txs[n]);
    hide Holds, SortBy, Filter, DistinctPositions, DistinctOutputs, IsSorted;
    ReadAscending(r, SortBy(OutputRows(txs[n]), ByOutputIndex));
  }

  lemma OutputRowsSorted(t: Tx)
    ensures IsSorted(SortBy(OutputRows(t), ByOutputIndex), ByOutputIndex)
    ensures |SortBy(OutputRows(t), ByOutputIndex)| == |t.outputs|
    ensures forall row :: row in SortBy(OutputRows(t), ByOutputIndex) <==> row in OutputRows(t)
    ensures Ascending(t) ==> SortBy(OutputRows(t), ByOutputIndex) == OutputRows(t)
  {
    InputOrder();
    SortSorts(OutputRows(t), ByOutputIndex);
    SortMembers(OutputRows(t), ByOutputIndex);
    if Ascending(t) {
      SortedStays(OutputRows(t), ByOutputIndex);
    }
  }

  /** Distinct elements stay distinct under any rearrangement. */
  lemma RearrangedDistinct<T(!new)>(s: seq<T>, t: seq<T>, i: nat, j: nat)
    requires multiset(s) == multiset(t) && i < j < |t|
    requires forall x, y :: 0 <= x < y < |s| ==> s[x] != s[y]
    ensures t[i] != t[j]
  {
    Occurs(s, t[i]);
    assert t == t[..j] + t[j..] && t[..j][i] == t[i] && t[j..][0] == t[j];
    assert t[i] in t[..j] && t[j] in t[j..];
    assert multiset(t) == multiset(t[..j]) + multiset(t[j..]);
    assert multiset(t[..j])[t[i]] >= 1 && multiset(t[j..])[t[j]] >= 1;
  }

  lemma {:induction false} Occurs<T(!new)>(s: seq<T>, x: T)
    requires forall i, j :: 0 <= i < j < |s| ==> s[i] != s[j]
    ensures multiset(s)[x] <= 1
  {
    if s != [] {
      var n := |s| - 1;
      Occurs(s[..n], x);
      assert s == s[..n] + [s[n]];
      assert s[n] !in s[..n];
    }
  }

  lemma OutputRowsStrict(t: Tx)
    requires DistinctOutputs(t)
    ensures forall i, j :: 0 <= i < j < |SortBy(OutputRows(t), ByOutputIndex)| ==>
              SortBy(OutputRows(t), ByOutputIndex)[i].outputIndex != SortBy(OutputRows(t), ByOutputIndex)[j].outputIndex
  {
    var written, rows := OutputRows(t), SortBy(OutputRows(t), ByOutputIndex);
    SortKeeps(written, ByOutputIndex);
    SortMembers(written, ByOutputIndex);
    OutputRowsDistinguished(t);
    hide SortBy, OutputRows, OutputRowOf;
    forall i, j | 0 <= i < j < |rows|
      ensures rows[i].outputIndex != rows[j].outputIndex
    {
      RearrangedDistinct(written, rows, i, j);
      assert rows[i] in rows && rows[j] in rows;
    }
  }

  lemma ReadAscending(r: Tx, rows: seq<OutputRow>)
    requires |r.outputs| == |rows| && IsSorted(rows, ByOutputIndex)
    requires forall i, j :: 0 <= i < j < |rows| ==> rows[i].outputIndex != rows[j].outputIndex
    requires forall i :: 0 <= i < |rows| ==> r.outputs[i].outputIndex == rows[i].outputIndex
    ensures Ascending(r)
  {
    forall i, j | 0 <= i < j < |rows|
      ensures r.outputs[i].outputIndex < r.outputs[j].outputIndex
    {
      assert ByOutputIndex(rows[i], rows[j]) <= 0;
    }
  }

  /** The output read from a row is the one that wrote it. */
  lemma OutputRead(db: Db, txs: seq<Tx>, n: nat, r: Tx, i: nat, j: nat)
    requires Holds(db, txs) && DistinctPositions(txs) && n < |txs| && IsRead(db, RowOf(txs[n]), r) && DistinctOutputs(txs[n])
    requires i < |SortBy(OutputRows(txs[n]), ByOutputIndex)| && j < |txs[n].outputs|
    requires SortBy(OutputRows(txs[n]), ByOutputIndex)[i] == OutputRows(txs[n])[j]
    ensures i < |r.outputs| && SameOutput(r.outputs[i], txs[n].outputs[j])
  {
    OutputRowsRead(db, txs, n);
    OutputAssetsRead(db, txs, n, j);
    var o := txs[n].outputs[j];
    SameOutputRead(o, SeqOfTx(txs[n]), InferredFailure(r.inputs), Filter(db.outputAssets, HasKey(AssetKey, (SeqOfTx(txs[n]), o.outputIndex))));
    hide Holds, SortBy, Filter, Amounts, SameOutput, DistinctPositions, DistinctOutputs, ReadMint, InferredFailure;
  }

  lemma SameOutputRead(o: Output, txSeq: nat, failed: bool, assets: seq<AssetRow>)
    requires SameAmounts(Amounts(assets), o.amount)
    ensures SameOutput(ReadOutput(OutputRowOf(txSeq, o), assets, failed), o)
  {
    hide Amounts, SameAmounts;
  }

  // ---------------------------------------------------------------- phase-2 failures

  /** What the ledger's rules say of a transaction of known validity: what it consumes is not empty. */
  ghost predicate Obeys(t: Tx) {
    && t.spendsCollaterals.Some?
    && (exists i :: i in t.inputs && IsConsumed(t, i))
    && (forall i :: i in t.inputs ==> !(i.isCollateral && i.isReference))
  }

  ghost predicate IsLedgerView(t: Tx) {
    LedgerView.View(t) == t && Obeys(t)
  }

  /** Read back as failed exactly with collateral among the inputs and nothing but references beside it. */
  lemma FailureNeedsCollateral(inputs: seq<Input>)
    ensures (forall i :: i in inputs ==> !i.isCollateral) ==> !InferredFailure(inputs)
    ensures (exists i :: i in inputs && !(i.isCollateral || i.isReference)) ==> !InferredFailure(inputs)
    ensures (exists i :: i in inputs && i.isCollateral) && (forall i :: i in inputs ==> i.isCollateral || i.isReference) ==> InferredFailure(inputs)
  {
  }

  /** In a view of a failed transaction every input is collateral or reference; outputs carry the flag. */
  lemma ViewFlags(t: Tx)
    requires IsLedgerView(t)
    ensures Failed(t) ==> forall i :: i in t.inputs ==> i.isCollateral || i.isReference
    ensures forall o :: o in t.outputs ==> o.isCollateral == Failed(t)
  {
    assert t.inputs == LedgerView.View(t).inputs && t.outputs == LedgerView.View(t).outputs;
    hide SortBy;
  }

  /** The flags of the stored inputs tell a failure from a success. */
  lemma FailureInferred(t: Tx)
    requires IsLedgerView(t)
    ensures InferredFailure(t.inputs) == Failed(t)
  {
    ViewFlags(t);
    hide LedgerView.View;
  }

  /** The inferred flag needs only the input flags. */
  lemma InferredFromFlags(read: seq<Input>, written: seq<Input>)
    requires |read| == |written|
    requires forall i :: 0 <= i < |read| ==> read[i].isCollateral == written[i].isCollateral && read[i].isReference == written[i].isReference
    ensures InferredFailure(read) == InferredFailure(written)
  {
    forall i | 0 <= i < |read|
      ensures read[i] in read && written[i] in written
    {
    }
  }

  /** A stored ledger view reads back with its own failure flag, and consumes and creates the same. */
  lemma FailureFlagRoundTrip(db: Db, txs: seq<Tx>, n: nat, r: Tx)
    requires Holds(db, txs) && DistinctPositions(txs) && n < |txs| && IsRead(db, RowOf(txs[n]), r)
    requires IsLedgerView(txs[n]) && DistinctOutputs(txs[n])
    ensures r.spendsCollaterals == txs[n].spendsCollaterals
    ensures |r.inputs| == |txs[n].inputs| && forall i :: 0 <= i < |r.inputs| ==> IsConsumed(r, r.inputs[i]) == IsConsumed(txs[n], txs[n].inputs[i])
    ensures ProducedOutputs(r) == r.outputs && ProducedOutputs(txs[n]) == txs[n].outputs
  {
    InputsRoundTrip(db, txs, n, r);
    InferredFromFlags(r.inputs, txs[n].inputs);
    FailureInferred(txs[n]);
    ViewFlags(txs[n]);
    ReadFlags(db, RowOf(txs[n]), r);
    hide Holds, DistinctPositions, SortBy, Filter, LedgerView.View, SameAmounts, IsRead, InferredFailure;
    KeepAll(r.outputs, o => IsProduced(r, o));
    KeepAll(txs[n].outputs, o => IsProduced(txs[n], o));
  }

  lemma ReadFlags(db: Db, row: TxRow, r: Tx)
    requires IsRead(db, row, r)
    ensures r.spendsCollaterals == Some(InferredFailure(r.inputs))
    ensures forall o :: o in r.outputs ==> o.isCollateral == InferredFailure(r.inputs)
  {
    hide SortBy, Filter, InferredFailure;
  }

  // ---------------------------------------------------------------- the spender of an output

  function SpendsIt(o: OutPoint): InputRow -> bool {
    (r: InputRow) => r.spent == o && !r.isReference
  }

  predicate IsRegular(r: InputRow) {
    !r.isCollateral && !r.isReference
  }

  function RegularOf(txSeq: nat): InputRow -> bool {
    (r: InputRow) => r.txSeq == txSeq && IsRegular(r)
  }

  ghost predicate Consumes(t: Tx, o: OutPoint) {
    exists i :: i in t.inputs && IsConsumed(t, i) && i.source == o
  }

  /** What the rows say of the spender: a regular input, or collateral of a transaction without regular inputs. */
  ghost predicate RowConsumes(db: Db, r: InputRow, o: OutPoint) {
    r in db.inputs && SpendsIt(o)(r) && (r.isCollateral ==> Filter(db.inputs, RegularOf(r.txSeq)) == [])
  }

  /** Some row that consumes the output, when there is one. */
  ghost predicate FoundConsumer(db: Db, o: OutPoint, txSeq: Option<nat>) {
    if txSeq.Some? then exists r :: RowConsumes(db, r, o) && r.txSeq == txSeq.value
    else forall r :: !RowConsumes(db, r, o)
  }

  method ConsumingTx(db: Db, o: OutPoint) returns (txSeq: Option<nat>)
    ensures FoundConsumer(db, o, txSeq)
  {
    var inputs := Filter(db.inputs, SpendsIt(o));
    for i := 0 to |inputs|
      invariant forall j :: 0 <= j < i ==> inputs[j].isCollateral
    {
      if !inputs[i].isCollateral {
        assert inputs[i] in inputs;
        assert RowConsumes(db, inputs[i], o);
        return Some(inputs[i].txSeq);
      }
    }
    for i := 0 to |inputs|
      invariant forall j :: 0 <= j < i ==> !RowConsumes(db, inputs[j], o)
    {
      var spendsRegular := Filter(db.inputs, RegularOf(inputs[i].txSeq)) != [];
      if !spendsRegular {
        assert inputs[i] in inputs;
        return Some(inputs[i].txSeq);
      }
    }
    txSeq := None;
    forall r
      ensures !RowConsumes(db, r, o)
    {
      if r in inputs {
        var j :| 0 <= j < |inputs| && inputs[j] == r;
      }
    }
  }

  /** Every input row belongs to one input of one stored transaction. */
  lemma {:induction false} GatheredRow(txs: seq<Tx>, r: InputRow) returns (n: nat, i: nat)
    requires r in Gather(txs, InputRows)
    ensures n < |txs| && i < |txs[n].inputs| && r == InputRowOf(SeqOfTx(txs[n]), i, txs[n].inputs[i])
  {
    var last := |txs| - 1;
    if r in InputRows(txs[last]) {
      n := last;
      i :| 0 <= i < |txs[n].inputs| && InputRows(txs[n])[i] == r;
    } else {
      n, i := GatheredRow(txs[..last], r);
    }
  }

  /** A stored input without an address is one that came without; no blank address is stored. */
  lemma NoBlankAddress(db: Db, txs: seq<Tx>, r: InputRow)
    requires Holds(db, txs) && r in db.inputs
    ensures r.address != Some("")
    ensures exists n, i :: 0 <= n < |txs| && 0 <= i < |txs[n].inputs| && r.txSeq == SeqOfTx(txs[n]) && r.inputIndex == i
                           && (r.address.None? <==> txs[n].inputs[i].address == "")
  {
    InMultiset(db.inputs, Gather(txs, InputRows));
    var n, i := GatheredRow(txs, r);
    assert r == InputRowOf(SeqOfTx(txs[n]), i, txs[n].inputs[i]);
  }

  /** The regular rows stored under a transaction's key are those of its regular inputs. */
  lemma RegularRows(db: Db, txs: seq<Tx>, n: nat)
    requires Holds(db, txs) && DistinctPositions(txs) && n < |txs|
    ensures Filter(db.inputs, RegularOf(SeqOfTx(txs[n]))) == [] <==> forall x :: x in txs[n].inputs ==> x.isCollateral || x.isReference
  {
    var t := txs[n];
    var own := Filter(db.inputs, HasKey(InputTx, SeqOfTx(t)));
    RowsKeyed();
    OwnRows(txs, InputRows, InputTx, n);
    LedgerView.FilterPermutes(db.inputs, Gather(txs, InputRows), HasKey(InputTx, SeqOfTx(t)));
    InMultiset(own, InputRows(t));
    RegularAmong(t, Filter(db.inputs, RegularOf(SeqOfTx(t))), own);
  }

  lemma RegularAmong(t: Tx, regular: seq<InputRow>, own: seq<InputRow>)
    requires forall r :: r in own <==> r in InputRows(t)
    requires forall r :: r in regular <==> r in own && IsRegular(r)
    ensures regular == [] <==> forall x :: x in t.inputs ==> x.isCollateral || x.isReference
  {
    if regular != [] {
      assert regular[0] in regular;
      var i :| 0 <= i < |t.inputs| && InputRows(t)[i] == regular[0];
      assert t.inputs[i] in t.inputs;
    } else {
      forall x | x in t.inputs
        ensures x.isCollateral || x.isReference
      {
        var i :| 0 <= i < |t.inputs| && t.inputs[i] == x;
        assert InputRows(t)[i] in InputRows(t);
      }
    }
  }

  /** A stored row consumes its outpoint exactly when the ledger says its transaction did. */
  lemma RowConsumesIff(db: Db, txs: seq<Tx>, n: nat, i: nat)
    requires Holds(db, txs) && DistinctPositions(txs) && n < |txs| && i < |txs[n].inputs| && IsLedgerView(txs[n])
    requires InputRowOf(SeqOfTx(txs[n]), i, txs[n].inputs[i]) in db.inputs
    ensures RowConsumes(db, InputRowOf(SeqOfTx(txs[n]), i, txs[n].inputs[i]), txs[n].inputs[i].source)
            <==> IsConsumed(txs[n], txs[n].inputs[i])
  {
    RegularRows(db, txs, n);
    ViewFlags(txs[n]);
    assert txs[n].inputs[i] in txs[n].inputs;
    hide LedgerView.View, Filter, Holds, DistinctPositions;
  }

  lemma InputStored(db: Db, txs: seq<Tx>, n: nat, i: nat)
    requires Holds(db, txs) && DistinctPositions(txs) && n < |txs| && i < |txs[n].inputs|
    ensures InputRowOf(SeqOfTx(txs[n]), i, txs[n].inputs[i]) in db.inputs
  {
    RowsKeyed();
    OwnRows(txs, InputRows, InputTx, n);
    InMultiset(db.inputs, Gather(txs, InputRows));
    assert InputRows(txs[n])[i] in InputRows(txs[n]);
  }

  /** The spender read off the stored rows is a transaction that consumed the output; none is found only if none did. */
  lemma ConsumerFound(db: Db, txs: seq<Tx>, o: OutPoint, txSeq: Option<nat>)
    requires Holds(db, txs) && DistinctPositions(txs) && forall t :: t in txs ==> IsLedgerView(t)
    requires FoundConsumer(db, o, txSeq)
    ensures txSeq.Some? ==> exists n :: 0 <= n < |txs| && SeqOfTx(txs[n]) == txSeq.value && Consumes(txs[n], o)
    ensures txSeq.None? ==> forall n :: 0 <= n < |txs| ==> !Consumes(txs[n], o)
  {
    hide Filter, DistinctPositions, LedgerView.View, IsLedgerView;
    if txSeq.Some? {
      var r :| RowConsumes(db, r, o) && r.txSeq == txSeq.value;
      InMultiset(db.inputs, Gather(txs, InputRows));
      var n, i := GatheredRow(txs, r);
      RowConsumesIff(db, txs, n, i);
      assert txs[n].inputs[i] in txs[n].inputs && Consumes(txs[n], o);
    } else {
      forall n | 0 <= n < |txs|
        ensures !Consumes(txs[n], o)
      {
        forall x | x in txs[n].inputs && x.source == o
          ensures !IsConsumed(txs[n], x)
        {
          var i :| 0 <= i < |txs[n].inputs| && txs[n].inputs[i] == x;
          InputStored(db, txs, n, i);
          RowConsumesIff(db, txs, n, i);
        }
      }
    }
  }
}
