/** Input resolution from the stored chain: a bare input comes back as the output some stored transaction wrote. */
module StoredInputs {
  import opened Options
  import opened Chain
  import opened LedgerOrder
  import opened ResolveInputs
  import opened StoredChain
  import opened StoredChainProofs
  import LedgerView
  import LedgerRules

  /** The tables by key, as resolution reads them: the keys of the transactions, their outputs, their output assets. */
  ghost predicate ReadsFrom(stored: StoredTables, db: Db, txs: seq<Tx>) {
    && (forall h :: h in stored.txSeqs ==> exists n :: 0 <= n < |txs| && txs[n].hash == h)
    && (forall n :: 0 <= n < |txs| ==> txs[n].hash in stored.txSeqs && stored.txSeqs[txs[n].hash] == Some(SeqOfTx(txs[n])))
    && (forall k :: k in stored.outputs ==> exists r :: r in db.outputs && (r.txSeq, r.outputIndex) == k)
    && (forall r :: r in db.outputs ==>
          (r.txSeq, r.outputIndex) in stored.outputs && stored.outputs[(r.txSeq, r.outputIndex)] == StoredOutput(Some(r.address), r.data))
    && (forall k :: k in stored.amounts <==> Filter(db.outputAssets, HasKey(AssetKey, k)) != [])
    && (forall k :: k in stored.amounts ==> stored.amounts[k] == Listed(Filter(db.outputAssets, HasKey(AssetKey, k))))
  }

  /** The outpoint names output `j` of stored transaction `n`. */
  predicate IsStoredAt(txs: seq<Tx>, k: OutPoint, n: int, j: int) {
    0 <= n < |txs| && 0 <= j < |txs[n].outputs| && k == OutPoint(txs[n].hash, txs[n].outputs[j].outputIndex)
  }

  /** What resolution asks of the stored keys holds of a stored chain. */
  lemma StoredKeysInjective(stored: StoredTables, db: Db, txs: seq<Tx>)
    requires ReadsFrom(stored, db, txs) && DistinctPositions(txs)
    ensures KeysInjective(stored)
  {
    forall h, x | h in stored.txSeqs && x in stored.txSeqs && stored.txSeqs[h].Some? && stored.txSeqs[h] == stored.txSeqs[x]
      ensures h == x
    {
      var n :| 0 <= n < |txs| && txs[n].hash == h;
      var m :| 0 <= m < |txs| && txs[m].hash == x;
      if n < m {
        OtherKey(txs, n, m);
      } else if m < n {
        OtherKey(txs, m, n);
      }
    }
  }

  // ---------------------------------------------------------------- the rows of an outpoint

  lemma OutputStored(db: Db, txs: seq<Tx>, n: nat, j: nat)
    requires Holds(db, txs) && DistinctPositions(txs) && n < |txs| && j < |txs[n].outputs|
    ensures OutputRowOf(SeqOfTx(txs[n]), txs[n].outputs[j]) in db.outputs
  {
    RowsKeyed();
    OwnRows(txs, OutputRows, OutputTx, n);
    InMultiset(db.outputs, Gather(txs, OutputRows));
    assert OutputRows(txs[n])[j] in OutputRows(txs[n]);
  }

  /** A stored output row under a transaction's key is a row of one of its outputs. */
  lemma OutputRowKnown(db: Db, txs: seq<Tx>, n: nat, r: OutputRow)
    requires Holds(db, txs) && DistinctPositions(txs) && n < |txs| && r in db.outputs && r.txSeq == SeqOfTx(txs[n])
    ensures exists j :: 0 <= j < |txs[n].outputs| && txs[n].outputs[j].outputIndex == r.outputIndex
  {
    RowsKeyed();
    OwnRows(txs, OutputRows, OutputTx, n);
    InMultiset(db.outputs, Gather(txs, OutputRows));
    assert r in Filter(Gather(txs, OutputRows), HasKey(OutputTx, SeqOfTx(txs[n])));
    var j :| 0 <= j < |txs[n].outputs| && OutputRows(txs[n])[j] == r;
  }

  /** The asset rows under a transaction's key and a position it has no output at: none. */
  lemma NoAssetRows(db: Db, txs: seq<Tx>, n: nat, index: nat)
    requires Holds(db, txs) && DistinctPositions(txs) && n < |txs|
    requires forall j :: 0 <= j < |txs[n].outputs| ==> txs[n].outputs[j].outputIndex != index
    ensures Filter(db.outputAssets, HasKey(AssetKey, (SeqOfTx(txs[n]), index))) == []
  {
    var t, keep := txs[n], HasKey(AssetKey, (SeqOfTx(txs[n]), index));
    OutputAssetsOwn(txs, n, index);
    OutputAssetsKeyed(t, |t.outputs|);
    NoAssetsAt(AllOutputAssets(t), SeqOfTx(t), index);
    LedgerView.FilterPermutes(db.outputAssets, Gather(txs, AllOutputAssets), keep);
  }

  lemma OutputAssetsOwn(txs: seq<Tx>, n: nat, index: nat)
    requires DistinctPositions(txs) && n < |txs|
    ensures Filter(Gather(txs, AllOutputAssets), HasKey(AssetKey, (SeqOfTx(txs[n]), index)))
            == Filter(AllOutputAssets(txs[n]), HasKey(AssetKey, (SeqOfTx(txs[n]), index)))
  {
    forall x, r | r in AllOutputAssets(x)
      ensures AssetTx(r) == SeqOfTx(x)
    {
      OutputAssetsKeyed(x, |x.outputs|);
    }
    OwnRows(txs, AllOutputAssets, AssetTx, n);
    LedgerView.FilterStronger(Gather(txs, AllOutputAssets), HasKey(AssetKey, (SeqOfTx(txs[n]), index)), HasKey(AssetTx, SeqOfTx(txs[n])));
  }

  /** The amounts found for a stored output are those it was written with, in some order. */
  lemma AmountsStored(db: Db, txs: seq<Tx>, n: nat, j: nat)
    requires Holds(db, txs) && DistinctPositions(txs) && n < |txs| && j < |txs[n].outputs| && DistinctOutputs(txs[n])
    ensures multiset(Listed(Filter(db.outputAssets, HasKey(AssetKey, (SeqOfTx(txs[n]), txs[n].outputs[j].outputIndex)))))
            == multiset(txs[n].outputs[j].amount)
  {
    var t, o := txs[n], txs[n].outputs[j];
    var keep := HasKey(AssetKey, (SeqOfTx(t), o.outputIndex));
    OutputAssetsOwn(txs, n, o.outputIndex);
    OutputAssetsAt(t, |t.outputs|, j);
    LedgerView.FilterPermutes(db.outputAssets, Gather(txs, AllOutputAssets), keep);
    ListedPermutes(Filter(db.outputAssets, keep), AssetRowsOf(SeqOfTx(t), o.outputIndex, o.amount));
    assert Listed(AssetRowsOf(SeqOfTx(t), o.outputIndex, o.amount)) == o.amount;
  }

  // ---------------------------------------------------------------- the theorems

  /** The resolved input is the stored output: its address, its amounts if it has any, its datum and script columns. */
  ghost predicate CarriesStored(r: Input, i: Input, o: Output) {
    && r.address == o.address
    && (if o.amount == [] then r.amount == i.amount else multiset(r.amount) == multiset(o.amount))
    && exists data :: SameData(data, o.data) && DataFilled(r.data, i.data, data)
  }

  /** An outpoint that neither the block nor the set answers is filled from the stored transaction that wrote it. */
  lemma StoredInputResolved(db: Db, txs: seq<Tx>, stored: StoredTables, n: nat, j: nat, i: Input,
                            local: map<OutPoint, Output>, ledger: LedgerLayer)
    requires Holds(db, txs) && DistinctPositions(txs) && ReadsFrom(stored, db, txs)
    requires IsStoredAt(txs, i.source, n, j) && DistinctOutputs(txs[n])
    requires i.address == "" && i.source !in local && i.source !in ledger.rows
    ensures CarriesStored(Resolve(i, local, ledger, stored), i, txs[n].outputs[j])
  {
    var o, k := txs[n].outputs[j], (SeqOfTx(txs[n]), txs[n].outputs[j].outputIndex);
    var row := OutputRowOf(SeqOfTx(txs[n]), o);
    OutputStored(db, txs, n, j);
    AmountsStored(db, txs, n, j);
    var listed := Listed(Filter(db.outputAssets, HasKey(AssetKey, k)));
    assert SeqKey(stored, i.source) == Some(k);
    assert stored.outputs[k] == StoredOutput(Some(o.address), row.data);
    assert k in stored.amounts <==> listed != [];
    hide Holds, DistinctPositions, DistinctOutputs, ReadsFrom, Filter, HasKey;
    FilledFrom(i, o, row.data, if k in stored.amounts then Some(stored.amounts[k]) else None);
  }

  lemma FilledFrom(i: Input, o: Output, data: UtxoData, amount: Option<seq<Amount>>)
    requires SameData(data, o.data) && (amount.Some? <==> o.amount != [])
    requires amount.Some? ==> multiset(amount.value) == multiset(o.amount)
    ensures CarriesStored(FromStored(i, Some(StoredOutput(Some(o.address), data)), amount), i, o)
  {
    var r := FromStored(i, Some(StoredOutput(Some(o.address), data)), amount);
    assert DataFilled(r.data, i.data, data);
  }

  /** An outpoint nobody knows leaves the input as it was. */
  lemma UnknownInputStays(db: Db, txs: seq<Tx>, stored: StoredTables, i: Input, local: map<OutPoint, Output>, ledger: LedgerLayer)
    requires Holds(db, txs) && DistinctPositions(txs) && ReadsFrom(stored, db, txs)
    requires forall n, j :: !IsStoredAt(txs, i.source, n, j)
    requires i.source !in local && i.source !in ledger.rows
    ensures Resolve(i, local, ledger, stored) == i
  {
    if i.source.txHash in stored.txSeqs {
      var n :| 0 <= n < |txs| && txs[n].hash == i.source.txHash;
      forall j | 0 <= j < |txs[n].outputs|
        ensures txs[n].outputs[j].outputIndex != i.source.outputIndex
      {
        assert !IsStoredAt(txs, i.source, n, j);
      }
      NothingStoredAt(db, txs, stored, n, i.source.outputIndex);
      assert SeqKey(stored, i.source) == Some((SeqOfTx(txs[n]), i.source.outputIndex));
    }
    hide Holds, DistinctPositions, ReadsFrom, IsStoredAt;
  }

  lemma NothingStoredAt(db: Db, txs: seq<Tx>, stored: StoredTables, n: nat, index: nat)
    requires Holds(db, txs) && DistinctPositions(txs) && ReadsFrom(stored, db, txs) && n < |txs|
    requires forall j :: 0 <= j < |txs[n].outputs| ==> txs[n].outputs[j].outputIndex != index
    ensures (SeqOfTx(txs[n]), index) !in stored.outputs && (SeqOfTx(txs[n]), index) !in stored.amounts
  {
    var k := (SeqOfTx(txs[n]), index);
    NoAssetRows(db, txs, n, index);
    if k in stored.outputs {
      var r :| r in db.outputs && (r.txSeq, r.outputIndex) == k;
      OutputRowKnown(db, txs, n, r);
    }
  }
}
