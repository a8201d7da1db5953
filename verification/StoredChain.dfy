/** Transactions as table rows: written position by position, read back by grouping the rows of each transaction. */
module StoredChain {
  import opened Options
  import opened Chain
  import opened LedgerOrder
  import LedgerRules
  import LedgerView

  const TX_SEQ_SLOT_FACTOR := 65536
  const IN_CHUNK := 500

  function TxSeqOf(slot: nat, index: nat): nat {
    slot * TX_SEQ_SLOT_FACTOR + index
  }

  function SeqOfTx(t: Tx): nat {
    TxSeqOf(t.slot, t.index)
  }

  datatype TxRow = TxRow(hash: Hash, txSeq: nat, slot: nat, index: nat)

  datatype InputRow = InputRow(txSeq: nat, inputIndex: nat, address: Option<Address>, data: UtxoData, spent: OutPoint,
                               isCollateral: bool, isReference: bool)

  datatype OutputRow = OutputRow(txSeq: nat, outputIndex: nat, address: Address, data: UtxoData)

  /** An asset of the input or output at a position of a transaction. */
  datatype AssetRow = AssetRow(txSeq: nat, position: nat, unit: Unit, quantity: nat)

  /** A mint or burn of a unit by a transaction. */
  datatype MintRow = MintRow(txHash: Hash, unit: Unit, burned: bool, quantity: nat)

  /** The tables in whatever order the database returns them. */
  datatype Db = Db(inputs: seq<InputRow>, inputAssets: seq<AssetRow>, outputs: seq<OutputRow>, outputAssets: seq<AssetRow>,
                   mints: seq<MintRow>)

  // ---------------------------------------------------------------- writing

  /** An unresolved input has no address; blank datum and script columns become null. */
  function InputRowOf(txSeq: nat, position: nat, i: Input): InputRow {
    InputRow(txSeq, position, if i.address == "" then None else Some(i.address), LedgerRules.Normal(i.data), i.source,
             i.isCollateral, i.isReference)
  }

  function OutputRowOf(txSeq: nat, o: Output): OutputRow {
    OutputRow(txSeq, o.outputIndex, o.address, LedgerRules.Normal(o.data))
  }

  function AssetRowsOf(txSeq: nat, position: nat, amount: seq<Amount>): (r: seq<AssetRow>)
    ensures |r| == |amount|
    ensures forall i :: 0 <= i < |r| ==> r[i] == AssetRow(txSeq, position, amount[i].unit, amount[i].quantity)
  {
    seq(|amount|, i requires 0 <= i < |amount| => AssetRow(txSeq, position, amount[i].unit, amount[i].quantity))
  }

  function RowOf(t: Tx): TxRow {
    TxRow(t.hash, SeqOfTx(t), t.slot, t.index)
  }

  function InputRows(t: Tx): (r: seq<InputRow>)
    ensures |r| == |t.inputs| && forall i :: 0 <= i < |r| ==> r[i] == InputRowOf(SeqOfTx(t), i, t.inputs[i])
  {
    seq(|t.inputs|, i requires 0 <= i < |t.inputs| => InputRowOf(SeqOfTx(t), i, t.inputs[i]))
  }

  function OutputRows(t: Tx): (r: seq<OutputRow>)
    ensures |r| == |t.outputs| && forall i :: 0 <= i < |r| ==> r[i] == OutputRowOf(SeqOfTx(t), t.outputs[i])
  {
    seq(|t.outputs|, i requires 0 <= i < |t.outputs| => OutputRowOf(SeqOfTx(t), t.outputs[i]))
  }

  /** Assets of the first `n` inputs, keyed by position. */
  function InputAssetRows(t: Tx, n: nat): seq<AssetRow>
    requires n <= |t.inputs|
  {
    if n == 0 then [] else InputAssetRows(t, n - 1) + AssetRowsOf(SeqOfTx(t), n - 1, t.inputs[n - 1].amount)
  }

  /** Assets of the first `n` outputs, keyed by output index. */
  function OutputAssetRows(t: Tx, n: nat): seq<AssetRow>
    requires n <= |t.outputs|
  {
    if n == 0 then [] else OutputAssetRows(t, n - 1) + AssetRowsOf(SeqOfTx(t), t.outputs[n - 1].outputIndex, t.outputs[n - 1].amount)
  }

  function Gather<R>(txs: seq<Tx>, rows: Tx -> seq<R>): seq<R> {
    if txs == [] then [] else Gather(txs[..|txs| - 1], rows) + rows(txs[|txs| - 1])
  }

  /** The tables hold the rows of exactly these transactions, in any order. */
  ghost predicate Holds(db: Db, txs: seq<Tx>) {
    && multiset(db.inputs) == multiset(Gather(txs, InputRows))
    && multiset(db.outputs) == multiset(Gather(txs, OutputRows))
    && multiset(db.inputAssets) == multiset(Gather(txs, AllInputAssets))
    && multiset(db.outputAssets) == multiset(Gather(txs, AllOutputAssets))
  }

  function AllInputAssets(t: Tx): seq<AssetRow> {
    InputAssetRows(t, |t.inputs|)
  }

  function AllOutputAssets(t: Tx): seq<AssetRow> {
    OutputAssetRows(t, |t.outputs|)
  }

  // ---------------------------------------------------------------- reading

  function HasKey<R, K(==)>(key: R -> K, k: K): R -> bool {
    r => key(r) == k
  }

  function HasKeyIn<R, K(==)>(key: R -> K, ks: seq<K>): R -> bool {
    r => key(r) in ks
  }

  function InputTx(r: InputRow): nat {
    r.txSeq
  }

  function OutputTx(r: OutputRow): nat {
    r.txSeq
  }

  function AssetTx(r: AssetRow): nat {
    r.txSeq
  }

  function MintTx(r: MintRow): Hash {
    r.txHash
  }

  function AssetKey(r: AssetRow): (nat, nat) {
    (r.txSeq, r.position)
  }

  function ByInputIndex(a: InputRow, b: InputRow): int {
    a.inputIndex - b.inputIndex
  }

  function ByOutputIndex(a: OutputRow, b: OutputRow): int {
    a.outputIndex - b.outputIndex
  }

  function IsCoin(a: Amount): bool {
    a.unit == LOVELACE
  }

  function IsToken(a: Amount): bool {
    a.unit != LOVELACE
  }

  function Listed(assets: seq<AssetRow>): (r: seq<Amount>)
    ensures |r| == |assets| && forall i :: 0 <= i < |r| ==> r[i] == Amount(assets[i].unit, assets[i].quantity)
  {
    seq(|assets|, i requires 0 <= i < |assets| => Amount(assets[i].unit, assets[i].quantity))
  }

  /** Lovelace first, as the providers deliver it. */
  function Amounts(assets: seq<AssetRow>): seq<Amount> {
    Filter(Listed(assets), IsCoin) + Filter(Listed(assets), IsToken)
  }

  function ReadInput(r: InputRow, assets: seq<AssetRow>): Input {
    Input(r.spent, if r.address.Some? then r.address.value else "", Amounts(assets), r.data, r.isCollateral, r.isReference)
  }

  function ReadOutput(r: OutputRow, assets: seq<AssetRow>, failed: bool): Output {
    Output(r.outputIndex, r.address, Amounts(assets), r.data, failed)
  }

  function Get<K, R>(groups: map<K, seq<R>>, k: K): seq<R> {
    if k in groups then groups[k] else []
  }

  function ReadInputs(rows: seq<InputRow>, txSeq: nat, assets: map<(nat, nat), seq<AssetRow>>): (r: seq<Input>)
    ensures |r| == |rows|
    ensures forall i :: 0 <= i < |r| ==> r[i] == ReadInput(rows[i], Get(assets, (txSeq, rows[i].inputIndex)))
  {
    seq(|rows|, i requires 0 <= i < |rows| => ReadInput(rows[i], Get(assets, (txSeq, rows[i].inputIndex))))
  }

  function ReadOutputs(rows: seq<OutputRow>, txSeq: nat, assets: map<(nat, nat), seq<AssetRow>>, failed: bool): (r: seq<Output>)
    ensures |r| == |rows|
    ensures forall i :: 0 <= i < |r| ==> r[i] == ReadOutput(rows[i], Get(assets, (txSeq, rows[i].outputIndex)), failed)
  {
    seq(|rows|, i requires 0 <= i < |rows| => ReadOutput(rows[i], Get(assets, (txSeq, rows[i].outputIndex)), failed))
  }

  /** The signed quantities of the rows; a transaction without rows has no mint field. */
  function ReadMint(rows: seq<MintRow>): Option<seq<Mint>> {
    if rows == [] then None
    else Some(seq(|rows|, i requires 0 <= i < |rows| => Mint(rows[i].unit, if rows[i].burned then -(rows[i].quantity as int) else rows[i].quantity)))
  }

  /** A failed transaction keeps only collateral and reference inputs; a valid one spends a regular input. */
  predicate InferredFailure(inputs: seq<Input>) {
    (exists i :: i in inputs && i.isCollateral) && !(exists i :: i in inputs && !i.isCollateral && !i.isReference)
  }

  /** One transaction read back: every row of it and no row of another. */
  ghost predicate IsRead(db: Db, row: TxRow, t: Tx) {
    var inputs := SortBy(Filter(db.inputs, HasKey(InputTx, row.txSeq)), ByInputIndex);
    var outputs := SortBy(Filter(db.outputs, HasKey(OutputTx, row.txSeq)), ByOutputIndex);
    && t.hash == row.hash && t.slot == row.slot && t.index == row.index
    && t.spendsCollaterals == Some(InferredFailure(t.inputs))
    && t.mint == ReadMint(Filter(db.mints, HasKey(MintTx, row.hash)))
    && |t.inputs| == |inputs|
    && (forall i :: 0 <= i < |inputs| ==>
          t.inputs[i] == ReadInput(inputs[i], Filter(db.inputAssets, HasKey(AssetKey, (row.txSeq, inputs[i].inputIndex)))))
    && |t.outputs| == |outputs|
    && (forall i :: 0 <= i < |outputs| ==>
          t.outputs[i] == ReadOutput(outputs[i], Filter(db.outputAssets, HasKey(AssetKey, (row.txSeq, outputs[i].outputIndex))),
                                     InferredFailure(t.inputs)))
  }

  // ---------------------------------------------------------------- the loops

  /** The rows grouped by key, each group in the order of the rows. */
  method GroupBy<R(!new), K(==, !new)>(rows: seq<R>, key: R -> K) returns (groups: map<K, seq<R>>)
    ensures forall k :: Get(groups, k) == Filter(rows, HasKey(key, k))
  {
    groups := map[];
    for i := 0 to |rows|
      invariant forall k :: Get(groups, k) == Filter(rows[..i], HasKey(key, k))
    {
      var r := rows[i];
      var k := key(r);
      ghost var before := groups;
      if k in groups {
        groups := groups[k := groups[k] + [r]];
      } else {
        groups := groups[k := [r]];
      }
      assert rows[..i + 1] == rows[..i] + [r];
      forall x
        ensures Get(groups, x) == Filter(rows[..i + 1], HasKey(key, x))
      {
        FilterAppend(rows[..i], r, HasKey(key, x));
        assert Get(before, x) == Filter(rows[..i], HasKey(key, x));
      }
    }
    assert rows[..|rows|] == rows;
  }

  ghost predicate Fetched<R(!new), K(!new)>(out: seq<R>, table: seq<R>, key: R -> K, keys: seq<K>) {
    forall k :: Filter(out, HasKey(key, k)) == if k in keys then Filter(table, HasKey(key, k)) else []
  }

  /** Rows of the keys, fetched chunk by chunk: per key exactly the rows of the table. */
  method FetchIn<R(!new), K(==, !new)>(table: seq<R>, key: R -> K, keys: seq<K>) returns (out: seq<R>)
    requires forall i, j :: 0 <= i < j < |keys| ==> keys[i] != keys[j]
    ensures Fetched(out, table, key, keys)
  {
    out := [];
    var i := 0;
    FetchedNone(table, key);
    while i < |keys|
      invariant 0 <= i <= |keys|
      invariant Fetched(out, table, key, keys[..i])
      decreases |keys| - i
    {
      var j := if i + IN_CHUNK <= |keys| then i + IN_CHUNK else |keys|;
      var chunk := keys[i..j];
      assert keys[..j] == keys[..i] + chunk;
      FetchedMore(out, table, key, keys[..i], chunk);
      out := out + Filter(table, HasKeyIn(key, chunk));
      i := j;
    }
    assert keys[..i] == keys;
  }

  lemma FetchedNone<R(!new), K(!new)>(table: seq<R>, key: R -> K)
    ensures Fetched([], table, key, [])
  {
  }

  lemma FetchedMore<R(!new), K(!new)>(out: seq<R>, table: seq<R>, key: R -> K, done: seq<K>, chunk: seq<K>)
    requires Fetched(out, table, key, done) && forall k :: k in chunk ==> k !in done
    ensures Fetched(out + Filter(table, HasKeyIn(key, chunk)), table, key, done + chunk)
  {
    var more := Filter(table, HasKeyIn(key, chunk));
    forall k
      ensures Filter(out + more, HasKey(key, k)) == if k in done + chunk then Filter(table, HasKey(key, k)) else []
    {
      FilterConcat(out, more, HasKey(key, k));
      if k in chunk {
        LedgerView.FilterStronger(table, HasKey(key, k), HasKeyIn(key, chunk));
      } else {
        NoneLeft(more, HasKey(key, k));
      }
    }
  }

  function Seqs(rows: seq<TxRow>): (r: seq<nat>)
    ensures |r| == |rows| && forall i :: 0 <= i < |r| ==> r[i] == rows[i].txSeq
  {
    seq(|rows|, i requires 0 <= i < |rows| => rows[i].txSeq)
  }

  /** The fetched rows of a key are the table's, also for a key that refines the fetched one. */
  lemma FetchedKey<R(!new)>(out: seq<R>, table: seq<R>, key: R -> nat, keys: seq<nat>, k: nat, finer: R -> bool)
    requires Fetched(out, table, key, keys) && k in keys
    requires forall r :: finer(r) ==> key(r) == k
    ensures Filter(out, finer) == Filter(table, finer)
  {
    assert Filter(out, HasKey(key, k)) == Filter(table, HasKey(key, k));
    LedgerView.FilterStronger(out, finer, HasKey(key, k));
    LedgerView.FilterStronger(table, finer, HasKey(key, k));
  }

  /** The rows of the transactions, grouped by transaction or by the input or output they belong to. */
  method ReadGroups(db: Db, seqs: seq<nat>)
      returns (inputs: map<nat, seq<InputRow>>, outputs: map<nat, seq<OutputRow>>,
               inputAssets: map<(nat, nat), seq<AssetRow>>, outputAssets: map<(nat, nat), seq<AssetRow>>)
    requires forall i, j :: 0 <= i < j < |seqs| ==> seqs[i] != seqs[j]
    ensures forall s :: s in seqs ==> Get(inputs, s) == Filter(db.inputs, HasKey(InputTx, s))
    ensures forall s :: s in seqs ==> Get(outputs, s) == Filter(db.outputs, HasKey(OutputTx, s))
    ensures forall s :: s in seqs ==> Grouped(inputAssets, db.inputAssets, s) && Grouped(outputAssets, db.outputAssets, s)
  {
    hide Fetched, Filter, Grouped, Get;
    var inputRows := FetchIn(db.inputs, InputTx, seqs);
    var inputAssetRows := FetchIn(db.inputAssets, AssetTx, seqs);
    var outputRows := FetchIn(db.outputs, OutputTx, seqs);
    var outputAssetRows := FetchIn(db.outputAssets, AssetTx, seqs);
    inputs := GroupBy(inputRows, InputTx);
    inputAssets := GroupBy(inputAssetRows, AssetKey);
    outputs := GroupBy(outputRows, OutputTx);
    outputAssets := GroupBy(outputAssetRows, AssetKey);
    forall s | s in seqs
      ensures Get(inputs, s) == Filter(db.inputs, HasKey(InputTx, s)) && Get(outputs, s) == Filter(db.outputs, HasKey(OutputTx, s))
      ensures Grouped(inputAssets, db.inputAssets, s) && Grouped(outputAssets, db.outputAssets, s)
    {
      FetchedGroup(inputRows, db.inputs, InputTx, seqs, s);
      FetchedGroup(outputRows, db.outputs, OutputTx, seqs, s);
      FetchedAssets(inputAssetRows, db.inputAssets, seqs, s, inputAssets);
      FetchedAssets(outputAssetRows, db.outputAssets, seqs, s, outputAssets);
    }
  }

  function Hashes(rows: seq<TxRow>): (r: seq<Hash>)
    ensures |r| == |rows| && forall i :: 0 <= i < |r| ==> r[i] == rows[i].hash
  {
    seq(|rows|, i requires 0 <= i < |rows| => rows[i].hash)
  }

  /** The mint and burn rows of the transactions by hash. */
  method ReadMints(db: Db, hashes: seq<Hash>) returns (minted: map<Hash, seq<MintRow>>)
    requires forall i, j :: 0 <= i < j < |hashes| ==> hashes[i] != hashes[j]
    ensures forall h :: h in hashes ==> Get(minted, h) == Filter(db.mints, HasKey(MintTx, h))
  {
    hide Filter, Get;
    var rows := FetchIn(db.mints, MintTx, hashes);
    minted := GroupBy(rows, MintTx);
  }

  method AssembleTransactions(db: Db, rows: seq<TxRow>) returns (txs: seq<Tx>)
    requires forall i, j :: 0 <= i < j < |rows| ==> rows[i].txSeq != rows[j].txSeq && rows[i].hash != rows[j].hash
    ensures |txs| == |rows| && forall i :: 0 <= i < |rows| ==> IsRead(db, rows[i], txs[i])
  {
    hide IsRead, Filter, Grouped, SortBy, InferredFailure, Get, ReadMint;
    var seqs := Seqs(rows);
    var minted := ReadMints(db, Hashes(rows));
    var inputsBySeq, outputsBySeq, inputAssetsByKey, outputAssetsByKey := ReadGroups(db, seqs);
    txs := [];
    for i := 0 to |rows|
      invariant |txs| == i
      invariant forall j :: 0 <= j < i ==> IsRead(db, rows[j], txs[j])
    {
      var row := rows[i];
      assert seqs[i] == row.txSeq;
      var inputs, outputs := Get(inputsBySeq, row.txSeq), Get(outputsBySeq, row.txSeq);
      var txInputs := ReadInputs(SortBy(inputs, ByInputIndex), row.txSeq, inputAssetsByKey);
      var spendsCollaterals := InferredFailure(txInputs);
      var txOutputs := ReadOutputs(SortBy(outputs, ByOutputIndex), row.txSeq, outputAssetsByKey, spendsCollaterals);
      assert Hashes(rows)[i] == row.hash;
      var t := Tx(row.hash, row.slot, row.index, Some(spendsCollaterals), ReadMint(Get(minted, row.hash)), txInputs, txOutputs);
      AssembledIsRead(db, row, inputs, outputs, inputAssetsByKey, outputAssetsByKey, t);
      txs := txs + [t];
    }
  }

  lemma FetchedGroup<R(!new)>(out: seq<R>, table: seq<R>, key: R -> nat, seqs: seq<nat>, txSeq: nat)
    requires Fetched(out, table, key, seqs) && txSeq in seqs
    ensures Filter(out, HasKey(key, txSeq)) == Filter(table, HasKey(key, txSeq))
  {
  }

  ghost predicate Grouped(groups: map<(nat, nat), seq<AssetRow>>, table: seq<AssetRow>, txSeq: nat) {
    forall position :: Get(groups, (txSeq, position)) == Filter(table, HasKey(AssetKey, (txSeq, position)))
  }

  lemma FetchedAssets(out: seq<AssetRow>, table: seq<AssetRow>, seqs: seq<nat>, txSeq: nat, groups: map<(nat, nat), seq<AssetRow>>)
    requires Fetched(out, table, AssetTx, seqs) && txSeq in seqs
    requires forall k :: Get(groups, k) == Filter(out, HasKey(AssetKey, k))
    ensures Grouped(groups, table, txSeq)
  {
    forall position: nat
      ensures Get(groups, (txSeq, position)) == Filter(table, HasKey(AssetKey, (txSeq, position)))
    {
      FetchedKey(out, table, AssetTx, seqs, txSeq, HasKey(AssetKey, (txSeq, position)));
    }
  }

  lemma AssembledIsRead(db: Db, row: TxRow, inputs: seq<InputRow>, outputs: seq<OutputRow>,
                        inputAssetsByKey: map<(nat, nat), seq<AssetRow>>, outputAssetsByKey: map<(nat, nat), seq<AssetRow>>, t: Tx)
    requires inputs == Filter(db.inputs, HasKey(InputTx, row.txSeq)) && outputs == Filter(db.outputs, HasKey(OutputTx, row.txSeq))
    requires Grouped(inputAssetsByKey, db.inputAssets, row.txSeq) && Grouped(outputAssetsByKey, db.outputAssets, row.txSeq)
    requires t.hash == row.hash && t.slot == row.slot && t.index == row.index
    requires t.mint == ReadMint(Filter(db.mints, HasKey(MintTx, row.hash)))
    requires t.inputs == ReadInputs(SortBy(inputs, ByInputIndex), row.txSeq, inputAssetsByKey)
    requires t.spendsCollaterals == Some(InferredFailure(t.inputs))
    requires t.outputs == ReadOutputs(SortBy(outputs, ByOutputIndex), row.txSeq, outputAssetsByKey, InferredFailure(t.inputs))
    ensures IsRead(db, row, t)
  {
    hide Filter, SortBy, InferredFailure, ReadInput, ReadOutput, Get;
  }
}
