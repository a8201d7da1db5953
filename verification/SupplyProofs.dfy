/** Conservation of every asset between the UTxO set and the mint and burn history. */
module SupplyProofs {
  import opened Options
  import opened Chain
  import opened Sums
  import opened LedgerRules
  import opened LedgerApplyProofs
  import opened LedgerSteps
  import opened LedgerRollbackProofs
  import opened Supply

  // ---------------------------------------------------------------- what the chain guarantees

  /** The ledger's preservation rule for native assets; CIP-40 returns all of them when phase 2 fails. */
  ghost predicate Balanced(t: Tx) {
    forall u :: u != LOVELACE ==>
      var kept := SeqSum(ProducedOutputs(t), OutputIf(u)) - SeqSum(ConsumedInputs(t), InputIf(u));
      if t.mint.Some? then kept == MintQuantity(t.mint.value, u) else Failed(t) ==> kept == 0
  }

  /** Every consumed input carries the address and the amounts of the output it names. */
  ghost predicate Resolved(t: Tx, table: map<(OutPoint, Unit), nat>) {
    forall i :: i in ConsumedInputs(t) ==>
      i.address != "" && forall u :: u != LOVELACE ==> ListQuantity(i.amount, u) == Quantity(table, i.source, u)
  }

  /** A block of a chain whose inputs are all known: each consumes an open output, once. */
  ghost predicate Complete(decode: Decoder, t: Tables, b: Block) {
    var e := BlockEffect(decode, b);
    && Legal(decode, t, b)
    && (forall i, j :: 0 <= i < j < |b.txs| ==> b.txs[i].hash != b.txs[j].hash)
    && (forall i, j :: 0 <= i < j < |Creations(b.txs)| ==> Creations(b.txs)[i].key != Creations(b.txs)[j].key)
    && (forall i, j :: 0 <= i < j < |e.spends| ==> e.spends[i].key != e.spends[j].key)
    && (forall s :: s in e.spends ==> s.key in e.created || IsOpen(t.utxos, s.key))
    && (forall x :: x in b.txs ==> Balanced(x) && Resolved(x, AssetsAfter(t.assets, e)))
  }

  // ---------------------------------------------------------------- sums over sequences

  lemma {:induction false} SeqSumMap<S, T>(s: seq<S>, t: seq<T>, f: S -> int, g: T -> int)
    requires |s| == |t| && forall i :: 0 <= i < |s| ==> f(s[i]) == g(t[i])
    ensures SeqSum(s, f) == SeqSum(t, g)
  {
    if s != [] {
      SeqSumMap(s[..|s| - 1], t[..|t| - 1], f, g);
    }
  }

  function KeyQuantity(table: map<(OutPoint, Unit), nat>, u: Unit): OutPoint -> int {
    (k: OutPoint) => Quantity(table, k, u)
  }

  function SpendQuantity(table: map<(OutPoint, Unit), nat>, u: Unit): Spend -> int {
    (s: Spend) => Quantity(table, s.key, u)
  }

  function CreationQuantity(table: map<(OutPoint, Unit), nat>, u: Unit): Creation -> int {
    (c: Creation) => Quantity(table, c.key, u)
  }

  /** Filtering out lovelace and zero entries keeps the quantity of a native unit. */
  lemma {:induction false} NativeQuantity(amount: seq<Amount>, u: Unit)
    requires u != LOVELACE
    ensures ListQuantity(NativeAssets(amount), u) == ListQuantity(amount, u)
  {
    if amount != [] {
      var front, last := amount[..|amount| - 1], amount[|amount| - 1];
      assert amount == front + [last];
      NativeQuantity(front, u);
      FilterAppend(front, last, IsNative);
      SeqSumAppend(front, last, QuantityIf(u));
      if IsNative(last) {
        SeqSumAppend(NativeAssets(front), last, QuantityIf(u));
      }
    }
  }

  // ---------------------------------------------------------------- created and spent quantities

  /** With distinct outpoints every output of the block is built under its own key. */
  lemma {:induction false} BuiltByKey(decode: Decoder, slot: nat, cs: seq<Creation>, i: nat)
    requires forall x, y :: 0 <= x < y < |cs| ==> cs[x].key != cs[y].key
    requires i < |cs|
    ensures cs[i].key in BuildAll(decode, slot, cs) && BuildAll(decode, slot, cs)[cs[i].key] == BuildRows(decode, cs[i].output, Some(slot))
  {
    if i < |cs| - 1 {
      BuiltByKey(decode, slot, cs[..|cs| - 1], i);
    }
  }

  function AnyWeight(w: Weight): (OutPoint, Built) -> int {
    (k: OutPoint, b: Built) => w(k, b.held)
  }

  /** What the created outputs hold is what the block's outputs deliver. */
  lemma {:induction false} CreatedTotal(decode: Decoder, slot: nat, cs: seq<Creation>, table: map<(OutPoint, Unit), nat>, u: Unit)
    requires forall x, y :: 0 <= x < y < |cs| ==> cs[x].key != cs[y].key
    ensures MapSum(BuildAll(decode, slot, cs), AnyWeight(UnitAnywhere(table, u))) == SeqSum(cs, CreationQuantity(table, u))
  {
    hide BuildRows;
    if cs != [] {
      var n := |cs| - 1;
      CreatedTotal(decode, slot, cs[..n], table, u);
      var before := BuildAll(decode, slot, cs[..n]);
      BuildAllEntries(decode, slot, cs[..n]);
      assert forall c :: c in cs[..n] ==> c.key != cs[n].key;
      assert cs[n].key !in before;
      hide BuildAll;
      SumPut(before, AnyWeight(UnitAnywhere(table, u)), cs[n].key, BuildRows(decode, cs[n].output, Some(slot)));
    }
  }

  ghost function SpentAgain(e: Effect, keys: set<OutPoint>): map<OutPoint, Built> {
    map k | k in e.created && k in keys :: e.created[k]
  }

  lemma SpentAgainAdd(e: Effect, keys: set<OutPoint>, k: OutPoint)
    ensures SpentAgain(e, keys + {k}) == if k in e.created then SpentAgain(e, keys)[k := e.created[k]] else SpentAgain(e, keys)
    ensures k !in keys ==> k !in SpentAgain(e, keys)
  {
  }

  lemma KeysOfPush(spends: seq<Spend>, n: nat)
    requires n < |spends| && forall i, j :: 0 <= i < j < |spends| ==> spends[i].key != spends[j].key
    ensures KeysOf(spends[..n + 1]) == KeysOf(spends[..n]) + {spends[n].key}
    ensures spends[n].key !in KeysOf(spends[..n])
  {
    assert spends[..n + 1] == spends[..n] + [spends[n]];
  }

  lemma SeqSumTake<T>(s: seq<T>, n: nat, f: T -> int)
    requires n < |s|
    ensures SeqSum(s[..n + 1], f) == SeqSum(s[..n], f) + f(s[n])
  {
    assert s[..n + 1] == s[..n] + [s[n]];
    SeqSumAppend(s[..n], s[n], f);
  }

  lemma StoredOne(utxos: map<OutPoint, UtxoRow>, e: Effect, n: nat, g: OutPoint -> int)
    requires n < |e.spends|
    ensures
      var k := e.spends[n].key;
      SeqSum(SpentKeys(utxos, e, n + 1), g) == SeqSum(SpentKeys(utxos, e, n), g) + if k !in e.created && IsOpen(utxos, k) then g(k) else 0
  {
    hide IsOpen;
    var before, k := SpentKeys(utxos, e, n), e.spends[n].key;
    SeqSumAppend(before, k, g);
    assert SpentKeys(utxos, e, n + 1) == if k !in e.created && IsOpen(utxos, k) then before + [k] else before;
  }

  lemma AgainOne(e: Effect, n: nat, f: (OutPoint, Built) -> int)
    requires n < |e.spends| && forall i, j :: 0 <= i < j < |e.spends| ==> e.spends[i].key != e.spends[j].key
    ensures
      var k := e.spends[n].key;
      MapSum(SpentAgain(e, KeysOf(e.spends[..n + 1])), f)
      == MapSum(SpentAgain(e, KeysOf(e.spends[..n])), f) + if k in e.created then f(k, e.created[k]) else 0
  {
    var k, keys := e.spends[n].key, KeysOf(e.spends[..n]);
    KeysOfPush(e.spends, n);
    SpentAgainAdd(e, keys, k);
    hide SpentAgain, KeysOf, MapSum;
    if k in e.created {
      SumPut(SpentAgain(e, keys), f, k, e.created[k]);
    }
  }

  lemma NothingConsumed(t: Tables, e: Effect, table: map<(OutPoint, Unit), nat>, u: Unit)
    ensures SeqSum(e.spends[..0], SpendQuantity(table, u))
            == SeqSum(SpentKeys(t.utxos, e, 0), KeyQuantity(table, u))
               + MapSum(SpentAgain(e, KeysOf(e.spends[..0])), AnyWeight(UnitAnywhere(table, u)))
  {
    assert SpentAgain(e, KeysOf(e.spends[..0])) == map[];
  }

  lemma ConsumeOne(t: Tables, e: Effect, table: map<(OutPoint, Unit), nat>, u: Unit, m: nat)
    requires m < |e.spends| && forall i, j :: 0 <= i < j < |e.spends| ==> e.spends[i].key != e.spends[j].key
    requires e.spends[m].key in e.created || IsOpen(t.utxos, e.spends[m].key)
    ensures
      SeqSum(e.spends[..m + 1], SpendQuantity(table, u)) - SeqSum(e.spends[..m], SpendQuantity(table, u))
      == SeqSum(SpentKeys(t.utxos, e, m + 1), KeyQuantity(table, u)) - SeqSum(SpentKeys(t.utxos, e, m), KeyQuantity(table, u))
         + MapSum(SpentAgain(e, KeysOf(e.spends[..m + 1])), AnyWeight(UnitAnywhere(table, u)))
         - MapSum(SpentAgain(e, KeysOf(e.spends[..m])), AnyWeight(UnitAnywhere(table, u)))
  {
    hide SpentAgain, KeysOf, SpentKeys, MapSum, SeqSum, IsOpen, Quantity;
    SeqSumTake(e.spends, m, SpendQuantity(table, u));
    StoredOne(t.utxos, e, m, KeyQuantity(table, u));
    AgainOne(e, m, AnyWeight(UnitAnywhere(table, u)));
  }

  /** Consumed outputs are stored rows or outputs of the block, each once. */
  lemma {:induction false} ConsumedTotal(t: Tables, e: Effect, table: map<(OutPoint, Unit), nat>, u: Unit, n: nat)
    requires n <= |e.spends|
    requires forall i, j :: 0 <= i < j < |e.spends| ==> e.spends[i].key != e.spends[j].key
    requires forall s :: s in e.spends ==> s.key in e.created || IsOpen(t.utxos, s.key)
    ensures SeqSum(e.spends[..n], SpendQuantity(table, u))
            == SeqSum(SpentKeys(t.utxos, e, n), KeyQuantity(table, u))
               + MapSum(SpentAgain(e, KeysOf(e.spends[..n])), AnyWeight(UnitAnywhere(table, u)))
  {
    hide SpentAgain, KeysOf, SpentKeys, MapSum, SeqSum, IsOpen, Quantity;
    if n == 0 {
      NothingConsumed(t, e, table, u);
    } else {
      var m := n - 1;
      ConsumedTotal(t, e, table, u, m);
      assert e.spends[m] in e.spends;
      ConsumeOne(t, e, table, u, m);
    }
  }

  /** The created outputs that stay and the ones spent again make up all of them. */
  lemma CreatedSplit(e: Effect, w: Weight)
    ensures MapSum(e.created, CreatedWeight(Spenders(e.spends), w))
            == MapSum(e.created, AnyWeight(w)) - MapSum(SpentAgain(e, KeysOf(e.spends)), AnyWeight(w))
  {
    var spenders := Spenders(e.spends);
    SpendersKeys(e.spends);
    forall k
      ensures k in spenders <==> k in KeysOf(e.spends)
    {
    }
    var again := (k: OutPoint, b: Built) => if k in spenders then w(k, b.held) else 0;
    SumAgree(SpentAgain(e, KeysOf(e.spends)), e.created, AnyWeight(w), again);
    SumAdd(e.created, CreatedWeight(spenders, w), again, AnyWeight(w));
  }

  // ---------------------------------------------------------------- transaction by transaction

  ghost function TotalNet(txs: seq<Tx>, u: Unit): int {
    if txs == [] then 0 else TotalNet(txs[..|txs| - 1], u) + Net(txs[|txs| - 1], u)
  }

  lemma TxConserves(t: Tx, table: map<(OutPoint, Unit), nat>, u: Unit)
    requires u != LOVELACE && Balanced(t) && Resolved(t, table)
    requires forall o :: o in ProducedOutputs(t) ==> Quantity(table, OutPoint(t.hash, o.outputIndex), u) == ListQuantity(o.amount, u)
    ensures SeqSum(CreationsOf(t), CreationQuantity(table, u)) - SeqSum(SpendsOf(t), SpendQuantity(table, u)) == Net(t, u)
  {
    var outs, ins := ProducedOutputs(t), ConsumedInputs(t);
    forall i | 0 <= i < |outs|
      ensures CreationQuantity(table, u)(CreationsOf(t)[i]) == OutputIf(u)(outs[i])
    {
      assert outs[i] in outs;
    }
    forall i | 0 <= i < |ins|
      ensures SpendQuantity(table, u)(SpendsOf(t)[i]) == InputIf(u)(ins[i])
    {
      assert ins[i] in ins;
    }
    SeqSumMap(CreationsOf(t), outs, CreationQuantity(table, u), OutputIf(u));
    SeqSumMap(SpendsOf(t), ins, SpendQuantity(table, u), InputIf(u));
    assert !HasUnresolved(t);
  }

  lemma {:induction false} BlockConserves(txs: seq<Tx>, table: map<(OutPoint, Unit), nat>, u: Unit)
    requires u != LOVELACE && forall x :: x in txs ==> Balanced(x) && Resolved(x, table)
    requires forall c :: c in Creations(txs) ==> Quantity(table, c.key, u) == ListQuantity(c.output.amount, u)
    ensures SeqSum(Creations(txs), CreationQuantity(table, u)) - SeqSum(Spends(txs), SpendQuantity(table, u)) == TotalNet(txs, u)
  {
    if txs != [] {
      var front, last := txs[..|txs| - 1], txs[|txs| - 1];
      BlockConserves(front, table, u);
      SeqSumConcat(Creations(front), CreationsOf(last), CreationQuantity(table, u));
      SeqSumConcat(Spends(front), SpendsOf(last), SpendQuantity(table, u));
      forall o | o in ProducedOutputs(last)
        ensures Quantity(table, OutPoint(last.hash, o.outputIndex), u) == ListQuantity(o.amount, u)
      {
        var i :| 0 <= i < |ProducedOutputs(last)| && ProducedOutputs(last)[i] == o;
        assert CreationsOf(last)[i] in Creations(txs);
      }
      TxConserves(last, table, u);
    }
  }

  /** Every output of the block delivers what its asset rows store. */
  lemma CreatedQuantities(decode: Decoder, t: Tables, b: Block, u: Unit)
    requires u != LOVELACE && Complete(decode, t, b) && AssetsOwned(t)
    ensures forall c :: c in Creations(b.txs) ==>
      Quantity(AssetsAfter(t.assets, BlockEffect(decode, b)), c.key, u) == ListQuantity(c.output.amount, u)
  {
    var e, cs := BlockEffect(decode, b), Creations(b.txs);
    BlockBuilt(decode, t, b);
    forall c | c in cs
      ensures Quantity(AssetsAfter(t.assets, e), c.key, u) == ListQuantity(c.output.amount, u)
    {
      var i :| 0 <= i < |cs| && cs[i] == c;
      BuiltByKey(decode, b.slot, cs, i);
      BuiltQuantity(e, t.assets, c.key, u);
      NativeQuantity(c.output.amount, u);
    }
  }

  // ---------------------------------------------------------------- the conservation theorem

  /** What is open of a unit anywhere in the set. */
  ghost function OpenQuantity(t: Tables, u: Unit): int {
    OpenSum(t.utxos, UnitAnywhere(t.assets, u))
  }

  lemma OldOpenQuantity(t: Tables, e: Effect, u: Unit)
    requires Fresh(t, e) && AssetsOwned(t)
    ensures OpenSum(t.utxos, UnitAnywhere(AssetsAfter(t.assets, e), u)) == OpenQuantity(t, u)
  {
    var table := AssetsAfter(t.assets, e);
    forall k | k in t.utxos
      ensures Quantity(table, k, u) == Quantity(t.assets, k, u)
    {
      OldQuantity(t, e, k, u);
    }
    hide AssetsAfter, Quantity;
    SumAgree(t.utxos, t.utxos, Open(UnitAnywhere(table, u)), Open(UnitAnywhere(t.assets, u)));
  }

  lemma OpenQuantityAfter(decode: Decoder, t: Tables, b: Block, u: Unit)
    requires u != LOVELACE && Complete(decode, t, b) && AssetsOwned(t)
    ensures OpenQuantity(ApplyBlock(decode, t, b), u) == OpenQuantity(t, u) + TotalNet(b.txs, u)
  {
    var e := BlockEffect(decode, b);
    assert Distinct(AllSpent(t.utxos, e));
    BlockBuilt(decode, t, b);
    DeltaIsNet(decode, t, b, u);
    hide BlockEffect, Complete, Fresh, AssetsOwned, UtxosAfter, AssetsAfter, Delta, TotalNet, AllSpent, WellBuilt, UnitAnywhere, OpenSum;
    hide AddressesAfter, AddressAssetsAfter, AccountsAfter, Distinct;
    var w := UnitAnywhere(AssetsAfter(t.assets, e), u);
    OpenSumAfter(t, e, w);
    NotOverdrawn(t, e, w);
    OldOpenQuantity(t, e, u);
  }

  /** The delta of a block is what its outputs deliver minus what it consumes. */
  lemma DeltaIsFlow(decode: Decoder, t: Tables, b: Block, e: Effect, table: map<(OutPoint, Unit), nat>, u: Unit)
    requires e == BlockEffect(decode, b)
    requires forall i, j :: 0 <= i < j < |Creations(b.txs)| ==> Creations(b.txs)[i].key != Creations(b.txs)[j].key
    requires forall i, j :: 0 <= i < j < |e.spends| ==> e.spends[i].key != e.spends[j].key
    requires forall s :: s in e.spends ==> s.key in e.created || IsOpen(t.utxos, s.key)
    ensures Delta(t, e, UnitAnywhere(table, u))
            == SeqSum(Creations(b.txs), CreationQuantity(table, u)) - SeqSum(Spends(b.txs), SpendQuantity(table, u))
  {
    var w := UnitAnywhere(table, u);
    CreatedSplit(e, w);
    CreatedTotal(decode, b.slot, Creations(b.txs), table, u);
    ConsumedTotal(t, e, table, u, |e.spends|);
    assert e.spends[..|e.spends|] == e.spends;
    SpentFlow(t, e, table, u);
    hide MapSum, SeqSum, Creations, Spends, AnyWeight, UnitAnywhere, SpentAgain, KeysOf;
  }

  lemma SpentFlow(t: Tables, e: Effect, table: map<(OutPoint, Unit), nat>, u: Unit)
    ensures SeqSum(AllSpent(t.utxos, e), SpentWeight(t.utxos, UnitAnywhere(table, u))) == SeqSum(AllSpent(t.utxos, e), KeyQuantity(table, u))
  {
    AllSpentMembers(t, e);
    SeqSumAgree(AllSpent(t.utxos, e), SpentWeight(t.utxos, UnitAnywhere(table, u)), KeyQuantity(table, u));
  }

  lemma DeltaIsNet(decode: Decoder, t: Tables, b: Block, u: Unit)
    requires u != LOVELACE && Complete(decode, t, b) && AssetsOwned(t)
    ensures var e := BlockEffect(decode, b); Delta(t, e, UnitAnywhere(AssetsAfter(t.assets, e), u)) == TotalNet(b.txs, u)
  {
    var e := BlockEffect(decode, b);
    CreatedQuantities(decode, t, b, u);
    hide Legal, AssetsOwned, UnitAnywhere, AssetsAfter, Delta, Balanced, Resolved, Quantity, ListQuantity, Creations, Spends;
    DeltaIsFlow(decode, t, b, e, AssetsAfter(t.assets, e), u);
    BlockConserves(b.txs, AssetsAfter(t.assets, e), u);
  }

  /** The rows the block adds to the history. */
  ghost predicate BlockRows(rows: History, b: Block) {
    && (forall i :: 0 <= i < |b.txs| ==> RowsOfTx(rows, b.txs[i]))
    && (forall uh :: uh in rows ==> uh.1 in HashesOf(b))
  }

  lemma {:induction false} RowsTotal(rows: History, txs: seq<Tx>, u: Unit)
    requires forall i, j :: 0 <= i < j < |txs| ==> txs[i].hash != txs[j].hash
    requires forall i :: 0 <= i < |txs| ==> RowsOfTx(rows, txs[i])
    requires forall uh :: uh in rows ==> exists i :: 0 <= i < |txs| && txs[i].hash == uh.1
    ensures RecordedSupply(rows, u) == TotalNet(txs, u)
  {
    hide RowsOfTx, TxChange, Net, RecordedSupply;
    if txs == [] {
      assert rows == map[];
      NoRowsNoSupply(u);
    } else {
      var n := |txs| - 1;
      var last := txs[n];
      var before := map uh | uh in rows && uh.1 != last.hash :: rows[uh];
      EarlierRows(rows, before, txs, txs[..n]);
      ChangeIsNet(rows, last, u);
      RowsTotal(before, txs[..n], u);
      LastTxSupply(rows, before, last.hash, u);
    }
  }

  lemma NoRowsNoSupply(u: Unit)
    ensures RecordedSupply(map[], u) == 0
  {
  }

  lemma ChangeIsNet(rows: History, t: Tx, u: Unit)
    requires RowsOfTx(rows, t)
    ensures TxChange(rows, u, t.hash) == Net(t, u)
  {
  }

  lemma EarlierRows(rows: History, before: History, txs: seq<Tx>, front: seq<Tx>)
    requires txs != [] && front == txs[..|txs| - 1]
    requires forall i, j :: 0 <= i < j < |txs| ==> txs[i].hash != txs[j].hash
    requires forall i :: 0 <= i < |txs| ==> RowsOfTx(rows, txs[i])
    requires forall uh :: uh in rows ==> exists i :: 0 <= i < |txs| && txs[i].hash == uh.1
    requires before == map uh | uh in rows && uh.1 != txs[|txs| - 1].hash :: rows[uh]
    ensures forall i :: 0 <= i < |front| ==> RowsOfTx(before, front[i])
    ensures forall uh :: uh in before ==> exists i :: 0 <= i < |front| && front[i].hash == uh.1
  {
    var n := |txs| - 1;
    hide Net;
    forall i | 0 <= i < n
      ensures RowsOfTx(before, front[i])
    {
      assert RowsOfTx(rows, txs[i]);
      SameTxRows(rows, before, txs[i]);
    }
    forall uh | uh in before
      ensures exists i :: 0 <= i < n && front[i].hash == uh.1
    {
      var i :| 0 <= i < |txs| && txs[i].hash == uh.1;
      assert front[i] == txs[i];
    }
  }

  lemma LastTxSupply(rows: History, before: History, h: Hash, u: Unit)
    requires before == map uh | uh in rows && uh.1 != h :: rows[uh]
    ensures RecordedSupply(rows, u) == RecordedSupply(before, u) + TxChange(rows, u, h)
  {
    var f := SupplyOf(u);
    if (u, h) in rows {
      var uh := (u, h);
      SumPut(before, f, uh, rows[uh]);
      SumAgree(rows, before[uh := rows[uh]], f, f);
    } else {
      assert forall uh :: uh in rows && uh !in before ==> uh == (uh.0, h);
      SumAgree(rows, before, f, f);
    }
  }

  /** One block: the set changes by what the history records, whether mints are reported or derived. */
  lemma SupplyConserved(decode: Decoder, t: Tables, history: History, b: Block, rows: History, u: Unit)
    requires u != LOVELACE && Complete(decode, t, b) && AssetsOwned(t) && BlockRows(rows, b)
    requires forall uh :: uh in history ==> uh.1 !in HashesOf(b)
    ensures OpenQuantity(ApplyBlock(decode, t, b), u) - RecordedSupply(history + rows, u)
            == OpenQuantity(t, u) - RecordedSupply(history, u)
  {
    OpenQuantityAfter(decode, t, b, u);
    forall uh | uh in rows
      ensures exists i :: 0 <= i < |b.txs| && b.txs[i].hash == uh.1
    {
      assert uh.1 in HashesOf(b);
    }
    RowsTotal(rows, b.txs, u);
    SumOverlay(history, rows, SupplyOf(u));
    SumAgree(rows, rows, Gain(history, SupplyOf(u)), SupplyOf(u));
  }

  // ---------------------------------------------------------------- runs

  datatype Crawl = Crawl(tables: Tables, history: History)

  /** One committed block of the crawl: ledger and history move together. */
  ghost predicate CrawlStep(decode: Decoder, c: Crawl, b: Block, c': Crawl) {
    && Complete(decode, c.tables, b)
    && (forall uh :: uh in c.history ==> uh.1 !in HashesOf(b))
    && c'.tables == ApplyBlock(decode, c.tables, b)
    && exists rows :: BlockRows(rows, b) && c'.history == c.history + rows
  }

  /** Over any forward run the open quantity of a unit minus its recorded supply never changes. */
  lemma {:induction false} SupplyInvariant(decode: Decoder, states: seq<Crawl>, blocks: seq<Block>, u: Unit)
    requires u != LOVELACE && |states| == |blocks| + 1 && Consistent(decode, states[0].tables)
    requires forall i :: 0 <= i < |blocks| ==> CrawlStep(decode, states[i], blocks[i], states[i + 1])
    ensures Consistent(decode, states[|blocks|].tables)
    ensures OpenQuantity(states[|blocks|].tables, u) - RecordedSupply(states[|blocks|].history, u)
            == OpenQuantity(states[0].tables, u) - RecordedSupply(states[0].history, u)
  {
    if blocks != [] {
      var n := |blocks| - 1;
      SupplyInvariant(decode, states[..n + 1], blocks[..n], u);
      var c := states[n];
      assert CrawlStep(decode, c, blocks[n], states[n + 1]);
      var rows :| BlockRows(rows, blocks[n]) && states[n + 1].history == c.history + rows;
      WellFormedOwned(decode, c.tables);
      hide Consistent, BlockRows, RecordedSupply, OpenQuantity, ApplyBlock, Legal;
      SupplyConserved(decode, c.tables, c.history, blocks[n], rows, u);
      ApplyBlockConsistent(decode, c.tables, blocks[n]);
    }
  }
}
