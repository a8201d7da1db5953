/** The spender derived from stored inputs is the one the crawled ledger recorded on the output. */
module SpenderProofs {
  import opened Options
  import opened Chain
  import opened LedgerRules
  import opened StoredChain
  import opened StoredChainProofs
  import opened Sums
  import LedgerApplyProofs
  import LedgerRollbackProofs

  function AllTxs(blocks: seq<Block>): seq<Tx> {
    if blocks == [] then [] else AllTxs(blocks[..|blocks| - 1]) + blocks[|blocks| - 1].txs
  }

  /** Tables as an import leaves them: every output is open. */
  ghost predicate AllOpen(t: Tables) {
    forall k :: k in t.utxos ==> t.utxos[k].spentTxHash.None?
  }

  lemma {:induction false} SpendConsumes(txs: seq<Tx>, s: Spend) returns (n: nat)
    requires s in Spends(txs)
    ensures n < |txs| && txs[n].hash == s.spender && Consumes(txs[n], s.key)
  {
    var last := |txs| - 1;
    if s in SpendsOf(txs[last]) {
      n := last;
      var ins := ConsumedInputs(txs[n]);
      var i :| 0 <= i < |ins| && SpendsOf(txs[n])[i] == s;
      assert ins[i] in ins;
    } else {
      n := SpendConsumes(txs[..last], s);
    }
  }

  /** A row the block marks names one of its transactions as spender; other rows keep theirs. */
  lemma MarkedByBlock(decode: Decoder, t: Tables, b: Block, k: OutPoint) returns (n: nat)
    requires k in UtxosAfter(t.utxos, BlockEffect(decode, b)) && UtxosAfter(t.utxos, BlockEffect(decode, b))[k].spentTxHash.Some?
    requires !(k in t.utxos && t.utxos[k].spentTxHash == UtxosAfter(t.utxos, BlockEffect(decode, b))[k].spentTxHash)
    ensures n < |b.txs| && Some(b.txs[n].hash) == UtxosAfter(t.utxos, BlockEffect(decode, b))[k].spentTxHash && Consumes(b.txs[n], k)
  {
    LedgerRollbackProofs.SpendersEntries(Spends(b.txs));
    hide ConsumedInputs;
    n := SpendConsumes(b.txs, Spend(k, Spenders(Spends(b.txs))[k]));
  }

  ghost function AfterBlocks(decode: Decoder, t: Tables, blocks: seq<Block>): Tables {
    Run(decode, t, Forward(blocks))
  }

  /** The output rows after the blocks come from those before the last one. */
  lemma LastBlock(decode: Decoder, t: Tables, blocks: seq<Block>)
    ensures blocks == [] ==> AfterBlocks(decode, t, blocks) == t
    ensures blocks != [] ==>
      AfterBlocks(decode, t, blocks).utxos
      == UtxosAfter(AfterBlocks(decode, t, blocks[..|blocks| - 1]).utxos, BlockEffect(decode, blocks[|blocks| - 1]))
  {
    hide UtxosAfter, BlockEffect, AddressesAfter, AddressAssetsAfter, AccountsAfter, AssetsAfter;
    if blocks != [] {
      assert Forward(blocks)[..|blocks| - 1] == Forward(blocks[..|blocks| - 1]);
    }
  }

  /** Every spender the ledger records after an import is a crawled transaction that consumed the output. */
  lemma {:induction false} RecordedSpenderConsumes(decode: Decoder, t: Tables, blocks: seq<Block>, k: OutPoint) returns (n: nat)
    requires AllOpen(t)
    requires k in AfterBlocks(decode, t, blocks).utxos && AfterBlocks(decode, t, blocks).utxos[k].spentTxHash.Some?
    ensures n < |AllTxs(blocks)| && Consumes(AllTxs(blocks)[n], k)
    ensures Some(AllTxs(blocks)[n].hash) == AfterBlocks(decode, t, blocks).utxos[k].spentTxHash
  {
    hide AfterBlocks, UtxosAfter, BlockEffect, Consumes;
    LastBlock(decode, t, blocks);
    var last := |blocks| - 1;
    var before := AfterBlocks(decode, t, blocks[..last]);
    if k in before.utxos && before.utxos[k].spentTxHash == AfterBlocks(decode, t, blocks).utxos[k].spentTxHash {
      n := RecordedSpenderConsumes(decode, t, blocks[..last], k);
    } else {
      var m := MarkedByBlock(decode, before, blocks[last], k);
      n := |AllTxs(blocks[..last])| + m;
    }
  }

  // ---------------------------------------------------------------- an open row has no spender

  /** The outputs stored before a block are not outputs of the block. */
  ghost predicate NewOutputs(decode: Decoder, t: Tables, blocks: seq<Block>, k: OutPoint) {
    forall i :: 0 <= i < |blocks| && k in AfterBlocks(decode, t, blocks[..i]).utxos ==> k.txHash !in HashesOf(blocks[i])
  }

  /** No transaction consumes the output before the block that stores it. */
  ghost predicate SpentWhenStored(decode: Decoder, t: Tables, blocks: seq<Block>, k: OutPoint) {
    forall i :: 0 <= i < |blocks| && ConsumedIn(blocks[i], k) ==> k in AfterBlocks(decode, t, blocks[..i + 1]).utxos
  }

  ghost predicate ConsumedIn(b: Block, k: OutPoint) {
    exists n :: 0 <= n < |b.txs| && Consumes(b.txs[n], k)
  }

  lemma {:induction false} ConsumedIsSpent(txs: seq<Tx>, n: nat, k: OutPoint)
    requires n < |txs| && Consumes(txs[n], k)
    ensures k in Spenders(Spends(txs))
  {
    var last := |txs| - 1;
    if n == last {
      var ins := ConsumedInputs(txs[n]);
      var x :| x in ins && x.source == k;
      var i :| 0 <= i < |ins| && ins[i] == x;
      assert SpendsOf(txs[n])[i].key == k;
      assert Spends(txs)[|Spends(txs[..last])| + i].key == k;
    } else {
      ConsumedIsSpent(txs[..last], n, k);
      LedgerApplyProofs.SpendersKeys(Spends(txs[..last]));
      var i :| 0 <= i < |Spends(txs[..last])| && Spends(txs[..last])[i].key == k;
      assert Spends(txs)[i].key == k;
    }
    LedgerApplyProofs.SpendersKeys(Spends(txs));
  }

  /** A block marks every output it consumes that is in the set, and reopens none it does not create. */
  lemma BlockMarks(decode: Decoder, t: Tables, b: Block, k: OutPoint)
    requires k in UtxosAfter(t.utxos, BlockEffect(decode, b))
    ensures ConsumedIn(b, k) ==> UtxosAfter(t.utxos, BlockEffect(decode, b))[k].spentTxHash.Some?
    ensures k in t.utxos && k.txHash !in HashesOf(b) && t.utxos[k].spentTxHash.Some? ==>
              UtxosAfter(t.utxos, BlockEffect(decode, b))[k].spentTxHash.Some?
  {
    hide Consumes;
    if ConsumedIn(b, k) {
      var n :| 0 <= n < |b.txs| && Consumes(b.txs[n], k);
      ConsumedIsSpent(b.txs, n, k);
    }
    LedgerRollbackProofs.BlockWithin(decode, b);
  }

  /** What holds of the blocks holds of those before the last. */
  lemma WithoutLast(decode: Decoder, t: Tables, blocks: seq<Block>, k: OutPoint)
    requires blocks != []
    ensures NewOutputs(decode, t, blocks, k) ==> NewOutputs(decode, t, blocks[..|blocks| - 1], k)
    ensures SpentWhenStored(decode, t, blocks, k) ==> SpentWhenStored(decode, t, blocks[..|blocks| - 1], k)
  {
    hide AfterBlocks, ConsumedIn;
    var front := blocks[..|blocks| - 1];
    assert forall i :: 0 <= i <= |front| ==> front[..i] == blocks[..i];
  }

  /** The output is stored after the blocks, and unless the last one consumes it, it was before. */
  lemma StillStored(decode: Decoder, t: Tables, blocks: seq<Block>, k: OutPoint)
    requires blocks != []
    ensures k in AfterBlocks(decode, t, blocks[..|blocks| - 1]).utxos ==> k in AfterBlocks(decode, t, blocks).utxos
    ensures NewOutputs(decode, t, blocks, k) && k in AfterBlocks(decode, t, blocks[..|blocks| - 1]).utxos ==>
              k.txHash !in HashesOf(blocks[|blocks| - 1])
    ensures SpentWhenStored(decode, t, blocks, k) && ConsumedIn(blocks[|blocks| - 1], k) ==> k in AfterBlocks(decode, t, blocks).utxos
  {
    var last := |blocks| - 1;
    assert blocks[..last + 1] == blocks;
    LastBlock(decode, t, blocks);
    LedgerApplyProofs.HoldingsAfter(AfterBlocks(decode, t, blocks[..last]), BlockEffect(decode, blocks[last]));
    hide AfterBlocks, ConsumedIn, UtxosAfter, BlockEffect, HashesOf;
  }

  /** After the blocks an output they consumed is marked as spent. */
  lemma {:induction false} ConsumedIsMarked(decode: Decoder, t: Tables, blocks: seq<Block>, k: OutPoint, i: nat)
    requires i < |blocks| && ConsumedIn(blocks[i], k)
    requires NewOutputs(decode, t, blocks, k) && SpentWhenStored(decode, t, blocks, k)
    ensures k in AfterBlocks(decode, t, blocks).utxos && AfterBlocks(decode, t, blocks).utxos[k].spentTxHash.Some?
  {
    hide AfterBlocks, ConsumedIn, UtxosAfter, BlockEffect, HashesOf, NewOutputs, SpentWhenStored;
    var last := |blocks| - 1;
    LastBlock(decode, t, blocks);
    WithoutLast(decode, t, blocks, k);
    StillStored(decode, t, blocks, k);
    if i < last {
      ConsumedIsMarked(decode, t, blocks[..last], k, i);
    }
    BlockMarks(decode, AfterBlocks(decode, t, blocks[..last]), blocks[last], k);
  }

  lemma {:induction false} BlockOfTx(blocks: seq<Block>, n: nat, k: OutPoint) returns (i: nat)
    requires n < |AllTxs(blocks)| && Consumes(AllTxs(blocks)[n], k)
    ensures i < |blocks| && ConsumedIn(blocks[i], k)
  {
    hide Consumes;
    i := |blocks| - 1;
    var before := |AllTxs(blocks[..i])|;
    if n < before {
      i := BlockOfTx(blocks[..i], n, k);
    } else {
      assert AllTxs(blocks)[n] == blocks[i].txs[n - before];
    }
  }

  /** A stored output is marked as spent after the blocks exactly when one of their transactions consumed it. */
  lemma SpentIffConsumed(decode: Decoder, t: Tables, blocks: seq<Block>, k: OutPoint)
    requires AllOpen(t) && k in AfterBlocks(decode, t, blocks).utxos
    requires NewOutputs(decode, t, blocks, k) && SpentWhenStored(decode, t, blocks, k)
    ensures AfterBlocks(decode, t, blocks).utxos[k].spentTxHash.Some? <==> exists n :: 0 <= n < |AllTxs(blocks)| && Consumes(AllTxs(blocks)[n], k)
  {
    hide AfterBlocks, NewOutputs, SpentWhenStored, Consumes, AllTxs;
    if AfterBlocks(decode, t, blocks).utxos[k].spentTxHash.Some? {
      var n := RecordedSpenderConsumes(decode, t, blocks, k);
    }
    if n :| 0 <= n < |AllTxs(blocks)| && Consumes(AllTxs(blocks)[n], k) {
      var i := BlockOfTx(blocks, n, k);
      ConsumedIsMarked(decode, t, blocks, k, i);
    }
  }

  /** An imported output is stored from the start, whatever consumes it. */
  lemma {:induction false} ImportedStays(decode: Decoder, t: Tables, blocks: seq<Block>, k: OutPoint)
    requires k in t.utxos
    ensures k in AfterBlocks(decode, t, blocks).utxos && SpentWhenStored(decode, t, blocks, k)
  {
    forall i | 0 <= i <= |blocks|
      ensures k in AfterBlocks(decode, t, blocks[..i]).utxos
    {
      ImportedKept(decode, t, blocks[..i], k);
    }
    assert blocks[..|blocks|] == blocks;
  }

  lemma {:induction false} ImportedKept(decode: Decoder, t: Tables, blocks: seq<Block>, k: OutPoint)
    requires k in t.utxos
    ensures k in AfterBlocks(decode, t, blocks).utxos
  {
    LastBlock(decode, t, blocks);
    if blocks != [] {
      var front := blocks[..|blocks| - 1];
      ImportedKept(decode, t, front, k);
      LedgerApplyProofs.HoldingsAfter(AfterBlocks(decode, t, front), BlockEffect(decode, blocks[|blocks| - 1]));
    }
  }

  lemma LegalLast(decode: Decoder, t: Tables, blocks: seq<Block>)
    requires blocks != [] && LegalRun(decode, t, Forward(blocks))
    ensures LegalRun(decode, t, Forward(blocks[..|blocks| - 1]))
    ensures Legal(decode, AfterBlocks(decode, t, blocks[..|blocks| - 1]), blocks[|blocks| - 1])
  {
    hide Legal, Run;
    assert Forward(blocks)[..|blocks| - 1] == Forward(blocks[..|blocks| - 1]);
  }

  lemma LegalNew(decode: Decoder, t: Tables, b: Block, k: OutPoint)
    requires Legal(decode, t, b) && k in t.utxos
    ensures k.txHash !in HashesOf(b)
  {
    hide Distinct, HashesOf, BlockEffect;
  }

  /** Blocks of a legal run bring new outputs only. */
  lemma {:induction false} LegalBringsNew(decode: Decoder, t: Tables, blocks: seq<Block>, k: OutPoint)
    requires LegalRun(decode, t, Forward(blocks))
    ensures NewOutputs(decode, t, blocks, k)
  {
    hide LegalRun, AfterBlocks, HashesOf, Legal, Forward;
    if blocks != [] {
      var last := |blocks| - 1;
      var front := blocks[..last];
      LegalLast(decode, t, blocks);
      LegalBringsNew(decode, t, front, k);
      forall i | 0 <= i < |blocks| && k in AfterBlocks(decode, t, blocks[..i]).utxos
        ensures k.txHash !in HashesOf(blocks[i])
      {
        if i < last {
          assert front[..i] == blocks[..i] && front[i] == blocks[i];
        } else {
          LegalNew(decode, AfterBlocks(decode, t, front), blocks[last], k);
        }
      }
    }
  }

  // ---------------------------------------------------------------- the derived spender

  /** The output has one consumer at most. */
  ghost predicate SpentOnce(txs: seq<Tx>, k: OutPoint) {
    forall n, m :: 0 <= n < m < |txs| ==> !(Consumes(txs[n], k) && Consumes(txs[m], k))
  }

  /** The rows the crawl stored, and the transactions they came from. */
  ghost predicate Crawled(db: Db, txs: seq<Tx>) {
    Holds(db, txs) && DistinctPositions(txs) && forall x :: x in txs ==> IsLedgerView(x)
  }

  /**
   The stored rows of a chain name as spender of an output the transaction its ledger row carries. `earlier` are
   transactions stored before the blocks the ledger was maintained for.
   */
  lemma SpenderAgrees(decode: Decoder, t: Tables, earlier: seq<Tx>, blocks: seq<Block>, db: Db, k: OutPoint, txSeq: Option<nat>)
    returns (n: nat)
    requires AllOpen(t) && FoundConsumer(db, k, txSeq)
    requires Crawled(db, earlier + AllTxs(blocks)) && SpentOnce(earlier + AllTxs(blocks), k)
    requires k in AfterBlocks(decode, t, blocks).utxos && AfterBlocks(decode, t, blocks).utxos[k].spentTxHash.Some?
    ensures n < |AllTxs(blocks)| && txSeq == Some(SeqOfTx(AllTxs(blocks)[n]))
    ensures Some(AllTxs(blocks)[n].hash) == AfterBlocks(decode, t, blocks).utxos[k].spentTxHash
  {
    var txs := earlier + AllTxs(blocks);
    hide Holds, DistinctPositions, IsLedgerView, FoundConsumer, AllTxs, AfterBlocks, Consumes, AllOpen;
    n := RecordedSpenderConsumes(decode, t, blocks, k);
    ConsumerFound(db, txs, k, txSeq);
    assert txs[|earlier| + n] == AllTxs(blocks)[n];
    var m :| 0 <= m < |txs| && SeqOfTx(txs[m]) == txSeq.value && Consumes(txs[m], k);
    assert |earlier| + n == m;
  }

  /** For an output whose row is still open the stored rows name no spender. */
  lemma OpenHasNoSpender(decode: Decoder, t: Tables, earlier: seq<Tx>, blocks: seq<Block>, db: Db, k: OutPoint, txSeq: Option<nat>)
    requires AllOpen(t) && FoundConsumer(db, k, txSeq) && Crawled(db, earlier + AllTxs(blocks))
    requires forall x :: x in earlier ==> !Consumes(x, k)
    requires LegalRun(decode, t, Forward(blocks)) && SpentWhenStored(decode, t, blocks, k)
    requires k in AfterBlocks(decode, t, blocks).utxos && AfterBlocks(decode, t, blocks).utxos[k].spentTxHash.None?
    ensures txSeq.None? && forall n :: 0 <= n < |AllTxs(blocks)| ==> !Consumes(AllTxs(blocks)[n], k)
  {
    var txs := earlier + AllTxs(blocks);
    hide Holds, DistinctPositions, IsLedgerView, FoundConsumer, AllTxs, AfterBlocks, Consumes, AllOpen, LegalRun, SpentWhenStored, NewOutputs;
    LegalBringsNew(decode, t, blocks, k);
    SpentIffConsumed(decode, t, blocks, k);
    ConsumerFound(db, txs, k, txSeq);
    forall n | 0 <= n < |txs|
      ensures !Consumes(txs[n], k)
    {
      if n < |earlier| {
        assert txs[n] in earlier;
      } else {
        assert txs[n] == AllTxs(blocks)[n - |earlier|];
      }
    }
  }

  /** So an imported output has a derived spender exactly when its ledger row records one. */
  lemma ImportedSpenderIff(decode: Decoder, t: Tables, earlier: seq<Tx>, blocks: seq<Block>, db: Db, k: OutPoint, txSeq: Option<nat>)
    requires AllOpen(t) && FoundConsumer(db, k, txSeq)
    requires Crawled(db, earlier + AllTxs(blocks)) && SpentOnce(earlier + AllTxs(blocks), k)
    requires forall x :: x in earlier ==> !Consumes(x, k)
    requires LegalRun(decode, t, Forward(blocks)) && k in t.utxos
    ensures k in AfterBlocks(decode, t, blocks).utxos
    ensures txSeq.Some? <==> AfterBlocks(decode, t, blocks).utxos[k].spentTxHash.Some?
  {
    hide Crawled, FoundConsumer, AllTxs, AfterBlocks, Consumes, AllOpen, LegalRun, SpentWhenStored, SpentOnce;
    ImportedStays(decode, t, blocks, k);
    if AfterBlocks(decode, t, blocks).utxos[k].spentTxHash.Some? {
      var n := SpenderAgrees(decode, t, earlier, blocks, db, k, txSeq);
    } else {
      OpenHasNoSpender(decode, t, earlier, blocks, db, k, txSeq);
    }
  }
}
