/** Runs of blocks and rollbacks: agreement in every reachable state, and rollback as the inverse of the chain. */
module LedgerRollbackProofs {
  import opened Options
  import opened Chain
  import opened Sums
  import opened LedgerRules
  import opened LedgerApplyProofs
  import opened LedgerRunProofs

  // ---------------------------------------------------------------- blocks as effects

  lemma {:induction false} CreationKeys(txs: seq<Tx>)
    ensures forall c :: c in Creations(txs) ==> exists i :: 0 <= i < |txs| && c.key.txHash == txs[i].hash
  {
    if txs != [] {
      var n := |txs| - 1;
      CreationKeys(txs[..n]);
      forall c | c in Creations(txs)
        ensures exists i :: 0 <= i < |txs| && c.key.txHash == txs[i].hash
      {
        if c in Creations(txs[..n]) {
          var i :| 0 <= i < n && c.key.txHash == txs[..n][i].hash;
          assert txs[i] == txs[..n][i];
        } else {
          assert c in CreationsOf(txs[n]);
        }
      }
    }
  }

  lemma {:induction false} SpendHashes(txs: seq<Tx>)
    ensures forall s :: s in Spends(txs) ==> exists i :: 0 <= i < |txs| && s.spender == txs[i].hash
  {
    if txs != [] {
      var n := |txs| - 1;
      SpendHashes(txs[..n]);
      forall s | s in Spends(txs)
        ensures exists i :: 0 <= i < |txs| && s.spender == txs[i].hash
      {
        if s in Spends(txs[..n]) {
          var i :| 0 <= i < n && s.spender == txs[..n][i].hash;
          assert txs[i] == txs[..n][i];
        } else {
          assert s in SpendsOf(txs[n]);
        }
      }
    }
  }

  lemma {:induction false} BuildEntry(decode: Decoder, slot: nat, cs: seq<Creation>, k: OutPoint) returns (i: nat)
    requires k in BuildAll(decode, slot, cs)
    ensures i < |cs| && cs[i].key == k && BuildAll(decode, slot, cs)[k] == BuildRows(decode, cs[i].output, Some(slot))
  {
    hide BuildRows;
    i := |cs| - 1;
    if k != cs[i].key {
      i := BuildEntry(decode, slot, cs[..i], k);
    }
  }

  lemma BuildAllEntries(decode: Decoder, slot: nat, cs: seq<Creation>)
    ensures forall k :: k in BuildAll(decode, slot, cs) ==>
      exists c :: c in cs && c.key == k && BuildAll(decode, slot, cs)[k] == BuildRows(decode, c.output, Some(slot))
  {
    hide BuildAll, BuildRows;
    forall k | k in BuildAll(decode, slot, cs)
      ensures exists c :: c in cs && c.key == k && BuildAll(decode, slot, cs)[k] == BuildRows(decode, c.output, Some(slot))
    {
      var i := BuildEntry(decode, slot, cs, k);
      assert cs[i] in cs;
    }
  }

  lemma {:induction false} SpendersEntries(spends: seq<Spend>)
    ensures forall k :: k in Spenders(spends) ==> Spend(k, Spenders(spends)[k]) in spends
  {
    if spends != [] {
      SpendersEntries(spends[..|spends| - 1]);
      assert spends == spends[..|spends| - 1] + [spends[|spends| - 1]];
    }
  }

  /** Everything an effect of these transactions creates or marks carries one of their hashes. */
  ghost predicate Within(e: Effect, hashes: set<Hash>) {
    && (forall k :: k in e.created ==> k.txHash in hashes)
    && (forall k :: k in Spenders(e.spends) ==> Spenders(e.spends)[k] in hashes)
  }

  lemma BlockWithin(decode: Decoder, b: Block)
    ensures Within(BlockEffect(decode, b), HashesOf(b))
  {
    var e := BlockEffect(decode, b);
    CreationKeys(b.txs);
    SpendHashes(b.txs);
    BuildAllEntries(decode, b.slot, Creations(b.txs));
    SpendersEntries(e.spends);
    forall k | k in e.created
      ensures k.txHash in HashesOf(b)
    {
      var c :| c in Creations(b.txs) && c.key == k;
    }
    forall k | k in Spenders(e.spends)
      ensures Spenders(e.spends)[k] in HashesOf(b)
    {
      var s := Spend(k, Spenders(e.spends)[k]);
      assert s in Spends(b.txs);
    }
  }

  lemma BlockBuilt(decode: Decoder, t: Tables, b: Block)
    requires Legal(decode, t, b)
    ensures WellBuilt(decode, BlockEffect(decode, b)) && Fresh(t, BlockEffect(decode, b))
  {
    BlockWithin(decode, b);
    BuildAllEntries(decode, b.slot, Creations(b.txs));
  }

  lemma ApplyBlockConsistent(decode: Decoder, t: Tables, b: Block)
    requires Consistent(decode, t) && Legal(decode, t, b)
    ensures Consistent(decode, ApplyBlock(decode, t, b))
  {
    BlockBuilt(decode, t, b);
    ApplyKeepsConsistent(decode, t, BlockEffect(decode, b));
  }

  // ---------------------------------------------------------------- rollback keeps agreement

  lemma RevertedSum(t: Tables, hashes: set<Hash>, w: Weight)
    requires forall k :: k in t.utxos && t.utxos[k].held.address in RevertedAddresses(t, hashes) ==> w(k, t.utxos[k].held) == 0
    ensures OpenSum(Reverted(t, hashes).utxos, w) == OpenSum(t.utxos, w)
  {
    var after := Reverted(t, hashes).utxos;
    forall k | k in t.utxos && (k.txHash in hashes || SpentIn(t.utxos[k], hashes))
      ensures w(k, t.utxos[k].held) == 0
    {
      assert t.utxos[k].held.address in RevertedAddresses(t, hashes);
    }
    hide RevertedAddresses, MapSum;
    SumAgree(t.utxos, after, Open(w), Open(w));
  }

  lemma RevertedUnitSum(t: Tables, hashes: set<Hash>, a: Address, u: Unit)
    requires a !in RevertedAddresses(t, hashes)
    ensures OpenSum(Reverted(t, hashes).utxos, UnitAt(Reverted(t, hashes).assets, a, u)) == OpenSum(t.utxos, UnitAt(t.assets, a, u))
  {
    var after := Reverted(t, hashes);
    RevertedSum(t, hashes, UnitAt(t.assets, a, u));
    hide RevertedAddresses, MapSum;
    SumAgree(after.utxos, after.utxos, Open(UnitAt(after.assets, a, u)), Open(UnitAt(t.assets, a, u)));
  }

  lemma RevertedAgrees(t: Tables, hashes: set<Hash>, a: Address)
    requires a !in RevertedAddresses(t, hashes) && AddressAgrees(t, a)
    ensures AddressAgrees(Reverted(t, hashes), a)
  {
    RevertedSum(t, hashes, LovelaceAt(a));
    RevertedSum(t, hashes, CountAt(a));
    var t' := Reverted(t, hashes);
    forall u
      ensures StoredQuantity(t'.addressAssets, a, u) == OpenSum(t'.utxos, UnitAt(t'.assets, a, u))
    {
      RevertedUnitSum(t, hashes, a, u);
    }
  }

  lemma RevertedRows(decode: Decoder, t: Tables, hashes: set<Hash>)
    requires RowsWellFormed(decode, t.utxos, t.assets)
    ensures RowsWellFormed(decode, Reverted(t, hashes).utxos, Reverted(t, hashes).assets)
  {
    var t' := Reverted(t, hashes);
    forall k | k in t'.utxos && t'.utxos[k].held.hasAssets
      ensures exists u :: (k, u) in t'.assets
    {
      var u :| (k, u) in t.assets;
      assert (k, u) in t'.assets;
    }
  }

  /** Undoing any set of transactions keeps every running sum equal to the open rows it sums. */
  lemma UndoKeepsConsistent(decode: Decoder, t: Tables, hashes: set<Hash>)
    requires Consistent(decode, t)
    ensures Consistent(decode, Undo(decode, t, hashes))
  {
    var t' := Reverted(t, hashes);
    var touched := RevertedAddresses(t, hashes);
    RevertedRows(decode, t, hashes);
    forall a | a !in touched
      ensures AddressAgrees(t', a)
    {
      RevertedAgrees(t, hashes, a);
    }
    forall s
      ensures AccountAgrees(t', s)
    {
      assert AccountAgrees(t, s);
    }
    assert Repairable(decode, t', touched) by {
      hide RowsWellFormed, AddressAgrees, AccountAgrees, RevertedAddresses, TouchedStakes;
    }
    RecountRepairs(decode, t', touched);
  }

  /** In every state a run of blocks and rollbacks reaches, every running sum equals what it sums. */
  lemma {:induction false} ReachableConsistent(decode: Decoder, t: Tables, events: seq<Event>)
    requires Consistent(decode, t) && LegalRun(decode, t, events)
    ensures Consistent(decode, Run(decode, t, events))
  {
    if events != [] {
      var front, last := events[..|events| - 1], events[|events| - 1];
      ReachableConsistent(decode, t, front);
      var mid := Run(decode, t, front);
      hide Consistent, Legal;
      match last
      case Applied(b) => ApplyBlockConsistent(decode, mid, b);
      case RolledBack(hashes) => UndoKeepsConsistent(decode, mid, hashes);
    }
  }

  // ---------------------------------------------------------------- rollback inverts the chain

  lemma RevertedTwice(t: Tables, first: set<Hash>, second: set<Hash>)
    ensures Reverted(Reverted(t, first), second) == Reverted(t, first + second)
    ensures RevertedAddresses(t, first) + RevertedAddresses(Reverted(t, first), second) == RevertedAddresses(t, first + second)
  {
    var both, step := RevertedAddresses(t, first + second), Reverted(t, first);
    forall k | k in t.utxos && (k.txHash in first + second || SpentIn(t.utxos[k], first + second))
      ensures t.utxos[k].held.address in RevertedAddresses(t, first) + RevertedAddresses(step, second)
    {
      if !(k.txHash in first || SpentIn(t.utxos[k], first)) {
        assert k in step.utxos && step.utxos[k].held.address in RevertedAddresses(step, second);
      }
    }
  }

  /** No row comes from these transactions or was spent by them. */
  ghost predicate Unseen(utxos: map<OutPoint, UtxoRow>, hashes: set<Hash>) {
    forall k :: k in utxos ==> k.txHash !in hashes && !SpentIn(utxos[k], hashes)
  }

  function RevertedRow(r: UtxoRow, hashes: set<Hash>): UtxoRow {
    if SpentIn(r, hashes) then UtxoRow(r.held, None, None) else r
  }

  /** A row from before the block is left as it was. */
  lemma OldRowRestored(t: Tables, e: Effect, hashes: set<Hash>, k: OutPoint)
    requires Within(e, hashes) && Unseen(t.utxos, hashes) && k in t.utxos
    requires t.utxos[k].spentTxHash.None? ==> t.utxos[k].spentSlot.None?
    ensures k in UtxosAfter(t.utxos, e) && RevertedRow(UtxosAfter(t.utxos, e)[k], hashes) == t.utxos[k]
  {
    assert k !in e.created;
  }

  lemma RowsRestored(t: Tables, e: Effect, hashes: set<Hash>, after: Tables)
    requires Within(e, hashes) && Unseen(t.utxos, hashes)
    requires forall k :: k in t.utxos && t.utxos[k].spentTxHash.None? ==> t.utxos[k].spentSlot.None?
    requires after.utxos == UtxosAfter(t.utxos, e)
    ensures Reverted(after, hashes).utxos == t.utxos
  {
    HoldingsAfter(t, e);
    forall k | k in t.utxos
      ensures k in UtxosAfter(t.utxos, e) && RevertedRow(UtxosAfter(t.utxos, e)[k], hashes) == t.utxos[k]
    {
      OldRowRestored(t, e, hashes, k);
    }
    hide UtxosAfter;
  }

  lemma AssetsRestored(t: Tables, e: Effect, hashes: set<Hash>, after: Tables)
    requires Within(e, hashes) && Unseen(t.utxos, hashes) && AssetsOwned(t)
    requires after.assets == AssetsAfter(t.assets, e)
    ensures Reverted(after, hashes).assets == t.assets
  {
    CreatedAssetOwners(e);
    hide CreatedAssets;
  }

  lemma CreatedAssetOwners(e: Effect)
    ensures forall ku :: ku in CreatedAssets(e.created) ==> ku.0 in e.created
  {
  }

  ghost predicate SameRows(t: Tables, t': Tables) {
    t.utxos == t'.utxos && t.assets == t'.assets
  }

  lemma RevertedSameRows(t: Tables, t': Tables, hashes: set<Hash>)
    requires SameRows(t, t')
    ensures SameRows(Reverted(t, hashes), Reverted(t', hashes))
    ensures RevertedAddresses(t, hashes) == RevertedAddresses(t', hashes)
  {
  }

  /** The tables once the rows are written and before any sum is. */
  function Written(t: Tables, e: Effect): Tables {
    t.(utxos := UtxosAfter(t.utxos, e), assets := AssetsAfter(t.assets, e))
  }

  lemma EffectRestored(decode: Decoder, t: Tables, e: Effect, hashes: set<Hash>)
    requires RowsWellFormed(decode, t.utxos, t.assets) && Within(e, hashes) && Unseen(t.utxos, hashes)
    ensures SameRows(Reverted(Written(t, e), hashes), t)
  {
    RowsRestored(t, e, hashes, Written(t, e));
    AssetsRestored(t, e, hashes, Written(t, e));
  }

  lemma BlockRestored(decode: Decoder, t: Tables, b: Block)
    requires RowsWellFormed(decode, t.utxos, t.assets) && Unseen(t.utxos, HashesOf(b))
    ensures SameRows(Reverted(ApplyBlock(decode, t, b), HashesOf(b)), t)
  {
    hide BlockEffect, UtxosAfter, AssetsAfter, AddressesAfter, AddressAssetsAfter, AccountsAfter, HashesOf, Reverted;
    hide RowsWellFormed, Within, Unseen;
    BlockWithin(decode, b);
    EffectRestored(decode, t, BlockEffect(decode, b), HashesOf(b));
    RevertedSameRows(Written(t, BlockEffect(decode, b)), ApplyBlock(decode, t, b), HashesOf(b));
  }

  /** Undoing a block together with earlier ones leaves the rows that undoing only the earlier ones leaves. */
  lemma UndoneBlock(decode: Decoder, t: Tables, b: Block, earlier: set<Hash>)
    requires Consistent(decode, t) && Legal(decode, t, b)
    ensures SameRows(Reverted(ApplyBlock(decode, t, b), HashesOf(b) + earlier), Reverted(t, earlier))
  {
    hide ApplyBlock, HashesOf, Reverted;
    hide AddressAgrees, AccountAgrees, AddressDecoded, RowsWellFormed;
    BlockRestored(decode, t, b);
    RevertedTwice(ApplyBlock(decode, t, b), HashesOf(b), earlier);
    RevertedSameRows(Reverted(ApplyBlock(decode, t, b), HashesOf(b)), t, earlier);
  }

  /** A forward run ends with its last block. */
  lemma RunForward(decode: Decoder, t: Tables, blocks: seq<Block>)
    requires blocks != []
    ensures
      var front, last := blocks[..|blocks| - 1], blocks[|blocks| - 1];
      var mid := Run(decode, t, Forward(front));
      && Run(decode, t, Forward(blocks)) == ApplyBlock(decode, mid, last)
      && (LegalRun(decode, t, Forward(blocks)) <==> LegalRun(decode, t, Forward(front)) && Legal(decode, mid, last))
  {
    var front, last := blocks[..|blocks| - 1], blocks[|blocks| - 1];
    assert Forward(blocks)[..|blocks| - 1] == Forward(front);
    assert Forward(blocks)[|blocks| - 1] == Applied(last);
    hide Legal, ApplyBlock, Forward;
  }

  lemma RevertedNothing(t: Tables)
    ensures Reverted(t, {}) == t && RevertedAddresses(t, {}) == {}
  {
    assert Reverted(t, {}).utxos == t.utxos && Reverted(t, {}).assets == t.assets;
  }

  lemma RunNothing(decode: Decoder, t: Tables)
    ensures Run(decode, t, Forward([])) == t && LegalRun(decode, t, Forward([]))
  {
    assert Forward([]) == [];
  }

  /** After any blocks, undoing all their transactions in one call restores the output and asset rows. */
  lemma {:induction false} RollbackRestoresRows(decode: Decoder, t: Tables, blocks: seq<Block>)
    requires Consistent(decode, t) && LegalRun(decode, t, Forward(blocks))
    ensures SameRows(Reverted(Run(decode, t, Forward(blocks)), AllHashes(blocks)), t)
  {
    hide Consistent, Legal, ApplyBlock, Reverted, HashesOf, Forward, Run, LegalRun;
    if blocks == [] {
      RunNothing(decode, t);
      RevertedNothing(t);
    } else {
      var front, last := blocks[..|blocks| - 1], blocks[|blocks| - 1];
      RunForward(decode, t, blocks);
      RollbackRestoresRows(decode, t, front);
      ReachableConsistent(decode, t, Forward(front));
      UndoneBlock(decode, Run(decode, t, Forward(front)), last, AllHashes(front));
      assert AllHashes(blocks) == HashesOf(last) + AllHashes(front);
    }
  }

  // ---------------------------------------------------------------- equal sums

  /** Equal sums, counting a missing row as zero: an address or account left behind at zero changes nothing. */
  ghost predicate SameSums(t: Tables, t': Tables) {
    && (forall a :: TotalOf(t, a) == TotalOf(t', a) && CountOf(t, a) == CountOf(t', a))
    && t.addressAssets == t'.addressAssets
    && (forall s :: ControlledOf(t, s) == ControlledOf(t', s) && AccountUtxosOf(t, s) == AccountUtxosOf(t', s))
  }

  function ControlledOf(t: Tables, s: string): int {
    if s in t.accounts then t.accounts[s].controlledAmount else 0
  }

  function AccountUtxosOf(t: Tables, s: string): int {
    if s in t.accounts then t.accounts[s].utxoCount else 0
  }

  function AddressCountOf(t: Tables, s: string): int {
    if s in t.accounts then t.accounts[s].addressCount else 0
  }

  lemma AccountSums(t: Tables, s: string)
    requires AccountAgrees(t, s)
    ensures AddressCountOf(t, s) == MapSum(t.addresses, AccountAddresses(s))
    ensures ControlledOf(t, s) == MapSum(t.addresses, AccountLovelace(s))
    ensures AccountUtxosOf(t, s) == MapSum(t.addresses, AccountUtxos(s))
  {
    if s !in t.accounts {
      NoRowsNoSum(t.addresses, s);
    }
  }

  lemma SameAccountSums(decode: Decoder, t: Tables, t': Tables, s: string)
    requires forall a :: a in t.addresses ==> AddressDecoded(decode, a, t.addresses[a])
    requires forall a :: a in t'.addresses ==> AddressDecoded(decode, a, t'.addresses[a])
    requires forall a :: TotalOf(t, a) == TotalOf(t', a) && CountOf(t, a) == CountOf(t', a)
    requires AccountAgrees(t, s) && AccountAgrees(t', s)
    ensures ControlledOf(t, s) == ControlledOf(t', s) && AccountUtxosOf(t, s) == AccountUtxosOf(t', s)
  {
    AccountSums(t, s);
    AccountSums(t', s);
    hide MapSum;
    forall a | a in t.addresses || a in t'.addresses
      ensures TotalOf(t, a) == TotalOf(t', a) && CountOf(t, a) == CountOf(t', a)
    {
    }
    SumAgree(t.addresses, t'.addresses, AccountLovelace(s), AccountLovelace(s));
    SumAgree(t.addresses, t'.addresses, AccountUtxos(s), AccountUtxos(s));
  }

  lemma SameStoredAssets(decode: Decoder, t: Tables, t': Tables)
    requires Consistent(decode, t) && Consistent(decode, t') && SameRows(t, t')
    ensures t.addressAssets == t'.addressAssets
  {
    forall a, u
      ensures StoredQuantity(t.addressAssets, a, u) == StoredQuantity(t'.addressAssets, a, u)
    {
      assert AddressAgrees(t, a) && AddressAgrees(t', a);
    }
    hide RowsWellFormed, AddressAgrees, AccountAgrees;
    forall au
      ensures au in t.addressAssets <==> au in t'.addressAssets
      ensures au in t.addressAssets ==> t.addressAssets[au] == t'.addressAssets[au]
    {
      assert StoredQuantity(t.addressAssets, au.0, au.1) == StoredQuantity(t'.addressAssets, au.0, au.1);
      assert (au.0, au.1) == au;
    }
  }

  /** The rows determine the sums. */
  lemma RowsDetermineSums(decode: Decoder, t: Tables, t': Tables)
    requires Consistent(decode, t) && Consistent(decode, t') && SameRows(t, t')
    ensures SameSums(t, t')
  {
    SameStoredAssets(decode, t, t');
    forall a
      ensures TotalOf(t, a) == TotalOf(t', a) && CountOf(t, a) == CountOf(t', a)
    {
      assert AddressAgrees(t, a) && AddressAgrees(t', a);
    }
    forall s
      ensures ControlledOf(t, s) == ControlledOf(t', s) && AccountUtxosOf(t, s) == AccountUtxosOf(t', s)
    {
      assert AccountAgrees(t, s) && AccountAgrees(t', s);
      SameAccountSums(decode, t, t', s);
    }
  }

  // ---------------------------------------------------------------- the rollback theorems

  lemma UndoRows(decode: Decoder, t: Tables, hashes: set<Hash>)
    ensures SameRows(Undo(decode, t, hashes), Reverted(t, hashes))
  {
  }

  /** Rolling back to any earlier block gives the rows of that block and, counting zero rows as absent, its sums. */
  lemma RollbackInvertsChain(decode: Decoder, t: Tables, kept: seq<Event>, undone: seq<Block>)
    requires Consistent(decode, t) && LegalRun(decode, t, kept)
    requires LegalRun(decode, Run(decode, t, kept), Forward(undone))
    ensures
      var at := Run(decode, t, kept);
      var back := Undo(decode, Run(decode, at, Forward(undone)), AllHashes(undone));
      SameRows(back, at) && SameSums(back, at) && Consistent(decode, back)
  {
    hide Consistent, Legal, Reverted, Forward, Step, Undo;
    var at := Run(decode, t, kept);
    ReachableConsistent(decode, t, kept);
    ReachableConsistent(decode, at, Forward(undone));
    var tip := Run(decode, at, Forward(undone));
    RollbackRestoresRows(decode, at, undone);
    UndoRows(decode, tip, AllHashes(undone));
    UndoKeepsConsistent(decode, tip, AllHashes(undone));
    RowsDetermineSums(decode, Undo(decode, tip, AllHashes(undone)), at);
  }

  /** What a block does to the rows, and whether it is legal, depends on the rows alone. */
  lemma SameRowsStep(decode: Decoder, t: Tables, t': Tables, b: Block)
    requires SameRows(t, t')
    ensures SameRows(ApplyBlock(decode, t, b), ApplyBlock(decode, t', b))
    ensures Legal(decode, t, b) <==> Legal(decode, t', b)
  {
  }

  lemma {:induction false} SameRowsRun(decode: Decoder, t: Tables, t': Tables, blocks: seq<Block>)
    requires SameRows(t, t')
    ensures SameRows(Run(decode, t, Forward(blocks)), Run(decode, t', Forward(blocks)))
    ensures LegalRun(decode, t, Forward(blocks)) <==> LegalRun(decode, t', Forward(blocks))
  {
    if blocks != [] {
      var front, last := blocks[..|blocks| - 1], blocks[|blocks| - 1];
      RunForward(decode, t, blocks);
      RunForward(decode, t', blocks);
      hide Legal, ApplyBlock, Forward, SameRows, Run, LegalRun;
      SameRowsRun(decode, t, t', front);
      SameRowsStep(decode, Run(decode, t, Forward(front)), Run(decode, t', Forward(front)), last);
    }
  }

  /** After a reorg the set is the one a crawl that never saw the abandoned fork would hold. */
  lemma ForkLeavesNoTrace(decode: Decoder, t: Tables, abandoned: seq<Block>, adopted: seq<Block>)
    requires Consistent(decode, t)
    requires LegalRun(decode, t, Forward(abandoned)) && LegalRun(decode, t, Forward(adopted))
    ensures
      var back := Undo(decode, Run(decode, t, Forward(abandoned)), AllHashes(abandoned));
      var reorged, direct := Run(decode, back, Forward(adopted)), Run(decode, t, Forward(adopted));
      SameRows(reorged, direct) && SameSums(reorged, direct)
  {
    var none: seq<Event> := [];
    RollbackInvertsChain(decode, t, none, abandoned);
    var back := Undo(decode, Run(decode, t, Forward(abandoned)), AllHashes(abandoned));
    hide Consistent, Legal, Forward, Step, Undo, SameRows, SameSums;
    SameRowsRun(decode, back, t, adopted);
    ReachableConsistent(decode, back, Forward(adopted));
    ReachableConsistent(decode, t, Forward(adopted));
    RowsDetermineSums(decode, Run(decode, back, Forward(adopted)), Run(decode, t, Forward(adopted)));
  }

  // ---------------------------------------------------------------- delta path and recount path

  lemma UntouchedAgrees(t: Tables, e: Effect, a: Address)
    requires AddressAgrees(t, a) && AssetsOwned(t) && Fresh(t, e) && a !in Touched(t, e) && Distinct(AllSpent(t.utxos, e))
    ensures AddressAgrees(Written(t, e), a)
  {
    hide MapSum, Touched, UtxosAfter, AssetsAfter, OpenSum;
    OpenSumAfter(t, e, LovelaceAt(a));
    OpenSumAfter(t, e, CountAt(a));
    UntouchedDelta(t, e, a, LovelaceAt(a));
    UntouchedDelta(t, e, a, CountAt(a));
    forall u
      ensures StoredQuantity(t.addressAssets, a, u) == OpenSum(UtxosAfter(t.utxos, e), UnitAt(AssetsAfter(t.assets, e), a, u))
    {
      OldUnits(t, e, a, u);
      OpenSumAfter(t, e, UnitAt(AssetsAfter(t.assets, e), a, u));
      UntouchedDelta(t, e, a, UnitAt(AssetsAfter(t.assets, e), a, u));
    }
  }

  /** The incremental update equals writing the rows and recounting the addresses the block touches. */
  lemma DeltaRefinesRecount(decode: Decoder, t: Tables, b: Block)
    requires Consistent(decode, t) && Legal(decode, t, b)
    ensures
      var e := BlockEffect(decode, b);
      var recounted := Recount(decode, Written(t, e), Touched(t, e));
      SameRows(ApplyBlock(decode, t, b), recounted) && SameSums(ApplyBlock(decode, t, b), recounted)
      && ApplyBlock(decode, t, b).addresses.Keys == recounted.addresses.Keys
      && ApplyBlock(decode, t, b).accounts.Keys == recounted.accounts.Keys
      && forall s :: AddressCountOf(ApplyBlock(decode, t, b), s) == AddressCountOf(recounted, s)
  {
    var e := BlockEffect(decode, b);
    BlockBuilt(decode, t, b);
    ApplyBlockConsistent(decode, t, b);
    WrittenRepairable(decode, t, e);
    SameAddressKeys(decode, t, e);
    SameAccountKeys(decode, t, e);
    hide Consistent, Repairable, RowsWellFormed, Touched, Apply, Recount;
    var recounted := Recount(decode, Written(t, e), Touched(t, e));
    RecountRepairs(decode, Written(t, e), Touched(t, e));
    RowsDetermineSums(decode, ApplyBlock(decode, t, b), recounted);
    SameAddressCounts(decode, ApplyBlock(decode, t, b), recounted);
  }

  lemma SameAddressKeys(decode: Decoder, t: Tables, e: Effect)
    ensures Apply(decode, t, e).addresses.Keys == Recount(decode, Written(t, e), Touched(t, e)).addresses.Keys
  {
    hide Touched, AddressAfter, RecountedAddress, RecountedAssets, RecountedAccount, TouchedStakes, AddressAssetsAfter, AccountsAfter, UtxosAfter;
  }

  /** Both ways write the accounts of the stake keys the touched addresses belong to. */
  lemma SameAccountKeys(decode: Decoder, t: Tables, e: Effect)
    ensures Apply(decode, t, e).accounts.Keys == Recount(decode, Written(t, e), Touched(t, e)).accounts.Keys
  {
    var touched := Touched(t, e);
    hide Touched, AddressAfter, RecountedAddress, RecountedAssets, RecountedAccount, AccountAfter, AddressAssetsAfter, UtxosAfter, AssetsAfter;
    assert forall a :: StakeOf(decode, Written(t, e), a) == StakeOf(decode, t, a);
    hide StakeOf;
    assert TouchedStakes(decode, Written(t, e), touched) == TouchedStakes(decode, t, touched);
  }

  /** Consistent ledgers with the same address rows count the same addresses per stake key. */
  lemma SameAddressCounts(decode: Decoder, t: Tables, t': Tables)
    requires Consistent(decode, t) && Consistent(decode, t') && t.addresses.Keys == t'.addresses.Keys
    ensures forall s :: AddressCountOf(t, s) == AddressCountOf(t', s)
  {
    hide RowsWellFormed, AddressAgrees, MapSum;
    forall s
      ensures AddressCountOf(t, s) == AddressCountOf(t', s)
    {
      AccountSums(t, s);
      AccountSums(t', s);
      assert forall a :: a in t.addresses ==> a in t'.addresses && t.addresses[a].stakeAddress == t'.addresses[a].stakeAddress;
      SumAgree(t.addresses, t'.addresses, AccountAddresses(s), AccountAddresses(s));
    }
  }

  lemma WrittenAddresses(decode: Decoder, t: Tables, e: Effect)
    requires forall k :: k in t.utxos ==> t.utxos[k].held.address in t.addresses
    ensures forall k :: k in UtxosAfter(t.utxos, e) ==> UtxosAfter(t.utxos, e)[k].held.address in t.addresses.Keys + Touched(t, e)
  {
    HoldingsAfter(t, e);
    hide UtxosAfter;
    forall k | k in UtxosAfter(t.utxos, e)
      ensures UtxosAfter(t.utxos, e)[k].held.address in t.addresses.Keys + Touched(t, e)
    {
      assert k in e.created ==> e.created[k].held.address in Touched(t, e);
    }
  }

  lemma WrittenAccounts(t: Tables, e: Effect)
    requires forall s :: AccountAgrees(t, s)
    ensures forall s :: AccountAgrees(Written(t, e), s)
  {
    hide UtxosAfter, AssetsAfter, MapSum;
    forall s
      ensures AccountAgrees(Written(t, e), s)
    {
      assert AccountAgrees(t, s);
    }
  }

  lemma WrittenSums(t: Tables, e: Effect)
    requires forall a :: AddressAgrees(t, a)
    requires AssetsOwned(t) && Fresh(t, e) && Distinct(AllSpent(t.utxos, e))
    ensures forall a :: a !in Touched(t, e) ==> AddressAgrees(Written(t, e), a)
  {
    hide UtxosAfter, AssetsAfter, Touched, AddressAgrees, AllSpent, Fresh;
    forall a | a !in Touched(t, e)
      ensures AddressAgrees(Written(t, e), a)
    {
      UntouchedAgrees(t, e, a);
    }
  }

  lemma WellFormedOwned(decode: Decoder, t: Tables)
    requires RowsWellFormed(decode, t.utxos, t.assets)
    ensures AssetsOwned(t)
  {
  }

  lemma WrittenRepairable(decode: Decoder, t: Tables, e: Effect)
    requires Consistent(decode, t) && Fresh(t, e) && WellBuilt(decode, e) && Distinct(AllSpent(t.utxos, e))
    ensures Repairable(decode, Written(t, e), Touched(t, e))
  {
    hide UtxosAfter, AssetsAfter, Touched, RowsWellFormed, TouchedStakes, AddressDecoded, AddressAgrees, AccountAgrees;
    hide WellBuilt, AllSpent, Fresh, MapSum;
    WellFormedOwned(decode, t);
    RowsAfter(decode, t, e);
    WrittenAddresses(decode, t, e);
    WrittenSums(t, e);
    WrittenAccounts(t, e);
  }
}
