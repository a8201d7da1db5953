/**
 What one block leaves in the output tables, said of the transactions alone: which rows there are, what each
 column of a new row holds, and which rows are marked as spent by whom.
 */
module LedgerColumns {
  import opened Options
  import opened Chain
  import opened Sums
  import opened LedgerRules
  import opened LedgerApplyProofs
  import opened LedgerRollbackProofs

  // ---------------------------------------------------------------- what transactions produce and consume

  /** Output `j` of transaction `n` exists on the chain: the collateral return of a failed one, a regular one else. */
  predicate Produces(b: Block, n: int, j: int) {
    && 0 <= n < |b.txs| && 0 <= j < |b.txs[n].outputs|
    && b.txs[n].outputs[j].isCollateral == (b.txs[n].spendsCollaterals == Some(true))
  }

  function ProducedKey(b: Block, n: int, j: int): OutPoint
    requires Produces(b, n, j)
  {
    OutPoint(b.txs[n].hash, b.txs[n].outputs[j].outputIndex)
  }

  /** Transaction `n` spends the outpoint: by collateral when it failed, by a regular input else. */
  predicate SpendsKey(b: Block, n: int, i: int, k: OutPoint) {
    && 0 <= n < |b.txs| && 0 <= i < |b.txs[n].inputs| && b.txs[n].inputs[i].source == k
    && b.txs[n].inputs[i].isCollateral == (b.txs[n].spendsCollaterals == Some(true))
    && (b.txs[n].inputs[i].isReference ==> b.txs[n].spendsCollaterals == Some(true))
  }

  ghost predicate SpentBy(b: Block, n: int, k: OutPoint) {
    exists i :: SpendsKey(b, n, i, k)
  }

  /** The last transaction of the block that spends the outpoint. */
  ghost predicate LastSpender(b: Block, n: int, k: OutPoint) {
    SpentBy(b, n, k) && forall m :: SpentBy(b, m, k) ==> m <= n
  }

  /** No two outputs of the block share an outpoint. */
  ghost predicate DistinctProduced(b: Block) {
    forall n, j, m, x :: Produces(b, n, j) && Produces(b, m, x) && ProducedKey(b, n, j) == ProducedKey(b, m, x) ==> n == m && j == x
  }

  /** The first lovelace entry, 0 without one. */
  ghost predicate IsLovelace(lovelace: nat, amount: seq<Amount>) {
    if exists a :: a in amount && a.unit == LOVELACE
    then exists i :: 0 <= i < |amount| && amount[i] == Amount(LOVELACE, lovelace) && forall x :: 0 <= x < i ==> amount[x].unit != LOVELACE
    else lovelace == 0
  }

  // ---------------------------------------------------------------- lists of creations and spends

  lemma {:induction false} CreationsAre(b: Block, c: Creation, m: nat)
    requires m <= |b.txs|
    ensures c in Creations(b.txs[..m]) <==> exists n, j :: n < m && Produces(b, n, j) && c == Creation(ProducedKey(b, n, j), b.txs[n].outputs[j])
  {
    if m > 0 {
      assert b.txs[..m][..m - 1] == b.txs[..m - 1];
      CreationsAre(b, c, m - 1);
      CreationsOfAre(b, m - 1, c);
      hide CreationsOf, Produces;
      assert c in Creations(b.txs[..m]) <==> c in Creations(b.txs[..m - 1]) || c in CreationsOf(b.txs[m - 1]);
    }
  }

  lemma CreationsOfAre(b: Block, n: nat, c: Creation)
    requires n < |b.txs|
    ensures c in CreationsOf(b.txs[n]) <==> exists j :: Produces(b, n, j) && c == Creation(ProducedKey(b, n, j), b.txs[n].outputs[j])
  {
    var t := b.txs[n];
    var outs := ProducedOutputs(t);
    if c in CreationsOf(t) {
      var i :| 0 <= i < |outs| && CreationsOf(t)[i] == c;
      assert outs[i] in outs;
      var j :| 0 <= j < |t.outputs| && t.outputs[j] == outs[i];
      assert Produces(b, n, j);
    }
    if j :| Produces(b, n, j) && c == Creation(ProducedKey(b, n, j), t.outputs[j]) {
      assert t.outputs[j] in outs;
      var i :| 0 <= i < |outs| && outs[i] == t.outputs[j];
      assert CreationsOf(t)[i] == c;
    }
  }

  lemma SpendsOfAre(b: Block, n: nat, k: OutPoint)
    requires n < |b.txs|
    ensures Spend(k, b.txs[n].hash) in SpendsOf(b.txs[n]) <==> SpentBy(b, n, k)
  {
    var t := b.txs[n];
    var ins := ConsumedInputs(t);
    if Spend(k, t.hash) in SpendsOf(t) {
      var x :| 0 <= x < |ins| && SpendsOf(t)[x].key == k;
      assert ins[x] in ins;
      var i :| 0 <= i < |t.inputs| && t.inputs[i] == ins[x];
      assert IsConsumed(t, t.inputs[i]) && SpendsKey(b, n, i, k);
    }
    if i :| SpendsKey(b, n, i, k) {
      assert t.inputs[i] in ins;
      var x :| 0 <= x < |ins| && ins[x] == t.inputs[i];
      assert SpendsOf(t)[x] == Spend(k, t.hash);
    }
  }

  /** Further spends by one transaction override what was recorded for their outpoints, and nothing else. */
  lemma {:induction false} SpendersConcat(spends: seq<Spend>, more: seq<Spend>, h: Hash, k: OutPoint)
    requires forall s :: s in more ==> s.spender == h
    ensures Spend(k, h) in more ==> k in Spenders(spends + more) && Spenders(spends + more)[k] == h
    ensures Spend(k, h) !in more ==> (k in Spenders(spends + more) <==> k in Spenders(spends))
    ensures Spend(k, h) !in more && k in Spenders(spends) ==> Spenders(spends + more)[k] == Spenders(spends)[k]
  {
    if more == [] {
      assert spends + more == spends;
    } else {
      var front, last := more[..|more| - 1], more[|more| - 1];
      assert more == front + [last];
      SpendersConcat(spends, front, h, k);
      assert (spends + more)[..|spends + more| - 1] == spends + front;
    }
  }

  /** The last spender among the first `m` transactions. */
  ghost predicate LastBefore(b: Block, k: OutPoint, m: nat, n: int) {
    0 <= n < m && SpentBy(b, n, k) && forall x :: x < m && SpentBy(b, x, k) ==> x <= n
  }

  /** The recorded spender of the outpoint is the last one among the first `m` transactions. */
  ghost predicate Records(b: Block, k: OutPoint, m: nat, spenders: map<OutPoint, Hash>)
    requires m <= |b.txs|
  {
    && (k in spenders <==> exists n :: n < m && SpentBy(b, n, k))
    && (k in spenders ==> exists n :: LastBefore(b, k, m, n) && spenders[k] == b.txs[n].hash)
  }

  lemma RecordsNext(b: Block, k: OutPoint, m: nat, before: map<OutPoint, Hash>, after: map<OutPoint, Hash>)
    requires m < |b.txs| && Records(b, k, m, before)
    requires SpentBy(b, m, k) ==> k in after && after[k] == b.txs[m].hash
    requires !SpentBy(b, m, k) ==> (k in after <==> k in before) && (k in before ==> after[k] == before[k])
    ensures Records(b, k, m + 1, after)
  {
    hide SpentBy;
    if SpentBy(b, m, k) {
      assert LastBefore(b, k, m + 1, m);
    } else if k in before {
      var n :| LastBefore(b, k, m, n) && before[k] == b.txs[n].hash;
      assert LastBefore(b, k, m + 1, n);
    }
  }

  lemma {:induction false} SpendersAre(b: Block, k: OutPoint, m: nat)
    requires m <= |b.txs|
    ensures Records(b, k, m, Spenders(Spends(b.txs[..m])))
  {
    if m == 0 {
      assert forall n :: SpentBy(b, n, k) ==> n >= 0;
    } else {
      hide SpendsOf, SpentBy, Spenders, Records;
      assert b.txs[..m][..m - 1] == b.txs[..m - 1];
      SpendersAre(b, k, m - 1);
      SpendsOfAre(b, m - 1, k);
      SpendersOfOne(b.txs[m - 1]);
      SpendersConcat(Spends(b.txs[..m - 1]), SpendsOf(b.txs[m - 1]), b.txs[m - 1].hash, k);
      RecordsNext(b, k, m - 1, Spenders(Spends(b.txs[..m - 1])), Spenders(Spends(b.txs[..m])));
    }
  }

  lemma SpendersOfOne(t: Tx)
    ensures forall s :: s in SpendsOf(t) ==> s.spender == t.hash
  {
  }

  /** An open row is marked with the last spender of its outpoint, at the slot of the block. */
  ghost predicate IsMarked(b: Block, k: OutPoint, r: UtxoRow) {
    if exists n :: SpentBy(b, n, k)
    then exists n :: LastSpender(b, n, k) && r.spentTxHash == Some(b.txs[n].hash) && r.spentSlot == Some(b.slot)
    else r.spentTxHash.None? && r.spentSlot.None?
  }

  lemma MarkedIs(b: Block, k: OutPoint, r: UtxoRow)
    requires r.spentTxHash == (if k in Spenders(Spends(b.txs)) then Some(Spenders(Spends(b.txs))[k]) else None)
    requires r.spentSlot == (if k in Spenders(Spends(b.txs)) then Some(b.slot) else None)
    ensures IsMarked(b, k, r)
  {
    assert b.txs[..|b.txs|] == b.txs;
    SpendersAre(b, k, |b.txs|);
    assert forall n :: SpentBy(b, n, k) ==> n < |b.txs|;
    hide SpentBy, Spenders, Spends;
    if k in Spenders(Spends(b.txs)) {
      var n :| LastBefore(b, k, |b.txs|, n) && Spenders(Spends(b.txs))[k] == b.txs[n].hash;
      assert LastSpender(b, n, k);
    }
  }

  // ---------------------------------------------------------------- new rows

  /** The columns of the row written for output `o`. */
  ghost predicate IsRowOf(decode: Decoder, slot: nat, o: Output, h: Holding) {
    && h.address == o.address
    && h.stakeAddress == decode(o.address).stakeAddress
    && h.addressType == decode(o.address).addressType
    && h.isScript == decode(o.address).isScript
    && h.paymentCredential == decode(o.address).paymentCredential
    && IsLovelace(h.lovelace, o.amount)
    && h.createdSlot == Some(slot)
    && SameData(h.data, o.data)
    && (h.hasAssets <==> exists a :: a in o.amount && a.unit != LOVELACE && a.quantity > 0)
  }

  lemma {:induction false} LovelaceIs(amount: seq<Amount>)
    ensures IsLovelace(LovelaceOf(amount), amount)
  {
    if amount != [] {
      assert amount == [amount[0]] + amount[1..];
      LovelaceIs(amount[1..]);
      if amount[0].unit == LOVELACE {
        assert amount[0] in amount;
        assert amount[0] == Amount(LOVELACE, LovelaceOf(amount));
      } else if exists a :: a in amount[1..] && a.unit == LOVELACE {
        var i :| 0 <= i < |amount[1..]| && amount[1..][i] == Amount(LOVELACE, LovelaceOf(amount))
                 && forall x :: 0 <= x < i ==> amount[1..][x].unit != LOVELACE;
        assert amount[i + 1] == Amount(LOVELACE, LovelaceOf(amount));
        forall x | 0 <= x < i + 1
          ensures amount[x].unit != LOVELACE
        {
          assert x > 0 ==> amount[x] == amount[1..][x - 1];
        }
      }
    }
  }

  lemma BuiltIsRow(decode: Decoder, o: Output, slot: nat)
    ensures IsRowOf(decode, slot, o, BuildRows(decode, o, Some(slot)).held)
  {
    LovelaceIs(o.amount);
    var assets := NativeAssets(o.amount);
    hide LovelaceOf, IsLovelace;
    if a :| a in o.amount && a.unit != LOVELACE && a.quantity > 0 {
      assert a in assets;
    }
    if assets != [] {
      assert assets[0] in assets;
    }
  }

  /** The block builds, under the outpoint of each output it produces, that output's row. */
  lemma BuiltUnderKey(decode: Decoder, b: Block, n: int, j: int)
    requires Produces(b, n, j) && DistinctProduced(b)
    ensures
      var k := ProducedKey(b, n, j);
      k in BlockEffect(decode, b).created && BlockEffect(decode, b).created[k] == BuildRows(decode, b.txs[n].outputs[j], Some(b.slot))
  {
    var k, cs := ProducedKey(b, n, j), Creations(b.txs);
    var own := Creation(k, b.txs[n].outputs[j]);
    assert b.txs[..|b.txs|] == b.txs;
    CreationsAre(b, own, |b.txs|);
    BuildAllHas(decode, b.slot, cs, own);
    BuildAllEntries(decode, b.slot, cs);
    hide BuildAll, BuildRows, Creations;
    var c :| c in cs && c.key == k && BuildAll(decode, b.slot, cs)[k] == BuildRows(decode, c.output, Some(b.slot));
    CreationsAre(b, c, |b.txs|);
  }

  lemma {:induction false} BuildAllHas(decode: Decoder, slot: nat, cs: seq<Creation>, c: Creation)
    requires c in cs
    ensures c.key in BuildAll(decode, slot, cs)
  {
    var front := cs[..|cs| - 1];
    assert cs == front + [cs[|cs| - 1]];
    if c in front {
      BuildAllHas(decode, slot, front, c);
    }
  }

  /** Only outputs the block produces are built. */
  lemma BuiltIsProduced(decode: Decoder, b: Block, k: OutPoint)
    requires k in BlockEffect(decode, b).created
    ensures exists n, j :: Produces(b, n, j) && ProducedKey(b, n, j) == k
  {
    var cs := Creations(b.txs);
    BuildAllEntries(decode, b.slot, cs);
    var c :| c in cs && c.key == k;
    assert b.txs[..|b.txs|] == b.txs;
    CreationsAre(b, c, |b.txs|);
  }

  // ---------------------------------------------------------------- the theorems

  /** Every output the block produces has its row, column by column, marked if the block spends it again. */
  lemma NewRow(decode: Decoder, t: Tables, b: Block, n: int, j: int)
    requires Produces(b, n, j) && DistinctProduced(b)
    ensures
      var k, after := ProducedKey(b, n, j), ApplyBlock(decode, t, b).utxos;
      k in after && IsRowOf(decode, b.slot, b.txs[n].outputs[j], after[k].held) && IsMarked(b, k, after[k])
  {
    var k := ProducedKey(b, n, j);
    BuiltUnderKey(decode, b, n, j);
    BuiltIsRow(decode, b.txs[n].outputs[j], b.slot);
    hide BuildAll, BuildRows, Spenders, IsRowOf, IsMarked;
    MarkedIs(b, k, ApplyBlock(decode, t, b).utxos[k]);
  }

  /** The asset rows of a new output are its native amounts. */
  lemma NewAssets(decode: Decoder, t: Tables, b: Block, n: int, j: int, u: Unit)
    requires Produces(b, n, j) && DistinctProduced(b) && (ProducedKey(b, n, j), u) !in t.assets
    ensures
      var ku, after := (ProducedKey(b, n, j), u), ApplyBlock(decode, t, b).assets;
      && (ku in after <==> exists a :: a in b.txs[n].outputs[j].amount && a.unit == u && u != LOVELACE && a.quantity > 0)
      && (ku in after ==> Amount(u, after[ku]) in b.txs[n].outputs[j].amount)
  {
    hide BuildAll, Spenders, UnitsOf, NativeAssets, AddressesAfter, AddressAssetsAfter, AccountsAfter, UtxosAfter, CreatedAssets;
    BuiltUnderKey(decode, b, n, j);
    NativeRows(b.txs[n].outputs[j].amount, u);
    AddedAssetRow(t.assets, BlockEffect(decode, b), ProducedKey(b, n, j), u);
  }

  lemma AddedAssetRow(assets: map<(OutPoint, Unit), nat>, e: Effect, k: OutPoint, u: Unit)
    requires k in e.created && (k, u) !in assets
    ensures
      var after := AssetsAfter(assets, e);
      && ((k, u) in after <==> u in UnitsOf(e.created[k].assets))
      && ((k, u) in after ==> after[(k, u)] == UnitsOf(e.created[k].assets)[u])
  {
  }

  lemma NativeRows(amount: seq<Amount>, u: Unit)
    ensures
      var rows := UnitsOf(NativeAssets(amount));
      && (u in rows <==> exists a :: a in amount && a.unit == u && u != LOVELACE && a.quantity > 0)
      && (u in rows ==> Amount(u, rows[u]) in amount)
  {
    var assets := NativeAssets(amount);
    UnitsOfMembers(assets);
    hide UnitsOf;
    if a :| a in amount && a.unit == u && u != LOVELACE && a.quantity > 0 {
      assert a in assets;
      var i :| 0 <= i < |assets| && assets[i] == a;
      assert assets[i].unit == u;
    }
  }

  /** Every other row keeps its columns; an open one is marked if the block spends it, a spent one stays as it was. */
  lemma OldRow(decode: Decoder, t: Tables, b: Block, k: OutPoint)
    requires forall n, j :: Produces(b, n, j) ==> ProducedKey(b, n, j) != k
    requires k in t.utxos ==> t.utxos[k].spentTxHash.None? ==> t.utxos[k].spentSlot.None?
    ensures
      var after := ApplyBlock(decode, t, b).utxos;
      && (k in after <==> k in t.utxos)
      && (k in after ==> after[k].held == t.utxos[k].held)
      && (k in after && t.utxos[k].spentTxHash.Some? ==> after[k] == t.utxos[k])
      && (k in after && t.utxos[k].spentTxHash.None? ==> IsMarked(b, k, after[k]))
  {
    if k in BlockEffect(decode, b).created {
      BuiltIsProduced(decode, b, k);
    }
    hide BuildAll, Spenders, IsMarked;
    if k in t.utxos && t.utxos[k].spentTxHash.None? {
      MarkedIs(b, k, ApplyBlock(decode, t, b).utxos[k]);
    }
  }

  // ---------------------------------------------------------------- who was active

  /** The block creates an output at the address, or spends a stored one there. */
  ghost predicate IsActive(t: Tables, b: Block, a: Address) {
    || (exists n, j :: Produces(b, n, j) && b.txs[n].outputs[j].address == a)
    || (exists k, n :: SpendsStored(t, b, n, k) && t.utxos[k].held.address == a)
  }

  /** Transaction `n` spends an open stored output that the block does not write anew. */
  ghost predicate SpendsStored(t: Tables, b: Block, n: int, k: OutPoint) {
    && k in t.utxos && t.utxos[k].spentTxHash.None? && SpentBy(b, n, k)
    && forall m, j :: Produces(b, m, j) ==> ProducedKey(b, m, j) != k
  }

  /**
   The decoded columns of a written address row: the credential is decoded anew, a known stake key, the type and
   the script flag stay.
   */
  ghost predicate IsDescribed(decode: Decoder, t: Tables, a: Address, r: AddressRow) {
    && r.paymentCredential == decode(a).paymentCredential
    && r.stakeAddress == (if a in t.addresses && t.addresses[a].stakeAddress.Some? then t.addresses[a].stakeAddress else decode(a).stakeAddress)
    && r.addressType == (if a in t.addresses then t.addresses[a].addressType else decode(a).addressType)
    && r.isScript == (if a in t.addresses then t.addresses[a].isScript else decode(a).isScript)
  }

  /** The addresses touched are the active ones. */
  lemma TouchedIsActive(decode: Decoder, t: Tables, b: Block, a: Address)
    requires DistinctProduced(b)
    ensures a in Touched(t, BlockEffect(decode, b)) <==> IsActive(t, b, a)
  {
    var e := BlockEffect(decode, b);
    AllSpentMembers(t, e);
    hide BuildAll, AllSpent, SpentBy, Spenders, Spends, Creations, BuildRows;
    if a in Touched(t, e) {
      if k :| k in e.created && e.created[k].held.address == a {
        BuiltIsProduced(decode, b, k);
        var n, j :| Produces(b, n, j) && ProducedKey(b, n, j) == k;
        CreatedAddress(decode, b, n, j);
      } else {
        var k :| k in AllSpent(t.utxos, e) && k in t.utxos && t.utxos[k].held.address == a;
        StoredSpent(decode, t, b, k);
      }
    }
    if n, j :| Produces(b, n, j) && b.txs[n].outputs[j].address == a {
      CreatedAddress(decode, b, n, j);
    }
    if k, n :| SpendsStored(t, b, n, k) && t.utxos[k].held.address == a {
      StoredSpent(decode, t, b, k);
    }
  }

  lemma CreatedAddress(decode: Decoder, b: Block, n: int, j: int)
    requires Produces(b, n, j) && DistinctProduced(b)
    ensures
      var k := ProducedKey(b, n, j);
      k in BlockEffect(decode, b).created && BlockEffect(decode, b).created[k].held.address == b.txs[n].outputs[j].address
  {
    BuiltUnderKey(decode, b, n, j);
    hide BuildAll, DistinctProduced;
  }

  /** The stored outputs a block spends are those some transaction of it spends. */
  lemma StoredSpent(decode: Decoder, t: Tables, b: Block, k: OutPoint)
    requires DistinctProduced(b)
    ensures k in AllSpent(t.utxos, BlockEffect(decode, b)) <==> exists n :: SpendsStored(t, b, n, k)
  {
    var e := BlockEffect(decode, b);
    AllSpentMembers(t, e);
    assert b.txs[..|b.txs|] == b.txs;
    SpendersAre(b, k, |b.txs|);
    assert forall n :: SpentBy(b, n, k) ==> n < |b.txs|;
    hide BuildAll, AllSpent, SpentBy, Spenders, Spends, DistinctProduced;
    if k in e.created {
      BuiltIsProduced(decode, b, k);
    }
    forall n, j | Produces(b, n, j) && ProducedKey(b, n, j) == k
      ensures k in e.created
    {
      CreatedAddress(decode, b, n, j);
    }
    if k in AllSpent(t.utxos, e) {
      var n :| n < |b.txs| && SpentBy(b, n, k);
      assert SpendsStored(t, b, n, k);
    }
  }

  /**
   Active addresses carry the slot as their last, new ones also as their first, and their decoded columns; the
   other rows stay as they were.
   */
  lemma AddressSlots(decode: Decoder, t: Tables, b: Block, a: Address)
    requires DistinctProduced(b)
    ensures
      var after := ApplyBlock(decode, t, b).addresses;
      if IsActive(t, b, a) then
        && a in after && after[a].lastActiveSlot == Some(b.slot)
        && after[a].firstSeenSlot == (if a in t.addresses then t.addresses[a].firstSeenSlot else Some(b.slot))
        && IsDescribed(decode, t, a, after[a])
      else (a in after <==> a in t.addresses) && (a in after ==> after[a] == t.addresses[a])
  {
    hide Touched, IsActive, Delta, DistinctProduced, BlockEffect, AddressWrite, IsDescribed, UtxosAfter, AssetsAfter, AddressAssetsAfter, AccountsAfter;
    TouchedIsActive(decode, t, b, a);
    var e := BlockEffect(decode, b);
    WrittenAddress(decode, t, b.slot, a, Delta(t, e, LovelaceAt(a)), Delta(t, e, CountAt(a)));
    SlotOf(decode, b);
  }

  lemma SlotOf(decode: Decoder, b: Block)
    ensures BlockEffect(decode, b).slot == b.slot
  {
  }

  lemma WrittenAddress(decode: Decoder, t: Tables, slot: nat, a: Address, lovelace: int, utxos: int)
    ensures
      var r := AddressWrite(decode, t, slot, a, lovelace, utxos);
      && r.lastActiveSlot == Some(slot) && IsDescribed(decode, t, a, r)
      && r.firstSeenSlot == if a in t.addresses then t.addresses[a].firstSeenSlot else Some(slot)
  {
  }

  /** So do the accounts of active addresses. */
  lemma AccountSlots(decode: Decoder, t: Tables, b: Block, s: string)
    requires DistinctProduced(b) && forall a :: a in t.addresses ==> AddressDecoded(decode, a, t.addresses[a])
    ensures
      var after := ApplyBlock(decode, t, b).accounts;
      if exists a :: IsActive(t, b, a) && decode(a).stakeAddress == Some(s) then s in after && after[s].lastActiveSlot == Some(b.slot)
      else (s in after <==> s in t.accounts) && (s in after ==> after[s] == t.accounts[s])
  {
    hide Touched, IsActive, Delta, DistinctProduced, BlockEffect, MapSum, UtxosAfter, AssetsAfter, AddressesAfter, AddressAssetsAfter, StakeOf;
    forall a
      ensures a in Touched(t, BlockEffect(decode, b)) <==> IsActive(t, b, a)
      ensures StakeOf(decode, t, a) == decode(a).stakeAddress
    {
      TouchedIsActive(decode, t, b, a);
      KnownStake(decode, t, a);
    }
    SlotOf(decode, b);
    if a :| IsActive(t, b, a) && decode(a).stakeAddress == Some(s) {
      assert StakeOf(decode, t, a) == Some(s);
    }
  }

  lemma KnownStake(decode: Decoder, t: Tables, a: Address)
    requires a in t.addresses ==> AddressDecoded(decode, a, t.addresses[a])
    ensures StakeOf(decode, t, a) == decode(a).stakeAddress
  {
  }

  /** A recount leaves the slots of address rows and accounts alone; a row it has to add has none. */
  lemma RecountColumns(decode: Decoder, t: Tables, addresses: set<Address>, a: Address, s: string)
    ensures
      var after := Recount(decode, t, addresses);
      && (a in after.addresses <==> a in t.addresses || a in addresses)
      && (a in t.addresses && a !in addresses ==> after.addresses[a] == t.addresses[a])
      && (a in addresses ==> IsDescribed(decode, t, a, after.addresses[a]))
      && (a in after.addresses ==>
            && after.addresses[a].firstSeenSlot == (if a in t.addresses then t.addresses[a].firstSeenSlot else None)
            && after.addresses[a].lastActiveSlot == (if a in t.addresses then t.addresses[a].lastActiveSlot else None))
      && (s in after.accounts ==> after.accounts[s].lastActiveSlot == if s in t.accounts then t.accounts[s].lastActiveSlot else None)
      && after.utxos == t.utxos && after.assets == t.assets
  {
    hide OpenSum, MapSum, RecountedAssets;
  }
}
