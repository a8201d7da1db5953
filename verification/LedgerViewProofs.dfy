/** Applying the views of a block's transactions leaves the same ledger as applying the transactions themselves. */
module LedgerViewProofs {
  import opened Options
  import opened Sums
  import opened Chain
  import opened LedgerRules
  import LedgerView
  import opened LedgerApplyProofs
  import opened Permutations

  function Views(txs: seq<Tx>): (r: seq<Tx>)
    ensures |r| == |txs|
    ensures forall i :: 0 <= i < |r| ==> r[i] == LedgerView.View(txs[i])
  {
    if txs == [] then [] else Views(txs[..|txs| - 1]) + [LedgerView.View(txs[|txs| - 1])]
  }

  // ---------------------------------------------------------------- spends

  function Spending(hash: Hash): Input -> Spend {
    (i: Input) => Spend(i.source, hash)
  }

  lemma SpendsPermute(t: Tx)
    ensures multiset(SpendsOf(LedgerView.View(t))) == multiset(SpendsOf(t))
  {
    var a, b := ConsumedInputs(LedgerView.View(t)), ConsumedInputs(t);
    LedgerView.ViewKeepsConsumed(t);
    ImagePermutes(a, b, Spending(t.hash));
    assert SpendsOf(LedgerView.View(t)) == Image(a, Spending(t.hash));
    assert SpendsOf(t) == Image(b, Spending(t.hash));
  }

  lemma {:induction false} AllSpendsPermute(txs: seq<Tx>)
    ensures multiset(Spends(Views(txs))) == multiset(Spends(txs))
  {
    if txs != [] {
      var front, last := txs[..|txs| - 1], txs[|txs| - 1];
      AllSpendsPermute(front);
      SpendsPermute(last);
      assert Views(txs)[..|txs| - 1] == Views(front);
    }
  }

  /** Spends of one transaction: which of them comes last does not matter. */
  lemma {:induction false} SpendersOfOne(a: seq<Spend>, b: seq<Spend>, hash: Hash)
    requires forall s :: s in b ==> s.spender == hash
    ensures Spenders(a + b) == Spenders(a) + map k | k in KeysOf(b) :: hash
  {
    if b == [] {
      assert a + b == a;
    } else {
      var front, last := b[..|b| - 1], b[|b| - 1];
      assert (a + b)[..|a + b| - 1] == a + front;
      assert last in b;
      SpendersOfOne(a, front, hash);
      KeysAppend(front, last);
      assert b == front + [last];
      AddKey(Spenders(a), KeysOf(front), last.key, hash);
    }
  }

  lemma KeysAppend(front: seq<Spend>, last: Spend)
    ensures KeysOf(front + [last]) == KeysOf(front) + {last.key}
  {
    assert forall s :: s in front + [last] <==> s in front || s == last;
  }

  lemma AddKey(m: map<OutPoint, Hash>, keys: set<OutPoint>, key: OutPoint, hash: Hash)
    ensures (m + map k | k in keys :: hash)[key := hash] == m + map k | k in keys + {key} :: hash
  {
  }

  lemma SameKeys(a: seq<Spend>, b: seq<Spend>)
    requires multiset(a) == multiset(b)
    ensures KeysOf(a) == KeysOf(b)
  {
    assert forall s :: s in a <==> s in multiset(a);
    assert forall s :: s in b <==> s in multiset(b);
  }

  lemma {:induction false} SameSpenders(txs: seq<Tx>)
    ensures Spenders(Spends(Views(txs))) == Spenders(Spends(txs))
  {
    if txs != [] {
      var front, last := txs[..|txs| - 1], txs[|txs| - 1];
      SameSpenders(front);
      assert Views(txs)[..|txs| - 1] == Views(front);
      SpendsPermute(last);
      SameKeys(SpendsOf(LedgerView.View(last)), SpendsOf(last));
      assert LedgerView.View(last).hash == last.hash;
      SpendersOfOne(Spends(Views(front)), SpendsOf(LedgerView.View(last)), last.hash);
      SpendersOfOne(Spends(front), SpendsOf(last), last.hash);
      hide KeysOf, Spenders, SpendsOf, LedgerView.View;
    }
  }

  // ---------------------------------------------------------------- the same effect

  /** What a consumed outpoint takes off a sum: nothing unless its row is open and older than the block. */
  function Counted(utxos: map<OutPoint, UtxoRow>, created: map<OutPoint, Built>, w: Weight): Spend -> int {
    (s: Spend) => if s.key !in created && IsOpen(utxos, s.key) then SpentWeight(utxos, w)(s.key) else 0
  }

  lemma {:induction false} SpentSum(utxos: map<OutPoint, UtxoRow>, e: Effect, n: nat, w: Weight)
    requires n <= |e.spends|
    ensures SeqSum(SpentKeys(utxos, e, n), SpentWeight(utxos, w)) == SeqSum(e.spends[..n], Counted(utxos, e.created, w))
  {
    if n > 0 {
      SpentSum(utxos, e, n - 1, w);
      assert e.spends[..n] == e.spends[..n - 1] + [e.spends[n - 1]];
      SeqSumAppend(e.spends[..n - 1], e.spends[n - 1], Counted(utxos, e.created, w));
      var before, k := SpentKeys(utxos, e, n - 1), e.spends[n - 1].key;
      SeqSumAppend(before, k, SpentWeight(utxos, w));
      assert SpentKeys(utxos, e, n) == if k !in e.created && IsOpen(utxos, k) then before + [k] else before;
    }
  }

  /** Effects that create the same rows and consume the same outpoints, in any order within a transaction. */
  ghost predicate SameEffect(e: Effect, f: Effect) {
    e.slot == f.slot && e.created == f.created && Spenders(e.spends) == Spenders(f.spends) && multiset(e.spends) == multiset(f.spends)
  }

  lemma {:induction false} SameCreations(txs: seq<Tx>)
    ensures Creations(Views(txs)) == Creations(txs)
  {
    if txs != [] {
      var front, last := txs[..|txs| - 1], txs[|txs| - 1];
      SameCreations(front);
      assert Views(txs)[..|txs| - 1] == Views(front);
      LedgerView.ViewKeepsProduced(last);
      assert LedgerView.View(last).hash == last.hash;
      hide LedgerView.View, ProducedOutputs;
    }
  }

  lemma ViewsKeepEffect(decode: Decoder, slot: nat, txs: seq<Tx>)
    ensures SameEffect(EffectOf(decode, slot, Views(txs)), EffectOf(decode, slot, txs))
  {
    SameCreations(txs);
    SameSpenders(txs);
    AllSpendsPermute(txs);
  }

  lemma SameDelta(t: Tables, e: Effect, f: Effect, w: Weight)
    requires SameEffect(e, f)
    ensures Delta(t, e, w) == Delta(t, f, w)
  {
    SpentSum(t.utxos, e, |e.spends|, w);
    SpentSum(t.utxos, f, |f.spends|, w);
    assert e.spends[..|e.spends|] == e.spends && f.spends[..|f.spends|] == f.spends;
    SumPermutes(e.spends, f.spends, Counted(t.utxos, e.created, w));
  }

  lemma SameTouched(t: Tables, e: Effect, f: Effect)
    requires SameEffect(e, f)
    ensures Touched(t, e) == Touched(t, f)
  {
    AllSpentMembers(t, e);
    AllSpentMembers(t, f);
    hide AllSpent, Spenders;
    assert forall k :: k in AllSpent(t.utxos, e) <==> k in AllSpent(t.utxos, f);
  }

  lemma SameAddresses(decode: Decoder, t: Tables, e: Effect, f: Effect)
    requires SameEffect(e, f)
    ensures AddressesAfter(decode, t, e) == AddressesAfter(decode, t, f)
  {
    hide AddressAfter, Touched, SameEffect;
    SameTouched(t, e, f);
    forall a
      ensures AddressAfter(decode, t, e, a) == AddressAfter(decode, t, f, a)
    {
      SameAddress(decode, t, e, f, a);
    }
  }

  lemma SameAddress(decode: Decoder, t: Tables, e: Effect, f: Effect, a: Address)
    requires SameEffect(e, f)
    ensures AddressAfter(decode, t, e, a) == AddressAfter(decode, t, f, a)
  {
    hide Delta, AddressWrite;
    SameDelta(t, e, f, LovelaceAt(a));
    SameDelta(t, e, f, CountAt(a));
  }

  lemma SameAsset(t: Tables, e: Effect, f: Effect, a: Address, u: Unit)
    requires SameEffect(e, f)
    ensures KeepsAsset(t, e, a, u) == KeepsAsset(t, f, a, u) && AssetAfter(t, e, a, u) == AssetAfter(t, f, a, u)
  {
    SameTouched(t, e, f);
    assert AssetsAfter(t.assets, e) == AssetsAfter(t.assets, f);
    SameDelta(t, e, f, UnitAt(AssetsAfter(t.assets, e), a, u));
    hide Delta, AssetsAfter, Touched;
  }

  lemma SameAssetKeys(t: Tables, e: Effect, f: Effect)
    requires SameEffect(e, f)
    ensures AssetKeys(t, e) == AssetKeys(t, f)
  {
    assert UtxosAfter(t.utxos, e) == UtxosAfter(t.utxos, f);
    assert AssetsAfter(t.assets, e) == AssetsAfter(t.assets, f);
    hide UtxosAfter, AssetsAfter;
  }

  lemma SameAddressAssets(t: Tables, e: Effect, f: Effect)
    requires SameEffect(e, f)
    ensures AddressAssetsAfter(t, e) == AddressAssetsAfter(t, f)
  {
    hide SameEffect, AssetKeys, KeepsAsset, AssetAfter;
    SameAssetKeys(t, e, f);
    forall a, u
      ensures KeepsAsset(t, e, a, u) == KeepsAsset(t, f, a, u) && AssetAfter(t, e, a, u) == AssetAfter(t, f, a, u)
    {
      SameAsset(t, e, f, a, u);
    }
  }

  lemma SameAccounts(decode: Decoder, t: Tables, e: Effect, f: Effect)
    requires SameEffect(e, f)
    ensures AccountsAfter(decode, t, e) == AccountsAfter(decode, t, f)
  {
    SameTouched(t, e, f);
    forall s
      ensures AccountAfter(decode, t, e, s) == AccountAfter(decode, t, f, s)
    {
      SameAccount(decode, t, e, f, s);
    }
    hide AccountAfter, Touched;
  }

  lemma SameAccount(decode: Decoder, t: Tables, e: Effect, f: Effect, s: string)
    requires SameEffect(e, f)
    ensures AccountAfter(decode, t, e, s) == AccountAfter(decode, t, f, s)
  {
    hide Delta, Touched, StakeOf, AccountWrite;
    SameTouched(t, e, f);
    var touched := Each(Touched(t, e));
    forall a
      ensures Delta(t, e, LovelaceAt(a)) == Delta(t, f, LovelaceAt(a))
      ensures Delta(t, e, CountAt(a)) == Delta(t, f, CountAt(a))
    {
      SameDelta(t, e, f, LovelaceAt(a));
      SameDelta(t, e, f, CountAt(a));
    }
    SumAgree(touched, touched, StakeLovelace(decode, t, e, s), StakeLovelace(decode, t, f, s));
    SumAgree(touched, touched, StakeCount(decode, t, e, s), StakeCount(decode, t, f, s));
  }

  /** A block of ledger views and the block as reported leave the same ledger, whatever the tables were. */
  lemma ViewsKeepLedger(decode: Decoder, t: Tables, slot: nat, txs: seq<Tx>)
    ensures Apply(decode, t, EffectOf(decode, slot, Views(txs))) == Apply(decode, t, EffectOf(decode, slot, txs))
  {
    hide AddressesAfter, AddressAssetsAfter, AccountsAfter;
    var e, f := EffectOf(decode, slot, Views(txs)), EffectOf(decode, slot, txs);
    ViewsKeepEffect(decode, slot, txs);
    SameAddresses(decode, t, e, f);
    SameAddressAssets(t, e, f);
    SameAccounts(decode, t, e, f);
  }
}
