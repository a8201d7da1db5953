/**
 The delta path of the ledger keeps every running sum equal to the open rows it sums,
 and does so exactly when no row is consumed twice.
 */
module LedgerApplyProofs {
  import opened Options
  import opened Chain
  import opened Sums
  import opened LedgerRules

  /** The block's transactions are new: none of its outpoints is in the set. */
  ghost predicate Fresh(t: Tables, e: Effect) {
    forall k :: k in e.created ==> k !in t.utxos
  }

  /** The outputs are as the row builder makes them, each unit at most once per output. */
  ghost predicate WellBuilt(decode: Decoder, e: Effect) {
    forall k :: k in e.created ==>
      && HoldingDecoded(decode, e.created[k].held)
      && e.created[k].held.hasAssets == (e.created[k].assets != [])
      && DistinctUnits(e.created[k].assets)
      && forall a :: a in e.created[k].assets ==> a.quantity > 0
  }

  // ---------------------------------------------------------------- open sums after a block

  /** Weight consumed a second time, third time and so on. */
  ghost function Excess<T>(ks: seq<T>, f: T -> int): int {
    if ks == [] then 0 else
      var front, last := ks[..|ks| - 1], ks[|ks| - 1];
      Excess(front, f) + if last in front then f(last) else 0
  }

  function MarkAll(utxos: map<OutPoint, UtxoRow>, ks: seq<OutPoint>, spenders: map<OutPoint, Hash>, slot: nat): map<OutPoint, UtxoRow>
    requires forall k :: k in ks ==> k in spenders
  {
    map k | k in utxos :: if k in ks then Marked(utxos[k], spenders[k], slot) else utxos[k]
  }

  lemma {:induction false} MarkAllSum(utxos: map<OutPoint, UtxoRow>, ks: seq<OutPoint>, spenders: map<OutPoint, Hash>, slot: nat, w: Weight)
    requires forall k :: k in ks ==> k in spenders && IsOpen(utxos, k)
    ensures OpenSum(MarkAll(utxos, ks, spenders, slot), w)
            == OpenSum(utxos, w) - SeqSum(ks, SpentWeight(utxos, w)) + Excess(ks, SpentWeight(utxos, w))
  {
    if ks == [] {
      assert MarkAll(utxos, ks, spenders, slot) == utxos;
    } else {
      var front, last := ks[..|ks| - 1], ks[|ks| - 1];
      assert ks == front + [last];
      MarkAllSum(utxos, front, spenders, slot, w);
      var before := MarkAll(utxos, front, spenders, slot);
      if last in front {
        assert MarkAll(utxos, ks, spenders, slot) == before;
      } else {
        assert IsOpen(utxos, last);
        var row := Marked(utxos[last], spenders[last], slot);
        assert MarkAll(utxos, ks, spenders, slot) == before[last := row];
        SumPut(before, Open(w), last, row);
        assert before[last] == utxos[last];
      }
    }
  }

  lemma {:induction false} SpendersKeys(spends: seq<Spend>)
    ensures forall k :: k in Spenders(spends) <==> exists i :: 0 <= i < |spends| && spends[i].key == k
  {
    if spends != [] {
      var n := |spends| - 1;
      SpendersKeys(spends[..n]);
      assert forall i :: 0 <= i < n ==> spends[..n][i] == spends[i];
    }
  }

  lemma {:induction false} SpentKeysMembers(t: Tables, e: Effect, n: nat)
    requires n <= |e.spends|
    ensures forall k :: k in SpentKeys(t.utxos, e, n) <==>
      k !in e.created && IsOpen(t.utxos, k) && exists i :: 0 <= i < n && e.spends[i].key == k
  {
    if n > 0 {
      SpentKeysMembers(t, e, n - 1);
    }
  }

  /** An old row is spent by the block exactly when it is open, not rewritten, and consumed. */
  lemma AllSpentMembers(t: Tables, e: Effect)
    ensures forall k :: k in AllSpent(t.utxos, e) <==> k !in e.created && IsOpen(t.utxos, k) && k in Spenders(e.spends)
  {
    SpentKeysMembers(t, e, |e.spends|);
    SpendersKeys(e.spends);
  }

  function CreatedMarked(e: Effect): map<OutPoint, UtxoRow> {
    var spenders := Spenders(e.spends);
    map k | k in e.created ::
      var row := UtxoRow(e.created[k].held, None, None);
      if k in spenders then Marked(row, spenders[k], e.slot) else row
  }

  lemma UtxosAfterSplit(t: Tables, e: Effect)
    requires Fresh(t, e)
    ensures forall k :: k in AllSpent(t.utxos, e) ==> k in Spenders(e.spends)
    ensures UtxosAfter(t.utxos, e) == MarkAll(t.utxos + CreatedMarked(e), AllSpent(t.utxos, e), Spenders(e.spends), e.slot)
  {
    AllSpentMembers(t, e);
  }

  lemma CreatedMarkedSum(t: Tables, e: Effect, w: Weight)
    requires Fresh(t, e)
    ensures OpenSum(t.utxos + CreatedMarked(e), w)
            == OpenSum(t.utxos, w) + MapSum(e.created, CreatedWeight(Spenders(e.spends), w))
  {
    var marked := CreatedMarked(e);
    var gain := Gain(t.utxos, Open(w));
    SumOverlay(t.utxos, marked, Open(w));
    SumAgree(marked, e.created, gain, CreatedWeight(Spenders(e.spends), w));
  }

  /** The delta misses the open rows by exactly what the block consumes more than once. */
  lemma OpenSumAfter(t: Tables, e: Effect, w: Weight)
    requires Fresh(t, e)
    ensures OpenSum(UtxosAfter(t.utxos, e), w)
            == OpenSum(t.utxos, w) + Delta(t, e, w) + Excess(AllSpent(t.utxos, e), SpentWeight(t.utxos, w))
  {
    AllSpentMembers(t, e);
    UtxosAfterSplit(t, e);
    var base := t.utxos + CreatedMarked(e);
    CreatedMarkedSum(t, e, w);
    var f, g := SpentWeight(base, w), SpentWeight(t.utxos, w);
    assert forall k :: k in AllSpent(t.utxos, e) ==> base[k] == t.utxos[k] && IsOpen(base, k);
    MarkAllSum(base, AllSpent(t.utxos, e), Spenders(e.spends), e.slot, w);
    SeqSumAgree(AllSpent(t.utxos, e), f, g);
    ExcessAgree(AllSpent(t.utxos, e), f, g);
  }

  lemma {:induction false} ExcessAgree<T>(ks: seq<T>, f: T -> int, g: T -> int)
    requires forall k :: k in ks ==> f(k) == g(k)
    ensures Excess(ks, f) == Excess(ks, g)
  {
    if ks != [] {
      ExcessAgree(ks[..|ks| - 1], f, g);
    }
  }

  lemma {:induction false} ExcessOfDistinct<T>(ks: seq<T>, f: T -> int)
    requires Distinct(ks)
    ensures Excess(ks, f) == 0
  {
    if ks != [] {
      ExcessOfDistinct(ks[..|ks| - 1], f);
    }
  }

  lemma {:induction false} ExcessPositive<T>(ks: seq<T>, f: T -> int, i: nat, j: nat)
    requires forall k :: k in ks ==> f(k) >= 0
    requires i < j < |ks| && ks[i] == ks[j] && f(ks[i]) > 0
    ensures Excess(ks, f) > 0
  {
    var front, last := ks[..|ks| - 1], ks[|ks| - 1];
    if j < |ks| - 1 {
      ExcessPositive(front, f, i, j);
    } else {
      assert front[i] == last;
      ExcessNonNegative(front, f);
    }
  }

  lemma {:induction false} ExcessNonNegative<T>(ks: seq<T>, f: T -> int)
    requires forall k :: k in ks ==> f(k) >= 0
    ensures Excess(ks, f) >= 0
  {
    if ks != [] {
      ExcessNonNegative(ks[..|ks| - 1], f);
    }
  }

  // ---------------------------------------------------------------- address sums after a block

  ghost predicate Supported(w: Weight, a: Address) {
    forall k: OutPoint, h: Holding :: h.address != a ==> w(k, h) == 0
  }

  lemma {:induction false} SeqSumZero<T>(s: seq<T>, f: T -> int)
    requires forall x :: x in s ==> f(x) == 0
    ensures SeqSum(s, f) == 0 && Excess(s, f) == 0
  {
    if s != [] {
      SeqSumZero(s[..|s| - 1], f);
    }
  }

  lemma UntouchedDelta(t: Tables, e: Effect, a: Address, w: Weight)
    requires a !in Touched(t, e) && Supported(w, a)
    ensures Delta(t, e, w) == 0 && Excess(AllSpent(t.utxos, e), SpentWeight(t.utxos, w)) == 0
  {
    AllSpentMembers(t, e);
    var none: map<OutPoint, Built> := map[];
    var f := CreatedWeight(Spenders(e.spends), w);
    SumAgree(e.created, none, f, f);
    SeqSumZero(AllSpent(t.utxos, e), SpentWeight(t.utxos, w));
  }

  /** The excess a block takes from the sums of an address. */
  ghost function Overdrawn(t: Tables, e: Effect, w: Weight): int {
    Excess(AllSpent(t.utxos, e), SpentWeight(t.utxos, w))
  }

  lemma CoinAfter(decode: Decoder, t: Tables, e: Effect, a: Address)
    requires AddressAgrees(t, a) && Fresh(t, e)
    ensures TotalOf(Apply(decode, t, e), a) == OpenSum(UtxosAfter(t.utxos, e), LovelaceAt(a)) - Overdrawn(t, e, LovelaceAt(a))
    ensures CountOf(Apply(decode, t, e), a) == OpenSum(UtxosAfter(t.utxos, e), CountAt(a)) - Overdrawn(t, e, CountAt(a))
  {
    OpenSumAfter(t, e, LovelaceAt(a));
    OpenSumAfter(t, e, CountAt(a));
    if a !in Touched(t, e) {
      UntouchedDelta(t, e, a, LovelaceAt(a));
      UntouchedDelta(t, e, a, CountAt(a));
    }
  }

  ghost predicate AssetsOwned(t: Tables) {
    forall ku :: ku in t.assets ==> ku.0 in t.utxos
  }

  /** An output the block does not create keeps its quantities. */
  lemma OldQuantity(t: Tables, e: Effect, k: OutPoint, u: Unit)
    requires k !in e.created
    ensures Quantity(AssetsAfter(t.assets, e), k, u) == Quantity(t.assets, k, u)
  {
    assert (k, u) !in CreatedAssets(e.created);
  }

  lemma OldWeight(t: Tables, e: Effect, a: Address, u: Unit, k: OutPoint)
    requires Fresh(t, e) && k in t.utxos
    ensures Open(UnitAt(AssetsAfter(t.assets, e), a, u))(k, t.utxos[k]) == Open(UnitAt(t.assets, a, u))(k, t.utxos[k])
  {
    OldQuantity(t, e, k, u);
    hide AssetsAfter, Quantity, Fresh;
  }

  lemma OldUnits(t: Tables, e: Effect, a: Address, u: Unit)
    requires AssetsOwned(t) && Fresh(t, e)
    ensures OpenSum(t.utxos, UnitAt(AssetsAfter(t.assets, e), a, u)) == OpenSum(t.utxos, UnitAt(t.assets, a, u))
  {
    var f, g := Open(UnitAt(AssetsAfter(t.assets, e), a, u)), Open(UnitAt(t.assets, a, u));
    hide AssetsAfter, MapSum, Open, AssetsOwned, Fresh;
    forall k | k in t.utxos
      ensures f(k, t.utxos[k]) == g(k, t.utxos[k])
    {
      OldWeight(t, e, a, u, k);
    }
    SumAgree(t.utxos, t.utxos, f, g);
  }

  /** A unit that has a quantity at an address is a candidate key. */
  lemma UnitCandidate(t: Tables, e: Effect, a: Address, u: Unit)
    requires OpenSum(UtxosAfter(t.utxos, e), UnitAt(AssetsAfter(t.assets, e), a, u)) != 0
    ensures (a, u) in AssetKeys(t, e)
  {
    var w := UnitAt(AssetsAfter(t.assets, e), a, u);
    var k := SumWitness(UtxosAfter(t.utxos, e), Open(w));
    var ku := (k, u);
    assert w(k, UtxosAfter(t.utxos, e)[k].held) != 0;
    assert Quantity(AssetsAfter(t.assets, e), k, u) != 0;
    assert ku in AssetsAfter(t.assets, e) && ku.0 in UtxosAfter(t.utxos, e);
  }

  lemma StoredAfter(t: Tables, e: Effect, a: Address, u: Unit)
    requires AssetAfter(t, e, a, u) != 0 ==> (a, u) in AssetKeys(t, e)
    ensures StoredQuantity(AddressAssetsAfter(t, e), a, u) == AssetAfter(t, e, a, u)
  {
    var au := (a, u);
    assert au.0 == a && au.1 == u;
    if AssetAfter(t, e, a, u) != 0 {
      assert au in AssetKeys(t, e) && KeepsAsset(t, e, au.0, au.1);
    }
  }

  lemma UnitsAfter(t: Tables, e: Effect, a: Address, u: Unit)
    requires AddressAgrees(t, a) && AssetsOwned(t) && Fresh(t, e)
    requires Overdrawn(t, e, UnitAt(AssetsAfter(t.assets, e), a, u)) == 0
    ensures StoredQuantity(AddressAssetsAfter(t, e), a, u) == OpenSum(UtxosAfter(t.utxos, e), UnitAt(AssetsAfter(t.assets, e), a, u))
    ensures AssetAfter(t, e, a, u) == StoredQuantity(AddressAssetsAfter(t, e), a, u)
  {
    hide MapSum, UtxosAfter, AssetsAfter, AddressAssetsAfter, AssetKeys, OpenSum, Delta;
    var w := UnitAt(AssetsAfter(t.assets, e), a, u);
    OldUnits(t, e, a, u);
    OpenSumAfter(t, e, w);
    if a !in Touched(t, e) {
      UntouchedDelta(t, e, a, w);
    }
    if AssetAfter(t, e, a, u) != 0 {
      UnitCandidate(t, e, a, u);
    }
    StoredAfter(t, e, a, u);
  }

  lemma NotOverdrawn(t: Tables, e: Effect, w: Weight)
    requires Distinct(AllSpent(t.utxos, e))
    ensures Overdrawn(t, e, w) == 0
  {
    ExcessOfDistinct(AllSpent(t.utxos, e), SpentWeight(t.utxos, w));
  }

  lemma UnitsAgreeAfter(t: Tables, e: Effect, a: Address, u: Unit)
    requires AddressAgrees(t, a) && AssetsOwned(t) && Fresh(t, e) && Distinct(AllSpent(t.utxos, e))
    ensures StoredQuantity(AddressAssetsAfter(t, e), a, u) == OpenSum(UtxosAfter(t.utxos, e), UnitAt(AssetsAfter(t.assets, e), a, u))
  {
    NotOverdrawn(t, e, UnitAt(AssetsAfter(t.assets, e), a, u));
    UnitsAfter(t, e, a, u);
  }

  lemma AddressAgreesAfter(decode: Decoder, t: Tables, e: Effect, a: Address)
    requires AddressAgrees(t, a) && AssetsOwned(t) && Fresh(t, e) && Distinct(AllSpent(t.utxos, e))
    ensures AddressAgrees(Apply(decode, t, e), a)
  {
    hide MapSum, UtxosAfter, AssetsAfter, AddressesAfter, AddressAssetsAfter;
    NotOverdrawn(t, e, LovelaceAt(a));
    NotOverdrawn(t, e, CountAt(a));
    CoinAfter(decode, t, e, a);
    var t' := Apply(decode, t, e);
    forall u
      ensures StoredQuantity(t'.addressAssets, a, u) == OpenSum(t'.utxos, UnitAt(t'.assets, a, u))
    {
      UnitsAgreeAfter(t, e, a, u);
    }
  }

  /** What is stored is never zero. */
  lemma StoredNonZero(t: Tables, e: Effect, a: Address, u: Unit)
    requires (a, u) in t.addressAssets ==> t.addressAssets[(a, u)] != 0
    requires (a, u) in AddressAssetsAfter(t, e)
    ensures AddressAssetsAfter(t, e)[(a, u)] == AssetAfter(t, e, a, u) != 0
  {
    hide MapSum, UtxosAfter, AssetsAfter, AssetKeys, Delta, Touched;
    var au := (a, u);
    assert KeepsAsset(t, e, au.0, au.1);
  }

  lemma UnitsNonNegative(utxos: map<OutPoint, UtxoRow>, assets: map<(OutPoint, Unit), nat>, a: Address, u: Unit)
    ensures OpenSum(utxos, UnitAt(assets, a, u)) >= 0
  {
    var f := Open(UnitAt(assets, a, u));
    forall k | k in utxos
      ensures f(k, utxos[k]) >= 0
    {
      assert Quantity(assets, k, u) >= 0;
    }
    SumBounds(utxos, f);
  }

  lemma StoredPositiveAfter(t: Tables, e: Effect, a: Address, u: Unit)
    requires AddressAgrees(t, a) && AssetsOwned(t) && Fresh(t, e) && Distinct(AllSpent(t.utxos, e))
    requires (a, u) in t.addressAssets ==> t.addressAssets[(a, u)] > 0
    requires (a, u) in AddressAssetsAfter(t, e)
    ensures AddressAssetsAfter(t, e)[(a, u)] > 0
  {
    StoredNonZero(t, e, a, u);
    hide MapSum, UtxosAfter, AssetsAfter, AddressAssetsAfter, AssetKeys, Delta, Touched;
    var w := UnitAt(AssetsAfter(t.assets, e), a, u);
    NotOverdrawn(t, e, w);
    UnitsAfter(t, e, a, u);
    UnitsNonNegative(UtxosAfter(t.utxos, e), AssetsAfter(t.assets, e), a, u);
  }

  // ---------------------------------------------------------------- rows and accounts after a block

  lemma {:induction false} UnitsOfMembers(assets: seq<Amount>)
    ensures forall u :: u in UnitsOf(assets) <==> exists i :: 0 <= i < |assets| && assets[i].unit == u
    ensures forall u :: u in UnitsOf(assets) ==> Amount(u, UnitsOf(assets)[u]) in assets
  {
    if assets != [] {
      var n := |assets| - 1;
      UnitsOfMembers(assets[..n]);
      assert assets == assets[..n] + [assets[n]];
    }
  }

  /** Marking a row as spent leaves its other columns alone. */
  lemma HoldingsAfter(t: Tables, e: Effect)
    ensures UtxosAfter(t.utxos, e).Keys == t.utxos.Keys + e.created.Keys
    ensures forall k :: k in UtxosAfter(t.utxos, e) ==>
      UtxosAfter(t.utxos, e)[k].held == if k in e.created then e.created[k].held else t.utxos[k].held
  {
  }

  lemma OpenRowsAfter(t: Tables, e: Effect)
    requires forall k :: k in t.utxos && t.utxos[k].spentTxHash.None? ==> t.utxos[k].spentSlot.None?
    ensures forall k :: k in UtxosAfter(t.utxos, e) && UtxosAfter(t.utxos, e)[k].spentTxHash.None? ==> UtxosAfter(t.utxos, e)[k].spentSlot.None?
  {
  }

  lemma CreatedAssetRows(e: Effect, k: OutPoint)
    requires k in e.created
    ensures (e.created[k].assets != []) <==> exists u :: (k, u) in CreatedAssets(e.created)
  {
    UnitsOfMembers(e.created[k].assets);
    if e.created[k].assets != [] {
      var u := e.created[k].assets[0].unit;
      assert u in UnitsOf(e.created[k].assets);
      assert (k, u) in CreatedAssets(e.created);
    }
  }

  lemma AssetRowAfter(decode: Decoder, t: Tables, e: Effect, ku: (OutPoint, Unit))
    requires RowsWellFormed(decode, t.utxos, t.assets) && WellBuilt(decode, e) && ku in AssetsAfter(t.assets, e)
    requires Fresh(t, e)
    ensures AssetsAfter(t.assets, e)[ku] > 0
    ensures ku.0 in UtxosAfter(t.utxos, e) && UtxosAfter(t.utxos, e)[ku.0].held.hasAssets
  {
    HoldingsAfter(t, e);
    if ku in CreatedAssets(e.created) {
      UnitsOfMembers(e.created[ku.0].assets);
    }
  }

  lemma FlaggedRowAfter(decode: Decoder, t: Tables, e: Effect, k: OutPoint)
    requires RowsWellFormed(decode, t.utxos, t.assets) && WellBuilt(decode, e)
    requires k in UtxosAfter(t.utxos, e) && UtxosAfter(t.utxos, e)[k].held.hasAssets
    ensures exists u :: (k, u) in AssetsAfter(t.assets, e)
  {
    HoldingsAfter(t, e);
    if k in e.created {
      CreatedAssetRows(e, k);
      var u :| (k, u) in CreatedAssets(e.created);
      assert (k, u) in AssetsAfter(t.assets, e);
    } else {
      var u :| (k, u) in t.assets;
      assert (k, u) in AssetsAfter(t.assets, e);
    }
  }

  lemma RowsAfter(decode: Decoder, t: Tables, e: Effect)
    requires RowsWellFormed(decode, t.utxos, t.assets) && Fresh(t, e) && WellBuilt(decode, e)
    ensures RowsWellFormed(decode, UtxosAfter(t.utxos, e), AssetsAfter(t.assets, e))
  {
    HoldingsAfter(t, e);
    OpenRowsAfter(t, e);
    forall k | k in UtxosAfter(t.utxos, e) && UtxosAfter(t.utxos, e)[k].held.hasAssets
      ensures exists u :: (k, u) in AssetsAfter(t.assets, e)
    {
      FlaggedRowAfter(decode, t, e, k);
    }
    forall ku | ku in AssetsAfter(t.assets, e)
      ensures AssetsAfter(t.assets, e)[ku] > 0 && ku.0 in UtxosAfter(t.utxos, e) && UtxosAfter(t.utxos, e)[ku.0].held.hasAssets
    {
      AssetRowAfter(decode, t, e, ku);
    }
  }

  /** If the touched rows gain what the deltas collect, so does the sum over the rows. */
  lemma AccountGain(decode: Decoder, t: Tables, e: Effect, f: (Address, AddressRow) -> int, d: (Address, ()) -> int)
    requires forall a :: a in Touched(t, e) ==> Gain(t.addresses, f)(a, AddressAfter(decode, t, e, a)) == d(a, ())
    ensures MapSum(AddressesAfter(decode, t, e), f) == MapSum(t.addresses, f) + MapSum(Each(Touched(t, e)), d)
  {
    var rows := map a | a in Touched(t, e) :: AddressAfter(decode, t, e, a);
    SumOverlay(t.addresses, rows, f);
    SumAgree(rows, Each(Touched(t, e)), Gain(t.addresses, f), d);
  }

  lemma AccountLovelaceGain(decode: Decoder, t: Tables, e: Effect, s: string)
    requires forall a :: a in t.addresses ==> AddressDecoded(decode, a, t.addresses[a])
    ensures MapSum(AddressesAfter(decode, t, e), AccountLovelace(s))
            == MapSum(t.addresses, AccountLovelace(s)) + MapSum(Each(Touched(t, e)), StakeLovelace(decode, t, e, s))
  {
    AccountGain(decode, t, e, AccountLovelace(s), StakeLovelace(decode, t, e, s));
  }

  lemma AccountUtxosGain(decode: Decoder, t: Tables, e: Effect, s: string)
    requires forall a :: a in t.addresses ==> AddressDecoded(decode, a, t.addresses[a])
    ensures MapSum(AddressesAfter(decode, t, e), AccountUtxos(s))
            == MapSum(t.addresses, AccountUtxos(s)) + MapSum(Each(Touched(t, e)), StakeCount(decode, t, e, s))
  {
    AccountGain(decode, t, e, AccountUtxos(s), StakeCount(decode, t, e, s));
  }

  lemma AccountAddressesGain(decode: Decoder, t: Tables, e: Effect, s: string)
    requires forall a :: a in t.addresses ==> AddressDecoded(decode, a, t.addresses[a])
    ensures MapSum(AddressesAfter(decode, t, e), AccountAddresses(s))
            == MapSum(t.addresses, AccountAddresses(s)) + MapSum(Each(Touched(t, e)), StakeNew(decode, t, s))
  {
    AccountGain(decode, t, e, AccountAddresses(s), StakeNew(decode, t, s));
  }

  lemma NoRowsNoSum(m: map<Address, AddressRow>, s: string)
    requires forall a :: a in m ==> m[a].stakeAddress != Some(s)
    ensures MapSum(m, AccountLovelace(s)) == MapSum(m, AccountUtxos(s)) == MapSum(m, AccountAddresses(s)) == 0
  {
    var none: map<Address, AddressRow> := map[];
    SumAgree(m, none, AccountLovelace(s), AccountLovelace(s));
    SumAgree(m, none, AccountUtxos(s), AccountUtxos(s));
    SumAgree(m, none, AccountAddresses(s), AccountAddresses(s));
  }

  /** The rows of a stake key are the same in both tables. */
  ghost predicate SameStakeRows(m: map<Address, AddressRow>, n: map<Address, AddressRow>, s: string) {
    && (forall a :: a in m && m[a].stakeAddress == Some(s) ==> a in n && n[a] == m[a])
    && (forall a :: a in n && n[a].stakeAddress == Some(s) ==> a in m && m[a] == n[a])
  }

  lemma SameStakeSums(m: map<Address, AddressRow>, n: map<Address, AddressRow>, s: string)
    requires SameStakeRows(m, n, s)
    ensures MapSum(m, AccountLovelace(s)) == MapSum(n, AccountLovelace(s))
    ensures MapSum(m, AccountUtxos(s)) == MapSum(n, AccountUtxos(s))
    ensures MapSum(m, AccountAddresses(s)) == MapSum(n, AccountAddresses(s))
  {
    hide MapSum;
    SumAgree(m, n, AccountLovelace(s), AccountLovelace(s));
    SumAgree(m, n, AccountUtxos(s), AccountUtxos(s));
    SumAgree(m, n, AccountAddresses(s), AccountAddresses(s));
  }

  lemma TouchedAccountSums(decode: Decoder, t: Tables, e: Effect, s: string)
    requires AccountAgrees(t, s)
    requires forall a :: a in t.addresses ==> AddressDecoded(decode, a, t.addresses[a])
    ensures AccountAfter(decode, t, e, s).controlledAmount == MapSum(AddressesAfter(decode, t, e), AccountLovelace(s))
    ensures AccountAfter(decode, t, e, s).utxoCount == MapSum(AddressesAfter(decode, t, e), AccountUtxos(s))
    ensures AccountAfter(decode, t, e, s).addressCount == MapSum(AddressesAfter(decode, t, e), AccountAddresses(s))
  {
    hide MapSum, AddressesAfter, Touched, Each;
    hide AccountLovelace, AccountUtxos, AccountAddresses, StakeLovelace, StakeCount, StakeNew;
    AccountLovelaceGain(decode, t, e, s);
    AccountUtxosGain(decode, t, e, s);
    AccountAddressesGain(decode, t, e, s);
    if s !in t.accounts {
      NoRowsNoSum(t.addresses, s);
    }
  }

  lemma TouchedAccount(decode: Decoder, t: Tables, e: Effect, s: string)
    requires AccountAgrees(t, s) && s in TouchedStakes(decode, t, Touched(t, e))
    requires forall a :: a in t.addresses ==> AddressDecoded(decode, a, t.addresses[a])
    ensures AccountAgrees(Apply(decode, t, e), s)
  {
    TouchedAccountSums(decode, t, e, s);
    assert s in AccountsAfter(decode, t, e) && AccountsAfter(decode, t, e)[s] == AccountAfter(decode, t, e, s);
    hide MapSum, AddressesAfter, AccountsAfter, AccountAfter, UtxosAfter, AssetsAfter, AddressAssetsAfter, Touched, TouchedStakes;
    hide AddressDecoded;
  }

  lemma AccountAgreesAfter(decode: Decoder, t: Tables, e: Effect, s: string)
    requires AccountAgrees(t, s)
    requires forall a :: a in t.addresses ==> AddressDecoded(decode, a, t.addresses[a])
    ensures AccountAgrees(Apply(decode, t, e), s)
  {
    var touched := Touched(t, e);
    if s in TouchedStakes(decode, t, touched) {
      TouchedAccount(decode, t, e, s);
    } else {
      UntouchedAccount(decode, t, e, s);
    }
  }

  /** Rows of a stake key no touched address belongs to stay as they are. */
  lemma OtherStakeRows(decode: Decoder, t: Tables, e: Effect, s: string)
    requires s !in TouchedStakes(decode, t, Touched(t, e))
    requires forall a :: a in t.addresses ==> AddressDecoded(decode, a, t.addresses[a])
    ensures SameStakeRows(t.addresses, AddressesAfter(decode, t, e), s)
  {
    hide Touched, Delta;
    forall a | a in Touched(t, e)
      ensures AddressAfter(decode, t, e, a).stakeAddress != Some(s)
      ensures a in t.addresses ==> t.addresses[a].stakeAddress != Some(s)
    {
      assert StakeOf(decode, t, a).Some? ==> StakeOf(decode, t, a).value in TouchedStakes(decode, t, Touched(t, e));
    }
    hide AddressAfter, TouchedStakes, StakeOf;
  }

  lemma UntouchedAccount(decode: Decoder, t: Tables, e: Effect, s: string)
    requires AccountAgrees(t, s) && s !in TouchedStakes(decode, t, Touched(t, e))
    requires forall a :: a in t.addresses ==> AddressDecoded(decode, a, t.addresses[a])
    ensures AccountAgrees(Apply(decode, t, e), s)
  {
    OtherStakeRows(decode, t, e, s);
    assert s in AccountsAfter(decode, t, e) <==> s in t.accounts;
    assert s in t.accounts ==> AccountsAfter(decode, t, e)[s] == t.accounts[s];
    hide AddressesAfter, AccountsAfter, UtxosAfter, AssetsAfter, AddressAssetsAfter, Touched, TouchedStakes, MapSum, SameStakeRows;
    SameStakeSums(t.addresses, AddressesAfter(decode, t, e), s);
  }

  lemma RowsDecoded(decode: Decoder, t: Tables, e: Effect)
    requires forall a :: a in t.addresses ==> AddressDecoded(decode, a, t.addresses[a])
    ensures forall a :: a in AddressesAfter(decode, t, e) ==> AddressDecoded(decode, a, AddressesAfter(decode, t, e)[a])
  {
    hide Touched, Delta;
    forall a
      ensures AddressDecoded(decode, a, AddressAfter(decode, t, e, a))
    {
    }
    hide AddressAfter, AddressDecoded;
  }

  lemma KnownAddresses(decode: Decoder, t: Tables, e: Effect)
    ensures forall a :: a in AddressesAfter(decode, t, e) <==> a in t.addresses || a in Touched(t, e)
    ensures forall k :: k in e.created ==> e.created[k].held.address in Touched(t, e)
  {
    hide AllSpent, AddressAfter;
  }

  lemma OwnersKnown(decode: Decoder, t: Tables, e: Effect)
    requires forall k :: k in t.utxos ==> t.utxos[k].held.address in t.addresses
    ensures forall k :: k in UtxosAfter(t.utxos, e) ==> UtxosAfter(t.utxos, e)[k].held.address in AddressesAfter(decode, t, e)
  {
    hide AddressesAfter, Touched, UtxosAfter;
    HoldingsAfter(t, e);
    KnownAddresses(decode, t, e);
  }

  lemma AddressRowsAfter(decode: Decoder, t: Tables, e: Effect)
    requires forall a :: a in t.addresses ==> AddressDecoded(decode, a, t.addresses[a])
    requires forall k :: k in t.utxos ==> t.utxos[k].held.address in t.addresses
    ensures forall a :: a in AddressesAfter(decode, t, e) ==> AddressDecoded(decode, a, AddressesAfter(decode, t, e)[a])
    ensures forall k :: k in UtxosAfter(t.utxos, e) ==> UtxosAfter(t.utxos, e)[k].held.address in AddressesAfter(decode, t, e)
  {
    RowsDecoded(decode, t, e);
    OwnersKnown(decode, t, e);
  }

  /** One block keeps every running sum equal to the open rows it sums, missing inputs or not. */
  lemma ApplyKeepsConsistent(decode: Decoder, t: Tables, e: Effect)
    requires Consistent(decode, t) && Fresh(t, e) && WellBuilt(decode, e) && Distinct(AllSpent(t.utxos, e))
    ensures Consistent(decode, Apply(decode, t, e))
  {
    RowsAfter(decode, t, e);
    AddressRowsAfter(decode, t, e);
    forall a
      ensures AddressAgrees(Apply(decode, t, e), a)
    {
      AddressAgreesAfter(decode, t, e, a);
    }
    forall au | au in AddressAssetsAfter(t, e)
      ensures AddressAssetsAfter(t, e)[au] > 0
    {
      StoredPositiveAfter(t, e, au.0, au.1);
    }
    forall s
      ensures AccountAgrees(Apply(decode, t, e), s)
    {
      AccountAgreesAfter(decode, t, e, s);
    }
  }

  /** With new transactions, the sums agree after a block if and only if it consumes no stored row twice. */
  lemma AgreesIffSpentOnce(decode: Decoder, t: Tables, e: Effect)
    requires Consistent(decode, t) && Fresh(t, e) && WellBuilt(decode, e)
    ensures (forall a :: AddressAgrees(Apply(decode, t, e), a)) <==> Distinct(AllSpent(t.utxos, e))
  {
    if Distinct(AllSpent(t.utxos, e)) {
      forall a
        ensures AddressAgrees(Apply(decode, t, e), a)
      {
        AddressAgreesAfter(decode, t, e, a);
      }
    } else {
      var ks := AllSpent(t.utxos, e);
      var i, j :| 0 <= i < j < |ks| && ks[i] == ks[j];
      AllSpentMembers(t, e);
      assert ks[i] in ks;
      var a := t.utxos[ks[i]].held.address;
      ExcessPositive(ks, SpentWeight(t.utxos, CountAt(a)), i, j);
      CoinAfter(decode, t, e, a);
      assert !AddressAgrees(Apply(decode, t, e), a);
    }
  }
}
