/** Recounting repairs any drift; every run of blocks and rollbacks stays consistent; a rollback inverts the chain. */
module LedgerRunProofs {
  import opened Options
  import opened Chain
  import opened Sums
  import opened LedgerRules
  import opened LedgerApplyProofs

  // ---------------------------------------------------------------- recounting

  lemma RecountedUnit(decode: Decoder, t: Tables, addresses: set<Address>, a: Address, u: Unit)
    requires a in addresses
    ensures StoredQuantity(RecountedAddresses(decode, t, addresses).addressAssets, a, u)
            == OpenSum(t.utxos, UnitAt(t.assets, a, u))
  {
    var w := UnitAt(t.assets, a, u);
    if OpenSum(t.utxos, w) != 0 {
      var k := SumWitness(t.utxos, Open(w));
      assert w(k, t.utxos[k].held) != 0 && Quantity(t.assets, k, u) != 0;
      var ku := (k, u);
      assert ku in t.assets && ku.0 in t.utxos;
      assert (a, u) in OutputAssetKeys(t);
    }
    hide MapSum, RecountedAddress, OutputAssetKeys;
    var au := (a, u);
    assert au.0 == a && au.1 == u;
  }

  /** A recounted address agrees with its open rows whatever its sums were before. */
  lemma RecountedAgrees(decode: Decoder, t: Tables, addresses: set<Address>, a: Address)
    requires a in addresses
    ensures AddressAgrees(Recount(decode, t, addresses), a)
  {
    var t' := Recount(decode, t, addresses);
    forall u
      ensures StoredQuantity(t'.addressAssets, a, u) == OpenSum(t'.utxos, UnitAt(t'.assets, a, u))
    {
      RecountedUnit(decode, t, addresses, a, u);
    }
  }

  lemma OthersKeepSums(decode: Decoder, t: Tables, addresses: set<Address>, a: Address)
    requires a !in addresses && AddressAgrees(t, a)
    ensures AddressAgrees(Recount(decode, t, addresses), a)
  {
    var t' := Recount(decode, t, addresses);
    forall u
      ensures StoredQuantity(t'.addressAssets, a, u) == StoredQuantity(t.addressAssets, a, u)
    {
      assert (a, u).0 == a;
    }
  }

  lemma RecountedStakes(decode: Decoder, t: Tables, addresses: set<Address>)
    ensures forall a :: a in addresses ==> RecountedAddress(decode, t, a).stakeAddress == StakeOf(decode, t, a)
    ensures forall a :: a in t.addresses && t.addresses[a].stakeAddress.Some? ==> StakeOf(decode, t, a) == t.addresses[a].stakeAddress
  {
  }

  lemma OtherAccounts(decode: Decoder, t: Tables, addresses: set<Address>, s: string)
    requires AccountAgrees(t, s) && s !in TouchedStakes(decode, t, addresses)
    ensures AccountAgrees(Recount(decode, t, addresses), s)
  {
    var after := RecountedAddresses(decode, t, addresses).addresses;
    RecountedStakes(decode, t, addresses);
    forall a | a in addresses
      ensures a in after && after[a].stakeAddress != Some(s)
      ensures a in t.addresses ==> t.addresses[a].stakeAddress != Some(s)
    {
      assert StakeOf(decode, t, a).Some? ==> StakeOf(decode, t, a).value in TouchedStakes(decode, t, addresses);
    }
    hide RecountedAddress, TouchedStakes, MapSum;
    SameStakeSums(t.addresses, after, s);
  }

  lemma RecountedAccountAgrees(decode: Decoder, t: Tables, addresses: set<Address>, s: string)
    requires s in TouchedStakes(decode, t, addresses)
    ensures AccountAgrees(Recount(decode, t, addresses), s)
  {
    hide MapSum, RecountedAddresses, TouchedStakes;
  }

  /** What must hold before a recount for everything to agree after it: nothing about the addresses recounted. */
  ghost predicate Repairable(decode: Decoder, t: Tables, addresses: set<Address>) {
    && RowsWellFormed(decode, t.utxos, t.assets)
    && (forall k :: k in t.utxos ==> t.utxos[k].held.address in t.addresses.Keys + addresses)
    && (forall a :: a in t.addresses ==> AddressDecoded(decode, a, t.addresses[a]))
    && (forall a :: a !in addresses ==> AddressAgrees(t, a))
    && (forall au :: au in t.addressAssets && au.0 !in addresses ==> t.addressAssets[au] > 0)
    && (forall s :: s !in TouchedStakes(decode, t, addresses) ==> AccountAgrees(t, s))
  }

  lemma RecountedPositive(decode: Decoder, t: Tables, addresses: set<Address>, au: (Address, Unit))
    requires au in Recount(decode, t, addresses).addressAssets
    requires au in t.addressAssets && au.0 !in addresses ==> t.addressAssets[au] > 0
    ensures Recount(decode, t, addresses).addressAssets[au] > 0
  {
    UnitsNonNegative(t.utxos, t.assets, au.0, au.1);
    hide MapSum, OutputAssetKeys, RecountedAddress;
  }

  lemma RecountedRows(decode: Decoder, t: Tables, addresses: set<Address>)
    requires forall a :: a in t.addresses ==> AddressDecoded(decode, a, t.addresses[a])
    ensures forall a :: a in Recount(decode, t, addresses).addresses ==>
      AddressDecoded(decode, a, Recount(decode, t, addresses).addresses[a])
    ensures Recount(decode, t, addresses).addresses.Keys == t.addresses.Keys + addresses
  {
    hide MapSum, OutputAssetKeys, RecountedAccount, TouchedStakes;
  }

  /** Recounting makes the whole ledger consistent, from any drift of the addresses it covers. */
  lemma RecountRepairs(decode: Decoder, t: Tables, addresses: set<Address>)
    requires Repairable(decode, t, addresses)
    ensures Consistent(decode, Recount(decode, t, addresses))
  {
    var t' := Recount(decode, t, addresses);
    RecountedRows(decode, t, addresses);
    assert RowsWellFormed(decode, t'.utxos, t'.assets);
    forall a
      ensures AddressAgrees(t', a)
    {
      if a in addresses {
        RecountedAgrees(decode, t, addresses, a);
      } else {
        OthersKeepSums(decode, t, addresses, a);
      }
    }
    forall au | au in t'.addressAssets
      ensures t'.addressAssets[au] > 0
    {
      RecountedPositive(decode, t, addresses, au);
    }
    forall s
      ensures AccountAgrees(t', s)
    {
      if s in TouchedStakes(decode, t, addresses) {
        RecountedAccountAgrees(decode, t, addresses, s);
      } else {
        OtherAccounts(decode, t, addresses, s);
      }
    }
  }

  lemma RecountTwiceAddress(decode: Decoder, t: Tables, addresses: set<Address>, a: Address)
    requires a in addresses
    ensures RecountedAddress(decode, Recount(decode, t, addresses), a) == RecountedAddress(decode, t, a)
    ensures StakeOf(decode, Recount(decode, t, addresses), a) == StakeOf(decode, t, a)
  {
    hide MapSum, OutputAssetKeys, RecountedAccount, TouchedStakes;
  }

  lemma RecountTwiceAssets(t: Tables, once: Tables, addresses: set<Address>)
    requires once.utxos == t.utxos && once.assets == t.assets
    requires once.addressAssets == RecountedAssets(t, addresses)
    ensures RecountedAssets(once, addresses) == once.addressAssets
  {
    assert OutputAssetKeys(once) == OutputAssetKeys(t);
    hide OpenSum, OutputAssetKeys, UnitAt;
  }

  /** Recounting reads only the open rows and, of the address rows, what it keeps. */
  lemma RecountTwiceAddresses(decode: Decoder, t: Tables, once: Tables, addresses: set<Address>)
    requires once.utxos == t.utxos && once.assets == t.assets
    requires once.addresses == RecountedAddresses(decode, t, addresses).addresses
    requires once.addressAssets == RecountedAddresses(decode, t, addresses).addressAssets
    requires forall a :: a in addresses ==> RecountedAddress(decode, once, a) == RecountedAddress(decode, t, a)
    ensures RecountedAddresses(decode, once, addresses).addresses == once.addresses
    ensures RecountedAddresses(decode, once, addresses).addressAssets == once.addressAssets
  {
    hide RecountedAddress, RecountedAssets;
    RecountTwiceAssets(t, once, addresses);
  }

  /** Recounting a second time changes nothing. */
  lemma RecountIdempotent(decode: Decoder, t: Tables, addresses: set<Address>)
    ensures Recount(decode, Recount(decode, t, addresses), addresses) == Recount(decode, t, addresses)
  {
    var once := Recount(decode, t, addresses);
    forall a | a in addresses
      ensures RecountedAddress(decode, once, a) == RecountedAddress(decode, t, a)
      ensures StakeOf(decode, once, a) == StakeOf(decode, t, a)
    {
      RecountTwiceAddress(decode, t, addresses, a);
    }
    RecountTwiceAddresses(decode, t, once, addresses);
    assert TouchedStakes(decode, once, addresses) == TouchedStakes(decode, t, addresses);
    hide RecountedAddress, RecountedAddresses, StakeOf, MapSum, OpenSum, TouchedStakes;
  }
}
