/**
 The ledger tables as the crawler updates them in place. Every method is proved against the value-level
 rules of LedgerRules, whose properties the proof modules establish.
 */
module LedgerStore {
  import opened Options
  import opened Chain
  import opened Sums
  import opened LedgerRules
  import opened LedgerApplyProofs
  import opened LedgerSteps
  import opened LedgerRollbackProofs

  /** Max keys per statement. */
  const IN_CHUNK := 500

  /** Rows already read for a set of source transactions, shared by input resolution and the ledger. */
  class LedgerLookup {
    var hashes: set<Hash>
    var rows: map<OutPoint, UtxoRow>
    var assets: map<OutPoint, seq<Amount>>

    constructor ()
      ensures hashes == {} && rows == map[] && assets == map[]
    {
      hashes, rows, assets := {}, map[], map[];
    }

    /** The lookup holds exactly what the tables hold for the transactions it covers. */
    ghost predicate Coherent(utxos: map<OutPoint, UtxoRow>, table: map<(OutPoint, Unit), nat>)
      reads this
    {
      && rows == RowsOf(utxos, hashes)
      && (forall k :: k in assets ==> k.txHash in hashes)
      && AllListed(hashes, assets, table)
    }
  }

  lemma EmptyCoherent(read: LedgerLookup, utxos: map<OutPoint, UtxoRow>, table: map<(OutPoint, Unit), nat>)
    requires read.hashes == {} && read.rows == map[] && read.assets == map[]
    ensures read.Coherent(utxos, table)
  {
    assert RowsOf(utxos, {}) == map[];
  }

  /** Every outpoint looked up reads as it is stored. */
  lemma SourcesCovered(lookups: seq<Spend>, sources: seq<Hash>, read: LedgerLookup, utxos: map<OutPoint, UtxoRow>, table: map<(OutPoint, Unit), nat>)
    requires |sources| == |lookups| && forall i :: 0 <= i < |lookups| ==> sources[i] == lookups[i].key.txHash
    requires read.Coherent(utxos, table) && (set h | h in sources) <= read.hashes
    ensures forall s :: s in lookups ==>
      && s.key.txHash in read.hashes
      && (s.key in read.rows <==> s.key in utxos) && (s.key in read.rows ==> read.rows[s.key] == utxos[s.key])
  {
    forall s | s in lookups
      ensures s.key.txHash in read.hashes
    {
      var i :| 0 <= i < |lookups| && lookups[i] == s;
      assert sources[i] in sources;
    }
  }

  lemma {:induction false} OpenKeysIn(utxos: map<OutPoint, UtxoRow>, lookups: seq<Spend>, hashes: set<Hash>)
    requires forall s :: s in lookups ==> s.key.txHash in hashes
    ensures forall k :: k in OpenKeys(utxos, lookups) ==> IsOpen(utxos, k) && k.txHash in hashes
  {
    if lookups != [] {
      OpenKeysIn(utxos, lookups[..|lookups| - 1], hashes);
    }
  }

  /** An account row from the sums over its address rows. */
  function AccountFrom(sums: map<string, StakeDelta>, accounts: map<string, AccountRow>, s: string): AccountRow {
    var d := StakeDeltaOf(sums, s);
    AccountRow(d.lovelace, d.newAddresses, d.utxos, if s in accounts then accounts[s].lastActiveSlot else None)
  }

  function AccountsFrom(sums: map<string, StakeDelta>, accounts: map<string, AccountRow>, stakes: set<string>): map<string, AccountRow> {
    accounts + map s | s in stakes :: AccountFrom(sums, accounts, s)
  }

  lemma AccountFromSums(sums: map<string, StakeDelta>, t: Tables, stakes: set<string>, s: string)
    requires AccountSumsHold(sums, StakeRows(t.addresses, stakes)) && s in stakes
    ensures AccountFrom(sums, t.accounts, s) == RecountedAccount(t, s)
  {
    var rows := StakeRows(t.addresses, stakes);
    AllAddressRowsRead(t, stakes, rows, s);
    hide MapSum, StakeRows;
    assert StakeDeltaOf(sums, s).lovelace == MapSum(rows, AccountLovelace(s));
  }

  lemma AccountsFromSums(sums: map<string, StakeDelta>, t: Tables, stakes: set<string>)
    requires AccountSumsHold(sums, StakeRows(t.addresses, stakes))
    ensures AccountsFrom(sums, t.accounts, stakes) == RecountedAccounts(t, stakes).accounts
  {
    forall s | s in stakes
      ensures AccountFrom(sums, t.accounts, s) == RecountedAccount(t, s)
    {
      AccountFromSums(sums, t, stakes, s);
    }
    hide AccountFrom, RecountedAccount, AccountSumsHold;
  }

  lemma RevertedInSteps(t: Tables, hashes: set<Hash>, kept: map<OutPoint, UtxoRow>)
    requires kept == map k | k in t.utxos && k.txHash !in hashes :: t.utxos[k]
    ensures Reverted(t, hashes).utxos == map k | k in kept :: if SpentIn(kept[k], hashes) then UtxoRow(kept[k].held, None, None) else kept[k]
  {
  }

  datatype ApplyResult = ApplyResult(created: nat, spent: nat, missing: nat, addresses: nat)

  /** What the block creates, spends, fails to find and touches, counted. */
  ghost predicate CountsHold(r: ApplyResult, t: Tables, e: Effect) {
    && r.created == |e.created|
    && r.spent == |e.created.Keys * Spenders(e.spends).Keys| + |AllSpent(t.utxos, e)|
    && r.missing + |AllSpent(t.utxos, e)| == |Lookups(e.created.Keys, e.spends)|
    && r.addresses == |Touched(t, e)|
  }

  lemma CountsAre(r: ApplyResult, t: Tables, e: Effect)
    requires r.created == |e.created| && r.addresses == |Touched(t, e)|
    requires r.spent == |e.created.Keys * Spenders(e.spends).Keys| + |AllSpent(t.utxos, e)|
    requires r.missing + |AllSpent(t.utxos, e)| == |Lookups(e.created.Keys, e.spends)|
    ensures CountsHold(r, t, e)
  {
  }

  // ---------------------------------------------------------------- what a block creates and consumes

  /** Outputs of the block by outpoint; a repeated outpoint is overwritten. */
  method CollectCreated(decode: Decoder, slot: nat, txs: seq<Tx>) returns (created: map<OutPoint, Built>)
    ensures created == BuildAll(decode, slot, Creations(txs))
  {
    var cs := Creations(txs);
    created := map[];
    for i := 0 to |cs|
      invariant created == BuildAll(decode, slot, cs[..i])
    {
      created := created[cs[i].key := BuildRows(decode, cs[i].output, Some(slot))];
      assert cs[..i + 1][..i] == cs[..i];
    }
    assert cs[..|cs|] == cs;
  }

  /** Mark the block's own outputs it consumes and list the other outpoints for lookup. */
  method SplitConsumed(rows: map<OutPoint, UtxoRow>, spends: seq<Spend>, slot: nat)
    returns (marked: map<OutPoint, UtxoRow>, spentInBlock: set<OutPoint>, lookups: seq<Spend>)
    ensures marked == MarkOwn(rows, spends, slot) && marked.Keys == rows.Keys
    ensures spentInBlock == rows.Keys * Spenders(spends).Keys
    ensures lookups == Lookups(rows.Keys, spends)
  {
    marked, spentInBlock, lookups := rows, {}, [];
    for i := 0 to |spends|
      invariant marked == MarkOwn(rows, spends[..i], slot) && marked.Keys == rows.Keys
      invariant spentInBlock == rows.Keys * Spenders(spends[..i]).Keys
      invariant lookups == Lookups(rows.Keys, spends[..i])
    {
      var s := spends[i];
      assert spends[..i + 1][..i] == spends[..i];
      if s.key in marked {
        marked := marked[s.key := Marked(marked[s.key], s.spender, slot)];
        spentInBlock := spentInBlock + {s.key};
      } else {
        lookups := lookups + [s];
      }
    }
    assert spends[..|spends|] == spends;
  }

  /** Resolve the other outpoints against the rows read; one without an open row is counted, not thrown. */
  method ResolveSpent(utxos: map<OutPoint, UtxoRow>, rows: map<OutPoint, UtxoRow>, lookups: seq<Spend>, slot: nat)
    returns (keys: seq<OutPoint>, spentRows: map<OutPoint, UtxoRow>, missing: nat)
    requires forall s :: s in lookups ==> (s.key in rows <==> s.key in utxos) && (s.key in rows ==> rows[s.key] == utxos[s.key])
    ensures keys == OpenKeys(utxos, lookups) && spentRows == SpentRows(utxos, lookups, slot)
    ensures missing + |keys| == |lookups|
  {
    keys, spentRows, missing := [], map[], 0;
    for i := 0 to |lookups|
      invariant keys == OpenKeys(utxos, lookups[..i]) && spentRows == SpentRows(utxos, lookups[..i], slot)
      invariant missing + |keys| == i
    {
      var s := lookups[i];
      assert s in lookups;
      assert lookups[..i + 1][..i] == lookups[..i];
      if s.key !in rows || rows[s.key].spentTxHash.Some? {
        missing := missing + 1;
      } else {
        keys := keys + [s.key];
        spentRows := spentRows[s.key := Marked(rows[s.key], s.spender, slot)];
      }
    }
    assert lookups[..|lookups|] == lookups;
  }

  // ---------------------------------------------------------------- deltas

  method ApplyDelta(d: AddressDelta, lovelace: nat, list: seq<Amount>, sign: int) returns (d': AddressDelta)
    requires sign == 1 || sign == -1
    ensures d'.lovelace == d.lovelace + sign * lovelace && d'.utxos == d.utxos + sign
    ensures forall u :: UnitIn(d'.assets, u) == UnitIn(d.assets, u) + if sign == 1 then ListQuantity(list, u) else -ListQuantity(list, u)
    ensures (d'.stakeAddress, d'.addressType, d'.isScript) == (d.stakeAddress, d.addressType, d.isScript)
  {
    var sums := d.assets;
    for i := 0 to |list|
      invariant forall u :: UnitIn(sums, u) == UnitIn(d.assets, u) + if sign == 1 then ListQuantity(list[..i], u) else -ListQuantity(list[..i], u)
    {
      var a := list[i];
      sums := sums[a.unit := UnitIn(sums, a.unit) + sign * a.quantity];
      assert list[..i + 1][..i] == list[..i];
    }
    assert list[..|list|] == list;
    d' := d.(lovelace := d.lovelace + sign * lovelace, utxos := d.utxos + sign, assets := sums);
  }

  /** Count one created output, and take it away again if the block spends it. */
  method CountOutput(ghost decode: Decoder, deltas: map<Address, AddressDelta>, ghost p: Progress, k: OutPoint, b: Built, spentAgain: bool)
    returns (deltas': map<Address, AddressDelta>)
    requires AllDecoded(decode, deltas) && HoldingDecoded(decode, b.held)
    requires DeltasHold(deltas, p) && k !in p.created && (spentAgain <==> k in p.spenders)
    requires forall u :: ListQuantity(b.assets, u) == Quantity(p.table, k, u)
    ensures DeltasHold(deltas', p.(created := p.created[k := b]))
    ensures AllDecoded(decode, deltas')
  {
    CountedCreated(p, k, b);
    hide DeltasHold, Counted, Partial, ListQuantity, Quantity, AllDecoded, HoldingDecoded;
    var d := if b.held.address in deltas then deltas[b.held.address] else ZeroDelta(b.held);
    var d' := ApplyDelta(d, b.held.lovelace, b.assets, 1);
    if spentAgain {
      d' := ApplyDelta(d', b.held.lovelace, b.assets, -1);
    }
    CountedKeeps(deltas, p, p.(created := p.created[k := b]), k, b.held, if k in p.spenders then Zero else Plus, d, d');
    DecodedPut(decode, deltas, b.held, d');
    deltas' := deltas[b.held.address := d'];
  }

  /** Take one spent row away. */
  method CountSpent(ghost decode: Decoder, deltas: map<Address, AddressDelta>, ghost p: Progress, k: OutPoint, h: Holding, list: seq<Amount>)
    returns (deltas': map<Address, AddressDelta>)
    requires AllDecoded(decode, deltas) && HoldingDecoded(decode, h)
    requires DeltasHold(deltas, p) && k in p.utxos && p.utxos[k].held == h
    requires forall u :: ListQuantity(list, u) == Quantity(p.table, k, u)
    ensures DeltasHold(deltas', p.(spent := p.spent + [k]))
    ensures AllDecoded(decode, deltas')
  {
    CountedSpent(p, k);
    hide DeltasHold, Counted, Partial, ListQuantity, Quantity, AllDecoded, HoldingDecoded;
    var d := if h.address in deltas then deltas[h.address] else ZeroDelta(h);
    var d' := ApplyDelta(d, h.lovelace, list, -1);
    CountedKeeps(deltas, p, p.(spent := p.spent + [k]), k, h, Minus, d, d');
    DecodedPut(decode, deltas, h, d');
    deltas' := deltas[h.address := d'];
  }

  /** Per-address deltas of the block: created outputs first, then the stored rows it spends. */
  method CollectDeltas(ghost decode: Decoder, e: Effect, ghost utxos: map<OutPoint, UtxoRow>, ghost table: map<(OutPoint, Unit), nat>,
                       spentInBlock: set<OutPoint>, keys: seq<OutPoint>, rows: map<OutPoint, UtxoRow>, lists: map<OutPoint, seq<Amount>>)
    returns (deltas: map<Address, AddressDelta>)
    requires spentInBlock == e.created.Keys * Spenders(e.spends).Keys
    requires forall k :: k in e.created ==> HoldingDecoded(decode, e.created[k].held)
    requires forall k :: k in utxos ==> HoldingDecoded(decode, utxos[k].held)
    requires forall k, u :: k in e.created ==> ListQuantity(e.created[k].assets, u) == Quantity(table, k, u)
    requires forall k :: k in keys ==> k in rows && k in utxos && rows[k] == utxos[k]
    requires forall k, u :: k in keys ==> ListQuantity(ListOf(lists, k), u) == Quantity(table, k, u)
    ensures DeltasHold(deltas, Progress(e.created, keys, Spenders(e.spends), utxos, table))
    ensures AllDecoded(decode, deltas)
  {
    deltas := map[];
    ghost var start := Progress(map[], [], Spenders(e.spends), utxos, table);
    assert DeltasHold(deltas, start);
    assert AllDecoded(decode, deltas);
    hide DeltasHold, AllDecoded, HoldingDecoded, ListQuantity, Quantity;
    var todo := e.created.Keys;
    while todo != {}
      invariant todo <= e.created.Keys
      invariant DeltasHold(deltas, start.(created := e.created - todo)) && AllDecoded(decode, deltas)
      decreases todo
    {
      var k :| k in todo;
      deltas := CountOutput(decode, deltas, start.(created := e.created - todo), k, e.created[k], k in spentInBlock);
      assert e.created - (todo - {k}) == (e.created - todo)[k := e.created[k]];
      todo := todo - {k};
    }
    assert e.created - todo == e.created;
    ghost var p := start.(created := e.created);
    for i := 0 to |keys|
      invariant DeltasHold(deltas, p.(spent := keys[..i])) && AllDecoded(decode, deltas)
    {
      var k := keys[i];
      assert k in keys && keys[..i] + [k] == keys[..i + 1];
      deltas := CountSpent(decode, deltas, p.(spent := keys[..i]), k, rows[k].held, ListOf(lists, k));
    }
    assert keys[..|keys|] == keys;
  }

  class LedgerStore {
    const decode: Decoder
    var utxos: map<OutPoint, UtxoRow>
    var assets: map<(OutPoint, Unit), nat>
    var addresses: map<Address, AddressRow>
    var addressAssets: map<(Address, Unit), int>
    var accounts: map<string, AccountRow>

    constructor (decode: Decoder, imported: Tables)
      ensures this.decode == decode && State() == imported
    {
      this.decode := decode;
      utxos, assets, addresses := imported.utxos, imported.assets, imported.addresses;
      addressAssets, accounts := imported.addressAssets, imported.accounts;
    }

    function State(): Tables
      reads this
    {
      Tables(utxos, assets, addresses, addressAssets, accounts)
    }

    // -------------------------------------------------------------- reading

    /** Read the asset rows of these transactions into the lists, one row at a time in any order. */
    method ReadAssetRows(withAssets: set<Hash>, lists: map<OutPoint, seq<Amount>>) returns (lists': map<OutPoint, seq<Amount>>)
      requires forall k :: k in lists ==> k.txHash !in withAssets
      ensures forall k :: k in lists' ==> k in lists || k.txHash in withAssets
      ensures forall k: OutPoint :: k.txHash !in withAssets ==> ListOf(lists', k) == ListOf(lists, k)
      ensures AllListed(withAssets, lists', assets)
    {
      lists' := lists;
      var todo := set ku | ku in assets && ku.0.txHash in withAssets;
      while todo != {}
        invariant todo <= set ku | ku in assets && ku.0.txHash in withAssets
        invariant forall k :: k in lists' ==> k in lists || k.txHash in withAssets
        invariant forall k: OutPoint :: k.txHash !in withAssets ==> ListOf(lists', k) == ListOf(lists, k)
        invariant forall k: OutPoint :: k.txHash in withAssets ==> Lists(ListOf(lists', k), k, assets, todo)
        decreases todo
      {
        var ku :| ku in todo;
        var list := ListOf(lists', ku.0);
        ListsPush(list, ku.0, assets, todo, ku.1);
        forall k: OutPoint | k.txHash in withAssets && k != ku.0
          ensures Lists(ListOf(lists', k), k, assets, todo - {ku})
        {
          ListsFrame(ListOf(lists', k), k, assets, todo, todo - {ku});
        }
        assert ku == (ku.0, ku.1);
        lists' := lists'[ku.0 := list + [Amount(ku.1, assets[ku])]];
        todo := todo - {ku};
      }
    }

    method ReadChunk(hashChunk: set<Hash>, lookup: LedgerLookup)
      requires RowsWellFormed(decode, utxos, assets) && lookup.Coherent(utxos, assets)
      requires hashChunk !! lookup.hashes
      modifies lookup
      ensures lookup.Coherent(utxos, assets) && lookup.hashes == old(lookup.hashes) + hashChunk
    {
      var rows := RowsOf(utxos, hashChunk);
      var withAssets := set k | k in rows && rows[k].held.hasAssets :: k.txHash;
      UnflaggedRows(decode, utxos, assets, hashChunk, withAssets);
      RowsOfMore(utxos, lookup.hashes, hashChunk);
      hide RowsWellFormed, Lists, RowsOf;
      lookup.rows := lookup.rows + rows;
      if withAssets != {} {
        var lists := ReadAssetRows(withAssets, lookup.assets);
        lookup.assets := lists;
      }
      lookup.hashes := lookup.hashes + hashChunk;
    }

    /** Extend the lookup by the rows of these transactions; the ones it already covers are not read again. */
    method ReadLedgerOutputs(txHashes: seq<Hash>, lookup: LedgerLookup)
      requires RowsWellFormed(decode, utxos, assets) && lookup.Coherent(utxos, assets)
      modifies lookup
      ensures lookup.Coherent(utxos, assets)
      ensures lookup.hashes == old(lookup.hashes) + set h | h in txHashes
    {
      var todo: seq<Hash> := [];
      for i := 0 to |txHashes|
        invariant Distinct(todo)
        invariant forall h :: h in todo <==> h in txHashes[..i] && h !in lookup.hashes
      {
        if txHashes[i] !in lookup.hashes && txHashes[i] !in todo {
          todo := todo + [txHashes[i]];
        }
      }
      var i := 0;
      while i < |todo|
        invariant 0 <= i <= |todo|
        invariant lookup.Coherent(utxos, assets)
        invariant lookup.hashes == old(lookup.hashes) + set h | h in todo[..i]
      {
        var next := if i + IN_CHUNK < |todo| then i + IN_CHUNK else |todo|;
        var hashChunk := set h | h in todo[i..next];
        assert todo[..next] == todo[..i] + todo[i..next];
        ReadChunk(hashChunk, lookup);
        i := next;
      }
      assert todo[..i] == todo;
    }

    // -------------------------------------------------------------- applying a block

    /** Add one delta to the row of its address and to its asset rows. */
    method WriteAddress(a: Address, d: AddressDelta, slot: nat)
      requires DeltaDecoded(decode, a, d)
      modifies this`addresses, this`addressAssets
      ensures addresses == old(addresses)[a := AddressWrite(decode, old(State()), slot, a, d.lovelace, d.utxos)]
      ensures AssetsWritten(old(addressAssets), addressAssets, a, d.assets)
    {
      var total, count := d.lovelace, d.utxos;
      var stakeAddress, addressType, isScript, firstSeenSlot := d.stakeAddress, d.addressType, d.isScript, Some(slot);
      if a in addresses {
        var prev := addresses[a];
        total, count := prev.totalLovelace + d.lovelace, prev.utxoCount + d.utxos;
        stakeAddress := if prev.stakeAddress.Some? then prev.stakeAddress else d.stakeAddress;
        addressType, isScript, firstSeenSlot := prev.addressType, prev.isScript, prev.firstSeenSlot;
      }
      addresses := addresses[a := AddressRow(stakeAddress, decode(a).paymentCredential, addressType, isScript,
                                             total, count, firstSeenSlot, Some(slot))];
      var todo := d.assets.Keys;
      while todo != {}
        invariant todo <= d.assets.Keys
        invariant forall u :: (Stored(addressAssets, a, u)
                               == if u in todo then Stored(old(addressAssets), a, u)
                                  else AssetWrite(Stored(old(addressAssets), a, u), UnitIn(d.assets, u)))
        invariant forall b, u :: b != a ==> Stored(addressAssets, b, u) == Stored(old(addressAssets), b, u)
        invariant addresses == old(addresses)[a := AddressWrite(decode, old(State()), slot, a, d.lovelace, d.utxos)]
        decreases todo
      {
        var u :| u in todo;
        var delta, k := d.assets[u], (a, u);
        assert Stored(addressAssets, a, u) == Stored(old(addressAssets), a, u);
        if delta != 0 {
          var next := (if k in addressAssets then addressAssets[k] else 0) + delta;
          addressAssets := if next == 0 then addressAssets - {k} else addressAssets[k := next];
        }
        todo := todo - {u};
      }
    }

    /** Write one touched address and add what its stake key gains. */
    method WriteTouched(a: Address, d: AddressDelta, stakes: map<string, StakeDelta>, ghost t: Tables, ghost e: Effect, slot: nat)
      returns (stakes': map<string, StakeDelta>)
      requires DeltaDecoded(decode, a, d) && e.slot == slot
      requires a in addresses <==> a in t.addresses
      requires a in addresses ==> addresses[a] == t.addresses[a]
      requires d.lovelace == Delta(t, e, LovelaceAt(a)) && d.utxos == Delta(t, e, CountAt(a))
      modifies this`addresses, this`addressAssets
      ensures addresses == old(addresses)[a := AddressAfter(decode, t, e, a)]
      ensures AssetsWritten(old(addressAssets), addressAssets, a, d.assets)
      ensures stakes' == StakesWith(stakes, decode, t, e, a)
    {
      hide Delta, AssetsWritten;
      var isNew := a !in addresses;
      var stake := if a in addresses && addresses[a].stakeAddress.Some? then addresses[a].stakeAddress else d.stakeAddress;
      assert stake == StakeOf(decode, t, a);
      assert AddressWrite(decode, State(), slot, a, d.lovelace, d.utxos) == AddressAfter(decode, t, e, a);
      WriteAddress(a, d, slot);
      stakes' := stakes;
      if stake.Some? {
        var s := StakeDeltaOf(stakes, stake.value);
        stakes' := stakes[stake.value := StakeDelta(s.lovelace + d.lovelace, s.utxos + d.utxos, s.newAddresses + if isNew then 1 else 0)];
      }
    }

    /** Write every touched address and collect what the stake keys gain. */
    method WriteAddresses(deltas: map<Address, AddressDelta>, slot: nat, ghost t: Tables, ghost e: Effect)
      returns (stakes: map<string, StakeDelta>)
      requires addresses == t.addresses && addressAssets == t.addressAssets
      requires DeltasHold(deltas, Full(t, e)) && AllDecoded(decode, deltas)
      requires AssetsOwned(t) && Fresh(t, e) && e.slot == slot
      modifies this`addresses, this`addressAssets
      ensures addresses == AddressesAfter(decode, t, e)
      ensures addressAssets == AddressAssetsAfter(t, e)
      ensures StakesHold(stakes, decode, t, e, Touched(t, e))
    {
      hide AddressesDone, AddressesAfter, AddressAssetsAfter, AccountsAfter, AccountsDone, TouchedStakes;
      hide DeltasHold, Full, StakesHold, StakesWith, AssetsDone, AssetsWritten, Touched, Delta, UnitDelta, AddressAfter, AssetsOwned, Fresh;
      FullDeltas(deltas, t, e);
      NoStakesYet(decode, t, e);
      DoneBounds(decode, t, e);
      stakes := map[];
      var todo := deltas.Keys;
      ghost var done: set<Address> := {};
      while todo != {}
        invariant done == deltas.Keys - todo && todo <= deltas.Keys
        invariant addresses == AddressesDone(decode, t, e, done)
        invariant AssetsDone(t, e, addressAssets, done)
        invariant StakesHold(stakes, decode, t, e, done)
        decreases todo
      {
        var a :| a in todo;
        ghost var stakes0, before := stakes, addressAssets;
        AddressesDoneAdd(decode, t, e, done, a);
        stakes := WriteTouched(a, deltas[a], stakes, t, e, slot);
        AssetsDoneAdd(t, e, before, addressAssets, done, a, deltas[a].assets);
        StakesAdd(stakes0, stakes, decode, t, e, done, a);
        todo, done := todo - {a}, done + {a};
      }
      assert done == Touched(t, e);
      AssetsAllDone(t, e, addressAssets);
    }

    /** Add what the touched addresses gained to their accounts. */
    method WriteAccounts(stakes: map<string, StakeDelta>, slot: nat, ghost t: Tables, ghost e: Effect)
      requires StakesHold(stakes, decode, t, e, Touched(t, e)) && accounts == t.accounts && e.slot == slot
      modifies this`accounts
      ensures accounts == AccountsAfter(decode, t, e)
    {
      hide TouchedStakes, Touched, AccountAfter, AccountsDone, AccountsAfter, MapSum, Each;
      assert stakes.Keys == TouchedStakes(decode, t, Touched(t, e));
      hide StakesHold;
      DoneBounds(decode, t, e);
      var todo := stakes.Keys;
      ghost var done: set<string> := {};
      while todo != {}
        invariant done == stakes.Keys - todo && todo <= stakes.Keys
        invariant accounts == AccountsDone(decode, t, e, done)
        decreases todo
      {
        var s :| s in todo;
        var d := stakes[s];
        StakeRow(stakes, decode, t, e, s);
        AccountsDoneAdd(decode, t, e, done, s);
        var prev := if s in accounts then accounts[s] else AccountRow(0, 0, 0, None);
        accounts := accounts[s := AccountRow(prev.controlledAmount + d.lovelace, prev.addressCount + d.newAddresses,
                                             prev.utxoCount + d.utxos, Some(slot))];
        todo, done := todo - {s}, done + {s};
      }
      assert done == stakes.Keys;
    }

    /** Read the outpoints not created in the block and keep the open ones. */
    method ReadSpent(lookups: seq<Spend>, slot: nat, lookup: LedgerLookup)
      returns (keys: seq<OutPoint>, spentRows: map<OutPoint, UtxoRow>, missing: nat)
      requires RowsWellFormed(decode, utxos, assets) && lookup.Coherent(utxos, assets)
      modifies lookup
      ensures lookup.Coherent(utxos, assets)
      ensures keys == OpenKeys(utxos, lookups) && spentRows == SpentRows(utxos, lookups, slot)
      ensures missing + |keys| == |lookups|
      ensures forall k :: k in keys ==> k.txHash in lookup.hashes && k in utxos && k in lookup.rows && lookup.rows[k] == utxos[k]
    {
      var sources := seq(|lookups|, i requires 0 <= i < |lookups| => lookups[i].key.txHash);
      ReadLedgerOutputs(sources, lookup);
      SourcesCovered(lookups, sources, lookup, utxos, assets);
      OpenKeysIn(utxos, lookups, lookup.hashes);
      keys, spentRows, missing := ResolveSpent(utxos, lookup.rows, lookups, slot);
    }

    /** Write the running sums of a block whose deltas are collected. */
    method WriteSums(deltas: map<Address, AddressDelta>, slot: nat, ghost t: Tables, ghost e: Effect)
      requires (addresses, addressAssets, accounts) == (t.addresses, t.addressAssets, t.accounts)
      requires DeltasHold(deltas, Full(t, e)) && AllDecoded(decode, deltas)
      requires AssetsOwned(t) && Fresh(t, e) && e.slot == slot
      modifies this`addresses, this`addressAssets, this`accounts
      ensures addresses == AddressesAfter(decode, t, e)
      ensures addressAssets == AddressAssetsAfter(t, e)
      ensures accounts == AccountsAfter(decode, t, e)
    {
      hide DeltasHold, Full, AddressesAfter, AddressAssetsAfter, AccountsAfter, StakesHold;
      var stakes := WriteAddresses(deltas, slot, t, e);
      WriteAccounts(stakes, slot, t, e);
    }

    /** Work out what the block does to the rows and to the addresses, writing nothing. */
    method PrepareBlock(e: Effect, lookup: LedgerLookup)
      returns (own: map<OutPoint, UtxoRow>, spentRows: map<OutPoint, UtxoRow>, deltas: map<Address, AddressDelta>, counts: ApplyResult)
      requires RowsWellFormed(decode, utxos, assets) && lookup.Coherent(utxos, assets)
      requires Fresh(State(), e) && WellBuilt(decode, e)
      modifies lookup
      ensures utxos + own + spentRows == UtxosAfter(utxos, e)
      ensures DeltasHold(deltas, Full(State(), e)) && AllDecoded(decode, deltas)
      ensures CountsHold(counts, State(), e)
      ensures AssetsOwned(State())
    {
      assert CreatedRows(e).Keys == e.created.Keys;
      hide UtxosAfter, AssetsAfter, WellBuilt, Fresh, RowsWellFormed, DeltasHold, AllDecoded, AssetsOwned;
      hide AllSpent, CreatedAssets, CreatedRows, MarkOwn, SpentRows, Lookups, Spenders, AllListed, RowsOf, ListQuantity;
      hide CountsHold, Touched, Full;
      ghost var t := State();
      var lookups;
      var spentInBlock;
      own, spentInBlock, lookups := SplitConsumed(CreatedRows(e), e.spends, e.slot);
      var keys, missing;
      keys, spentRows, missing := ReadSpent(lookups, e.slot, lookup);
      OpenKeysOf(utxos, e);
      ResolvedKeys(decode, t, e, lookup.hashes, lookup.assets, keys);
      deltas := CollectDeltas(decode, e, utxos, AssetsAfter(assets, e), spentInBlock, keys, lookup.rows, lookup.assets);
      WrittenTables(t, e);
      FullDeltas(deltas, t, e);
      counts := ApplyResult(|e.created|, |spentInBlock| + |keys|, missing, |deltas|);
      CountsAre(counts, t, e);
    }

    /** Write what a block does: its rows, the rows it spends, and the running sums. */
    method WriteBlock(created: map<OutPoint, Built>, own: map<OutPoint, UtxoRow>, spentRows: map<OutPoint, UtxoRow>,
                      deltas: map<Address, AddressDelta>, slot: nat, ghost t: Tables, ghost e: Effect)
      requires State() == t && e.created == created && e.slot == slot
      requires utxos + own + spentRows == UtxosAfter(utxos, e)
      requires DeltasHold(deltas, Full(t, e)) && AllDecoded(decode, deltas) && AssetsOwned(t) && Fresh(t, e)
      modifies this
      ensures State() == Apply(decode, t, e)
    {
      hide UtxosAfter, Fresh, DeltasHold, AddressesAfter, AddressAssetsAfter, AccountsAfter, CreatedAssets, AllDecoded, AssetsOwned, Full;
      utxos := utxos + own;
      assets := assets + CreatedAssets(created);
      utxos := utxos + spentRows;
      WriteSums(deltas, slot, t, e);
    }

    /**
     Apply one block: build what it creates, resolve what it consumes, and add the deltas to the running sums.
     Rows the caller already read are reused; the result is the same as with a fresh read.
     */
    method ApplyBlockToLedger(slot: nat, txs: seq<Tx>, lookup: LedgerLookup?) returns (result: ApplyResult)
      requires RowsWellFormed(decode, utxos, assets)
      requires lookup != null ==> lookup.Coherent(utxos, assets)
      requires Fresh(State(), EffectOf(decode, slot, txs)) && WellBuilt(decode, EffectOf(decode, slot, txs))
      modifies this, if lookup != null then {lookup} else {}
      ensures State() == Apply(decode, old(State()), EffectOf(decode, slot, txs))
      ensures CountsHold(result, old(State()), EffectOf(decode, slot, txs))
    {
      hide Apply, UtxosAfter, WellBuilt, Fresh, RowsWellFormed, DeltasHold, Touched, AddressesAfter, AddressAssetsAfter;
      hide AccountsAfter, AllSpent, CreatedAssets, Lookups, BuildAll, AllListed, RowsOf, AllDecoded, AssetsOwned, Full, Spenders, Spends, Creations;
      hide CountsHold;
      ghost var t := State();
      var created := CollectCreated(decode, slot, txs);
      var e := Effect(slot, created, Spends(txs));
      var read := lookup;
      if read == null {
        read := new LedgerLookup();
        EmptyCoherent(read, utxos, assets);
      }
      var own, spentRows, deltas;
      own, spentRows, deltas, result := PrepareBlock(e, read);
      WriteBlock(created, own, spentRows, deltas, slot, t, e);
    }

    // -------------------------------------------------------------- recounting

    /** Sum the asset rows of the open outputs of an address. */
    method SumAssets(a: Address) returns (sums: map<Unit, int>)
      requires RowsWellFormed(decode, utxos, assets)
      ensures AssetSumsHold(sums, utxos, assets, a)
    {
      var open := OpenAt(utxos, a);
      var withAssets := set k | k in open && open[k].held.hasAssets :: k.txHash;
      var read := map ku | ku in assets && ku.0.txHash in withAssets :: assets[ku];
      sums := AddAssetRows(a, open, read);
      AllAssetRowsRead(decode, sums, utxos, assets, read, a, withAssets);
    }

    /** Add up the asset rows read, skipping those of outputs that are spent or held elsewhere. */
    method AddAssetRows(a: Address, open: map<OutPoint, UtxoRow>, read: map<(OutPoint, Unit), nat>) returns (sums: map<Unit, int>)
      requires open == OpenAt(utxos, a)
      ensures AssetSumsHold(sums, utxos, read, a)
    {
      NoAssetSums(utxos, a);
      hide AssetSumsHold, OpenAt;
      sums := map[];
      var todo := read.Keys;
      assert read - todo == map[];
      while todo != {}
        invariant todo <= read.Keys
        invariant AssetSumsHold(sums, utxos, read - todo, a)
        decreases todo
      {
        var ku :| ku in todo;
        ReadAssetRow(sums, utxos, read - todo, a, ku, read[ku]);
        if ku.0 in open {
          sums := sums[ku.1 := UnitIn(sums, ku.1) + read[ku]];
        }
        assert read - (todo - {ku}) == (read - todo)[ku := read[ku]];
        todo := todo - {ku};
      }
      assert read - todo == read;
    }

    /** Replace the asset rows of an address by its sums, leaving out the zero ones. */
    method ReplaceAssets(a: Address, sums: map<Unit, int>)
      modifies this`addressAssets
      ensures AssetsReplaced(old(addressAssets), addressAssets, a, sums)
    {
      addressAssets := map au | au in addressAssets && au.0 != a :: addressAssets[au];
      assert forall b: Address, u: Unit :: (b, u).0 == b;
      var todo := sums.Keys;
      while todo != {}
        invariant todo <= sums.Keys
        invariant forall u :: (Stored(addressAssets, a, u) == if u in todo || UnitIn(sums, u) == 0 then None else Some(UnitIn(sums, u)))
        invariant forall b, u :: b != a ==> Stored(addressAssets, b, u) == Stored(old(addressAssets), b, u)
        decreases todo
      {
        var u :| u in todo;
        if sums[u] != 0 {
          addressAssets := addressAssets[(a, u) := sums[u]];
        }
        todo := todo - {u};
      }
    }

    /** Sum lovelace over the open outputs of an address. */
    method SumLovelace(a: Address) returns (total: int, count: nat)
      ensures total == OpenSum(utxos, LovelaceAt(a)) && count == OpenSum(utxos, CountAt(a))
    {
      var open := OpenAt(utxos, a);
      OpenAtSums(utxos, a);
      count := |open|;
      hide OpenAt, OpenSum;
      total := 0;
      var todo := open.Keys;
      while todo != {}
        invariant todo <= open.Keys
        invariant total == MapSum(open - todo, Open(LovelaceAt(a)))
        decreases todo
      {
        var k :| k in todo;
        SumPut(open - todo, Open(LovelaceAt(a)), k, open[k]);
        assert open - (todo - {k}) == (open - todo)[k := open[k]];
        total := total + open[k].held.lovelace;
        todo := todo - {k};
      }
      assert open - todo == open;
    }

    /** Recount one address from its open rows; the stake key comes from the old row, an open row or the address. */
    method RecountAddress(a: Address) returns (stake: Option<string>)
      requires RowsWellFormed(decode, utxos, assets)
      modifies this`addresses, this`addressAssets
      ensures addresses == old(addresses)[a := RecountedAddress(decode, old(State()), a)]
      ensures stake == StakeOf(decode, old(State()), a)
      ensures exists sums :: AssetSumsHold(sums, utxos, assets, a) && AssetsReplaced(old(addressAssets), addressAssets, a, sums)
    {
      var sums := SumAssets(a);
      var total, count := SumLovelace(a);
      hide OpenSum, AssetSumsHold, AssetsReplaced;
      var decoded := decode(a);
      stake := None;
      if a in addresses {
        stake := addresses[a].stakeAddress;
      }
      if stake.None? {
        if k :| k in utxos && utxos[k].spentTxHash.None? && utxos[k].held.address == a {
          assert HoldingDecoded(decode, utxos[k].held);
          stake := utxos[k].held.stakeAddress;
        }
      }
      if stake.None? {
        stake := decoded.stakeAddress;
      }
      var row :=
        if a in addresses then
          addresses[a].(stakeAddress := stake, paymentCredential := decoded.paymentCredential, totalLovelace := total, utxoCount := count)
        else AddressRow(stake, decoded.paymentCredential, decoded.addressType, decoded.isScript, total, count, None, None);
      addresses := addresses[a := row];
      ReplaceAssets(a, sums);
    }

    /** Recount these addresses and their stake keys from the open rows. Also repairs a drifted sum. */
    method RecountLedgerAddresses(list: set<Address>)
      requires RowsWellFormed(decode, utxos, assets)
      modifies this`addresses, this`addressAssets, this`accounts
      ensures State() == Recount(decode, old(State()), list)
    {
      ghost var t := State();
      RecountedBounds(decode, t, list);
      hide AssetsRecounted, AddressesRecounted, RecountedAddress, RecountedAssets, OpenSum, TouchedStakes, RowsWellFormed;
      hide AssetSumsHold, AssetsReplaced;
      var stakes: set<string> := {};
      assert stakes == TouchedStakes(decode, t, {}) by {
        NoTouchedStakes(decode, t);
      }
      var todo := list;
      ghost var done: set<Address> := {};
      while todo != {}
        invariant done == list - todo && todo <= list
        invariant addresses == AddressesRecounted(decode, t, done)
        invariant AssetsRecounted(t, addressAssets, done)
        invariant stakes == TouchedStakes(decode, t, done) && accounts == t.accounts
        decreases todo
      {
        var a :| a in todo;
        ghost var before, now := addressAssets, State();
        AddressesRecountedAdd(decode, t, done, a);
        RecountedSame(decode, t, now, a);
        var stake := RecountAddress(a);
        ghost var sums :| AssetSumsHold(sums, utxos, assets, a) && AssetsReplaced(before, addressAssets, a, sums);
        AssetsRecountedAdd(t, before, addressAssets, done, a, sums);
        TouchedStakesAdd(decode, t, done, a);
        if stake.Some? {
          stakes := stakes + {stake.value};
        }
        todo, done := todo - {a}, done + {a};
      }
      assert done == list;
      AssetsAllRecounted(t, addressAssets, list);
      assert State() == RecountedAddresses(decode, t, list);
      RecountLedgerAccounts(stakes);
    }

    /** Recount the accounts of these stake keys from the address rows. */
    method RecountLedgerAccounts(stakes: set<string>)
      modifies this`accounts
      ensures State() == RecountedAccounts(old(State()), stakes)
    {
      var sums := SumAccounts(StakeRows(addresses, stakes));
      AccountsFromSums(sums, State(), stakes);
      accounts := AccountsFrom(sums, accounts, stakes);
    }

    /** Add up address rows per stake key. */
    method SumAccounts(rows: map<Address, AddressRow>) returns (sums: map<string, StakeDelta>)
      requires forall a :: a in rows ==> rows[a].stakeAddress.Some?
      ensures AccountSumsHold(sums, rows)
    {
      sums := map[];
      var todo := rows.Keys;
      assert rows - todo == map[];
      assert AccountSumsHold(sums, map[]);
      hide AccountSumsHold;
      while todo != {}
        invariant todo <= rows.Keys
        invariant AccountSumsHold(sums, rows - todo)
        decreases todo
      {
        var a :| a in todo;
        var r := rows[a];
        var d := StakeDeltaOf(sums, r.stakeAddress.value);
        ReadAddressRow(sums, rows - todo, a, r, r.stakeAddress.value);
        assert rows - (todo - {a}) == (rows - todo)[a := r];
        sums := sums[r.stakeAddress.value := StakeDelta(d.lovelace + r.totalLovelace, d.utxos + r.utxoCount, d.newAddresses + 1)];
        todo := todo - {a};
      }
      assert rows - todo == rows;
    }

    // -------------------------------------------------------------- rollback

    /** Drop what the transactions of one chunk created and reopen what they spent. */
    method RevertChunk(hashChunk: set<Hash>)
      modifies this`utxos, this`assets
      ensures State() == Reverted(old(State()), hashChunk)
    {
      assets := map ku | ku in assets && ku.0.txHash !in hashChunk :: assets[ku];
      var kept := map k | k in utxos && k.txHash !in hashChunk :: utxos[k];
      RevertedInSteps(State(), hashChunk, kept);
      hide SpentIn;
      utxos := kept;
      utxos := map k | k in utxos :: if SpentIn(utxos[k], hashChunk) then UtxoRow(utxos[k].held, None, None) else utxos[k];
    }

    /**
     Undo rolled-back transactions chunk by chunk: drop what they created, reopen what they spent,
     then recount every address touched. Returns the recounted addresses.
     */
    method UndoLedgerForTransactions(txHashes: seq<Hash>) returns (touched: set<Address>)
      requires RowsWellFormed(decode, utxos, assets)
      modifies this
      ensures State() == Undo(decode, old(State()), set h | h in txHashes)
      ensures touched == RevertedAddresses(old(State()), set h | h in txHashes)
    {
      ghost var t := State();
      ghost var undone: set<Hash> := {};
      RevertedNothing(t);
      hide Reverted, RevertedAddresses, RowsWellFormed, Recount;
      touched := {};
      var i := 0;
      while i < |txHashes|
        invariant 0 <= i <= |txHashes|
        invariant undone == set h | h in txHashes[..i]
        invariant State() == Reverted(t, undone) && touched == RevertedAddresses(t, undone)
      {
        var next := if i + IN_CHUNK < |txHashes| then i + IN_CHUNK else |txHashes|;
        var hashChunk := set h | h in txHashes[i..next];
        assert txHashes[..next] == txHashes[..i] + txHashes[i..next];
        RevertedTwice(t, undone, hashChunk);
        touched := touched + RevertedAddresses(State(), hashChunk);
        RevertChunk(hashChunk);
        undone := undone + hashChunk;
        i := next;
      }
      assert txHashes[..i] == txHashes;
      RevertedRows(decode, t, undone);
      RecountLedgerAddresses(touched);
    }
  }
}
