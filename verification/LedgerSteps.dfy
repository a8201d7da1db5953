/** Loop-by-loop steps of the block path, each connected to the rules it accumulates. */
module LedgerSteps {
  import opened Options
  import opened Chain
  import opened Sums
  import opened LedgerRules
  import opened LedgerApplyProofs

  // ---------------------------------------------------------------- asset lists

  function QuantityIf(u: Unit): Amount -> int {
    (a: Amount) => if a.unit == u then a.quantity else 0
  }

  ghost function ListQuantity(list: seq<Amount>, u: Unit): int {
    SeqSum(list, QuantityIf(u))
  }

  /** `list` holds the asset rows of `k` among `assets` outside `rest`, each once, in any order. */
  ghost predicate Lists(list: seq<Amount>, k: OutPoint, assets: map<(OutPoint, Unit), nat>, rest: set<(OutPoint, Unit)>) {
    && DistinctUnits(list)
    && (forall a :: a in list ==> (k, a.unit) in assets && (k, a.unit) !in rest && assets[(k, a.unit)] == a.quantity)
    && (forall u :: (k, u) in assets && (k, u) !in rest ==> exists i :: 0 <= i < |list| && list[i].unit == u)
  }

  function RowsOf(utxos: map<OutPoint, UtxoRow>, hashes: set<Hash>): map<OutPoint, UtxoRow> {
    map k | k in utxos && k.txHash in hashes :: utxos[k]
  }

  lemma RowsOfMore(utxos: map<OutPoint, UtxoRow>, hashes: set<Hash>, more: set<Hash>)
    ensures RowsOf(utxos, hashes) + RowsOf(utxos, more) == RowsOf(utxos, hashes + more)
  {
  }

  function ListOf(lists: map<OutPoint, seq<Amount>>, k: OutPoint): seq<Amount> {
    if k in lists then lists[k] else []
  }

  ghost predicate AllListed(hashes: set<Hash>, lists: map<OutPoint, seq<Amount>>, table: map<(OutPoint, Unit), nat>) {
    forall k: OutPoint :: k.txHash in hashes ==> Lists(ListOf(lists, k), k, table, {})
  }

  lemma {:induction false} ListQuantityIs(list: seq<Amount>, u: Unit, q: nat)
    requires DistinctUnits(list)
    requires (exists i :: 0 <= i < |list| && list[i] == Amount(u, q)) || (q == 0 && forall i :: 0 <= i < |list| ==> list[i].unit != u)
    ensures ListQuantity(list, u) == q
  {
    if list != [] {
      var n := |list| - 1;
      if list[n].unit == u {
        assert list[n] == Amount(u, q);
        ListQuantityIs(list[..n], u, 0);
      } else {
        ListQuantityIs(list[..n], u, q);
      }
    }
  }

  lemma ListedQuantity(list: seq<Amount>, k: OutPoint, assets: map<(OutPoint, Unit), nat>, u: Unit)
    requires Lists(list, k, assets, {})
    ensures ListQuantity(list, u) == Quantity(assets, k, u)
  {
    if i :| 0 <= i < |list| && list[i].unit == u {
      assert list[i] in list;
    }
    ListQuantityIs(list, u, Quantity(assets, k, u));
  }

  lemma BuiltQuantity(e: Effect, assets: map<(OutPoint, Unit), nat>, k: OutPoint, u: Unit)
    requires k in e.created && DistinctUnits(e.created[k].assets)
    requires forall ku :: ku in assets ==> ku.0 !in e.created
    ensures ListQuantity(e.created[k].assets, u) == Quantity(AssetsAfter(assets, e), k, u)
  {
    var list := e.created[k].assets;
    UnitsOfMembers(list);
    if u in UnitsOf(list) {
      var i :| 0 <= i < |list| && list[i] == Amount(u, UnitsOf(list)[u]);
      assert (k, u) in CreatedAssets(e.created);
      ListQuantityIs(list, u, UnitsOf(list)[u]);
    } else {
      assert (k, u) !in CreatedAssets(e.created);
      ListQuantityIs(list, u, 0);
    }
  }

  /** Reading one more asset row into its list. */
  lemma ListsPush(list: seq<Amount>, k: OutPoint, assets: map<(OutPoint, Unit), nat>, rest: set<(OutPoint, Unit)>, u: Unit)
    requires Lists(list, k, assets, rest) && (k, u) in assets && (k, u) in rest
    ensures Lists(list + [Amount(u, assets[(k, u)])], k, assets, rest - {(k, u)})
  {
    var list' := list + [Amount(u, assets[(k, u)])];
    forall v | (k, v) in assets && (k, v) !in rest - {(k, u)}
      ensures exists i :: 0 <= i < |list'| && list'[i].unit == v
    {
      if v == u {
        assert list'[|list|].unit == v;
      } else {
        var i :| 0 <= i < |list| && list[i].unit == v;
        assert list'[i].unit == v;
      }
    }
    forall a | a in list'
      ensures (k, a.unit) in assets && (k, a.unit) !in rest - {(k, u)} && assets[(k, a.unit)] == a.quantity
    {
      assert a in list || a == Amount(u, assets[(k, u)]);
    }
    forall i, j | 0 <= i < j < |list'|
      ensures list'[i].unit != list'[j].unit
    {
      if j == |list| {
        assert list[i] in list;
      }
    }
  }

  /** Only the keys still to read matter. */
  lemma ListsFrame(list: seq<Amount>, k: OutPoint, assets: map<(OutPoint, Unit), nat>, rest: set<(OutPoint, Unit)>, rest': set<(OutPoint, Unit)>)
    requires Lists(list, k, assets, rest)
    requires forall u :: (k, u) in assets ==> ((k, u) in rest <==> (k, u) in rest')
    ensures Lists(list, k, assets, rest')
  {
  }

  /** Transactions without a flagged row have no asset rows, so an empty list is their complete list. */
  lemma UnflaggedRows(decode: Decoder, utxos: map<OutPoint, UtxoRow>, assets: map<(OutPoint, Unit), nat>,
                      hashChunk: set<Hash>, withAssets: set<Hash>)
    requires RowsWellFormed(decode, utxos, assets)
    requires forall k :: k in utxos && k.txHash in hashChunk && utxos[k].held.hasAssets ==> k.txHash in withAssets
    ensures forall k: OutPoint :: k.txHash in hashChunk && k.txHash !in withAssets ==> Lists([], k, assets, {})
  {
  }

  // ---------------------------------------------------------------- consumed outpoints

  /** Created rows with their same-block spenders. */
  function MarkOwn(rows: map<OutPoint, UtxoRow>, spends: seq<Spend>, slot: nat): map<OutPoint, UtxoRow> {
    if spends == [] then rows else
      var s, before := spends[|spends| - 1], MarkOwn(rows, spends[..|spends| - 1], slot);
      if s.key in before then before[s.key := Marked(before[s.key], s.spender, slot)] else before
  }

  /** The consumed outpoints that are not outputs of the block. */
  function Lookups(created: set<OutPoint>, spends: seq<Spend>): seq<Spend> {
    if spends == [] then [] else
      var s, before := spends[|spends| - 1], Lookups(created, spends[..|spends| - 1]);
      if s.key in created then before else before + [s]
  }

  function OpenKeys(utxos: map<OutPoint, UtxoRow>, lookups: seq<Spend>): seq<OutPoint> {
    if lookups == [] then [] else
      var s, before := lookups[|lookups| - 1], OpenKeys(utxos, lookups[..|lookups| - 1]);
      if IsOpen(utxos, s.key) then before + [s.key] else before
  }

  function SpentRows(utxos: map<OutPoint, UtxoRow>, lookups: seq<Spend>, slot: nat): map<OutPoint, UtxoRow> {
    if lookups == [] then map[] else
      var s, before := lookups[|lookups| - 1], SpentRows(utxos, lookups[..|lookups| - 1], slot);
      if IsOpen(utxos, s.key) then before[s.key := Marked(utxos[s.key], s.spender, slot)] else before
  }

  lemma {:induction false} MarkOwnIs(rows: map<OutPoint, UtxoRow>, spends: seq<Spend>, slot: nat)
    requires forall k :: k in rows ==> rows[k].spentTxHash.None?
    ensures MarkOwn(rows, spends, slot)
            == map k | k in rows :: if k in Spenders(spends) then Marked(rows[k], Spenders(spends)[k], slot) else rows[k]
  {
    if spends != [] {
      MarkOwnIs(rows, spends[..|spends| - 1], slot);
    }
  }

  lemma LookupOneMore(created: set<OutPoint>, all: map<OutPoint, Hash>, k: OutPoint, spender: Hash)
    ensures
      var others := map x | x in all && x !in created :: all[x];
      (map x | x in all[k := spender] && x !in created :: all[k := spender][x]) == if k in created then others else others[k := spender]
  {
  }

  lemma {:induction false} LookupSpenders(created: set<OutPoint>, spends: seq<Spend>)
    ensures Spenders(Lookups(created, spends)) == map k | k in Spenders(spends) && k !in created :: Spenders(spends)[k]
  {
    if spends != [] {
      var s, front := spends[|spends| - 1], spends[..|spends| - 1];
      var before := Lookups(created, front);
      LookupSpenders(created, front);
      if s.key !in created {
        assert (before + [s])[..|before|] == before;
        assert Spenders(before + [s]) == Spenders(before)[s.key := s.spender];
      }
      hide Lookups;
      var all := Spenders(front);
      assert Spenders(spends) == all[s.key := s.spender];
      hide Spenders;
      LookupOneMore(created, all, s.key, s.spender);
    }
  }

  lemma {:induction false} SpentRowsIs(utxos: map<OutPoint, UtxoRow>, lookups: seq<Spend>, slot: nat)
    ensures SpentRows(utxos, lookups, slot)
            == map k | k in Spenders(lookups) && IsOpen(utxos, k) :: Marked(utxos[k], Spenders(lookups)[k], slot)
  {
    if lookups != [] {
      SpentRowsIs(utxos, lookups[..|lookups| - 1], slot);
    }
  }

  /** Writing the created rows and then the spent rows is the rule's update. */
  lemma WrittenRows(utxos: map<OutPoint, UtxoRow>, e: Effect)
    requires forall k :: k in e.created ==> k !in utxos
    ensures utxos + MarkOwn(CreatedRows(e), e.spends, e.slot) + SpentRows(utxos, Lookups(e.created.Keys, e.spends), e.slot)
            == UtxosAfter(utxos, e)
  {
    var lookups := Lookups(e.created.Keys, e.spends);
    MarkOwnIs(CreatedRows(e), e.spends, e.slot);
    LookupSpenders(e.created.Keys, e.spends);
    SpentRowsIs(utxos, lookups, e.slot);
    MergedRows(utxos, e, MarkOwn(CreatedRows(e), e.spends, e.slot), SpentRows(utxos, lookups, e.slot), Spenders(lookups));
  }

  lemma MergedRows(utxos: map<OutPoint, UtxoRow>, e: Effect, own: map<OutPoint, UtxoRow>, spent: map<OutPoint, UtxoRow>,
                   others: map<OutPoint, Hash>)
    requires forall k :: k in e.created ==> k !in utxos
    requires others == map k | k in Spenders(e.spends) && k !in e.created.Keys :: Spenders(e.spends)[k]
    requires own == map k | k in CreatedRows(e) ::
               if k in Spenders(e.spends) then Marked(CreatedRows(e)[k], Spenders(e.spends)[k], e.slot) else CreatedRows(e)[k]
    requires spent == map k | k in others && IsOpen(utxos, k) :: Marked(utxos[k], others[k], e.slot)
    ensures utxos + own + spent == UtxosAfter(utxos, e)
  {
    hide Spenders;
  }

  lemma OpenKeysPush(utxos: map<OutPoint, UtxoRow>, lookups: seq<Spend>, s: Spend)
    ensures OpenKeys(utxos, lookups + [s]) == OpenKeys(utxos, lookups) + if IsOpen(utxos, s.key) then [s.key] else []
  {
    assert (lookups + [s])[..|lookups|] == lookups;
  }

  lemma {:induction false} LookupKeys(utxos: map<OutPoint, UtxoRow>, e: Effect, n: nat)
    requires n <= |e.spends|
    ensures OpenKeys(utxos, Lookups(e.created.Keys, e.spends[..n])) == SpentKeys(utxos, e, n)
  {
    if n > 0 {
      LookupKeys(utxos, e, n - 1);
      var before, s := Lookups(e.created.Keys, e.spends[..n - 1]), e.spends[n - 1];
      assert e.spends[..n][..n - 1] == e.spends[..n - 1];
      if s.key !in e.created {
        OpenKeysPush(utxos, before, s);
      }
    }
  }

  lemma OpenKeysOf(utxos: map<OutPoint, UtxoRow>, e: Effect)
    ensures OpenKeys(utxos, Lookups(e.created.Keys, e.spends)) == AllSpent(utxos, e)
  {
    LookupKeys(utxos, e, |e.spends|);
    assert e.spends[..|e.spends|] == e.spends;
  }

  // ---------------------------------------------------------------- deltas

  datatype AddressDelta = AddressDelta(lovelace: int, utxos: int, assets: map<Unit, int>,
                                       stakeAddress: Option<string>, addressType: string, isScript: bool)

  function UnitIn(assets: map<Unit, int>, u: Unit): int {
    if u in assets then assets[u] else 0
  }

  /** How far the delta loops have come: created outputs and spent rows already counted. */
  datatype Progress = Progress(created: map<OutPoint, Built>, spent: seq<OutPoint>, spenders: map<OutPoint, Hash>,
                               utxos: map<OutPoint, UtxoRow>, table: map<(OutPoint, Unit), nat>)

  ghost function Partial(p: Progress, w: Weight): int {
    MapSum(p.created, CreatedWeight(p.spenders, w)) - SeqSum(p.spent, SpentWeight(p.utxos, w))
  }

  ghost predicate DeltaIs(d: AddressDelta, p: Progress, a: Address) {
    && d.lovelace == Partial(p, LovelaceAt(a))
    && d.utxos == Partial(p, CountAt(a))
    && (forall u :: UnitIn(d.assets, u) == Partial(p, UnitAt(p.table, a, u)))
  }

  /** No output counted so far is at the address. */
  ghost predicate NothingAt(p: Progress, a: Address) {
    && (forall k :: k in p.created ==> p.created[k].held.address != a)
    && (forall k :: k in p.spent && k in p.utxos ==> p.utxos[k].held.address != a)
  }

  ghost predicate DeltasHold(deltas: map<Address, AddressDelta>, p: Progress) {
    && (forall a :: a in deltas ==> DeltaIs(deltas[a], p, a) && !NothingAt(p, a))
    && (forall a :: a !in deltas ==> NothingAt(p, a))
  }

  lemma NothingSums(p: Progress, a: Address, w: Weight)
    requires NothingAt(p, a) && Supported(w, a)
    ensures Partial(p, w) == 0
  {
    var none: map<OutPoint, Built> := map[];
    var f := CreatedWeight(p.spenders, w);
    SumAgree(p.created, none, f, f);
    SeqSumZero(p.spent, SpentWeight(p.utxos, w));
  }

  /** The columns a delta keeps for a new address row. */
  ghost predicate DeltaDecoded(decode: Decoder, a: Address, d: AddressDelta) {
    && d.stakeAddress == decode(a).stakeAddress && d.addressType == decode(a).addressType && d.isScript == decode(a).isScript
  }

  ghost predicate AllDecoded(decode: Decoder, deltas: map<Address, AddressDelta>) {
    forall a :: a in deltas ==> DeltaDecoded(decode, a, deltas[a])
  }

  lemma DecodedPut(decode: Decoder, deltas: map<Address, AddressDelta>, h: Holding, d': AddressDelta)
    requires AllDecoded(decode, deltas) && HoldingDecoded(decode, h)
    requires var d := if h.address in deltas then deltas[h.address] else ZeroDelta(h);
      (d'.stakeAddress, d'.addressType, d'.isScript) == (d.stakeAddress, d.addressType, d.isScript)
    ensures AllDecoded(decode, deltas[h.address := d'])
  {
  }

  function ZeroDelta(h: Holding): AddressDelta {
    AddressDelta(0, 0, map[], h.stakeAddress, h.addressType, h.isScript)
  }

  lemma ZeroDeltaIs(p: Progress, a: Address, h: Holding)
    requires NothingAt(p, a)
    ensures DeltaIs(ZeroDelta(h), p, a)
  {
    NothingSums(p, a, LovelaceAt(a));
    NothingSums(p, a, CountAt(a));
    forall u
      ensures Partial(p, UnitAt(p.table, a, u)) == 0
    {
      NothingSums(p, a, UnitAt(p.table, a, u));
    }
  }

  /** An output counted once, taken away once, or neither. */
  datatype Sign = Plus | Zero | Minus

  function Signed(sign: Sign, x: int): int {
    match sign case Plus => x case Zero => 0 case Minus => -x
  }

  /** `d'` is `d` with one output counted. */
  ghost predicate Shifted(d: AddressDelta, d': AddressDelta, h: Holding, k: OutPoint, table: map<(OutPoint, Unit), nat>, sign: Sign) {
    && d'.lovelace == d.lovelace + Signed(sign, h.lovelace)
    && d'.utxos == d.utxos + Signed(sign, 1)
    && (forall u :: UnitIn(d'.assets, u) == UnitIn(d.assets, u) + Signed(sign, Quantity(table, k, u)))
  }

  /** `p'` is `p` with one output counted. */
  ghost predicate Counted(p: Progress, p': Progress, k: OutPoint, h: Holding, sign: Sign) {
    && p'.table == p.table
    && (forall w: Weight :: Partial(p', w) == Partial(p, w) + Signed(sign, w(k, h)))
    && (forall a :: NothingAt(p', a) <==> NothingAt(p, a) && a != h.address)
  }

  lemma CountedCreated(p: Progress, k: OutPoint, b: Built)
    requires k !in p.created
    ensures Counted(p, p.(created := p.created[k := b]), k, b.held, if k in p.spenders then Zero else Plus)
  {
    var p' := p.(created := p.created[k := b]);
    var sign := if k in p.spenders then Zero else Plus;
    forall w: Weight
      ensures Partial(p', w) == Partial(p, w) + Signed(sign, w(k, b.held))
    {
      SumPut(p.created, CreatedWeight(p.spenders, w), k, b);
    }
    forall a
      ensures NothingAt(p', a) <==> NothingAt(p, a) && a != b.held.address
    {
      assert p'.created[k] == b;
      assert forall x :: x in p.created ==> p'.created[x] == p.created[x];
    }
  }

  lemma CountedSpent(p: Progress, k: OutPoint)
    requires k in p.utxos
    ensures Counted(p, p.(spent := p.spent + [k]), k, p.utxos[k].held, Minus)
  {
    hide Partial, NothingAt;
    var p' := p.(spent := p.spent + [k]);
    forall w: Weight
      ensures Partial(p', w) == Partial(p, w) + Signed(Minus, w(k, p.utxos[k].held))
    {
      SpentPartial(p, k, w);
    }
    forall a
      ensures NothingAt(p', a) <==> NothingAt(p, a) && a != p.utxos[k].held.address
    {
      SpentSomewhere(p, k, a);
    }
  }

  lemma SpentPartial(p: Progress, k: OutPoint, w: Weight)
    requires k in p.utxos
    ensures Partial(p.(spent := p.spent + [k]), w) == Partial(p, w) - w(k, p.utxos[k].held)
  {
    SeqSumAppend(p.spent, k, SpentWeight(p.utxos, w));
  }

  lemma SpentSomewhere(p: Progress, k: OutPoint, a: Address)
    requires k in p.utxos
    ensures NothingAt(p.(spent := p.spent + [k]), a) <==> NothingAt(p, a) && a != p.utxos[k].held.address
  {
    assert forall x :: x in p.spent + [k] <==> x in p.spent || x == k;
  }

  lemma CountedDelta(p: Progress, p': Progress, k: OutPoint, h: Holding, sign: Sign, d: AddressDelta, d': AddressDelta, a: Address)
    requires Counted(p, p', k, h, sign) && DeltaIs(d, p, a)
    requires if a == h.address then Shifted(d, d', h, k, p.table, sign) else d' == d
    ensures DeltaIs(d', p', a)
  {
    hide Partial, NothingAt;
    forall u
      ensures UnitIn(d'.assets, u) == Partial(p', UnitAt(p'.table, a, u))
    {
      assert Partial(p', UnitAt(p.table, a, u)) == Partial(p, UnitAt(p.table, a, u)) + Signed(sign, UnitAt(p.table, a, u)(k, h));
    }
  }

  /** Counting one output in the delta of its address keeps every delta. */
  lemma CountedKeeps(deltas: map<Address, AddressDelta>, p: Progress, p': Progress, k: OutPoint, h: Holding, sign: Sign,
                     d: AddressDelta, d': AddressDelta)
    requires DeltasHold(deltas, p) && Counted(p, p', k, h, sign)
    requires d == if h.address in deltas then deltas[h.address] else ZeroDelta(h)
    requires Shifted(d, d', h, k, p.table, sign)
    ensures DeltasHold(deltas[h.address := d'], p')
  {
    hide DeltaIs, Partial, NothingAt, Shifted;
    if h.address !in deltas {
      ZeroDeltaIs(p, h.address, h);
    }
    CountedDelta(p, p', k, h, sign, d, d', h.address);
    forall a | a in deltas && a != h.address
      ensures DeltaIs(deltas[a], p', a)
    {
      CountedDelta(p, p', k, h, sign, deltas[a], deltas[a], a);
    }
  }

  // ---------------------------------------------------------------- writing addresses and accounts

  ghost function Full(t: Tables, e: Effect): Progress {
    Progress(e.created, AllSpent(t.utxos, e), Spenders(e.spends), t.utxos, AssetsAfter(t.assets, e))
  }

  /** Once everything is counted, something is counted at exactly the touched addresses. */
  lemma FullTouched(t: Tables, e: Effect, a: Address)
    ensures NothingAt(Full(t, e), a) <==> a !in Touched(t, e)
  {
    AllSpentMembers(t, e);
  }

  /** Once everything is counted, the deltas are the rule's deltas of the touched addresses. */
  lemma FullDeltas(deltas: map<Address, AddressDelta>, t: Tables, e: Effect)
    requires DeltasHold(deltas, Full(t, e))
    ensures deltas.Keys == Touched(t, e)
    ensures forall a :: a in deltas ==>
      && deltas[a].lovelace == Delta(t, e, LovelaceAt(a)) && deltas[a].utxos == Delta(t, e, CountAt(a))
      && forall u :: UnitIn(deltas[a].assets, u) == UnitDelta(t, e, a, u)
  {
    forall a
      ensures a in deltas <==> a in Touched(t, e)
    {
      FullTouched(t, e, a);
    }
    hide Touched, NothingAt;
  }

  function Stored(addressAssets: map<(Address, Unit), int>, a: Address, u: Unit): Option<int> {
    if (a, u) in addressAssets then Some(addressAssets[(a, u)]) else None
  }

  /** A zero delta writes nothing; a sum that reaches zero is deleted. */
  function AssetWrite(prev: Option<int>, delta: int): Option<int> {
    var next := (if prev.Some? then prev.value else 0) + delta;
    if delta == 0 then prev else if next == 0 then None else Some(next)
  }

  lemma DeltaCandidate(t: Tables, e: Effect, a: Address, u: Unit)
    requires AssetsOwned(t) && Fresh(t, e) && UnitDelta(t, e, a, u) != 0
    ensures (a, u) in AssetKeys(t, e)
  {
    var assets, utxos := AssetsAfter(t.assets, e), UtxosAfter(t.utxos, e);
    var w := UnitAt(assets, a, u);
    HoldingsAfter(t, e);
    AllSpentMembers(t, e);
    if ku :| ku in assets && ku.1 == u && ku.0 in utxos && utxos[ku.0].held.address == a {
      assert (a, u) == (utxos[ku.0].held.address, ku.1);
    } else {
      var none: map<OutPoint, Built> := map[];
      var f := CreatedWeight(Spenders(e.spends), w);
      forall k | k in utxos
        ensures w(k, utxos[k].held) == 0
      {
        assert (k, u).0 == k && (k, u).1 == u;
      }
      SumAgree(e.created, none, f, f);
      SeqSumZero(AllSpent(t.utxos, e), SpentWeight(t.utxos, w));
    }
  }

  lemma StoredByRule(t: Tables, e: Effect, a: Address, u: Unit)
    ensures Stored(AddressAssetsAfter(t, e), a, u)
            == if (a, u) in AssetKeys(t, e) && KeepsAsset(t, e, a, u) then Some(AssetAfter(t, e, a, u)) else None
  {
    hide AssetKeys, KeepsAsset, AssetAfter;
    var au := (a, u);
    assert au.0 == a && au.1 == u;
  }

  lemma StoredCandidate(t: Tables, e: Effect, a: Address, u: Unit)
    ensures (a, u) in t.addressAssets ==> (a, u) in AssetKeys(t, e)
  {
  }

  lemma StoredAfterIs(t: Tables, e: Effect, a: Address, u: Unit)
    requires AssetsOwned(t) && Fresh(t, e)
    ensures Stored(AddressAssetsAfter(t, e), a, u)
            == if a in Touched(t, e) then AssetWrite(Stored(t.addressAssets, a, u), UnitDelta(t, e, a, u))
               else Stored(t.addressAssets, a, u)
  {
    hide UnitDelta, Touched, AssetKeys, AddressAssetsAfter, AssetsOwned, Fresh;
    if UnitDelta(t, e, a, u) != 0 {
      DeltaCandidate(t, e, a, u);
    }
    StoredCandidate(t, e, a, u);
    StoredByRule(t, e, a, u);
  }

  lemma SameStored(m: map<(Address, Unit), int>, n: map<(Address, Unit), int>)
    requires forall a, u :: Stored(m, a, u) == Stored(n, a, u)
    ensures m == n
  {
    forall au
      ensures au in m <==> au in n
      ensures au in m ==> m[au] == n[au]
    {
      assert Stored(m, au.0, au.1) == Stored(n, au.0, au.1);
      assert (au.0, au.1) == au;
    }
  }

  /** The asset rows of address `a` after adding `units`; those of other addresses are the old ones. */
  ghost predicate AssetsWritten(before: map<(Address, Unit), int>, after: map<(Address, Unit), int>, a: Address, units: map<Unit, int>) {
    && (forall u :: Stored(after, a, u) == AssetWrite(Stored(before, a, u), UnitIn(units, u)))
    && (forall b, u :: b != a ==> Stored(after, b, u) == Stored(before, b, u))
  }

  /** The asset rows once the addresses in `done` are written. */
  ghost predicate AssetsDone(t: Tables, e: Effect, after: map<(Address, Unit), int>, done: set<Address>) {
    forall a, u :: Stored(after, a, u)
                   == if a in done then AssetWrite(Stored(t.addressAssets, a, u), UnitDelta(t, e, a, u)) else Stored(t.addressAssets, a, u)
  }

  lemma AssetsDoneAdd(t: Tables, e: Effect, before: map<(Address, Unit), int>, after: map<(Address, Unit), int>,
                      done: set<Address>, a: Address, units: map<Unit, int>)
    requires AssetsDone(t, e, before, done) && a !in done && AssetsWritten(before, after, a, units)
    requires forall u :: UnitIn(units, u) == UnitDelta(t, e, a, u)
    ensures AssetsDone(t, e, after, done + {a})
  {
    hide UnitDelta, Stored, AssetWrite;
  }

  lemma AssetsAllDone(t: Tables, e: Effect, after: map<(Address, Unit), int>)
    requires AssetsOwned(t) && Fresh(t, e) && AssetsDone(t, e, after, Touched(t, e))
    ensures after == AddressAssetsAfter(t, e)
  {
    forall a, u
      ensures Stored(after, a, u) == Stored(AddressAssetsAfter(t, e), a, u)
    {
      StoredAfterIs(t, e, a, u);
    }
    hide AddressAssetsAfter, Stored;
    SameStored(after, AddressAssetsAfter(t, e));
  }

  datatype StakeDelta = StakeDelta(lovelace: int, utxos: int, newAddresses: int)

  function StakeDeltaOf(stakes: map<string, StakeDelta>, s: string): StakeDelta {
    if s in stakes then stakes[s] else StakeDelta(0, 0, 0)
  }

  /** The account deltas of the addresses written so far. */
  ghost predicate StakesHold(stakes: map<string, StakeDelta>, decode: Decoder, t: Tables, e: Effect, done: set<Address>) {
    && stakes.Keys == TouchedStakes(decode, t, done)
    && (forall s ::
          && StakeDeltaOf(stakes, s).lovelace == MapSum(Each(done), StakeLovelace(decode, t, e, s))
          && StakeDeltaOf(stakes, s).utxos == MapSum(Each(done), StakeCount(decode, t, e, s))
          && StakeDeltaOf(stakes, s).newAddresses == MapSum(Each(done), StakeNew(decode, t, s)))
  }

  /** The address rows once the addresses in `done` are written. */
  ghost function AddressesDone(decode: Decoder, t: Tables, e: Effect, done: set<Address>): map<Address, AddressRow> {
    t.addresses + map a | a in done :: AddressAfter(decode, t, e, a)
  }

  lemma AddressesDoneAdd(decode: Decoder, t: Tables, e: Effect, done: set<Address>, a: Address)
    ensures AddressesDone(decode, t, e, done)[a := AddressAfter(decode, t, e, a)] == AddressesDone(decode, t, e, done + {a})
    ensures a !in done ==> (a in AddressesDone(decode, t, e, done) <==> a in t.addresses)
    ensures a !in done && a in t.addresses ==> AddressesDone(decode, t, e, done)[a] == t.addresses[a]
  {
    hide AddressAfter;
  }

  ghost function AccountsDone(decode: Decoder, t: Tables, e: Effect, done: set<string>): map<string, AccountRow> {
    t.accounts + map s | s in done :: AccountAfter(decode, t, e, s)
  }

  lemma AccountsDoneAdd(decode: Decoder, t: Tables, e: Effect, done: set<string>, s: string)
    ensures AccountsDone(decode, t, e, done)[s := AccountAfter(decode, t, e, s)] == AccountsDone(decode, t, e, done + {s})
    ensures s !in done ==> (s in AccountsDone(decode, t, e, done) <==> s in t.accounts)
    ensures s !in done && s in t.accounts ==> AccountsDone(decode, t, e, done)[s] == t.accounts[s]
  {
    hide AccountAfter;
  }

  lemma DoneBounds(decode: Decoder, t: Tables, e: Effect)
    ensures AddressesDone(decode, t, e, {}) == t.addresses
    ensures AddressesDone(decode, t, e, Touched(t, e)) == AddressesAfter(decode, t, e)
    ensures AccountsDone(decode, t, e, {}) == t.accounts
    ensures AccountsDone(decode, t, e, TouchedStakes(decode, t, Touched(t, e))) == AccountsAfter(decode, t, e)
    ensures AssetsDone(t, e, t.addressAssets, {})
  {
    hide Touched, TouchedStakes, AddressAfter, AccountAfter;
  }

  /** `stakes` plus what address `a` brings. */
  ghost function StakesWith(stakes: map<string, StakeDelta>, decode: Decoder, t: Tables, e: Effect, a: Address): map<string, StakeDelta> {
    if StakeOf(decode, t, a).Some? then
      var s := StakeOf(decode, t, a).value;
      var before := StakeDeltaOf(stakes, s);
      stakes[s := StakeDelta(before.lovelace + Delta(t, e, LovelaceAt(a)), before.utxos + Delta(t, e, CountAt(a)),
                             before.newAddresses + if a in t.addresses then 0 else 1)]
    else stakes
  }

  lemma StakesAdd(stakes: map<string, StakeDelta>, stakes': map<string, StakeDelta>, decode: Decoder, t: Tables, e: Effect,
                  done: set<Address>, a: Address)
    requires StakesHold(stakes, decode, t, e, done) && a !in done
    requires stakes' == StakesWith(stakes, decode, t, e, a)
    ensures StakesHold(stakes', decode, t, e, done + {a})
  {
    hide TouchedStakes, MapSum, Each, StakeLovelace, StakeCount, StakeNew, StakeOf, Delta;
    StakesOfAdd(decode, t, done, a);
    forall s
      ensures StakeDeltaOf(stakes', s).lovelace == MapSum(Each(done + {a}), StakeLovelace(decode, t, e, s))
      ensures StakeDeltaOf(stakes', s).utxos == MapSum(Each(done + {a}), StakeCount(decode, t, e, s))
      ensures StakeDeltaOf(stakes', s).newAddresses == MapSum(Each(done + {a}), StakeNew(decode, t, s))
    {
      EachAdd(done, a, StakeLovelace(decode, t, e, s));
      EachAdd(done, a, StakeCount(decode, t, e, s));
      EachAdd(done, a, StakeNew(decode, t, s));
      StakeWeights(decode, t, e, s, a);
    }
  }

  lemma StakesOfAdd(decode: Decoder, t: Tables, done: set<Address>, a: Address)
    ensures TouchedStakes(decode, t, done + {a}) == TouchedStakes(decode, t, done)
              + if StakeOf(decode, t, a).Some? then {StakeOf(decode, t, a).value} else {}
  {
  }

  lemma EachAdd(done: set<Address>, a: Address, f: (Address, ()) -> int)
    requires a !in done
    ensures MapSum(Each(done + {a}), f) == MapSum(Each(done), f) + f(a, ())
  {
    assert Each(done + {a}) == Each(done)[a := ()];
    SumPut(Each(done), f, a, ());
  }

  lemma StakeWeights(decode: Decoder, t: Tables, e: Effect, s: string, a: Address)
    ensures StakeLovelace(decode, t, e, s)(a, ()) == if StakeOf(decode, t, a) == Some(s) then Delta(t, e, LovelaceAt(a)) else 0
    ensures StakeCount(decode, t, e, s)(a, ()) == if StakeOf(decode, t, a) == Some(s) then Delta(t, e, CountAt(a)) else 0
    ensures StakeNew(decode, t, s)(a, ()) == if StakeOf(decode, t, a) == Some(s) && a !in t.addresses then 1 else 0
  {
  }

  lemma StakeRow(stakes: map<string, StakeDelta>, decode: Decoder, t: Tables, e: Effect, s: string)
    requires StakesHold(stakes, decode, t, e, Touched(t, e)) && s in stakes
    ensures AccountWrite(t, s, e.slot, stakes[s].lovelace, stakes[s].newAddresses, stakes[s].utxos) == AccountAfter(decode, t, e, s)
  {
    hide MapSum, Touched, Each, TouchedStakes;
    assert stakes[s] == StakeDeltaOf(stakes, s);
  }

  lemma NoStakesYet(decode: Decoder, t: Tables, e: Effect)
    ensures StakesHold(map[], decode, t, e, {})
  {
  }

  // ---------------------------------------------------------------- the block method's glue

  /** The lists read for the spent rows and built for the created ones hold the quantities of the new asset table. */
  lemma ResolvedKeys(decode: Decoder, t: Tables, e: Effect, hashes: set<Hash>, lists: map<OutPoint, seq<Amount>>, keys: seq<OutPoint>)
    requires keys == AllSpent(t.utxos, e) && AllListed(hashes, lists, t.assets)
    requires forall k :: k in keys ==> k.txHash in hashes
    requires RowsWellFormed(decode, t.utxos, t.assets) && Fresh(t, e) && WellBuilt(decode, e)
    ensures forall k, u :: k in keys ==> ListQuantity(ListOf(lists, k), u) == Quantity(AssetsAfter(t.assets, e), k, u)
    ensures forall k, u :: k in e.created ==> ListQuantity(e.created[k].assets, u) == Quantity(AssetsAfter(t.assets, e), k, u)
    ensures forall k :: k in keys ==> IsOpen(t.utxos, k)
    ensures forall k :: k in e.created ==> HoldingDecoded(decode, e.created[k].held)
    ensures forall k :: k in t.utxos ==> HoldingDecoded(decode, t.utxos[k].held)
    ensures AssetsOwned(t)
  {
    AllSpentMembers(t, e);
    forall k, u | k in keys
      ensures ListQuantity(ListOf(lists, k), u) == Quantity(AssetsAfter(t.assets, e), k, u)
    {
      ListedQuantity(ListOf(lists, k), k, t.assets, u);
      OldQuantity(t, e, k, u);
    }
    forall k, u | k in e.created
      ensures ListQuantity(e.created[k].assets, u) == Quantity(AssetsAfter(t.assets, e), k, u)
    {
      BuiltQuantity(e, t.assets, k, u);
    }
  }

  lemma WrittenTables(t: Tables, e: Effect)
    requires Fresh(t, e)
    ensures t.utxos + MarkOwn(CreatedRows(e), e.spends, e.slot) + SpentRows(t.utxos, Lookups(e.created.Keys, e.spends), e.slot)
            == UtxosAfter(t.utxos, e)
    ensures t.assets + CreatedAssets(e.created) == AssetsAfter(t.assets, e)
  {
    WrittenRows(t.utxos, e);
  }

  // ---------------------------------------------------------------- recounting

  function OpenAt(utxos: map<OutPoint, UtxoRow>, a: Address): map<OutPoint, UtxoRow> {
    map k | k in utxos && utxos[k].spentTxHash.None? && utxos[k].held.address == a :: utxos[k]
  }

  lemma OpenAtSums(utxos: map<OutPoint, UtxoRow>, a: Address)
    ensures MapSum(OpenAt(utxos, a), Open(LovelaceAt(a))) == OpenSum(utxos, LovelaceAt(a))
    ensures |OpenAt(utxos, a)| == OpenSum(utxos, CountAt(a))
  {
    SumAgree(OpenAt(utxos, a), utxos, Open(LovelaceAt(a)), Open(LovelaceAt(a)));
    SumAgree(OpenAt(utxos, a), utxos, Open(CountAt(a)), Open(CountAt(a)));
    SumOnes(OpenAt(utxos, a), Open(CountAt(a)));
  }

  /** The asset sums of an address over the asset rows read so far. */
  ghost predicate AssetSumsHold(sums: map<Unit, int>, utxos: map<OutPoint, UtxoRow>, part: map<(OutPoint, Unit), nat>, a: Address) {
    forall u :: UnitIn(sums, u) == OpenSum(utxos, UnitAt(part, a, u))
  }

  lemma NoAssetSums(utxos: map<OutPoint, UtxoRow>, a: Address)
    ensures AssetSumsHold(map[], utxos, map[], a)
  {
    var none: map<OutPoint, UtxoRow> := map[];
    forall u
      ensures OpenSum(utxos, UnitAt(map[], a, u)) == 0
    {
      var f := Open(UnitAt(map[], a, u));
      assert forall k :: Quantity(map[], k, u) == 0;
      SumAgree(utxos, none, f, f);
    }
  }

  lemma ReadAssetRow(sums: map<Unit, int>, utxos: map<OutPoint, UtxoRow>, part: map<(OutPoint, Unit), nat>, a: Address,
                     ku: (OutPoint, Unit), q: nat)
    requires AssetSumsHold(sums, utxos, part, a) && ku !in part
    ensures AssetSumsHold(if ku.0 in OpenAt(utxos, a) then sums[ku.1 := UnitIn(sums, ku.1) + q] else sums, utxos, part[ku := q], a)
  {
    var sums' := if ku.0 in OpenAt(utxos, a) then sums[ku.1 := UnitIn(sums, ku.1) + q] else sums;
    var part' := part[ku := q];
    forall u
      ensures UnitIn(sums', u) == OpenSum(utxos, UnitAt(part', a, u))
    {
      var f, g := Open(UnitAt(part, a, u)), Open(UnitAt(part', a, u));
      assert forall k :: Quantity(part', k, u) == if (k, u) == ku then q else Quantity(part, k, u);
      if ku.0 in utxos {
        SumShift(utxos, f, g, ku.0);
        assert (ku.0, ku.1) == ku;
      } else {
        SumAgree(utxos, utxos, f, g);
      }
    }
  }

  /** Asset rows of transactions with a flagged open row at the address are all its asset rows. */
  lemma AllAssetRowsRead(decode: Decoder, sums: map<Unit, int>, utxos: map<OutPoint, UtxoRow>, assets: map<(OutPoint, Unit), nat>,
                         part: map<(OutPoint, Unit), nat>, a: Address, withAssets: set<Hash>)
    requires RowsWellFormed(decode, utxos, assets) && AssetSumsHold(sums, utxos, part, a)
    requires forall k :: k in OpenAt(utxos, a) && utxos[k].held.hasAssets ==> k.txHash in withAssets
    requires part == map ku | ku in assets && ku.0.txHash in withAssets :: assets[ku]
    ensures AssetSumsHold(sums, utxos, assets, a)
  {
    forall u
      ensures OpenSum(utxos, UnitAt(part, a, u)) == OpenSum(utxos, UnitAt(assets, a, u))
    {
      forall k | k in OpenAt(utxos, a)
        ensures Quantity(part, k, u) == Quantity(assets, k, u)
      {
        assert (k, u) in assets ==> (k, u).0 == k && k.txHash in withAssets;
      }
      hide RowsWellFormed, Quantity;
      SumAgree(utxos, utxos, Open(UnitAt(part, a, u)), Open(UnitAt(assets, a, u)));
    }
  }

  /** The stored asset rows of `a` replaced by its non-zero sums. */
  ghost predicate AssetsReplaced(before: map<(Address, Unit), int>, after: map<(Address, Unit), int>, a: Address, sums: map<Unit, int>) {
    && (forall u :: Stored(after, a, u) == if UnitIn(sums, u) == 0 then None else Some(UnitIn(sums, u)))
    && (forall b, u :: b != a ==> Stored(after, b, u) == Stored(before, b, u))
  }

  /** The asset rows once the addresses in `done` are recounted. */
  ghost predicate AssetsRecounted(t: Tables, after: map<(Address, Unit), int>, done: set<Address>) {
    forall a, u :: Stored(after, a, u)
                   == if a in done then StoredSum(OpenSum(t.utxos, UnitAt(t.assets, a, u))) else Stored(t.addressAssets, a, u)
  }

  function StoredSum(sum: int): Option<int> {
    if sum == 0 then None else Some(sum)
  }

  lemma AssetsRecountedAdd(t: Tables, before: map<(Address, Unit), int>, after: map<(Address, Unit), int>,
                           done: set<Address>, a: Address, sums: map<Unit, int>)
    requires AssetsRecounted(t, before, done) && AssetsReplaced(before, after, a, sums)
    requires AssetSumsHold(sums, t.utxos, t.assets, a)
    ensures AssetsRecounted(t, after, done + {a})
  {
    hide OpenSum, Stored, UnitAt;
  }

  lemma RecountedKey(t: Tables, addresses: set<Address>, a: Address, u: Unit)
    ensures Stored(RecountedAssets(t, addresses), a, u)
            == if a in addresses then StoredSum(OpenSum(t.utxos, UnitAt(t.assets, a, u))) else Stored(t.addressAssets, a, u)
  {
    var w := UnitAt(t.assets, a, u);
    if OpenSum(t.utxos, w) != 0 {
      var k := SumWitness(t.utxos, Open(w));
      assert w(k, t.utxos[k].held) != 0 && Quantity(t.assets, k, u) != 0;
      var ku := (k, u);
      assert ku in t.assets && ku.0 in t.utxos;
      assert (a, u) in OutputAssetKeys(t);
    }
    hide OpenSum, OutputAssetKeys;
    var au := (a, u);
    assert au.0 == a && au.1 == u;
  }

  lemma AssetsAllRecounted(t: Tables, after: map<(Address, Unit), int>, addresses: set<Address>)
    requires AssetsRecounted(t, after, addresses)
    ensures after == RecountedAssets(t, addresses)
  {
    forall a, u
      ensures Stored(after, a, u) == Stored(RecountedAssets(t, addresses), a, u)
    {
      RecountedKey(t, addresses, a, u);
    }
    hide RecountedAssets, Stored;
    SameStored(after, RecountedAssets(t, addresses));
  }

  ghost function AddressesRecounted(decode: Decoder, t: Tables, done: set<Address>): map<Address, AddressRow> {
    t.addresses + map a | a in done :: RecountedAddress(decode, t, a)
  }

  lemma AddressesRecountedAdd(decode: Decoder, t: Tables, done: set<Address>, a: Address)
    ensures AddressesRecounted(decode, t, done)[a := RecountedAddress(decode, t, a)] == AddressesRecounted(decode, t, done + {a})
    ensures a !in done ==> (a in AddressesRecounted(decode, t, done) <==> a in t.addresses)
    ensures a !in done && a in t.addresses ==> AddressesRecounted(decode, t, done)[a] == t.addresses[a]
  {
    hide RecountedAddress;
  }

  lemma RecountedBounds(decode: Decoder, t: Tables, addresses: set<Address>)
    ensures AddressesRecounted(decode, t, {}) == t.addresses
    ensures AddressesRecounted(decode, t, addresses) == RecountedAddresses(decode, t, addresses).addresses
    ensures AssetsRecounted(t, t.addressAssets, {})
    ensures RecountedAssets(t, addresses) == RecountedAddresses(decode, t, addresses).addressAssets
  {
    hide RecountedAddress, OpenSum, RecountedAssets;
  }

  lemma TouchedStakesAdd(decode: Decoder, t: Tables, done: set<Address>, a: Address)
    ensures TouchedStakes(decode, t, done + {a})
            == TouchedStakes(decode, t, done) + if StakeOf(decode, t, a).Some? then {StakeOf(decode, t, a).value} else {}
  {
    StakesOfAdd(decode, t, done, a);
  }

  /** The account sums over the address rows read so far. */
  ghost predicate AccountSumsHold(sums: map<string, StakeDelta>, part: map<Address, AddressRow>) {
    forall s ::
      && StakeDeltaOf(sums, s).lovelace == MapSum(part, AccountLovelace(s))
      && StakeDeltaOf(sums, s).utxos == MapSum(part, AccountUtxos(s))
      && StakeDeltaOf(sums, s).newAddresses == MapSum(part, AccountAddresses(s))
  }

  lemma ReadAddressRow(sums: map<string, StakeDelta>, part: map<Address, AddressRow>, a: Address, r: AddressRow, stake: string)
    requires AccountSumsHold(sums, part) && a !in part && r.stakeAddress == Some(stake)
    ensures
      var d := StakeDeltaOf(sums, stake);
      AccountSumsHold(sums[stake := StakeDelta(d.lovelace + r.totalLovelace, d.utxos + r.utxoCount, d.newAddresses + 1)], part[a := r])
  {
    var d := StakeDeltaOf(sums, stake);
    var sums' := sums[stake := StakeDelta(d.lovelace + r.totalLovelace, d.utxos + r.utxoCount, d.newAddresses + 1)];
    forall s
      ensures StakeDeltaOf(sums', s).lovelace == MapSum(part[a := r], AccountLovelace(s))
      ensures StakeDeltaOf(sums', s).utxos == MapSum(part[a := r], AccountUtxos(s))
      ensures StakeDeltaOf(sums', s).newAddresses == MapSum(part[a := r], AccountAddresses(s))
    {
      SumPut(part, AccountLovelace(s), a, r);
      SumPut(part, AccountUtxos(s), a, r);
      SumPut(part, AccountAddresses(s), a, r);
    }
  }

  function StakeRows(addresses: map<Address, AddressRow>, stakes: set<string>): map<Address, AddressRow> {
    map a | a in addresses && addresses[a].stakeAddress.Some? && addresses[a].stakeAddress.value in stakes :: addresses[a]
  }

  /** The address rows of the stake keys are all that their sums need. */
  lemma AllAddressRowsRead(t: Tables, stakes: set<string>, part: map<Address, AddressRow>, s: string)
    requires s in stakes && part == StakeRows(t.addresses, stakes)
    ensures MapSum(part, AccountLovelace(s)) == MapSum(t.addresses, AccountLovelace(s))
    ensures MapSum(part, AccountUtxos(s)) == MapSum(t.addresses, AccountUtxos(s))
    ensures MapSum(part, AccountAddresses(s)) == MapSum(t.addresses, AccountAddresses(s))
  {
    SameStakeSums(part, t.addresses, s);
  }

  lemma NoTouchedStakes(decode: Decoder, t: Tables)
    ensures TouchedStakes(decode, t, {}) == {}
  {
  }

  /** What an address is recounted to depends on the rows and its own old row only. */
  lemma RecountedSame(decode: Decoder, t: Tables, now: Tables, a: Address)
    requires now.utxos == t.utxos && now.assets == t.assets
    requires a in now.addresses <==> a in t.addresses
    requires a in t.addresses ==> now.addresses[a] == t.addresses[a]
    ensures RecountedAddress(decode, now, a) == RecountedAddress(decode, t, a)
    ensures StakeOf(decode, now, a) == StakeOf(decode, t, a)
  {
  }
}
