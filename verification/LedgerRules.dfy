/**
 The crawled UTxO ledger as values: its five tables, what applying a block, undoing transactions
 and recounting do to them, and what it means for the running sums to agree with the open rows.
 */
module LedgerRules {
  import opened Options
  import opened Chain
  import opened Sums

  /** What an address decodes to. */
  datatype Decoded = Decoded(stakeAddress: Option<string>, paymentCredential: Option<string>,
                             addressType: string, isScript: bool)

  /** Address decoding: a library call, left open. */
  type Decoder = Address -> Decoded

  /** The columns of an output row that never change. */
  datatype Holding = Holding(address: Address, stakeAddress: Option<string>, addressType: string, isScript: bool,
                             paymentCredential: Option<string>, lovelace: nat, createdSlot: Option<nat>,
                             data: UtxoData, hasAssets: bool)

  datatype UtxoRow = UtxoRow(held: Holding, spentTxHash: Option<Hash>, spentSlot: Option<nat>)

  datatype AddressRow = AddressRow(stakeAddress: Option<string>, paymentCredential: Option<string>,
                                   addressType: string, isScript: bool, totalLovelace: int, utxoCount: int,
                                   firstSeenSlot: Option<nat>, lastActiveSlot: Option<nat>)

  datatype AccountRow = AccountRow(controlledAmount: int, addressCount: int, utxoCount: int,
                                   lastActiveSlot: Option<nat>)

  /** Every table as a map keyed by its key columns. */
  datatype Tables = Tables(utxos: map<OutPoint, UtxoRow>,
                           assets: map<(OutPoint, Unit), nat>,
                           addresses: map<Address, AddressRow>,
                           addressAssets: map<(Address, Unit), int>,
                           accounts: map<string, AccountRow>)

  // ---------------------------------------------------------------- weights

  /** What an output counts for in one running sum. */
  type Weight = (OutPoint, Holding) -> int

  function LovelaceAt(a: Address): Weight {
    (k: OutPoint, h: Holding) => if h.address == a then h.lovelace else 0
  }

  function CountAt(a: Address): Weight {
    (k: OutPoint, h: Holding) => if h.address == a then 1 else 0
  }

  function Quantity(assets: map<(OutPoint, Unit), nat>, k: OutPoint, u: Unit): nat {
    if (k, u) in assets then assets[(k, u)] else 0
  }

  function UnitAt(assets: map<(OutPoint, Unit), nat>, a: Address, u: Unit): Weight {
    (k: OutPoint, h: Holding) => if h.address == a then Quantity(assets, k, u) else 0
  }

  function UnitAnywhere(assets: map<(OutPoint, Unit), nat>, u: Unit): Weight {
    (k: OutPoint, h: Holding) => Quantity(assets, k, u)
  }

  /** The weight of a row: only an open one counts. */
  function Open(w: Weight): (OutPoint, UtxoRow) -> int {
    (k: OutPoint, r: UtxoRow) => if r.spentTxHash.None? then w(k, r.held) else 0
  }

  /** The simple thing a running sum speeds up: a sum over the open rows. */
  ghost function OpenSum(utxos: map<OutPoint, UtxoRow>, w: Weight): int {
    MapSum(utxos, Open(w))
  }

  function AccountLovelace(s: string): (Address, AddressRow) -> int {
    (a: Address, r: AddressRow) => if r.stakeAddress == Some(s) then r.totalLovelace else 0
  }

  function AccountUtxos(s: string): (Address, AddressRow) -> int {
    (a: Address, r: AddressRow) => if r.stakeAddress == Some(s) then r.utxoCount else 0
  }

  function AccountAddresses(s: string): (Address, AddressRow) -> int {
    (a: Address, r: AddressRow) => if r.stakeAddress == Some(s) then 1 else 0
  }

  function StoredQuantity(addressAssets: map<(Address, Unit), int>, a: Address, u: Unit): int {
    if (a, u) in addressAssets then addressAssets[(a, u)] else 0
  }

  // ---------------------------------------------------------------- agreement

  /** Rows as the row builder writes them. */
  ghost predicate RowsWellFormed(decode: Decoder, utxos: map<OutPoint, UtxoRow>, assets: map<(OutPoint, Unit), nat>) {
    && (forall k :: k in utxos ==> HoldingDecoded(decode, utxos[k].held))
    && (forall ku :: ku in assets ==> ku.0 in utxos && utxos[ku.0].held.hasAssets)
    && (forall k :: k in utxos && utxos[k].held.hasAssets ==> exists u :: (k, u) in assets)
    && (forall k :: k in utxos && utxos[k].spentTxHash.None? ==> utxos[k].spentSlot.None?)
    && (forall ku :: ku in assets ==> assets[ku] > 0)
  }

  ghost predicate HoldingDecoded(decode: Decoder, h: Holding) {
    && h.stakeAddress == decode(h.address).stakeAddress
    && h.addressType == decode(h.address).addressType
    && h.isScript == decode(h.address).isScript
    && h.paymentCredential == decode(h.address).paymentCredential
  }

  /** The columns an address row copies from decoding the address. */
  ghost predicate AddressDecoded(decode: Decoder, a: Address, r: AddressRow) {
    && r.stakeAddress == decode(a).stakeAddress
    && r.addressType == decode(a).addressType
    && r.isScript == decode(a).isScript
  }

  ghost predicate AddressAgrees(t: Tables, a: Address) {
    && TotalOf(t, a) == OpenSum(t.utxos, LovelaceAt(a))
    && CountOf(t, a) == OpenSum(t.utxos, CountAt(a))
    && (forall u :: StoredQuantity(t.addressAssets, a, u) == OpenSum(t.utxos, UnitAt(t.assets, a, u)))
  }

  /** A missing address row reads as zero. */
  function TotalOf(t: Tables, a: Address): int {
    if a in t.addresses then t.addresses[a].totalLovelace else 0
  }

  function CountOf(t: Tables, a: Address): int {
    if a in t.addresses then t.addresses[a].utxoCount else 0
  }

  ghost predicate AccountAgrees(t: Tables, s: string) {
    && (s in t.accounts ==>
          && t.accounts[s].controlledAmount == MapSum(t.addresses, AccountLovelace(s))
          && t.accounts[s].utxoCount == MapSum(t.addresses, AccountUtxos(s))
          && t.accounts[s].addressCount == MapSum(t.addresses, AccountAddresses(s)))
    && (s !in t.accounts ==> forall a :: a in t.addresses ==> t.addresses[a].stakeAddress != Some(s))
  }

  /** Every running sum equals what it sums, and no sum is stored for nothing. */
  ghost predicate Consistent(decode: Decoder, t: Tables) {
    && RowsWellFormed(decode, t.utxos, t.assets)
    && (forall k :: k in t.utxos ==> t.utxos[k].held.address in t.addresses)
    && (forall a :: a in t.addresses ==> AddressDecoded(decode, a, t.addresses[a]))
    && (forall a :: AddressAgrees(t, a))
    && (forall au :: au in t.addressAssets ==> t.addressAssets[au] > 0)
    && (forall s :: AccountAgrees(t, s))
  }

  // ---------------------------------------------------------------- blocks

  /** An output about to be written: its row columns and its asset rows. */
  datatype Built = Built(held: Holding, assets: seq<Amount>)

  datatype Spend = Spend(key: OutPoint, spender: Hash)

  /** What a block does to the output tables: the outputs it builds and the outpoints it consumes, in order. */
  datatype Effect = Effect(slot: nat, created: map<OutPoint, Built>, spends: seq<Spend>)

  function NonBlank(s: Option<string>): Option<string> {
    if s == Some("") then None else s
  }

  function Normal(d: UtxoData): UtxoData {
    d.(dataHash := NonBlank(d.dataHash), inlineDatum := NonBlank(d.inlineDatum), scriptHash := NonBlank(d.scriptHash))
  }

  function BuildRows(decode: Decoder, o: Output, createdSlot: Option<nat>): Built {
    var d := decode(o.address);
    var assets := NativeAssets(o.amount);
    Built(Holding(o.address, d.stakeAddress, d.addressType, d.isScript, d.paymentCredential,
                  LovelaceOf(o.amount), createdSlot, Normal(o.data), assets != []),
          assets)
  }

  datatype Creation = Creation(key: OutPoint, output: Output)

  function CreationsOf(t: Tx): seq<Creation> {
    var outs := ProducedOutputs(t);
    seq(|outs|, i requires 0 <= i < |outs| => Creation(OutPoint(t.hash, outs[i].outputIndex), outs[i]))
  }

  function SpendsOf(t: Tx): seq<Spend> {
    var ins := ConsumedInputs(t);
    seq(|ins|, i requires 0 <= i < |ins| => Spend(ins[i].source, t.hash))
  }

  function Creations(txs: seq<Tx>): seq<Creation> {
    if txs == [] then [] else Creations(txs[..|txs| - 1]) + CreationsOf(txs[|txs| - 1])
  }

  function Spends(txs: seq<Tx>): seq<Spend> {
    if txs == [] then [] else Spends(txs[..|txs| - 1]) + SpendsOf(txs[|txs| - 1])
  }

  /** A later output on the same outpoint replaces an earlier one. */
  function BuildAll(decode: Decoder, slot: nat, cs: seq<Creation>): map<OutPoint, Built> {
    if cs == [] then map[] else
      var c := cs[|cs| - 1];
      BuildAll(decode, slot, cs[..|cs| - 1])[c.key := BuildRows(decode, c.output, Some(slot))]
  }

  function EffectOf(decode: Decoder, slot: nat, txs: seq<Tx>): Effect {
    Effect(slot, BuildAll(decode, slot, Creations(txs)), Spends(txs))
  }

  /** The last transaction of the block that consumes an outpoint is the one recorded. */
  function Spenders(spends: seq<Spend>): map<OutPoint, Hash> {
    if spends == [] then map[] else
      var s := spends[|spends| - 1];
      Spenders(spends[..|spends| - 1])[s.key := s.spender]
  }

  function KeysOf(spends: seq<Spend>): set<OutPoint> {
    set s | s in spends :: s.key
  }

  // ---------------------------------------------------------------- applying a block

  predicate IsOpen(utxos: map<OutPoint, UtxoRow>, k: OutPoint) {
    k in utxos && utxos[k].spentTxHash.None?
  }

  /** Consumed outpoints with an open row from before the block, in order; the others are same-block or missing. */
  function SpentKeys(utxos: map<OutPoint, UtxoRow>, e: Effect, n: nat): seq<OutPoint>
    requires n <= |e.spends|
  {
    if n == 0 then [] else
      var k := e.spends[n - 1].key;
      SpentKeys(utxos, e, n - 1) + if k !in e.created && IsOpen(utxos, k) then [k] else []
  }

  function AllSpent(utxos: map<OutPoint, UtxoRow>, e: Effect): seq<OutPoint> {
    SpentKeys(utxos, e, |e.spends|)
  }

  function CreatedRows(e: Effect): map<OutPoint, UtxoRow> {
    map k | k in e.created :: UtxoRow(e.created[k].held, None, None)
  }

  function Marked(r: UtxoRow, spender: Hash, slot: nat): UtxoRow {
    r.(spentTxHash := Some(spender), spentSlot := Some(slot))
  }

  /** New outputs are added open, then every open output the block consumes is marked with its spender. */
  function UtxosAfter(utxos: map<OutPoint, UtxoRow>, e: Effect): map<OutPoint, UtxoRow> {
    var base := utxos + CreatedRows(e);
    var spenders := Spenders(e.spends);
    map k | k in base :: if base[k].spentTxHash.None? && k in spenders then Marked(base[k], spenders[k], e.slot) else base[k]
  }

  function UnitsOf(assets: seq<Amount>): map<Unit, nat> {
    if assets == [] then map[] else
      var a := assets[|assets| - 1];
      UnitsOf(assets[..|assets| - 1])[a.unit := a.quantity]
  }

  function CreatedAssets(created: map<OutPoint, Built>): map<(OutPoint, Unit), nat> {
    map k, u | k in created && u in UnitsOf(created[k].assets) :: (k, u) := UnitsOf(created[k].assets)[u]
  }

  function AssetsAfter(assets: map<(OutPoint, Unit), nat>, e: Effect): map<(OutPoint, Unit), nat> {
    assets + CreatedAssets(e.created)
  }

  /** Addresses of the outputs the block creates or spends. */
  function Touched(t: Tables, e: Effect): set<Address> {
    (set k | k in e.created :: e.created[k].held.address)
    + (set k | k in AllSpent(t.utxos, e) && k in t.utxos :: t.utxos[k].held.address)
  }

  /** A created output counts unless the block spends it again. */
  function CreatedWeight(spenders: map<OutPoint, Hash>, w: Weight): (OutPoint, Built) -> int {
    (k: OutPoint, b: Built) => if k in spenders then 0 else w(k, b.held)
  }

  function SpentWeight(utxos: map<OutPoint, UtxoRow>, w: Weight): OutPoint -> int {
    k => if k in utxos then w(k, utxos[k].held) else 0
  }

  /** The delta the block path adds to a running sum. */
  ghost function Delta(t: Tables, e: Effect, w: Weight): int {
    MapSum(e.created, CreatedWeight(Spenders(e.spends), w)) - SeqSum(AllSpent(t.utxos, e), SpentWeight(t.utxos, w))
  }

  ghost function UnitDelta(t: Tables, e: Effect, a: Address, u: Unit): int {
    Delta(t, e, UnitAt(AssetsAfter(t.assets, e), a, u))
  }

  function StakeOf(decode: Decoder, t: Tables, a: Address): Option<string> {
    if a in t.addresses && t.addresses[a].stakeAddress.Some? then t.addresses[a].stakeAddress else decode(a).stakeAddress
  }

  /** An address row with these amounts added; a new address is first seen in this block. */
  function AddressWrite(decode: Decoder, t: Tables, slot: nat, a: Address, lovelace: int, utxos: int): AddressRow {
    if a in t.addresses then
      t.addresses[a].(stakeAddress := StakeOf(decode, t, a), paymentCredential := decode(a).paymentCredential,
                      totalLovelace := TotalOf(t, a) + lovelace, utxoCount := CountOf(t, a) + utxos,
                      lastActiveSlot := Some(slot))
    else
      AddressRow(decode(a).stakeAddress, decode(a).paymentCredential, decode(a).addressType, decode(a).isScript,
                 lovelace, utxos, Some(slot), Some(slot))
  }

  ghost function AddressAfter(decode: Decoder, t: Tables, e: Effect, a: Address): AddressRow {
    AddressWrite(decode, t, e.slot, a, Delta(t, e, LovelaceAt(a)), Delta(t, e, CountAt(a)))
  }

  ghost function AddressesAfter(decode: Decoder, t: Tables, e: Effect): map<Address, AddressRow> {
    t.addresses + map a | a in Touched(t, e) :: AddressAfter(decode, t, e, a)
  }

  /** Candidate keys of the address assets: the old ones and those of any output. */
  function AssetKeys(t: Tables, e: Effect): set<(Address, Unit)> {
    var utxos := UtxosAfter(t.utxos, e);
    t.addressAssets.Keys + set ku | ku in AssetsAfter(t.assets, e) && ku.0 in utxos :: (utxos[ku.0].held.address, ku.1)
  }

  /** A zero delta writes nothing; a sum that reaches zero is deleted. */
  ghost predicate KeepsAsset(t: Tables, e: Effect, a: Address, u: Unit) {
    var delta := UnitDelta(t, e, a, u);
    if a !in Touched(t, e) || delta == 0 then (a, u) in t.addressAssets
    else StoredQuantity(t.addressAssets, a, u) + delta != 0
  }

  ghost function AssetAfter(t: Tables, e: Effect, a: Address, u: Unit): int {
    StoredQuantity(t.addressAssets, a, u) + if a in Touched(t, e) then UnitDelta(t, e, a, u) else 0
  }

  ghost function AddressAssetsAfter(t: Tables, e: Effect): map<(Address, Unit), int> {
    map au | au in AssetKeys(t, e) && KeepsAsset(t, e, au.0, au.1) :: AssetAfter(t, e, au.0, au.1)
  }

  /** What the touched addresses add to an account. */
  ghost function StakeLovelace(decode: Decoder, t: Tables, e: Effect, s: string): (Address, ()) -> int {
    (a: Address, _: ()) => if StakeOf(decode, t, a) == Some(s) then Delta(t, e, LovelaceAt(a)) else 0
  }

  ghost function StakeCount(decode: Decoder, t: Tables, e: Effect, s: string): (Address, ()) -> int {
    (a: Address, _: ()) => if StakeOf(decode, t, a) == Some(s) then Delta(t, e, CountAt(a)) else 0
  }

  ghost function StakeNew(decode: Decoder, t: Tables, s: string): (Address, ()) -> int {
    (a: Address, _: ()) => if StakeOf(decode, t, a) == Some(s) && a !in t.addresses then 1 else 0
  }

  function Each(addresses: set<Address>): map<Address, ()> {
    map a | a in addresses :: ()
  }

  function TouchedStakes(decode: Decoder, t: Tables, addresses: set<Address>): set<string> {
    set a | a in addresses && StakeOf(decode, t, a).Some? :: StakeOf(decode, t, a).value
  }

  function AccountWrite(t: Tables, s: string, slot: nat, lovelace: int, addresses: int, utxos: int): AccountRow {
    var prev := if s in t.accounts then t.accounts[s] else AccountRow(0, 0, 0, None);
    AccountRow(prev.controlledAmount + lovelace, prev.addressCount + addresses, prev.utxoCount + utxos, Some(slot))
  }

  ghost function AccountAfter(decode: Decoder, t: Tables, e: Effect, s: string): AccountRow {
    var touched := Each(Touched(t, e));
    AccountWrite(t, s, e.slot, MapSum(touched, StakeLovelace(decode, t, e, s)), MapSum(touched, StakeNew(decode, t, s)),
                 MapSum(touched, StakeCount(decode, t, e, s)))
  }

  ghost function AccountsAfter(decode: Decoder, t: Tables, e: Effect): map<string, AccountRow> {
    t.accounts + map s | s in TouchedStakes(decode, t, Touched(t, e)) :: AccountAfter(decode, t, e, s)
  }

  ghost function Apply(decode: Decoder, t: Tables, e: Effect): Tables {
    Tables(UtxosAfter(t.utxos, e), AssetsAfter(t.assets, e), AddressesAfter(decode, t, e), AddressAssetsAfter(t, e),
           AccountsAfter(decode, t, e))
  }

  // ---------------------------------------------------------------- recounting

  ghost function RecountedAddress(decode: Decoder, t: Tables, a: Address): AddressRow {
    var lovelace := OpenSum(t.utxos, LovelaceAt(a));
    var count := OpenSum(t.utxos, CountAt(a));
    if a in t.addresses then
      t.addresses[a].(stakeAddress := StakeOf(decode, t, a), paymentCredential := decode(a).paymentCredential,
                      totalLovelace := lovelace, utxoCount := count)
    else
      AddressRow(decode(a).stakeAddress, decode(a).paymentCredential, decode(a).addressType, decode(a).isScript,
                 lovelace, count, None, None)
  }

  function OutputAssetKeys(t: Tables): set<(Address, Unit)> {
    set ku | ku in t.assets && ku.0 in t.utxos :: (t.utxos[ku.0].held.address, ku.1)
  }

  ghost function RecountedAssets(t: Tables, addresses: set<Address>): map<(Address, Unit), int> {
    (map au | au in t.addressAssets && au.0 !in addresses :: t.addressAssets[au])
    + (map au | au in OutputAssetKeys(t) && au.0 in addresses && OpenSum(t.utxos, UnitAt(t.assets, au.0, au.1)) != 0
         :: OpenSum(t.utxos, UnitAt(t.assets, au.0, au.1)))
  }

  ghost function RecountedAddresses(decode: Decoder, t: Tables, addresses: set<Address>): Tables {
    t.(addresses := t.addresses + map a | a in addresses :: RecountedAddress(decode, t, a),
       addressAssets := RecountedAssets(t, addresses))
  }

  ghost function RecountedAccount(t: Tables, s: string): AccountRow {
    AccountRow(MapSum(t.addresses, AccountLovelace(s)), MapSum(t.addresses, AccountAddresses(s)),
               MapSum(t.addresses, AccountUtxos(s)),
               if s in t.accounts then t.accounts[s].lastActiveSlot else None)
  }

  ghost function RecountedAccounts(t: Tables, stakes: set<string>): Tables {
    t.(accounts := t.accounts + map s | s in stakes :: RecountedAccount(t, s))
  }

  /** Recount the addresses from the open rows, then their stake keys from the address rows. */
  ghost function Recount(decode: Decoder, t: Tables, addresses: set<Address>): Tables {
    RecountedAccounts(RecountedAddresses(decode, t, addresses), TouchedStakes(decode, t, addresses))
  }

  // ---------------------------------------------------------------- rollback

  predicate SpentIn(r: UtxoRow, hashes: set<Hash>) {
    r.spentTxHash.Some? && r.spentTxHash.value in hashes
  }

  /** Drop what the transactions created and reopen what they spent. */
  function Reverted(t: Tables, hashes: set<Hash>): Tables {
    t.(utxos := map k | k in t.utxos && k.txHash !in hashes ::
         if SpentIn(t.utxos[k], hashes) then UtxoRow(t.utxos[k].held, None, None) else t.utxos[k],
       assets := map ku | ku in t.assets && ku.0.txHash !in hashes :: t.assets[ku])
  }

  function RevertedAddresses(t: Tables, hashes: set<Hash>): set<Address> {
    set k | k in t.utxos && (k.txHash in hashes || SpentIn(t.utxos[k], hashes)) :: t.utxos[k].held.address
  }

  ghost function Undo(decode: Decoder, t: Tables, hashes: set<Hash>): Tables {
    Recount(decode, Reverted(t, hashes), RevertedAddresses(t, hashes))
  }

  // ---------------------------------------------------------------- runs

  datatype Block = Block(slot: nat, txs: seq<Tx>)

  /** What the crawler does to the ledger: apply the next block, or undo any set of transactions. */
  datatype Event = Applied(block: Block) | RolledBack(hashes: set<Hash>)

  function HashesOf(b: Block): set<Hash> {
    set i | 0 <= i < |b.txs| :: b.txs[i].hash
  }

  function BlockEffect(decode: Decoder, b: Block): Effect {
    EffectOf(decode, b.slot, b.txs)
  }

  /** A block of a chain: new transactions, no stored output consumed twice, no unit twice in an output. */
  ghost predicate Legal(decode: Decoder, t: Tables, b: Block) {
    && (forall k :: k in t.utxos ==> k.txHash !in HashesOf(b) && !SpentIn(t.utxos[k], HashesOf(b)))
    && Distinct(AllSpent(t.utxos, BlockEffect(decode, b)))
    && (forall c :: c in Creations(b.txs) ==> DistinctUnits(NativeAssets(c.output.amount)))
  }

  ghost function ApplyBlock(decode: Decoder, t: Tables, b: Block): Tables {
    Apply(decode, t, BlockEffect(decode, b))
  }

  ghost function Step(decode: Decoder, t: Tables, event: Event): Tables {
    match event
    case Applied(b) => ApplyBlock(decode, t, b)
    case RolledBack(hashes) => Undo(decode, t, hashes)
  }

  ghost predicate LegalStep(decode: Decoder, t: Tables, event: Event) {
    event.Applied? ==> Legal(decode, t, event.block)
  }

  ghost function Run(decode: Decoder, t: Tables, events: seq<Event>): Tables {
    if events == [] then t else Step(decode, Run(decode, t, events[..|events| - 1]), events[|events| - 1])
  }

  ghost predicate LegalRun(decode: Decoder, t: Tables, events: seq<Event>) {
    events != [] ==>
      && LegalRun(decode, t, events[..|events| - 1])
      && LegalStep(decode, Run(decode, t, events[..|events| - 1]), events[|events| - 1])
  }

  function Forward(blocks: seq<Block>): seq<Event> {
    seq(|blocks|, i requires 0 <= i < |blocks| => Applied(blocks[i]))
  }

  function AllHashes(blocks: seq<Block>): set<Hash> {
    if blocks == [] then {} else AllHashes(blocks[..|blocks| - 1]) + HashesOf(blocks[|blocks| - 1])
  }
}
