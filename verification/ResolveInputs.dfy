/**
 Input resolution: bare chain-sync inputs are filled in place from the block's own outputs, then from the
 UTxO set, then from the stored transactions.
 */
module ResolveInputs {
  import opened Options
  import opened Chain
  import opened Sums
  import opened LedgerRules
  import opened LedgerApplyProofs
  import opened LedgerSteps
  import opened LedgerStore
  import opened LedgerRollbackProofs
  import opened LedgerColumns
  import opened SupplyProofs

  /** An input of a block transaction, updated in place. */
  class InputLine {
    var value: Input

    constructor (value: Input)
      ensures this.value == value
    {
      this.value := value;
    }
  }

  /** Stored transactions: their key in the child tables, their outputs and the amounts of those. */
  datatype StoredTables = StoredTables(txSeqs: map<Hash, Option<nat>>,
                                     outputs: map<(nat, nat), StoredOutput>,
                                     amounts: map<(nat, nat), seq<Amount>>)

  datatype StoredOutput = StoredOutput(address: Option<Address>, data: UtxoData)

  /** No two stored transactions share a key. */
  ghost predicate KeysInjective(stored: StoredTables) {
    forall h, h' :: h in stored.txSeqs && h' in stored.txSeqs && stored.txSeqs[h].Some? && stored.txSeqs[h] == stored.txSeqs[h'] ==> h == h'
  }

  // ---------------------------------------------------------------- one lookup in layers

  function Or<T>(a: Option<T>, b: Option<T>): Option<T> {
    if a.Some? then a else b
  }

  /** Data already on the input wins, column by column. */
  function MergeData(a: UtxoData, b: UtxoData): UtxoData {
    UtxoData(Or(a.dataHash, b.dataHash), Or(a.inlineDatum, b.inlineDatum), Or(a.scriptHash, b.scriptHash),
             Or(a.scriptSize, b.scriptSize), Or(a.scriptType, b.scriptType))
  }

  function FromOutput(i: Input, o: Output): Input {
    i.(address := o.address, amount := o.amount, data := MergeData(i.data, o.data))
  }

  function RowAmount(row: UtxoRow, list: seq<Amount>): seq<Amount> {
    [Amount(LOVELACE, row.held.lovelace)] + list
  }

  function FromRow(i: Input, row: UtxoRow, list: seq<Amount>): Input {
    i.(address := row.held.address, amount := RowAmount(row, list), data := MergeData(i.data, row.held.data))
  }

  function FromStored(i: Input, out: Option<StoredOutput>, amount: Option<seq<Amount>>): Input {
    var named := if out.Some? && out.value.address.Some? then i.(address := out.value.address.value) else i;
    var described := if out.Some? then named.(data := MergeData(i.data, out.value.data)) else named;
    if amount.Some? then described.(amount := amount.value) else described
  }

  function SeqKey(stored: StoredTables, k: OutPoint): Option<(nat, nat)> {
    if k.txHash in stored.txSeqs && stored.txSeqs[k.txHash].Some? then Some((stored.txSeqs[k.txHash].value, k.outputIndex)) else None
  }

  function StoredOutputAt(stored: StoredTables, k: OutPoint): Option<StoredOutput> {
    var key := SeqKey(stored, k);
    if key.Some? && key.value in stored.outputs then Some(stored.outputs[key.value]) else None
  }

  function StoredAmountAt(stored: StoredTables, k: OutPoint): Option<seq<Amount>> {
    var key := SeqKey(stored, k);
    if key.Some? && key.value in stored.amounts then Some(stored.amounts[key.value]) else None
  }

  /** The ledger's answer: rows and asset lists already read, or nothing when the ledger is not due. */
  datatype LedgerLayer = LedgerLayer(rows: map<OutPoint, UtxoRow>, lists: map<OutPoint, seq<Amount>>)

  const NO_LEDGER := LedgerLayer(map[], map[])

  /** What a bare input becomes: the first layer that knows its outpoint answers. */
  function Resolve(i: Input, local: map<OutPoint, Output>, ledger: LedgerLayer, stored: StoredTables): Input {
    if i.address != "" then i
    else if i.source in local then FromOutput(i, local[i.source])
    else if i.source in ledger.rows then FromRow(i, ledger.rows[i.source], ListOf(ledger.lists, i.source))
    else FromStored(i, StoredOutputAt(stored, i.source), StoredAmountAt(stored, i.source))
  }

  // ---------------------------------------------------------------- pending inputs

  /** Positions of the bare inputs whose outpoint is not known yet, in order. */
  function Pending(inputs: seq<Input>, known: set<OutPoint>): seq<nat> {
    if inputs == [] then [] else
      var n, before := |inputs| - 1, Pending(inputs[..|inputs| - 1], known);
      if inputs[n].address == "" && inputs[n].source !in known then before + [n] else before
  }

  lemma {:induction false} PendingIs(inputs: seq<Input>, known: set<OutPoint>)
    ensures forall j :: j in Pending(inputs, known) <==> 0 <= j < |inputs| && inputs[j].address == "" && inputs[j].source !in known
    ensures forall x, y :: 0 <= x < y < |Pending(inputs, known)| ==> Pending(inputs, known)[x] < Pending(inputs, known)[y]
  {
    if inputs != [] {
      PendingIs(inputs[..|inputs| - 1], known);
      var n, before := |inputs| - 1, Pending(inputs[..|inputs| - 1], known);
      assert forall x :: 0 <= x < |before| ==> before[x] in before;
    }
  }

  function StillUnknown(inputs: seq<Input>, rows: set<OutPoint>): nat -> bool {
    (j: nat) => !(j < |inputs| && inputs[j].source in rows)
  }

  /** The positions still unknown once the outpoints in `rows` are known. */
  function Unknown(inputs: seq<Input>, positions: seq<nat>, rows: set<OutPoint>): seq<nat> {
    Filter(positions, StillUnknown(inputs, rows))
  }

  /** Removing the answered ones leaves exactly the inputs no layer so far knows, in order. */
  lemma {:induction false} PendingUnknown(inputs: seq<Input>, known: set<OutPoint>, rows: set<OutPoint>)
    ensures Unknown(inputs, Pending(inputs, known), rows) == Pending(inputs, known + rows)
  {
    if inputs != [] {
      var n, front := |inputs| - 1, inputs[..|inputs| - 1];
      PendingIs(front, known);
      PendingUnknown(front, known, rows);
      var before := Pending(front, known);
      FilterAgree(before, StillUnknown(inputs, rows), StillUnknown(front, rows));
      FilterAppend<nat>(before, n, StillUnknown(inputs, rows));
    }
  }

  lemma UnknownCons(inputs: seq<Input>, j: nat, positions: seq<nat>, rows: set<OutPoint>)
    requires j < |inputs|
    ensures Unknown(inputs, [j] + positions, rows)
            == (if inputs[j].source in rows then [] else [j]) + Unknown(inputs, positions, rows)
  {
    FilterConcat([j], positions, StillUnknown(inputs, rows));
    FilterAppend([], j, StillUnknown(inputs, rows));
    assert [] + [j] == [j];
  }

  /** One step of the backward splice loop, on the list alone. */
  lemma SpliceStep(inputs: seq<Input>, pending0: seq<nat>, i: nat, rows: set<OutPoint>, pending: seq<nat>)
    requires i < |pending0| && pending0[i] < |inputs|
    requires pending == pending0[..i + 1] + Unknown(inputs, pending0[i + 1..], rows)
    ensures pending[i] == pending0[i]
    ensures (if inputs[pending0[i]].source in rows then pending[..i] + pending[i + 1..] else pending)
            == pending0[..i] + Unknown(inputs, pending0[i..], rows)
  {
    var j, rest := pending0[i], Unknown(inputs, pending0[i + 1..], rows);
    UnknownCons(inputs, j, pending0[i + 1..], rows);
    hide Unknown;
    assert pending0[i..] == [j] + pending0[i + 1..];
    assert pending[i + 1..] == rest && pending[..i] == pending0[..i];
    assert pending == pending0[..i] + ([j] + rest);
  }

  lemma SpliceMembers(inputs: seq<Input>, pending0: seq<nat>, i: nat, rows: set<OutPoint>, pending: seq<nat>)
    requires i < |pending0| && pending == pending0[..i + 1] + Unknown(inputs, pending0[i + 1..], rows)
    requires forall x, y :: 0 <= x < y < |pending0| ==> pending0[x] < pending0[y]
    ensures forall x :: x in pending[..i] + pending[i + 1..] <==> x in pending && x != pending0[i]
  {
    var j, rest := pending0[i], Unknown(inputs, pending0[i + 1..], rows);
    assert j !in rest && j !in pending0[..i];
    hide Unknown;
    assert pending[i + 1..] == rest && pending[..i] == pending0[..i];
    assert pending == pending0[..i] + [j] + rest;
  }

  // ---------------------------------------------------------------- the method

  ghost function Values(lines: seq<InputLine>): seq<Input>
    reads lines
  {
    seq(|lines|, j requires 0 <= j < |lines| reads lines => lines[j].value)
  }

  /** The block's outputs by outpoint; a repeated outpoint is overwritten. */
  function LocalOutputs(outputs: seq<Creation>): map<OutPoint, Output> {
    if outputs == [] then map[] else
      LocalOutputs(outputs[..|outputs| - 1])[outputs[|outputs| - 1].key := outputs[|outputs| - 1].output]
  }

  method IndexOutputs(outputs: seq<Creation>) returns (local: map<OutPoint, Output>)
    ensures local == LocalOutputs(outputs)
  {
    local := map[];
    for i := 0 to |outputs|
      invariant local == LocalOutputs(outputs[..i])
    {
      assert outputs[..i + 1][..i] == outputs[..i];
      local := local[outputs[i].key := outputs[i].output];
    }
    assert outputs[..|outputs|] == outputs;
  }

  /** Every line has been resolved, except the listed ones, which are as they were. */
  ghost predicate ResolvedBut(lines: seq<InputLine>, before: seq<Input>, pending: seq<nat>,
                              local: map<OutPoint, Output>, ledger: LedgerLayer, stored: StoredTables)
    reads lines
  {
    && |before| == |lines|
    && forall j :: 0 <= j < |lines| ==>
         lines[j].value == if j in pending then before[j] else Resolve(before[j], local, ledger, stored)
  }

  /** The first pass: only the block's own outputs answer. */
  function ResolveHere(i: Input, local: map<OutPoint, Output>): Input {
    if i.address == "" && i.source in local then FromOutput(i, local[i.source]) else i
  }

  /** Fill inputs that the block's own outputs answer and list the others. */
  method ResolveLocal(lines: seq<InputLine>, local: map<OutPoint, Output>) returns (pending: seq<nat>)
    requires Distinct(lines)
    modifies lines
    ensures pending == Pending(old(Values(lines)), local.Keys)
    ensures forall j :: 0 <= j < |lines| ==> lines[j].value == ResolveHere(old(lines[j].value), local)
  {
    ghost var before := Values(lines);
    pending := [];
    for i := 0 to |lines|
      invariant pending == Pending(before[..i], local.Keys)
      invariant forall j :: 0 <= j < i ==> lines[j].value == ResolveHere(before[j], local)
      invariant forall j :: i <= j < |lines| ==> lines[j].value == before[j]
    {
      assert before[..i + 1][..i] == before[..i];
      var input := lines[i].value;
      if input.address == "" {
        if input.source in local {
          lines[i].value := FromOutput(input, local[input.source]);
        } else {
          pending := pending + [i];
        }
      }
    }
    assert before[..|lines|] == before;
  }

  /** After the first pass only the pending lines still wait for an answer. */
  lemma LocalResolved(lines: seq<InputLine>, before: seq<Input>, local: map<OutPoint, Output>, ledger: LedgerLayer, stored: StoredTables)
    requires |before| == |lines| && forall j :: 0 <= j < |lines| ==> lines[j].value == ResolveHere(before[j], local)
    ensures ResolvedBut(lines, before, Pending(before, local.Keys), local, ledger, stored)
  {
    PendingIs(before, local.Keys);
  }

  /** Write the resolved value of one pending line. */
  method FillLine(lines: seq<InputLine>, j: nat, value: Input, ghost before: seq<Input>, ghost pending: seq<nat>, ghost rest: seq<nat>,
                  ghost local: map<OutPoint, Output>, ghost ledger: LedgerLayer, ghost stored: StoredTables)
    requires Distinct(lines) && ResolvedBut(lines, before, pending, local, ledger, stored)
    requires j < |lines| && value == Resolve(before[j], local, ledger, stored)
    requires forall x :: x in rest <==> x in pending && x != j
    modifies lines[j]
    ensures ResolvedBut(lines, before, rest, local, ledger, stored)
  {
    hide Resolve;
    lines[j].value := value;
  }

  /** One turn of the splice loop: answer position `i` of the list from the ledger rows, or keep it. */
  method SpliceOne(lines: seq<InputLine>, pending0: seq<nat>, pending: seq<nat>, i: nat, ghost before: seq<Input>,
                   ghost local: map<OutPoint, Output>, ledger: LedgerLayer, ghost stored: StoredTables)
    returns (pending': seq<nat>)
    requires Distinct(lines) && ResolvedBut(lines, before, pending, local, ledger, stored)
    requires pending0 == Pending(before, local.Keys) && i < |pending0|
    requires pending == pending0[..i + 1] + Unknown(before, pending0[i + 1..], ledger.rows.Keys)
    modifies lines
    ensures pending' == pending0[..i] + Unknown(before, pending0[i..], ledger.rows.Keys)
    ensures ResolvedBut(lines, before, pending', local, ledger, stored)
  {
    PendingIs(before, local.Keys);
    hide Unknown, Pending;
    var j := pending[i];
    assert j == pending0[i] && j in pending0 && j in pending;
    SpliceStep(before, pending0, i, ledger.rows.Keys, pending);
    SpliceMembers(before, pending0, i, ledger.rows.Keys, pending);
    var input := lines[j].value;
    pending' := pending;
    if input.source in ledger.rows {
      pending' := pending[..i] + pending[i + 1..];
      FillLine(lines, j, FromRow(input, ledger.rows[input.source], ListOf(ledger.lists, input.source)),
               before, pending, pending', local, ledger, stored);
    }
  }

  /** Fill inputs the ledger rows answer, from the back, splicing each answered one out of the list. */
  method ResolveFromLedger(lines: seq<InputLine>, pending0: seq<nat>, ghost before: seq<Input>, ghost local: map<OutPoint, Output>,
                           ledger: LedgerLayer, ghost stored: StoredTables)
    returns (pending: seq<nat>)
    requires Distinct(lines) && ResolvedBut(lines, before, pending0, local, ledger, stored)
    requires pending0 == Pending(before, local.Keys)
    modifies lines
    ensures pending == Pending(before, local.Keys + ledger.rows.Keys)
    ensures ResolvedBut(lines, before, pending, local, ledger, stored)
  {
    hide Unknown, Pending, ResolvedBut, Distinct;
    SpliceEnds(before, pending0, local.Keys, ledger.rows.Keys);
    pending := pending0;
    var n := |pending|;
    while n > 0
      invariant 0 <= n <= |pending0|
      invariant pending == pending0[..n] + Unknown(before, pending0[n..], ledger.rows.Keys)
      invariant ResolvedBut(lines, before, pending, local, ledger, stored)
    {
      n := n - 1;
      pending := SpliceOne(lines, pending0, pending, n, before, local, ledger, stored);
    }
  }

  /** The list before the splice loop and after it. */
  lemma SpliceEnds(before: seq<Input>, pending0: seq<nat>, known: set<OutPoint>, rows: set<OutPoint>)
    requires pending0 == Pending(before, known)
    ensures pending0 == pending0[..|pending0|] + Unknown(before, pending0[|pending0|..], rows)
    ensures pending0[..0] + Unknown(before, pending0[0..], rows) == Pending(before, known + rows)
  {
    PendingUnknown(before, known, rows);
    assert pending0[|pending0|..] == [] && pending0[0..] == pending0;
    UnknownNothing(before, rows);
  }

  lemma UnknownNothing(before: seq<Input>, rows: set<OutPoint>)
    ensures Unknown(before, [], rows) == []
  {
  }

  /** The stored sources by their key. */
  function HashBySeq(stored: StoredTables, sources: set<Hash>): (r: map<nat, Hash>)
    requires KeysInjective(stored)
    ensures forall x, y :: x in r && y in r && r[x] == r[y] ==> x == y
    ensures forall h :: h in sources && h in stored.txSeqs && stored.txSeqs[h].Some? ==> stored.txSeqs[h].value in r && r[stored.txSeqs[h].value] == h
    ensures forall x :: x in r ==> r[x] in stored.txSeqs && stored.txSeqs[r[x]] == Some(x)
  {
    map h | h in sources && h in stored.txSeqs && stored.txSeqs[h].Some? :: stored.txSeqs[h].value := h
  }

  /** Rows keyed by transaction key and position, keyed by outpoint instead. */
  function ByOutPoint<T>(hashBySeq: map<nat, Hash>, rows: map<(nat, nat), T>): map<OutPoint, T>
    requires forall x, y :: x in hashBySeq && y in hashBySeq && hashBySeq[x] == hashBySeq[y] ==> x == y
  {
    map so | so in rows && so.0 in hashBySeq :: OutPoint(hashBySeq[so.0], so.1) := rows[so]
  }

  function Found<K(==), T>(m: map<K, T>, k: Option<K>): Option<T> {
    if k.Some? && k.value in m then Some(m[k.value]) else None
  }

  lemma FoundByOutPoint<T>(stored: StoredTables, sources: set<Hash>, rows: map<(nat, nat), T>, k: OutPoint)
    requires KeysInjective(stored) && k.txHash in sources
    ensures Found(ByOutPoint(HashBySeq(stored, sources), rows), Some(k)) == Found(rows, SeqKey(stored, k))
  {
    hide KeysInjective, HashBySeq;
    var key := SeqKey(stored, k);
    if key.Some? {
      assert OutPoint(k.txHash, key.value.1) == k;
    }
  }

  /** Outputs and amounts of the stored transactions, by outpoint. */
  method ReadStored(stored: StoredTables, sources: set<Hash>) returns (outByKey: map<OutPoint, StoredOutput>, amtByKey: map<OutPoint, seq<Amount>>)
    requires KeysInjective(stored)
    ensures forall k: OutPoint :: k.txHash in sources ==>
      && Found(outByKey, Some(k)) == StoredOutputAt(stored, k)
      && Found(amtByKey, Some(k)) == StoredAmountAt(stored, k)
  {
    hide KeysInjective, HashBySeq, ByOutPoint;
    var hashBySeq := HashBySeq(stored, sources);
    outByKey := ByOutPoint(hashBySeq, stored.outputs);
    amtByKey := ByOutPoint(hashBySeq, stored.amounts);
    forall k: OutPoint | k.txHash in sources
      ensures Found(outByKey, Some(k)) == StoredOutputAt(stored, k)
      ensures Found(amtByKey, Some(k)) == StoredAmountAt(stored, k)
    {
      FoundByOutPoint(stored, sources, stored.outputs, k);
      FoundByOutPoint(stored, sources, stored.amounts, k);
    }
  }

  /** Fill the remaining inputs from the stored transactions, as far as those know. */
  method ResolveFromStored(lines: seq<InputLine>, pending: seq<nat>, ghost before: seq<Input>, ghost local: map<OutPoint, Output>,
                           ghost ledger: LedgerLayer, stored: StoredTables)
    requires Distinct(lines) && ResolvedBut(lines, before, pending, local, ledger, stored) && KeysInjective(stored)
    requires pending == Pending(before, local.Keys + ledger.rows.Keys)
    modifies lines
    ensures ResolvedBut(lines, before, [], local, ledger, stored)
  {
    PendingIs(before, local.Keys + ledger.rows.Keys);
    var sources := set j | j in pending && 0 <= j < |lines| :: lines[j].value.source.txHash;
    var outByKey, amtByKey := ReadStored(stored, sources);
    for i := 0 to |pending|
      invariant ResolvedBut(lines, before, pending[i..], local, ledger, stored)
    {
      var j := pending[i];
      assert j in pending && j in pending[i..] && pending[i..] == [j] + pending[i + 1..];
      assert j !in pending[i + 1..];
      var input := lines[j].value;
      assert input.source.txHash in sources;
      var out := Found(outByKey, Some(input.source));
      var amount := Found(amtByKey, Some(input.source));
      FillLine(lines, j, FromStored(input, out, amount), before, pending[i..], pending[i + 1..], local, ledger, stored);
    }
    assert pending[|pending|..] == [];
  }

  ghost function LayerOf(lookup: LedgerLookup?): LedgerLayer
    reads lookup
  {
    if lookup == null then NO_LEDGER else LedgerLayer(lookup.rows, lookup.assets)
  }

  /** The ledger has been asked about every input the block itself does not answer. */
  ghost predicate Asked(inputs: seq<Input>, pending: seq<nat>, hashes: set<Hash>) {
    forall j :: j in pending && j < |inputs| ==> inputs[j].source.txHash in hashes
  }

  /** Read the ledger rows of the pending inputs into the shared lookup. */
  method AskLedger(lines: seq<InputLine>, pending: seq<nat>, store: LedgerStore, lookup: LedgerLookup)
    requires lookup.Coherent(store.utxos, store.assets) && RowsWellFormed(store.decode, store.utxos, store.assets)
    requires forall j :: j in pending ==> j < |lines|
    modifies lookup
    ensures lookup.Coherent(store.utxos, store.assets) && Asked(Values(lines), pending, lookup.hashes)
    ensures Values(lines) == old(Values(lines))
  {
    hide RowsWellFormed;
    var sources: seq<Hash> := [];
    for i := 0 to |pending|
      invariant forall x :: 0 <= x < i ==> pending[x] < |lines| && lines[pending[x]].value.source.txHash in sources
    {
      assert pending[i] in pending;
      sources := sources + [lines[pending[i]].value.source.txHash];
    }
    store.ReadLedgerOutputs(sources, lookup);
  }

  /** Bare inputs are filled from the first layer that knows them; resolved inputs stay as they are. */
  method ResolveAll(lines: seq<InputLine>, outputs: seq<Creation>, store: LedgerStore, lookup: LedgerLookup?, stored: StoredTables)
    requires Distinct(lines) && KeysInjective(stored)
    requires lookup != null ==> lookup.Coherent(store.utxos, store.assets)
    requires RowsWellFormed(store.decode, store.utxos, store.assets)
    modifies lines, lookup
    ensures lookup != null ==> lookup.Coherent(store.utxos, store.assets)
    ensures lookup != null ==> Asked(old(Values(lines)), Pending(old(Values(lines)), LocalOutputs(outputs).Keys), lookup.hashes)
    ensures ResolvedBut(lines, old(Values(lines)), [], LocalOutputs(outputs), LayerOf(lookup), stored)
  {
    ghost var before := Values(lines);
    var local := IndexOutputs(outputs);
    PendingIs(before, local.Keys);
    hide Pending, RowsWellFormed, LocalOutputs;
    var pending := ResolveLocal(lines, local);
    var ledger := NO_LEDGER;
    if lookup != null {
      AskLedger(lines, pending, store, lookup);
      ledger := LedgerLayer(lookup.rows, lookup.assets);
    }
    LocalResolved(lines, before, local, ledger, stored);
    PendingAsked(lines, before, local, pending);
    hide ResolveHere, Resolve, ResolvedBut;
    pending := ResolveFromLedger(lines, pending, before, local, ledger, stored);
    ResolveFromStored(lines, pending, before, local, ledger, stored);
  }

  /** Pending lines still carry the outpoint they came with. */
  lemma PendingAsked(lines: seq<InputLine>, before: seq<Input>, local: map<OutPoint, Output>, pending: seq<nat>)
    requires |before| == |lines| && forall j :: 0 <= j < |lines| ==> lines[j].value == ResolveHere(before[j], local)
    ensures forall hashes :: Asked(Values(lines), pending, hashes) ==> Asked(before, pending, hashes)
  {
  }

  // ---------------------------------------------------------------- what a resolved input carries

  /** Outputs of a block by the order it delivers them, collateral returns included. */
  function OutputsOf(txs: seq<Tx>): seq<Creation> {
    if txs == [] then [] else
      var t := txs[|txs| - 1];
      OutputsOf(txs[..|txs| - 1])
      + seq(|t.outputs|, i requires 0 <= i < |t.outputs| => Creation(OutPoint(t.hash, t.outputs[i].outputIndex), t.outputs[i]))
  }

  ghost predicate DistinctKeys(cs: seq<Creation>) {
    forall i, j :: 0 <= i < j < |cs| ==> cs[i].key != cs[j].key
  }

  lemma {:induction false} LocalByKey(cs: seq<Creation>, i: nat)
    requires DistinctKeys(cs) && i < |cs|
    ensures cs[i].key in LocalOutputs(cs) && LocalOutputs(cs)[cs[i].key] == cs[i].output
  {
    if i < |cs| - 1 {
      LocalByKey(cs[..|cs| - 1], i);
    }
  }

  lemma {:induction false} LocalKeys(cs: seq<Creation>)
    ensures forall k :: k in LocalOutputs(cs) ==> Creation(k, LocalOutputs(cs)[k]) in cs
  {
    if cs != [] {
      LocalKeys(cs[..|cs| - 1]);
      assert cs == cs[..|cs| - 1] + [cs[|cs| - 1]];
    }
  }

  lemma {:induction false} CreationsAreOutputs(txs: seq<Tx>)
    ensures forall c :: c in Creations(txs) ==> c in OutputsOf(txs)
  {
    if txs != [] {
      var n := |txs| - 1;
      CreationsAreOutputs(txs[..n]);
      forall c | c in CreationsOf(txs[n])
        ensures c in OutputsOf(txs)
      {
        var o := c.output;
        assert o in ProducedOutputs(txs[n]);
        var i :| 0 <= i < |txs[n].outputs| && txs[n].outputs[i] == o;
        assert OutputsOf(txs)[|OutputsOf(txs[..n])| + i] == c;
      }
    }
  }

  /** Resolution leaves the outpoint and the flags alone, so the ledger effect of the block is the same. */
  lemma ResolveKeepsEffect(i: Input, local: map<OutPoint, Output>, ledger: LedgerLayer, stored: StoredTables)
    ensures
      var r := Resolve(i, local, ledger, stored);
      (r.source, r.isCollateral, r.isReference) == (i.source, i.isCollateral, i.isReference)
  {
  }

  /** A column the input lacked is the one given; a column it had stays. */
  predicate IsFilled<T(==)>(column: Option<T>, had: Option<T>, given: Option<T>) {
    if had.Some? then column == had else column == given
  }

  predicate DataFilled(data: UtxoData, had: UtxoData, given: UtxoData) {
    && IsFilled(data.dataHash, had.dataHash, given.dataHash)
    && IsFilled(data.inlineDatum, had.inlineDatum, given.inlineDatum)
    && IsFilled(data.scriptHash, had.scriptHash, given.scriptHash)
    && IsFilled(data.scriptSize, had.scriptSize, given.scriptSize)
    && IsFilled(data.scriptType, had.scriptType, given.scriptType)
  }

  /** The resolved input has the address, the amounts and the datum and script columns of the output. */
  predicate CarriesOutput(r: Input, i: Input, o: Output) {
    r.address == o.address && r.amount == o.amount && DataFilled(r.data, i.data, o.data)
  }

  predicate CarriesRow(r: Input, i: Input, row: UtxoRow) {
    r.address == row.held.address && LovelaceOf(r.amount) == row.held.lovelace && DataFilled(r.data, i.data, row.held.data)
  }

  /** What the consumed output says: one the block produces, else a row of the set. */
  ghost predicate CarriesConsumed(t: Tables, b: Block, i: Input, r: Input) {
    if exists n, j :: Produces(b, n, j) && ProducedKey(b, n, j) == i.source
    then exists n, j :: Produces(b, n, j) && ProducedKey(b, n, j) == i.source && CarriesOutput(r, i, b.txs[n].outputs[j])
    else i.source in t.utxos && CarriesRow(r, i, t.utxos[i.source])
  }

  /**
   A bare input that consumes an output of the block or of the set comes back with exactly that output's
   address, amounts, datum and script columns.
   */
  lemma ResolvedIsConsumed(decode: Decoder, t: Tables, b: Block, i: Input, ledger: LedgerLayer, stored: StoredTables, hashes: set<Hash>)
    requires i.address == "" && DistinctKeys(OutputsOf(b.txs)) && DistinctKeys(Creations(b.txs))
    requires RowsWellFormed(decode, t.utxos, t.assets) && Legal(decode, t, b)
    requires (exists n, j :: Produces(b, n, j) && ProducedKey(b, n, j) == i.source) || (i.source in t.utxos && i.source.txHash in hashes)
    requires ledger.rows == RowsOf(t.utxos, hashes) && AllListed(hashes, ledger.lists, t.assets)
    ensures
      var r := Resolve(i, LocalOutputs(OutputsOf(b.txs)), ledger, stored);
      && CarriesConsumed(t, b, i, r)
      && forall u :: u != LOVELACE ==>
           ListQuantity(r.amount, u) == Quantity(AssetsAfter(t.assets, BlockEffect(decode, b)), i.source, u)
  {
    var e := BlockEffect(decode, b);
    if i.source in e.created {
      ResolvedLocally(decode, t, b, i, ledger, stored);
    } else {
      forall n, j | Produces(b, n, j)
        ensures ProducedKey(b, n, j) != i.source
      {
        BuiltUnderSomeKey(decode, b, n, j);
      }
      ResolvedFromRow(decode, t, b, i, ledger, stored, hashes);
    }
  }

  lemma BuiltUnderSomeKey(decode: Decoder, b: Block, n: int, j: int)
    requires Produces(b, n, j)
    ensures ProducedKey(b, n, j) in BlockEffect(decode, b).created
  {
    var c := Creation(ProducedKey(b, n, j), b.txs[n].outputs[j]);
    assert b.txs[..|b.txs|] == b.txs;
    CreationsAre(b, c, |b.txs|);
    BuildAllHas(decode, b.slot, Creations(b.txs), c);
  }

  lemma ResolvedLocally(decode: Decoder, t: Tables, b: Block, i: Input, ledger: LedgerLayer, stored: StoredTables)
    requires i.address == "" && DistinctKeys(OutputsOf(b.txs)) && DistinctKeys(Creations(b.txs))
    requires AssetsOwned(t) && Legal(decode, t, b) && i.source in BlockEffect(decode, b).created
    ensures
      var r := Resolve(i, LocalOutputs(OutputsOf(b.txs)), ledger, stored);
      && CarriesConsumed(t, b, i, r)
      && forall u :: u != LOVELACE ==>
           ListQuantity(r.amount, u) == Quantity(AssetsAfter(t.assets, BlockEffect(decode, b)), i.source, u)
  {
    hide Creations, BuildAll, BuildRows, AssetsAfter, OutputsOf, LocalOutputs, Spends, DistinctKeys, Produces, AssetsOwned, ListQuantity, Quantity;
    var c := BuiltOutput(decode, b, i.source);
    BuiltAmounts(decode, t, b, i.source, c.output);
    hide Legal, BlockEffect;
  }

  /** The asset rows of a built output hold its amounts. */
  lemma BuiltAmounts(decode: Decoder, t: Tables, b: Block, k: OutPoint, o: Output)
    requires AssetsOwned(t) && Legal(decode, t, b)
    requires k in BlockEffect(decode, b).created && BlockEffect(decode, b).created[k] == BuildRows(decode, o, Some(b.slot))
    ensures forall u :: u != LOVELACE ==> ListQuantity(o.amount, u) == Quantity(AssetsAfter(t.assets, BlockEffect(decode, b)), k, u)
  {
    hide BuildAll, AssetsAfter, Creations, Spends, Legal;
    BlockBuilt(decode, t, b);
    forall u | u != LOVELACE
      ensures ListQuantity(o.amount, u) == Quantity(AssetsAfter(t.assets, BlockEffect(decode, b)), k, u)
    {
      BuiltQuantity(BlockEffect(decode, b), t.assets, k, u);
      NativeQuantity(o.amount, u);
    }
  }

  /** The output a block builds under an outpoint is the one its outputs list there. */
  lemma BuiltOutput(decode: Decoder, b: Block, k: OutPoint) returns (c: Creation)
    requires DistinctKeys(OutputsOf(b.txs)) && k in BlockEffect(decode, b).created
    ensures BlockEffect(decode, b).created[k] == BuildRows(decode, c.output, Some(b.slot))
    ensures k in LocalOutputs(OutputsOf(b.txs)) && LocalOutputs(OutputsOf(b.txs))[k] == c.output
    ensures exists n, j :: Produces(b, n, j) && ProducedKey(b, n, j) == k && b.txs[n].outputs[j] == c.output
  {
    var cs, all := Creations(b.txs), OutputsOf(b.txs);
    BuildAllEntries(decode, b.slot, cs);
    hide Creations, BuildAll, OutputsOf, LocalOutputs, Spends;
    c :| c in cs && c.key == k && BlockEffect(decode, b).created[k] == BuildRows(decode, c.output, Some(b.slot));
    CreationsAreOutputs(b.txs);
    var x :| 0 <= x < |all| && all[x] == c;
    LocalByKey(all, x);
    assert b.txs[..|b.txs|] == b.txs;
    CreationsAre(b, c, |b.txs|);
  }

  lemma RowAmountQuantity(row: UtxoRow, list: seq<Amount>, u: Unit)
    requires u != LOVELACE
    ensures ListQuantity(RowAmount(row, list), u) == ListQuantity(list, u)
  {
    var first := [Amount(LOVELACE, row.held.lovelace)];
    SeqSumConcat(first, list, QuantityIf(u));
    assert first[..0] == [];
  }

  lemma ResolvedFromRow(decode: Decoder, t: Tables, b: Block, i: Input, ledger: LedgerLayer, stored: StoredTables, hashes: set<Hash>)
    requires i.address == "" && RowsWellFormed(decode, t.utxos, t.assets) && Legal(decode, t, b)
    requires i.source !in BlockEffect(decode, b).created && i.source in t.utxos && i.source.txHash in hashes
    requires ledger.rows == RowsOf(t.utxos, hashes) && AllListed(hashes, ledger.lists, t.assets)
    ensures
      var r := Resolve(i, LocalOutputs(OutputsOf(b.txs)), ledger, stored);
      && CarriesRow(r, i, t.utxos[i.source])
      && forall u :: u != LOVELACE ==>
           ListQuantity(r.amount, u) == Quantity(AssetsAfter(t.assets, BlockEffect(decode, b)), i.source, u)
  {
    var e, k := BlockEffect(decode, b), i.source;
    assert k !in LocalOutputs(OutputsOf(b.txs)) by {
      OutputsOfHashes(b.txs);
      LocalKeys(OutputsOf(b.txs));
    }
    var row, list := t.utxos[k], ListOf(ledger.lists, k);
    forall u | u != LOVELACE
      ensures ListQuantity(RowAmount(row, list), u) == Quantity(AssetsAfter(t.assets, e), k, u)
    {
      RowAmountQuantity(row, list, u);
      ListedQuantity(list, k, t.assets, u);
      OldQuantity(t, e, k, u);
    }
  }

  lemma {:induction false} OutputsOfHashes(txs: seq<Tx>)
    ensures forall c :: c in OutputsOf(txs) ==> exists i :: 0 <= i < |txs| && txs[i].hash == c.key.txHash
  {
    if txs != [] {
      var n := |txs| - 1;
      OutputsOfHashes(txs[..n]);
      forall c | c in OutputsOf(txs)
        ensures exists i :: 0 <= i < |txs| && txs[i].hash == c.key.txHash
      {
        if c in OutputsOf(txs[..n]) {
          var i :| 0 <= i < n && txs[..n][i].hash == c.key.txHash;
          assert txs[i] == txs[..n][i];
        } else {
          assert txs[n].hash == c.key.txHash;
        }
      }
    }
  }
}
