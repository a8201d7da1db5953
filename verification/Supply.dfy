/**
 Mint and burn history, and the conservation law that ties it to the UTxO set: what is open of a unit
 changes by exactly what the history records.
 */
module Supply {
  import opened Options
  import opened Chain
  import opened Sums
  import opened LedgerRules
  import opened LedgerSteps

  datatype Action = Minted | Burned

  datatype HistoryRow = HistoryRow(action: Action, quantity: nat)

  /** Rows keyed by unit and transaction. */
  type History = map<(Unit, Hash), HistoryRow>

  // ---------------------------------------------------------------- net change of one transaction

  function MintIf(u: Unit): Mint -> int {
    (m: Mint) => if m.unit == u then m.quantity else 0
  }

  ghost function MintQuantity(mint: seq<Mint>, u: Unit): int {
    SeqSum(mint, MintIf(u))
  }

  ghost function InputIf(u: Unit): Input -> int {
    (i: Input) => ListQuantity(i.amount, u)
  }

  ghost function OutputIf(u: Unit): Output -> int {
    (o: Output) => ListQuantity(o.amount, u)
  }

  predicate HasUnresolved(t: Tx) {
    exists i :: i in ConsumedInputs(t) && i.address == ""
  }

  /** What the history records for a unit: the reported mint, else outputs minus inputs, else nothing. */
  ghost function Net(t: Tx, u: Unit): int {
    if u == LOVELACE then 0
    else if t.mint.Some? then MintQuantity(t.mint.value, u)
    else if Failed(t) || HasUnresolved(t) then 0
    else SeqSum(ProducedOutputs(t), OutputIf(u)) - SeqSum(ConsumedInputs(t), InputIf(u))
  }

  function SignedQuantity(r: HistoryRow): int {
    if r.action == Burned then -(r.quantity as int) else r.quantity
  }

  function SupplyOf(u: Unit): ((Unit, Hash), HistoryRow) -> int {
    (uh: (Unit, Hash), r: HistoryRow) => if uh.0 == u then SignedQuantity(r) else 0
  }

  /** Supply of a unit from its crawled mint and burn rows. */
  ghost function RecordedSupply(history: History, u: Unit): int {
    MapSum(history, SupplyOf(u))
  }

  // ---------------------------------------------------------------- the row builder

  /** `net` holds the change of every unit, `lovelace` left out. */
  ghost predicate NetIs(net: map<Unit, int>, change: Unit -> int) {
    LOVELACE !in net && forall u :: u != LOVELACE ==> UnitIn(net, u) == change(u)
  }

  method AddAmounts(net0: map<Unit, int>, amount: seq<Amount>, sign: int, ghost f: Unit -> int) returns (net: map<Unit, int>)
    requires (sign == 1 || sign == -1) && NetIs(net0, f)
    ensures NetIs(net, u => f(u) + if sign == 1 then ListQuantity(amount, u) else -ListQuantity(amount, u))
  {
    net := net0;
    for i := 0 to |amount|
      invariant LOVELACE !in net
      invariant forall u :: u != LOVELACE ==>
        UnitIn(net, u) == f(u) + if sign == 1 then ListQuantity(amount[..i], u) else -ListQuantity(amount[..i], u)
    {
      var a := amount[i];
      assert amount[..i + 1][..i] == amount[..i];
      if a.unit != LOVELACE {
        net := net[a.unit := UnitIn(net, a.unit) + sign * a.quantity];
      }
    }
    assert amount[..|amount|] == amount;
  }

  method AddMints(mint: seq<Mint>) returns (net: map<Unit, int>)
    ensures NetIs(net, u => MintQuantity(mint, u))
  {
    net := map[];
    for i := 0 to |mint|
      invariant LOVELACE !in net
      invariant forall u :: u != LOVELACE ==> UnitIn(net, u) == MintQuantity(mint[..i], u)
    {
      var m := mint[i];
      assert mint[..i + 1] == mint[..i] + [m];
      forall u {:trigger MintQuantity(mint[..i + 1], u)}
        ensures MintQuantity(mint[..i + 1], u) == MintQuantity(mint[..i], u) + MintIf(u)(m)
      {
        SeqSumAppend(mint[..i], m, MintIf(u));
      }
      if m.unit != LOVELACE {
        net := net[m.unit := UnitIn(net, m.unit) + m.quantity];
      }
    }
    assert mint[..|mint|] == mint;
  }

  method AddOutputs(produced: seq<Output>) returns (net: map<Unit, int>)
    ensures NetIs(net, u => SeqSum(produced, OutputIf(u)))
  {
    net := map[];
    for i := 0 to |produced|
      invariant NetIs(net, u => SeqSum(produced[..i], OutputIf(u)))
    {
      assert produced[..i + 1][..i] == produced[..i];
      net := AddAmounts(net, produced[i].amount, 1, u => SeqSum(produced[..i], OutputIf(u)));
    }
    assert produced[..|produced|] == produced;
  }

  method SubtractInputs(net0: map<Unit, int>, consumed: seq<Input>, ghost f: Unit -> int) returns (net: map<Unit, int>)
    requires NetIs(net0, f)
    ensures NetIs(net, u => f(u) - SeqSum(consumed, InputIf(u)))
  {
    net := net0;
    for i := 0 to |consumed|
      invariant NetIs(net, u => f(u) - SeqSum(consumed[..i], InputIf(u)))
    {
      assert consumed[..i + 1][..i] == consumed[..i];
      net := AddAmounts(net, consumed[i].amount, -1, u => f(u) - SeqSum(consumed[..i], InputIf(u)));
    }
    assert consumed[..|consumed|] == consumed;
  }

  /** A regular input came without an address: what it carried is not known. */
  ghost predicate LacksAddress(t: Tx) {
    exists i :: i in t.inputs && !i.isReference && !i.isCollateral && i.address == ""
  }

  /** The net change of a transaction per unit; None when no mint is reported and it failed or an input is unresolved. */
  method NetOf(t: Tx) returns (net: Option<map<Unit, int>>)
    ensures net.None? <==> t.mint.None? && (t.spendsCollaterals == Some(true) || LacksAddress(t))
    ensures NetIs(if net.Some? then net.value else map[], u => Net(t, u))
  {
    if t.mint.Some? {
      var sums := AddMints(t.mint.value);
      return Some(sums);
    }
    if Failed(t) {
      return None;
    }
    var consumed := ConsumedInputs(t);
    for i := 0 to |consumed|
      invariant forall j :: 0 <= j < i ==> consumed[j].address != ""
    {
      if consumed[i].address == "" {
        assert consumed[i] in t.inputs && HasUnresolved(t);
        return None;
      }
    }
    assert !HasUnresolved(t);
    assert forall i :: i in t.inputs && !i.isReference && !i.isCollateral ==> i in consumed;
    var produced := ProducedOutputs(t);
    var sums := AddOutputs(produced);
    sums := SubtractInputs(sums, consumed, u => SeqSum(produced, OutputIf(u)));
    return Some(sums);
  }

  /** The rows of one transaction: a mint or a burn for every unit whose supply it changes. */
  ghost predicate RowsOfTx(rows: History, t: Tx) {
    forall u ::
      && TxChange(rows, u, t.hash) == Net(t, u)
      && (((u, t.hash) in rows) <==> Net(t, u) != 0)
      && ((u, t.hash) in rows ==> rows[(u, t.hash)].action == if Net(t, u) > 0 then Minted else Burned)
  }

  /** Without a reported mint, a failed transaction and one with an unresolved input leave no row. */
  lemma UnknownLeavesNoRow(rows: History, t: Tx, u: Unit)
    requires RowsOfTx(rows, t) && t.mint.None? && (t.spendsCollaterals == Some(true) || LacksAddress(t))
    ensures (u, t.hash) !in rows
  {
    if t.spendsCollaterals != Some(true) {
      var i :| i in t.inputs && !i.isReference && !i.isCollateral && i.address == "";
      assert i in ConsumedInputs(t);
    }
    assert Net(t, u) == 0;
  }

  ghost function RegularOutputIf(u: Unit): Output -> int {
    (o: Output) => if o.isCollateral then 0 else ListQuantity(o.amount, u)
  }

  ghost function RegularInputIf(u: Unit): Input -> int {
    (i: Input) => if i.isCollateral || i.isReference then 0 else ListQuantity(i.amount, u)
  }

  lemma {:induction false} SumOfFilter<T(!new)>(s: seq<T>, keep: T -> bool, f: T -> int, g: T -> int)
    requires forall x :: x in s ==> g(x) == if keep(x) then f(x) else 0
    ensures SeqSum(Filter(s, keep), f) == SeqSum(s, g)
  {
    if s != [] {
      var front, last := s[..|s| - 1], s[|s| - 1];
      SumOfFilter(front, keep, f, g);
      SeqSumAppend(Filter(front, keep), last, f);
    }
  }

  /**
   The row of a unit without a reported mint, in a valid transaction whose inputs are all resolved: a mint of
   what regular outputs deliver beyond what regular inputs carry, a burn of what is missing, no row if equal.
   */
  lemma DerivedRow(rows: History, t: Tx, u: Unit)
    requires RowsOfTx(rows, t) && t.mint.None? && t.spendsCollaterals != Some(true) && !LacksAddress(t) && u != LOVELACE
    ensures
      var q := SeqSum(t.outputs, RegularOutputIf(u)) - SeqSum(t.inputs, RegularInputIf(u));
      if q == 0 then (u, t.hash) !in rows
      else (u, t.hash) in rows && rows[(u, t.hash)] == if q > 0 then HistoryRow(Minted, q) else HistoryRow(Burned, -q)
  {
    SumOfFilter(t.outputs, o => IsProduced(t, o), OutputIf(u), RegularOutputIf(u));
    SumOfFilter(t.inputs, i => IsConsumed(t, i), InputIf(u), RegularInputIf(u));
    assert TxChange(rows, u, t.hash) == Net(t, u);
  }

  lemma {:induction false} MintOfUnit(mint: seq<Mint>, u: Unit)
    requires forall i, j :: 0 <= i < j < |mint| ==> mint[i].unit != mint[j].unit
    ensures (forall m :: m in mint ==> m.unit != u) ==> SeqSum(mint, MintIf(u)) == 0
    ensures forall m :: m in mint && m.unit == u ==> SeqSum(mint, MintIf(u)) == m.quantity
  {
    if mint != [] {
      MintOfUnit(mint[..|mint| - 1], u);
      assert mint == mint[..|mint| - 1] + [mint[|mint| - 1]];
    }
  }

  /** Of a mint that lists each unit once, every entry but zeros and lovelace is a row, and nothing else is. */
  lemma ReportedMintRows(rows: History, t: Tx, m: Mint, u: Unit)
    requires RowsOfTx(rows, t) && t.mint.Some? && m in t.mint.value
    requires forall i, j :: 0 <= i < j < |t.mint.value| ==> t.mint.value[i].unit != t.mint.value[j].unit
    ensures m.unit != LOVELACE && m.quantity > 0 ==> (m.unit, t.hash) in rows && rows[(m.unit, t.hash)] == HistoryRow(Minted, m.quantity)
    ensures m.unit != LOVELACE && m.quantity < 0 ==> (m.unit, t.hash) in rows && rows[(m.unit, t.hash)] == HistoryRow(Burned, -m.quantity)
    ensures (u, t.hash) in rows ==> u != LOVELACE && exists x :: x in t.mint.value && x.unit == u && x.quantity != 0
  {
    MintOfUnit(t.mint.value, m.unit);
    MintOfUnit(t.mint.value, u);
    if m.unit != LOVELACE {
      ReportedRow(rows, t, m.unit);
    }
    assert TxChange(rows, u, t.hash) == Net(t, u);
  }

  /** A reported mint is recorded as it is. */
  lemma ReportedRow(rows: History, t: Tx, u: Unit)
    requires RowsOfTx(rows, t) && t.mint.Some? && u != LOVELACE
    ensures
      var q := SeqSum(t.mint.value, MintIf(u));
      if q == 0 then (u, t.hash) !in rows
      else (u, t.hash) in rows && rows[(u, t.hash)] == if q > 0 then HistoryRow(Minted, q) else HistoryRow(Burned, -q)
  {
    assert TxChange(rows, u, t.hash) == Net(t, u);
  }

  function TxChange(rows: History, u: Unit, h: Hash): int {
    if (u, h) in rows then SignedQuantity(rows[(u, h)]) else 0
  }

  /** One row per unit a transaction mints or burns. */
  method BuildTxRows(t: Tx) returns (rows: History)
    ensures RowsOfTx(rows, t)
    ensures forall uh :: uh in rows ==> uh.1 == t.hash
  {
    rows := map[];
    var found := NetOf(t);
    var net := if found.Some? then found.value else map[];
    hide Net;
    assert forall u :: UnitIn(net, u) == Net(t, u) by {
      LovelaceNeverMinted(t);
    }
    var todo := net.Keys;
    while todo != {}
      invariant todo <= net.Keys
      invariant forall uh :: uh in rows ==> uh.1 == t.hash
      invariant forall u :: (u, t.hash) in rows <==> u in net && u !in todo && net[u] != 0
      invariant forall u :: (u, t.hash) in rows ==> SignedQuantity(rows[(u, t.hash)]) == net[u]
      invariant forall u :: (u, t.hash) in rows ==> rows[(u, t.hash)].action == if net[u] > 0 then Minted else Burned
      decreases todo
    {
      var u :| u in todo;
      var q := net[u];
      if q != 0 {
        rows := rows[(u, t.hash) := if q > 0 then HistoryRow(Minted, q) else HistoryRow(Burned, -q)];
      }
      todo := todo - {u};
    }
  }

  lemma LovelaceNeverMinted(t: Tx)
    ensures Net(t, LOVELACE) == 0
  {
  }

  /** The rows of a block, keyed like the table, so indexing a block again writes the same rows. */
  method BuildAssetHistoryRows(txs: seq<Tx>) returns (rows: History)
    requires forall i, j :: 0 <= i < j < |txs| ==> txs[i].hash != txs[j].hash
    ensures forall i :: 0 <= i < |txs| ==> RowsOfTx(rows, txs[i])
    ensures forall uh :: uh in rows ==> exists i :: 0 <= i < |txs| && txs[i].hash == uh.1
    ensures forall i, u :: 0 <= i < |txs| && txs[i].mint.None? && LacksAddress(txs[i]) ==> (u, txs[i].hash) !in rows
  {
    rows := map[];
    for i := 0 to |txs|
      invariant forall j :: 0 <= j < i ==> RowsOfTx(rows, txs[j])
      invariant forall uh :: uh in rows ==> exists j :: 0 <= j < i && txs[j].hash == uh.1
    {
      var more := BuildTxRows(txs[i]);
      MergedTxRows(rows, more, txs, i);
      hide RowsOfTx;
      rows := rows + more;
    }
    forall i, u | 0 <= i < |txs| && txs[i].mint.None? && LacksAddress(txs[i])
      ensures (u, txs[i].hash) !in rows
    {
      UnknownLeavesNoRow(rows, txs[i], u);
    }
  }

  /** Adding the rows of the next transaction leaves those of the earlier ones alone. */
  lemma MergedTxRows(rows: History, more: History, txs: seq<Tx>, i: nat)
    requires i < |txs| && forall j, k :: 0 <= j < k < |txs| ==> txs[j].hash != txs[k].hash
    requires forall j :: 0 <= j < i ==> RowsOfTx(rows, txs[j])
    requires forall uh :: uh in rows ==> exists j :: 0 <= j < i && txs[j].hash == uh.1
    requires RowsOfTx(more, txs[i]) && forall uh :: uh in more ==> uh.1 == txs[i].hash
    ensures forall j :: 0 <= j <= i ==> RowsOfTx(rows + more, txs[j])
  {
    hide RowsOfTx;
    forall j | 0 <= j < i
      ensures RowsOfTx(rows + more, txs[j])
    {
      SameTxRows(rows, rows + more, txs[j]);
    }
    assert forall uh :: uh in rows ==> uh.1 != txs[i].hash;
    SameTxRows(more, rows + more, txs[i]);
  }

  lemma SameTxRows(rows: History, rows': History, t: Tx)
    requires RowsOfTx(rows, t)
    requires forall u :: (u, t.hash) in rows <==> (u, t.hash) in rows'
    requires forall u :: (u, t.hash) in rows ==> rows[(u, t.hash)] == rows'[(u, t.hash)]
    ensures RowsOfTx(rows', t)
  {
    forall u
      ensures TxChange(rows', u, t.hash) == Net(t, u) && (((u, t.hash) in rows') <==> Net(t, u) != 0)
      ensures (u, t.hash) in rows' ==> rows'[(u, t.hash)].action == if Net(t, u) > 0 then Minted else Burned
    {
      assert TxChange(rows, u, t.hash) == Net(t, u);
    }
  }

  /** Supply of a unit summed over its rows; None for a unit that was never minted. */
  method LocalSupply(history: History, unit: Unit) returns (supply: Option<int>)
    ensures supply.Some? ==> supply.value == RecordedSupply(history, unit)
    ensures supply.None? <==> forall uh :: uh in history ==> uh.0 != unit
  {
    var events := map uh | uh in history && uh.0 == unit :: history[uh];
    if events == map[] {
      assert forall uh :: uh in history && uh.0 == unit ==> uh in events;
      return None;
    }
    var sum := 0;
    var todo := events.Keys;
    while todo != {}
      invariant todo <= events.Keys
      invariant sum == MapSum(events - todo, SupplyOf(unit))
      decreases todo
    {
      var uh :| uh in todo;
      SumPut(events - todo, SupplyOf(unit), uh, events[uh]);
      assert events - (todo - {uh}) == (events - todo)[uh := events[uh]];
      sum := sum + SignedQuantity(events[uh]);
      todo := todo - {uh};
    }
    assert events - todo == events;
    SumAgree(events, history, SupplyOf(unit), SupplyOf(unit));
    var uh :| uh in events;
    return Some(sum);
  }
}
