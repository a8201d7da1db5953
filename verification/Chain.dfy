/** Optional values: the source's null and undefined. */
module Options {
  datatype Option<+T> = None | Some(value: T)
}

/**
 Blocks, transactions and amounts in the shape every source delivers them.
 Hashes, addresses and units are strings; quantities are the unbounded integers of BigInt.
 */
module Chain {
  import opened Options

  type Hash = string
  type Address = string
  type Unit = string

  const LOVELACE: Unit := "lovelace"

  datatype OutPoint = OutPoint(txHash: Hash, outputIndex: nat)

  datatype Amount = Amount(unit: Unit, quantity: nat)

  /** A change of the supply of a unit, negative for a burn. */
  datatype Mint = Mint(unit: Unit, quantity: int)

  /** Datum and reference script columns of an output. */
  datatype UtxoData = UtxoData(dataHash: Option<string>, inlineDatum: Option<string>,
                               scriptHash: Option<string>, scriptSize: Option<nat>, scriptType: Option<string>)

  /** A stored text column: a blank one is null. */
  predicate IsColumn(stored: Option<string>, given: Option<string>) {
    if given.Some? && given.value != "" then stored == given else stored.None?
  }

  /** The stored datum and script columns, one by one, are those given. */
  predicate SameData(stored: UtxoData, given: UtxoData) {
    && IsColumn(stored.dataHash, given.dataHash)
    && IsColumn(stored.inlineDatum, given.inlineDatum)
    && IsColumn(stored.scriptHash, given.scriptHash)
    && stored.scriptSize == given.scriptSize
    && stored.scriptType == given.scriptType
  }

  datatype Input = Input(source: OutPoint, address: Address, amount: seq<Amount>, data: UtxoData,
                         isCollateral: bool, isReference: bool)

  datatype Output = Output(outputIndex: nat, address: Address, amount: seq<Amount>, data: UtxoData, isCollateral: bool)

  /** `spendsCollaterals` is None when the source does not report it, `mint` when it lacks the field. */
  datatype Tx = Tx(hash: Hash, slot: nat, index: nat, spendsCollaterals: Option<bool>, mint: Option<seq<Mint>>,
                   inputs: seq<Input>, outputs: seq<Output>)

  predicate Failed(t: Tx) {
    t.spendsCollaterals == Some(true)
  }

  predicate IsProduced(t: Tx, o: Output) {
    if Failed(t) then o.isCollateral else !o.isCollateral
  }

  predicate IsConsumed(t: Tx, i: Input) {
    if Failed(t) then i.isCollateral else !i.isReference && !i.isCollateral
  }

  /** Outputs the ledger actually produced: the collateral return after a phase-2 failure, else the regular ones. */
  function ProducedOutputs(t: Tx): seq<Output> {
    Filter(t.outputs, o => IsProduced(t, o))
  }

  /** Inputs the ledger actually consumed: collateral after a phase-2 failure, else the regular ones. */
  function ConsumedInputs(t: Tx): seq<Input> {
    Filter(t.inputs, i => IsConsumed(t, i))
  }

  /** Order-preserving filter. */
  function Filter<T(!new)>(s: seq<T>, keep: T -> bool): (r: seq<T>)
    ensures forall x :: x in r <==> x in s && keep(x)
    ensures |r| <= |s|
  {
    if s == [] then [] else
      var last := s[|s| - 1];
      var front := Filter(s[..|s| - 1], keep);
      assert s == s[..|s| - 1] + [last];
      if keep(last) then front + [last] else front
  }

  lemma {:induction false} FilterAppend<T(!new)>(s: seq<T>, x: T, keep: T -> bool)
    ensures Filter(s + [x], keep) == Filter(s, keep) + if keep(x) then [x] else []
  {
    assert (s + [x])[..|s|] == s;
  }

  lemma {:induction false} FilterConcat<T(!new)>(s: seq<T>, t: seq<T>, keep: T -> bool)
    ensures Filter(s + t, keep) == Filter(s, keep) + Filter(t, keep)
    decreases |t|
  {
    hide Filter;
    if t == [] {
      assert s + t == s && Filter(s, keep) + Filter(t, keep) == Filter(s, keep);
    } else {
      var front, last := t[..|t| - 1], t[|t| - 1];
      assert t == front + [last];
      FilterConcat(s, front, keep);
      FilterAppend(front, last, keep);
      assert s + t == (s + front) + [last];
      FilterAppend(s + front, last, keep);
    }
  }

  lemma {:induction false} FilterAgree<T(!new)>(s: seq<T>, p: T -> bool, q: T -> bool)
    requires forall x :: x in s ==> p(x) == q(x)
    ensures Filter(s, p) == Filter(s, q)
  {
    if s != [] {
      FilterAgree(s[..|s| - 1], p, q);
    }
  }

  lemma {:induction false} KeepAll<T(!new)>(s: seq<T>, keep: T -> bool)
    requires forall x :: x in s ==> keep(x)
    ensures Filter(s, keep) == s
  {
    if s != [] {
      KeepAll(s[..|s| - 1], keep);
    }
  }

  lemma {:induction false} NoneLeft<T(!new)>(s: seq<T>, keep: T -> bool)
    requires forall x :: x in s ==> !keep(x)
    ensures Filter(s, keep) == []
  {
    if s != [] {
      NoneLeft(s[..|s| - 1], keep);
    }
  }

  lemma {:induction false} FilterDistinct<T(!new)>(s: seq<T>, keep: T -> bool)
    requires forall i, j :: 0 <= i < j < |s| ==> s[i] != s[j]
    ensures forall i, j :: 0 <= i < j < |Filter(s, keep)| ==> Filter(s, keep)[i] != Filter(s, keep)[j]
  {
    if s != [] {
      var front := s[..|s| - 1];
      FilterDistinct(front, keep);
      assert s[|s| - 1] !in front;
      assert s[|s| - 1] !in Filter(front, keep);
    }
  }

  /** Lovelace of an amount list: its first lovelace entry, 0 without one. */
  function LovelaceOf(amount: seq<Amount>): nat {
    if amount == [] then 0
    else if amount[0].unit == LOVELACE then amount[0].quantity
    else LovelaceOf(amount[1..])
  }

  predicate IsNative(a: Amount) {
    a.unit != LOVELACE && a.quantity != 0
  }

  function NativeAssets(amount: seq<Amount>): seq<Amount> {
    Filter(amount, IsNative)
  }

  predicate DistinctUnits(amount: seq<Amount>) {
    forall i, j :: 0 <= i < j < |amount| ==> amount[i].unit != amount[j].unit
  }
}
