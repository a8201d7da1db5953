/** Mint and burn rows as the mint of a transaction read back: what was recorded comes back, unit by unit. */
module MintRoundTrip {
  import opened Options
  import opened Chain
  import opened Sums
  import opened Supply
  import opened StoredChain

  function ActionOf(r: MintRow): Action {
    if r.burned then Burned else Minted
  }

  /** The table holds the history, one row per unit and transaction. */
  ghost predicate HoldsHistory(mints: seq<MintRow>, history: History) {
    && (forall r :: r in mints ==> (r.unit, r.txHash) in history && history[(r.unit, r.txHash)] == HistoryRow(ActionOf(r), r.quantity))
    && (forall uh :: uh in history ==> exists r :: r in mints && (r.unit, r.txHash) == uh)
    && (forall i, j :: 0 <= i < j < |mints| ==> (mints[i].unit, mints[i].txHash) != (mints[j].unit, mints[j].txHash))
  }

  ghost predicate OneRowPerUnit(rows: seq<MintRow>) {
    forall i, j :: 0 <= i < j < |rows| ==> rows[i].unit != rows[j].unit
  }

  /** The rows of one transaction name each unit once. */
  lemma {:induction false} OwnMints(mints: seq<MintRow>, h: Hash)
    requires forall i, j :: 0 <= i < j < |mints| ==> (mints[i].unit, mints[i].txHash) != (mints[j].unit, mints[j].txHash)
    ensures OneRowPerUnit(Filter(mints, HasKey(MintTx, h)))
  {
    if mints != [] {
      var n := |mints| - 1;
      OwnMints(mints[..n], h);
      OwnRowsAre(mints[..n], h);
      var front := Filter(mints[..n], HasKey(MintTx, h));
      FilterAppend(mints[..n], mints[n], HasKey(MintTx, h));
      assert mints == mints[..n] + [mints[n]];
      forall i | 0 <= i < |front|
        ensures front[i].unit != mints[n].unit || mints[n].txHash != h
      {
        assert front[i] in front;
        var x :| 0 <= x < n && mints[x] == front[i];
      }
      assert HasKey(MintTx, h)(mints[n]) == (MintTx(mints[n]) == h);
      hide Filter, HasKey;
    }
  }

  /** Every entry of the mint read back is the net change of its unit, and every unit with a net change has one. */
  ghost predicate ReadsNet(mint: Option<seq<Mint>>, t: Tx) {
    && (mint.None? <==> forall u :: Net(t, u) == 0)
    && (mint.Some? ==>
          && (forall i, j :: 0 <= i < j < |mint.value| ==> mint.value[i].unit != mint.value[j].unit)
          && (forall m :: m in mint.value ==> m.quantity == Net(t, m.unit) != 0)
          && (forall u :: Net(t, u) != 0 ==> exists m :: m in mint.value && m.unit == u))
  }

  lemma OwnRowsAre(mints: seq<MintRow>, h: Hash)
    ensures forall r :: r in Filter(mints, HasKey(MintTx, h)) <==> r in mints && r.txHash == h
  {
    assert forall r :: HasKey(MintTx, h)(r) <==> MintTx(r) == h;
  }

  /** The quantities read are the signed ones of the rows. */
  lemma ReadMintIs(own: seq<MintRow>)
    ensures ReadMint(own).None? <==> own == []
    ensures own != [] ==>
      var mint := ReadMint(own).value;
      |mint| == |own| && forall i :: 0 <= i < |own| ==> mint[i] == Mint(own[i].unit, SignedQuantity(HistoryRow(ActionOf(own[i]), own[i].quantity)))
  {
  }

  lemma MintReadBack(db: Db, history: History, t: Tx)
    requires HoldsHistory(db.mints, history) && RowsOfTx(history, t)
    ensures ReadsNet(ReadMint(Filter(db.mints, HasKey(MintTx, t.hash))), t)
  {
    hide Net, Filter, HasKey, ReadMint;
    var own := Filter(db.mints, HasKey(MintTx, t.hash));
    OwnMints(db.mints, t.hash);
    OwnRowsAre(db.mints, t.hash);
    ReadMintIs(own);
    forall r | r in own
      ensures SignedQuantity(HistoryRow(ActionOf(r), r.quantity)) == Net(t, r.unit) != 0
    {
      assert (r.unit, t.hash) in history;
      assert TxChange(history, r.unit, t.hash) == Net(t, r.unit);
    }
    forall u | Net(t, u) != 0
      ensures exists r :: r in own && r.unit == u
    {
      assert (u, t.hash) in history;
      var r :| r in db.mints && (r.unit, r.txHash) == (u, t.hash);
    }
    OwnReadsNet(own, ReadMint(own), t);
  }

  lemma OwnReadsNet(own: seq<MintRow>, mint: Option<seq<Mint>>, t: Tx)
    requires mint.None? <==> own == []
    requires mint.Some? ==> |mint.value| == |own| && forall i :: 0 <= i < |own| ==>
               mint.value[i] == Mint(own[i].unit, SignedQuantity(HistoryRow(ActionOf(own[i]), own[i].quantity)))
    requires OneRowPerUnit(own)
    requires forall r :: r in own ==> SignedQuantity(HistoryRow(ActionOf(r), r.quantity)) == Net(t, r.unit) != 0
    requires forall u :: Net(t, u) != 0 ==> exists r :: r in own && r.unit == u
    ensures ReadsNet(mint, t)
  {
    hide Net, SignedQuantity;
    if own != [] {
      assert own[0] in own;
      forall i | 0 <= i < |own|
        ensures mint.value[i].unit == own[i].unit && mint.value[i].quantity == Net(t, own[i].unit) != 0
      {
        assert own[i] in own;
      }
      forall u | Net(t, u) != 0
        ensures exists m :: m in mint.value && m.unit == u
      {
        var r :| r in own && r.unit == u;
        var i :| 0 <= i < |own| && own[i] == r;
        assert mint.value[i] in mint.value;
      }
    }
  }

  /** So the history rebuilt from a transaction read back, if it records a change at all, is the history recorded first. */
  lemma RebuiltHistory(db: Db, history: History, row: TxRow, t: Tx, r: Tx, u: Unit)
    requires HoldsHistory(db.mints, history) && RowsOfTx(history, t)
    requires IsRead(db, row, r) && row.hash == t.hash && r.mint.Some?
    ensures Net(r, u) == Net(t, u)
  {
    hide Filter, HasKey, ReadMint;
    MintReadBack(db, history, t);
    MintOfUnit(r.mint.value, u);
    NetOfMint(r, t, u);
  }

  lemma NetOfMint(r: Tx, t: Tx, u: Unit)
    requires r.mint.Some? && ReadsNet(r.mint, t)
    requires (forall m :: m in r.mint.value ==> m.unit != u) ==> SeqSum(r.mint.value, MintIf(u)) == 0
    requires forall m :: m in r.mint.value && m.unit == u ==> SeqSum(r.mint.value, MintIf(u)) == m.quantity
    ensures Net(r, u) == Net(t, u)
  {
    LovelaceNeverMinted(t);
  }
}
