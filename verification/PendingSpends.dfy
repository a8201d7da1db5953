/**
 Submitted transactions that no crawled block confirms yet, laid over the ledger's view of one address: what
 they spend disappears, what they create appears.
 */
module PendingSpends {
  import opened Options
  import opened Chain

  const PENDING_TX_TTL_MS := 600000

  /** An unspent output; `content` stands for amount, datum and script. */
  datatype Utxo = Utxo(source: OutPoint, address: Address, content: string)

  datatype TxOutput = TxOutput(address: Address, content: string)

  /** A parsed transaction. */
  datatype Parsed = Parsed(hash: Hash, inputs: seq<OutPoint>, outputs: seq<TxOutput>)

  datatype Pending = Pending(hash: Hash, inputs: seq<OutPoint>, outputs: seq<Utxo>, expiresAt: int)

  /** The outputs of a transaction as unspent outputs, numbered in order. */
  function Numbered(hash: Hash, outputs: seq<TxOutput>): (r: seq<Utxo>)
    ensures |r| == |outputs|
    ensures forall i :: 0 <= i < |r| ==> r[i] == Utxo(OutPoint(hash, i), outputs[i].address, outputs[i].content)
  {
    if outputs == [] then [] else
      var n := |outputs| - 1;
      Numbered(hash, outputs[..n]) + [Utxo(OutPoint(hash, n), outputs[n].address, outputs[n].content)]
  }

  /** Setting an entry of the map: an existing hash keeps its place. */
  function Put(txs: seq<Pending>, p: Pending): seq<Pending> {
    if txs == [] then [p]
    else if txs[0].hash == p.hash then [p] + txs[1..]
    else [txs[0]] + Put(txs[1..], p)
  }

  function NotExpired(now: int): Pending -> bool {
    (p: Pending) => p.expiresAt > now
  }

  function NotIn(hashes: set<Hash>): Pending -> bool {
    (p: Pending) => p.hash !in hashes
  }

  function Listed(utxos: seq<Utxo>): set<Hash> {
    set u | u in utxos :: u.source.txHash
  }

  function Spent(txs: seq<Pending>): set<OutPoint> {
    set p, o | p in txs && o in p.inputs :: o
  }

  function Outputs(txs: seq<Pending>): (r: seq<Utxo>)
    ensures forall u :: u in r <==> exists p :: p in txs && u in p.outputs
  {
    if txs == [] then [] else
      var n := |txs| - 1;
      assert txs == txs[..n] + [txs[n]];
      Outputs(txs[..n]) + txs[n].outputs
  }

  function Unspent(spent: set<OutPoint>): Utxo -> bool {
    (u: Utxo) => u.source !in spent
  }

  function UnspentAt(address: Address, spent: set<OutPoint>): Utxo -> bool {
    (u: Utxo) => u.address == address && u.source !in spent
  }

  /** What `apply` keeps remembered and returns. */
  function Applied(txs: seq<Pending>, address: Address, utxos: seq<Utxo>): (seq<Pending>, seq<Utxo>) {
    var kept := Filter(txs, NotIn(Listed(utxos)));
    (kept, Filter(utxos, Unspent(Spent(kept))) + Filter(Outputs(kept), UnspentAt(address, Spent(kept))))
  }

  // ---------------------------------------------------------------- the class

  /** Every hash is remembered once, and outputs carry their transaction and position. */
  ghost predicate Remembered(txs: seq<Pending>) {
    && (forall i, j :: 0 <= i < j < |txs| ==> txs[i].hash != txs[j].hash)
    && (forall p :: p in txs ==> forall i :: 0 <= i < |p.outputs| ==> p.outputs[i].source == OutPoint(p.hash, i))
  }

  class PendingStore {
    var txs: seq<Pending>

    constructor ()
      ensures txs == [] && Remembered(txs)
    {
      txs := [];
    }

    /** A transaction that does not parse is ignored. */
    method Record(parsed: Option<Parsed>, now: int)
      requires Remembered(txs)
      modifies this
      ensures Remembered(txs)
      ensures parsed.None? ==> txs == old(txs)
      ensures parsed.Some? ==>
        var p := parsed.value;
        txs == Put(old(txs), Pending(p.hash, p.inputs, Numbered(p.hash, p.outputs), now + PENDING_TX_TTL_MS))
    {
      if parsed.Some? {
        var p := parsed.value;
        var entry := Pending(p.hash, p.inputs, Numbered(p.hash, p.outputs), now + PENDING_TX_TTL_MS);
        PutRemembered(txs, entry);
        txs := Put(txs, entry);
      }
    }

    method Prune(now: int)
      requires Remembered(txs)
      modifies this
      ensures Remembered(txs) && txs == Filter(old(txs), NotExpired(now))
    {
      hide Remembered, Filter;
      var all := txs;
      var live: seq<Pending> := [];
      assert Filter<Pending>([], NotExpired(now)) == [];
      for i := 0 to |all|
        invariant live == Filter(all[..i], NotExpired(now))
      {
        FilterAppend(all[..i], all[i], NotExpired(now));
        assert all[..i + 1] == all[..i] + [all[i]];
        if all[i].expiresAt > now {
          live := live + [all[i]];
        }
      }
      assert all[..|all|] == all;
      FilterRemembered(all, NotExpired(now));
      txs := live;
    }

    method SpentBy(output: OutPoint, now: int) returns (spender: Option<Hash>)
      requires Remembered(txs)
      modifies this
      ensures Remembered(txs) && txs == Filter(old(txs), NotExpired(now))
      ensures spender.None? <==> output !in Spent(txs)
      ensures spender.Some? ==> exists i :: 0 <= i < |txs| && txs[i].hash == spender.value && output in txs[i].inputs
                                            && forall j :: 0 <= j < i ==> output !in txs[j].inputs
    {
      Prune(now);
      for i := 0 to |txs|
        invariant forall j :: 0 <= j < i ==> output !in txs[j].inputs
      {
        if output in txs[i].inputs {
          assert txs[i] in txs;
          return Some(txs[i].hash);
        }
      }
      spender := None;
    }

    method Apply(address: Address, utxos: seq<Utxo>, now: int) returns (r: seq<Utxo>)
      requires Remembered(txs)
      modifies this
      ensures Remembered(txs)
      ensures (txs, r) == Applied(Filter(old(txs), NotExpired(now)), address, utxos)
    {
      Prune(now);
      if txs == [] {
        NothingPending(address, utxos);
        return utxos;
      }
      Forget(Listed(utxos));
      var spent := Spent(txs);
      r := Filter(utxos, Unspent(spent)) + Filter(Outputs(txs), UnspentAt(address, spent));
    }

    /** Crawled transactions are no longer pending. */
    method Forget(crawled: set<Hash>)
      requires Remembered(txs)
      modifies this
      ensures Remembered(txs) && txs == Filter(old(txs), NotIn(crawled))
    {
      hide Remembered, Filter;
      var all := txs;
      var kept: seq<Pending> := [];
      assert Filter<Pending>([], NotIn(crawled)) == [];
      for i := 0 to |all|
        invariant kept == Filter(all[..i], NotIn(crawled))
      {
        FilterAppend(all[..i], all[i], NotIn(crawled));
        assert all[..i + 1] == all[..i] + [all[i]];
        if all[i].hash !in crawled {
          kept := kept + [all[i]];
        }
      }
      assert all[..|all|] == all;
      FilterRemembered(all, NotIn(crawled));
      txs := kept;
    }
  }

  lemma NothingPending(address: Address, utxos: seq<Utxo>)
    ensures Applied([], address, utxos) == ([], utxos)
  {
    assert Filter<Pending>([], NotIn(Listed(utxos))) == [];
    assert Spent([]) == {};
    KeepAll(utxos, Unspent({}));
    assert Outputs([]) == [] && Filter<Utxo>([], UnspentAt(address, {})) == [];
    assert utxos + [] == utxos;
  }

  lemma {:induction false} FilterHashes(txs: seq<Pending>, keep: Pending -> bool)
    requires forall i, j :: 0 <= i < j < |txs| ==> txs[i].hash != txs[j].hash
    ensures forall i, j :: 0 <= i < j < |Filter(txs, keep)| ==> Filter(txs, keep)[i].hash != Filter(txs, keep)[j].hash
  {
    if txs != [] {
      var n := |txs| - 1;
      FilterHashes(txs[..n], keep);
      var front := Filter(txs[..n], keep);
      forall i | 0 <= i < |front|
        ensures front[i].hash != txs[n].hash
      {
        assert front[i] in txs[..n];
      }
    }
  }

  lemma FilterRemembered(txs: seq<Pending>, keep: Pending -> bool)
    requires Remembered(txs)
    ensures Remembered(Filter(txs, keep))
  {
    FilterHashes(txs, keep);
  }

  lemma {:induction false} PutRemembered(txs: seq<Pending>, p: Pending)
    requires Remembered(txs) && forall i :: 0 <= i < |p.outputs| ==> p.outputs[i].source == OutPoint(p.hash, i)
    ensures Remembered(Put(txs, p))
    ensures forall q :: q in Put(txs, p) <==> q == p || (q in txs && q.hash != p.hash)
  {
    if txs != [] {
      assert txs == [txs[0]] + txs[1..];
      if txs[0].hash != p.hash {
        PutRemembered(txs[1..], p);
        var rest := Put(txs[1..], p);
        forall i | 0 <= i < |rest|
          ensures rest[i].hash != txs[0].hash
        {
          assert rest[i] in rest;
        }
      }
    }
  }

  /** A hash already remembered keeps its place; a new one comes last. */
  lemma {:induction false} PutInPlace(txs: seq<Pending>, p: Pending, i: nat)
    requires i <= |txs| && (i < |txs| ==> txs[i].hash == p.hash) && forall j :: 0 <= j < i ==> txs[j].hash != p.hash
    ensures Put(txs, p) == txs[..i] + [p] + if i < |txs| then txs[i + 1..] else []
  {
    if i > 0 {
      PutInPlace(txs[1..], p, i - 1);
      assert txs[..i] == [txs[0]] + txs[1..][..i - 1];
      if i < |txs| {
        assert txs[1..][i..] == txs[i + 1..];
      }
    }
  }

  /** The overlay forgets the transactions with a listed output and keeps the others. */
  lemma ForgetsListed(txs: seq<Pending>, address: Address, utxos: seq<Utxo>, p: Pending)
    requires Remembered(txs)
    ensures Remembered(Applied(txs, address, utxos).0)
    ensures p in Applied(txs, address, utxos).0 <==> p in txs && forall u :: u in utxos ==> u.source.txHash != p.hash
  {
    FilterRemembered(txs, NotIn(Listed(utxos)));
  }

  lemma {:induction false} PutMember(txs: seq<Pending>, p: Pending)
    ensures p in Put(txs, p)
  {
    if txs != [] && txs[0].hash != p.hash {
      PutMember(txs[1..], p);
    }
  }

  /** A transaction is remembered for ten minutes after it was recorded, and not a millisecond longer. */
  lemma RememberedTenMinutes(txs: seq<Pending>, parsed: Parsed, recorded: int, now: int)
    ensures
      var p := Pending(parsed.hash, parsed.inputs, Numbered(parsed.hash, parsed.outputs), recorded + PENDING_TX_TTL_MS);
      p in Filter(Put(txs, p), NotExpired(now)) <==> now < recorded + 10 * 60 * 1000
  {
    PutMember(txs, Pending(parsed.hash, parsed.inputs, Numbered(parsed.hash, parsed.outputs), recorded + PENDING_TX_TTL_MS));
  }

  // ---------------------------------------------------------------- the simple thing: execute and project

  /** Executing a transaction takes its inputs out of the ledger and puts its outputs in. */
  function Execute(ledger: set<Utxo>, p: Pending): set<Utxo> {
    (set u | u in ledger && u.source !in p.inputs) + (set u | u in p.outputs)
  }

  function ExecuteAll(ledger: set<Utxo>, run: seq<Pending>): set<Utxo> {
    if run == [] then ledger else Execute(ExecuteAll(ledger, run[..|run| - 1]), run[|run| - 1])
  }

  function Project(ledger: set<Utxo>, address: Address): set<Utxo> {
    set u | u in ledger && u.address == address
  }

  /** No transaction comes before one whose outputs it spends. */
  ghost predicate DependencyOrder(run: seq<Pending>) {
    forall i, j :: 0 <= i <= j < |run| ==> forall o :: o in run[i].inputs ==> o.txHash != run[j].hash
  }

  /** Executing in dependency order leaves what the ledger and the transactions hold and none of them spends. */
  lemma {:induction false} ExecutedIs(ledger: set<Utxo>, run: seq<Pending>)
    requires DependencyOrder(run) && forall p, u :: p in run && u in p.outputs ==> u.source.txHash == p.hash
    ensures forall u :: u in ExecuteAll(ledger, run) <==> (u in ledger || u in Outputs(run)) && u.source !in Spent(run)
  {
    if run != [] {
      var n := |run| - 1;
      var front, last := run[..n], run[n];
      assert run == front + [last];
      ExecutedIs(ledger, front);
      forall u
        ensures u in ExecuteAll(ledger, run) <==> (u in ledger || u in Outputs(run)) && u.source !in Spent(run)
      {
        assert u.source in Spent(run) <==> u.source in Spent(front) || u.source in last.inputs;
        if u in last.outputs {
          assert last in run && u.source.txHash == last.hash;
          forall i | 0 <= i < |run|
            ensures u.source !in run[i].inputs
          {
          }
        }
      }
    }
  }

  // ---------------------------------------------------------------- refinement

  ghost predicate DistinctSources(utxos: seq<Utxo>) {
    forall i, j :: 0 <= i < j < |utxos| ==> utxos[i].source != utxos[j].source
  }

  /** The list is the ledger's view of the address. */
  ghost predicate IsView(utxos: seq<Utxo>, ledger: set<Utxo>, address: Address) {
    DistinctSources(utxos) && forall u :: u in utxos <==> u in Project(ledger, address)
  }

  /** The unspent outputs come from confirmed transactions, and what those spent is gone. */
  ghost predicate LedgerOk(ledger: set<Utxo>, confirmed: set<Hash>, txs: seq<Pending>) {
    && (forall u :: u in ledger ==> u.source.txHash in confirmed)
    && (forall p, o :: p in txs && p.hash in confirmed && o in p.inputs ==>
          o.txHash in confirmed && forall u :: u in ledger ==> u.source != o)
  }

  /** `run` lists the remembered transactions that are still unconfirmed, in an order that can be executed. */
  ghost predicate RunsUnconfirmed(run: seq<Pending>, txs: seq<Pending>, confirmed: set<Hash>) {
    DependencyOrder(run) && forall p :: p in run <==> p in txs && p.hash !in confirmed
  }

  ghost predicate SameSet(utxos: seq<Utxo>, s: set<Utxo>) {
    forall u :: u in utxos <==> u in s
  }

  /** A remembered transaction none of whose outputs is listed spends the output. */
  ghost predicate SpentUnlisted(txs: seq<Pending>, listed: set<Hash>, o: OutPoint) {
    exists q :: q in txs && q.hash !in listed && o in q.inputs
  }

  /**
   Every output at the address of a remembered, confirmed transaction is spent by a remembered one, unless
   the list names an output of that transaction.
   */
  ghost predicate NoStaleOutput(txs: seq<Pending>, listed: set<Hash>, confirmed: set<Hash>, address: Address) {
    forall p, u :: p in txs && p.hash in confirmed && p.hash !in listed && u in p.outputs && u.address == address ==>
      SpentUnlisted(txs, listed, u.source)
  }

  lemma OutputOf(txs: seq<Pending>, u: Utxo) returns (p: Pending)
    requires Remembered(txs) && u in Outputs(txs)
    ensures p in txs && u in p.outputs && u.source.txHash == p.hash
  {
    p :| p in txs && u in p.outputs;
  }

  lemma OutputHash(p: Pending, txs: seq<Pending>, u: Utxo)
    requires Remembered(txs) && p in txs && u in p.outputs
    ensures u.source.txHash == p.hash
  {
  }

  lemma OutputsUnconfirmed(kept: seq<Pending>, confirmed: set<Hash>, run: seq<Pending>)
    requires Remembered(kept) && RunsUnconfirmed(run, kept, confirmed)
    ensures forall u :: u in Outputs(run) ==> u.source.txHash !in confirmed
  {
    forall u | u in Outputs(run)
      ensures u.source.txHash !in confirmed
    {
      var q :| q in run && u in q.outputs;
      OutputHash(q, kept, u);
    }
  }

  lemma SpentByUnconfirmed(kept: seq<Pending>, ledger: set<Utxo>, confirmed: set<Hash>, run: seq<Pending>, u: Utxo)
    requires Remembered(kept) && LedgerOk(ledger, confirmed, kept) && RunsUnconfirmed(run, kept, confirmed)
    requires u in ledger || u in Outputs(run)
    ensures u.source in Spent(kept) <==> u.source in Spent(run)
  {
    OutputsUnconfirmed(kept, confirmed, run);
    if u.source in Spent(run) {
      var p :| p in run && u.source in p.inputs;
      assert p in kept;
    }
    if u.source in Spent(kept) {
      var p :| p in kept && u.source in p.inputs;
      assert p.hash !in confirmed;
      assert p in run;
    }
  }

  /** Outputs of a remembered but confirmed transaction at the address are neither in the ledger nor executed. */
  lemma StaleNotExecuted(kept: seq<Pending>, ledger: set<Utxo>, confirmed: set<Hash>, address: Address, utxos: seq<Utxo>,
                         run: seq<Pending>, p: Pending, u: Utxo)
    requires Remembered(kept) && IsView(utxos, ledger, address) && RunsUnconfirmed(run, kept, confirmed)
    requires p in kept && p.hash in confirmed && p.hash !in Listed(utxos) && u in p.outputs && u.address == address
    ensures u !in ledger && u !in Outputs(run)
  {
    OutputsUnconfirmed(kept, confirmed, run);
    OutputHash(p, kept, u);
    assert u in ledger ==> u in Project(ledger, address);
    assert u in utxos ==> u.source.txHash in Listed(utxos);
  }

  /** An output the overlay shows although its transaction is confirmed and the ledger no longer holds it. */
  ghost predicate Stale(kept: seq<Pending>, confirmed: set<Hash>, address: Address, u: Utxo) {
    u.address == address && u.source !in Spent(kept) && exists p :: p in kept && p.hash in confirmed && u in p.outputs
  }

  lemma KeptFacts(txs: seq<Pending>, ledger: set<Utxo>, confirmed: set<Hash>, utxos: seq<Utxo>)
    requires Remembered(txs) && LedgerOk(ledger, confirmed, txs)
    ensures
      var kept := Filter(txs, NotIn(Listed(utxos)));
      Remembered(kept) && LedgerOk(ledger, confirmed, kept) && forall p :: p in kept ==> p.hash !in Listed(utxos)
  {
    FilterRemembered(txs, NotIn(Listed(utxos)));
  }

  /** The hashes of the view are those of the ledger, so no unconfirmed transaction is forgotten. */
  lemma UnconfirmedKept(txs: seq<Pending>, ledger: set<Utxo>, confirmed: set<Hash>, address: Address, utxos: seq<Utxo>, run: seq<Pending>)
    requires IsView(utxos, ledger, address) && LedgerOk(ledger, confirmed, txs) && RunsUnconfirmed(run, txs, confirmed)
    ensures RunsUnconfirmed(run, Applied(txs, address, utxos).0, confirmed)
  {
    assert forall u :: u in utxos ==> u in ledger;
  }

  /** What is kept spends what the transactions without a listed output spend. */
  lemma KeptSpends(txs: seq<Pending>, listed: set<Hash>, o: OutPoint)
    ensures o in Spent(Filter(txs, NotIn(listed))) <==> SpentUnlisted(txs, listed, o)
  {
    var kept := Filter(txs, NotIn(listed));
    if q :| q in txs && q.hash !in listed && o in q.inputs {
      assert q in kept;
    }
  }

  /** One output is in the overlay exactly when executing would leave it there, or it is a stale one. */
  lemma OverlayMember(txs: seq<Pending>, ledger: set<Utxo>, confirmed: set<Hash>, address: Address, utxos: seq<Utxo>,
                      run: seq<Pending>, u: Utxo)
    requires Remembered(txs) && IsView(utxos, ledger, address) && LedgerOk(ledger, confirmed, txs)
    requires RunsUnconfirmed(run, Applied(txs, address, utxos).0, confirmed)
    ensures
      var (kept, r) := Applied(txs, address, utxos);
      && (u in r <==> u in Project(ExecuteAll(ledger, run), address) || Stale(kept, confirmed, address, u))
      && (Stale(kept, confirmed, address, u) ==> u !in Project(ExecuteAll(ledger, run), address))
  {
    var (kept, r) := Applied(txs, address, utxos);
    KeptFacts(txs, ledger, confirmed, utxos);
    forall p, x | p in run && x in p.outputs
      ensures x.source.txHash == p.hash
    {
      OutputHash(p, kept, x);
    }
    ExecutedIs(ledger, run);
    hide Filter, LedgerOk, DependencyOrder;
    if u in ledger || u in Outputs(run) {
      SpentByUnconfirmed(kept, ledger, confirmed, run, u);
    }
    if Stale(kept, confirmed, address, u) {
      var p :| p in kept && p.hash in confirmed && u in p.outputs;
      StaleNotExecuted(kept, ledger, confirmed, address, utxos, run, p, u);
    }
    if u in Outputs(kept) {
      var p := OutputOf(kept, u);
      assert p.hash !in confirmed ==> p in run;
    }
  }

  /**
   The overlay is what executing the unconfirmed transactions in any possible order and projecting on the
   address gives, exactly when no remembered transaction is confirmed with an output the ledger already lost.
   */
  lemma OverlayRefinesIff(txs: seq<Pending>, ledger: set<Utxo>, confirmed: set<Hash>, address: Address, utxos: seq<Utxo>, run: seq<Pending>)
    requires Remembered(txs) && IsView(utxos, ledger, address) && LedgerOk(ledger, confirmed, txs)
    requires RunsUnconfirmed(run, txs, confirmed)
    ensures SameSet(Applied(txs, address, utxos).1, Project(ExecuteAll(ledger, run), address))
            <==> NoStaleOutput(txs, Listed(utxos), confirmed, address)
  {
    var (kept, r) := Applied(txs, address, utxos);
    var listed := Listed(utxos);
    UnconfirmedKept(txs, ledger, confirmed, address, utxos, run);
    forall o
      ensures o in Spent(kept) <==> SpentUnlisted(txs, listed, o)
    {
      KeptSpends(txs, listed, o);
    }
    assert forall p :: p in kept <==> p in txs && p.hash !in listed;
    var expected := Project(ExecuteAll(ledger, run), address);
    forall u
      ensures u in r <==> u in expected || Stale(kept, confirmed, address, u)
      ensures Stale(kept, confirmed, address, u) ==> u !in expected
    {
      OverlayMember(txs, ledger, confirmed, address, utxos, run, u);
    }
    hide Applied, Filter, Project, ExecuteAll, RunsUnconfirmed, LedgerOk, IsView, Spent, SpentUnlisted, Listed;
    if NoStaleOutput(txs, listed, confirmed, address) {
      assert forall u :: !Stale(kept, confirmed, address, u);
    }
    if SameSet(r, expected) {
      forall p, u | p in txs && p.hash in confirmed && p.hash !in listed && u in p.outputs && u.address == address
        ensures SpentUnlisted(txs, listed, u.source)
      {
        assert p in kept;
        assert Stale(kept, confirmed, address, u) ==> u in r && u !in expected;
      }
    }
  }

  /** With every remembered transaction either unconfirmed or listed, the overlay is exactly the executed view. */
  lemma OverlayRefines(txs: seq<Pending>, ledger: set<Utxo>, confirmed: set<Hash>, address: Address, utxos: seq<Utxo>, run: seq<Pending>)
    requires Remembered(txs) && IsView(utxos, ledger, address) && LedgerOk(ledger, confirmed, txs)
    requires forall p :: p in txs && p.hash in confirmed ==> p.hash in Listed(utxos)
    requires RunsUnconfirmed(run, txs, confirmed)
    ensures SameSet(Applied(txs, address, utxos).1, Project(ExecuteAll(ledger, run), address))
  {
    OverlayRefinesIff(txs, ledger, confirmed, address, utxos, run);
  }

  // ---------------------------------------------------------------- no duplicates, nothing spent

  lemma {:induction false} FilterSources(utxos: seq<Utxo>, keep: Utxo -> bool)
    requires DistinctSources(utxos)
    ensures DistinctSources(Filter(utxos, keep))
  {
    if utxos != [] {
      var n := |utxos| - 1;
      FilterSources(utxos[..n], keep);
      var front := Filter(utxos[..n], keep);
      forall i | 0 <= i < |front|
        ensures front[i].source != utxos[n].source
      {
        assert front[i] in utxos[..n];
      }
    }
  }

  lemma {:induction false} OutputSources(txs: seq<Pending>)
    requires Remembered(txs)
    ensures DistinctSources(Outputs(txs))
  {
    if txs != [] {
      var n := |txs| - 1;
      OutputSources(txs[..n]);
      var front := Outputs(txs[..n]);
      forall i | 0 <= i < |front|
        ensures front[i].source.txHash != txs[n].hash
      {
        assert front[i] in front;
        var p := OutputOf(txs[..n], front[i]);
      }
      assert txs[n] in txs;
    }
  }

  /** The overlay lists every output once and none that a remembered transaction without a listed output spends. */
  lemma OverlayIsClean(txs: seq<Pending>, ledger: set<Utxo>, address: Address, utxos: seq<Utxo>)
    requires Remembered(txs) && IsView(utxos, ledger, address)
    ensures DistinctSources(Applied(txs, address, utxos).1)
    ensures forall u :: u in Applied(txs, address, utxos).1 ==> !SpentUnlisted(txs, Listed(utxos), u.source)
  {
    forall o
      ensures o in Spent(Filter(txs, NotIn(Listed(utxos)))) <==> SpentUnlisted(txs, Listed(utxos), o)
    {
      KeptSpends(txs, Listed(utxos), o);
    }
    var kept := Filter(txs, NotIn(Listed(utxos)));
    FilterRemembered(txs, NotIn(Listed(utxos)));
    OutputSources(kept);
    FilterSources(utxos, Unspent(Spent(kept)));
    FilterSources(Outputs(kept), UnspentAt(address, Spent(kept)));
    var a, b := Filter(utxos, Unspent(Spent(kept))), Filter(Outputs(kept), UnspentAt(address, Spent(kept)));
    forall i, j | 0 <= i < |a| && 0 <= j < |b|
      ensures a[i].source != b[j].source
    {
      assert a[i] in utxos && b[j] in Outputs(kept);
      var p := OutputOf(kept, b[j]);
      assert a[i].source.txHash in Listed(utxos);
    }
    hide Filter;
  }

  /** What a filter keeps stays in order. */
  lemma {:induction false} FilterOrder<T(!new)>(s: seq<T>, keep: T -> bool, a: nat, b: nat)
    requires a < b < |Filter(s, keep)|
    ensures exists i, j :: 0 <= i < j < |s| && s[i] == Filter(s, keep)[a] && s[j] == Filter(s, keep)[b]
  {
    var n := |s| - 1;
    var front := Filter(s[..n], keep);
    if b < |front| {
      FilterOrder(s[..n], keep, a, b);
      var i, j :| 0 <= i < j < n && s[..n][i] == front[a] && s[..n][j] == front[b];
      assert s[i] == Filter(s, keep)[a] && s[j] == Filter(s, keep)[b];
    } else {
      assert front[a] in s[..n];
      var i :| 0 <= i < n && s[..n][i] == front[a];
      assert s[i] == Filter(s, keep)[a] && s[n] == Filter(s, keep)[b];
    }
  }

  /** Output `y` of transaction `q` comes after output `x` of transaction `p`. */
  ghost predicate Recorded(txs: seq<Pending>, u: Utxo, v: Utxo) {
    exists p, x, q, y ::
      && 0 <= p <= q < |txs| && 0 <= x < |txs[p].outputs| && 0 <= y < |txs[q].outputs| && (p == q ==> x < y)
      && txs[p].outputs[x] == u && txs[q].outputs[y] == v
  }

  lemma {:induction false} OutputsOrder(txs: seq<Pending>, a: nat, b: nat)
    requires a < b < |Outputs(txs)|
    ensures Recorded(txs, Outputs(txs)[a], Outputs(txs)[b])
  {
    var n := |txs| - 1;
    var front := Outputs(txs[..n]);
    if b < |front| {
      OutputsOrder(txs[..n], a, b);
      var p, x, q, y :| 0 <= p <= q < n && 0 <= x < |txs[p].outputs| && 0 <= y < |txs[q].outputs| && (p == q ==> x < y)
                        && txs[p].outputs[x] == front[a] && txs[q].outputs[y] == front[b];
    } else if a < |front| {
      assert front[a] in front;
      var p :| p in txs[..n] && front[a] in p.outputs;
      var i :| 0 <= i < n && txs[i] == p;
      var x :| 0 <= x < |p.outputs| && p.outputs[x] == front[a];
      assert txs[n].outputs[b - |front|] == Outputs(txs)[b];
    } else {
      assert txs[n].outputs[a - |front|] == Outputs(txs)[a] && txs[n].outputs[b - |front|] == Outputs(txs)[b];
    }
  }

  /** The overlay lists what is left of the view first, in its order, then pending outputs in the order recorded. */
  lemma OverlayOrder(txs: seq<Pending>, address: Address, utxos: seq<Utxo>, a: nat, b: nat)
    requires a < b < |Applied(txs, address, utxos).1|
    ensures
      var (kept, r) := Applied(txs, address, utxos);
      || (exists i, j :: 0 <= i < j < |utxos| && utxos[i] == r[a] && utxos[j] == r[b])
      || (r[a] in utxos && r[b] in Outputs(kept))
      || Recorded(kept, r[a], r[b])
  {
    var kept := Filter(txs, NotIn(Listed(utxos)));
    var left, added := Filter(utxos, Unspent(Spent(kept))), Filter(Outputs(kept), UnspentAt(address, Spent(kept)));
    var r := Applied(txs, address, utxos).1;
    assert r == left + added;
    if b < |left| {
      FilterOrder(utxos, Unspent(Spent(kept)), a, b);
      assert r[a] == left[a] && r[b] == left[b];
    } else if a < |left| {
      assert left[a] in left && added[b - |left|] in added;
    } else {
      FilterOrder(Outputs(kept), UnspentAt(address, Spent(kept)), a - |left|, b - |left|);
      var i, j :| 0 <= i < j < |Outputs(kept)| && Outputs(kept)[i] == added[a - |left|] && Outputs(kept)[j] == added[b - |left|];
      OutputsOrder(kept, i, j);
    }
  }

  lemma SpentOfOne(p: Pending, o: OutPoint)
    requires p.inputs == [o]
    ensures Spent([p]) == {o}
  {
    assert p in [p] && o in p.inputs;
  }

  lemma OutputsOfOne(p: Pending)
    ensures Outputs([p]) == p.outputs
  {
    assert [p][..0] == [] && Outputs([]) == [];
  }

  lemma FilterTwo(p: Pending, q: Pending, keep: Pending -> bool)
    requires keep(p) && !keep(q)
    ensures Filter([p, q], keep) == [p]
  {
    FilterAppend([p], q, keep);
    KeepAll([p], keep);
    assert [p] + [q] == [p, q];
  }

  /** The two transactions of a chain, each remembered with its one output. */
  ghost predicate IsChain(p: Pending, q: Pending, input: OutPoint, change: Utxo, last: Utxo, address: Address) {
    && p.inputs == [input] && p.outputs == [change] && change.source == OutPoint(p.hash, 0) && change.address == address
    && q.inputs == [change.source] && q.outputs == [last] && last.source == OutPoint(q.hash, 0) && last.address == address
    && p.hash != q.hash && input.txHash !in {p.hash, q.hash}
  }

  /** With the chain confirmed, the ledger's view of the address is the last output alone. */
  lemma ConfirmedChainView(p: Pending, q: Pending, input: OutPoint, change: Utxo, last: Utxo, address: Address)
    requires IsChain(p, q, input, change, last, address)
    ensures Remembered([p, q]) && IsView([last], {last}, address)
    ensures LedgerOk({last}, {input.txHash, p.hash, q.hash}, [p, q])
    ensures change !in Project(ExecuteAll({last}, []), address)
  {
    forall x, o | x in [p, q] && o in x.inputs
      ensures o == input || o == change.source
    {
    }
  }

  /**
   A chain of two own transactions confirmed between two calls: only the second is forgotten, and the output
   it spent comes back.
   */
  lemma ConfirmedChainLeavesStaleOutput(p: Pending, q: Pending, input: OutPoint, change: Utxo, last: Utxo, address: Address)
    requires IsChain(p, q, input, change, last, address)
    ensures Applied([p, q], address, [last]).1 == [last, change]
  {
    assert Listed([last]) == {q.hash};
    FilterTwo(p, q, NotIn({q.hash}));
    SpentOfOne(p, input);
    OutputsOfOne(p);
    KeepAll([last], Unspent({input}));
    KeepAll([change], UnspentAt(address, {input}));
    hide Filter, Outputs, Spent;
    assert [last] + [change] == [last, change];
  }
}
