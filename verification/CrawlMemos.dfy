/**
 What the indexer remembers between block transactions. A transaction may fail or roll back after any step, so
 memory updates of an attempt wait for its commit, and a verdict on the ledger anchor survives until one.
 */
module CrawlMemos {
  import opened Options
  import opened Chain

  const ASSET_MEMO_CAP := 200000

  /** The block an imported UTxO set describes; `id` is the identity of the object. */
  datatype Anchor = Anchor(id: nat, slot: nat, hash: Hash)

  datatype Cursor = Cursor(lastSlot: nat, lastHash: Hash, appliedSlot: Option<nat>)

  datatype Status = Active | Invalid(reason: string)

  /** Stored facts: asset rows, epoch rows, anchors found on the crawled chain, and the blocks applied to the ledger. */
  datatype Db = Db(assets: set<Unit>, epochs: set<nat>, checked: set<Anchor>, cursor: Option<Cursor>, status: Status, ledger: seq<nat>)

  /** An update of the memory that waits for the commit. */
  datatype Memo = EpochsWritten(rows: set<nat>) | AnchorVerified(anchor: Anchor) | AssetsSeen(units: seq<Unit>)

  /** `assets` lists the remembered units oldest first. */
  datatype Memory = Memory(anchor: Option<Anchor>, verified: bool, invalidation: Option<string>,
                           assets: seq<Unit>, epochs: set<nat>, pending: seq<Memo>)

  datatype Block = Block(slot: nat, hash: Hash, units: seq<Unit>, epochRows: set<nat>)

  /** `isAsset` tells the units that get a row. */
  datatype Settings = Settings(utxoSet: bool, catalogue: bool, isAsset: Unit -> bool)

  // ---------------------------------------------------------------- memory

  function NoteAsset(memo: seq<Unit>, u: Unit): seq<Unit> {
    if u in memo then memo
    else if |memo| >= ASSET_MEMO_CAP then memo[1..] + [u]
    else memo + [u]
  }

  function NoteAll(memo: seq<Unit>, units: seq<Unit>): seq<Unit> {
    if units == [] then memo else NoteAsset(NoteAll(memo, units[..|units| - 1]), units[|units| - 1])
  }

  function Apply(m: Memory, memo: Memo): Memory {
    match memo
    case EpochsWritten(rows) => m.(epochs := m.epochs + rows)
    case AnchorVerified(a) => if m.anchor == Some(a) then m.(verified := true) else m
    case AssetsSeen(units) => m.(assets := NoteAll(m.assets, units))
  }

  function ApplyAll(m: Memory, memos: seq<Memo>): Memory {
    if memos == [] then m else Apply(ApplyAll(m, memos[..|memos| - 1]), memos[|memos| - 1])
  }

  function Confirmed(m: Memory): Memory {
    ApplyAll(m.(pending := []), m.pending)
  }

  /** A pending invalidation is handed out once, and drops the anchor. */
  function Taken(m: Memory): Memory {
    if m.invalidation.Some? then m.(invalidation := None, anchor := None, verified := false) else m
  }

  function WithAnchor(m: Memory, a: Option<Anchor>): Memory {
    m.(anchor := a, verified := false, invalidation := None)
  }

  // ---------------------------------------------------------------- the steps of one attempt

  /** What an attempt decides about the ledger before it writes anything else. */
  datatype Decision = NotDue | Prior(reason: string) | OnChain | OffChain

  datatype Attempt = Attempt(mem: Memory, work: Db, decision: Decision)

  predicate IsDue(s: Settings, m: Memory, b: Block) {
    s.utxoSet && m.anchor.Some? && b.slot > m.anchor.value.slot
  }

  function Begin(m: Memory, db: Db): Attempt {
    Attempt(m.(pending := []), db, NotDue)
  }

  function WriteEpochs(a: Attempt, b: Block): Attempt {
    var rows := b.epochRows - a.mem.epochs;
    if rows == {} then a
    else a.(mem := a.mem.(pending := a.mem.pending + [EpochsWritten(rows)]), work := a.work.(epochs := a.work.epochs + rows))
  }

  /** The cursor has applied a block of the set, or stands on the anchor. */
  predicate Follows(cursor: Option<Cursor>, anchor: Anchor) {
    cursor.Some? && (cursor.value.appliedSlot.Some? || (cursor.value.lastSlot == anchor.slot && cursor.value.lastHash == anchor.hash))
  }

  function Reason(cursor: Option<Cursor>): string {
    if cursor.Some? then "the anchor is not the block the crawler followed" else "no crawler cursor to verify the anchor against"
  }

  function Decide(a: Attempt, s: Settings, b: Block): Attempt {
    if !IsDue(s, a.mem, b) then a.(decision := NotDue)
    else if a.mem.invalidation.Some? then a.(decision := Prior(a.mem.invalidation.value))
    else if a.mem.verified then a.(decision := OnChain)
    else
      var anchor := a.mem.anchor.value;
      if Follows(a.work.cursor, anchor)
      then Attempt(a.mem.(pending := a.mem.pending + [AnchorVerified(anchor)]), a.work.(checked := a.work.checked + {anchor}), OnChain)
      else Attempt(a.mem.(invalidation := Some(Reason(a.work.cursor))), a.work.(status := Invalid(Reason(a.work.cursor))), OffChain)
  }

  function WriteLedger(a: Attempt, b: Block): Attempt {
    match a.decision
    case Prior(reason) => a.(work := a.work.(status := Invalid(reason)))
    case OnChain => a.(work := a.work.(ledger := a.work.ledger + [b.slot]))
    case _ => a
  }

  function UnitsNotIn(units: seq<Unit>, known: set<Unit>): seq<Unit> {
    if units == [] then [] else
      var front := UnitsNotIn(units[..|units| - 1], known);
      var last := units[|units| - 1];
      if last in known then front else front + [last]
  }

  function UnitsIn(units: seq<Unit>, known: set<Unit>): seq<Unit> {
    if units == [] then [] else
      var front := UnitsIn(units[..|units| - 1], known);
      var last := units[|units| - 1];
      if last in known then front + [last] else front
  }

  function Elements(units: seq<Unit>): set<Unit> {
    set u | u in units
  }

  /** Bare rows for the units that have none; remembered units are not looked up. */
  function WriteAssets(a: Attempt, s: Settings, b: Block): Attempt {
    if !s.catalogue then a else
      var unknown := UnitsNotIn(b.units, Elements(a.mem.assets));
      var missing := UnitsNotIn(unknown, a.work.assets);
      var mem := a.mem.(assets := NoteAll(a.mem.assets, UnitsIn(unknown, a.work.assets)));
      if missing == [] then a.(mem := mem)
      else Attempt(mem.(pending := mem.pending + [AssetsSeen(missing)]),
                   a.work.(assets := a.work.assets + set u | u in missing && s.isAsset(u)), a.decision)
  }

  /** An asset step that fails after `looked` of its lookups: the rows those found stay remembered. */
  function LookUpAssets(a: Attempt, s: Settings, b: Block, looked: nat): Attempt {
    if !s.catalogue then a else
      var unknown := UnitsNotIn(b.units, Elements(a.mem.assets));
      var seen := UnitsIn(unknown[..if looked < |unknown| then looked else |unknown|], a.work.assets);
      a.(mem := a.mem.(assets := NoteAll(a.mem.assets, seen)))
  }

  /** The attempt after its first `n` steps; with four it is complete. */
  function Upto(n: nat, m: Memory, db: Db, s: Settings, b: Block): Attempt
    requires n <= 4
  {
    if n == 0 then Begin(m, db)
    else
      var a := Upto(n - 1, m, db, s, b);
      if n == 1 then WriteEpochs(a, b)
      else if n == 2 then Decide(a, s, b)
      else if n == 3 then WriteLedger(a, b)
      else WriteAssets(a, s, b)
  }

  /** The cursor moves with the block; it is marked as applied while no invalidation is pending. */
  function Marks(s: Settings, m: Memory, b: Block): bool {
    IsDue(s, m, b) && m.invalidation.None?
  }

  function Advanced(a: Attempt, s: Settings, b: Block): Db {
    var applied := if a.work.cursor.Some? then a.work.cursor.value.appliedSlot else None;
    a.work.(cursor := Some(Cursor(b.slot, b.hash, if Marks(s, a.mem, b) then Some(b.slot) else applied)))
  }

  // ---------------------------------------------------------------- the class

  class Indexer {
    const settings: Settings
    var mem: Memory

    constructor (settings: Settings)
      ensures this.settings == settings && mem == Memory(None, false, None, [], {}, [])
    {
      this.settings := settings;
      mem := Memory(None, false, None, [], {}, []);
    }

    method SetUtxoAnchor(a: Option<Anchor>)
      modifies this
      ensures mem == WithAnchor(old(mem), a)
    {
      mem := mem.(anchor := a);
      mem := mem.(verified := false);
      mem := mem.(invalidation := None);
    }

    method NoteAssetSeen(u: Unit)
      modifies this
      ensures mem == old(mem).(assets := NoteAsset(old(mem.assets), u))
    {
      if u in mem.assets {
        return;
      }
      if |mem.assets| >= ASSET_MEMO_CAP {
        mem := mem.(assets := mem.assets[1..]);
      }
      mem := mem.(assets := mem.assets + [u]);
    }

    method NoteAssetsSeen(units: seq<Unit>)
      modifies this
      ensures mem == old(mem).(assets := NoteAll(old(mem.assets), units))
    {
      for i := 0 to |units|
        invariant mem == old(mem).(assets := NoteAll(old(mem.assets), units[..i]))
      {
        NoteAssetSeen(units[i]);
        assert units[..i + 1][..i] == units[..i];
      }
      assert units[..|units|] == units;
    }

    /** The memo updates of the transaction that just committed. */
    method ConfirmBlockCommit()
      modifies this
      ensures mem == Confirmed(old(mem))
    {
      var pending := mem.pending;
      mem := mem.(pending := []);
      ghost var before := mem;
      for i := 0 to |pending|
        invariant mem == ApplyAll(before, pending[..i])
      {
        assert pending[..i + 1][..i] == pending[..i];
        match pending[i] {
          case EpochsWritten(rows) => mem := mem.(epochs := mem.epochs + rows);
          case AnchorVerified(a) =>
            if mem.anchor == Some(a) {
              mem := mem.(verified := true);
            }
          case AssetsSeen(units) => NoteAssetsSeen(units);
        }
      }
      assert pending[..|pending|] == pending;
    }

    method TakeLedgerInvalidation() returns (reason: Option<string>)
      modifies this
      ensures reason == old(mem.invalidation) && mem == Taken(old(mem))
    {
      reason := mem.invalidation;
      if reason.Some? {
        mem := mem.(invalidation := None);
        mem := mem.(anchor := None, verified := false);
      }
    }

    method GetUtxoAnchor() returns (a: Option<Anchor>)
      ensures a == if settings.utxoSet && mem.invalidation.None? then mem.anchor else None
    {
      a := if settings.utxoSet && mem.invalidation.None? then mem.anchor else None;
    }

    method VerifyUtxoAnchor(db: Db, anchor: Anchor) returns (work: Db, ok: bool)
      modifies this
      ensures ok == Follows(db.cursor, anchor)
      ensures ok ==> work == db && mem == old(mem)
      ensures !ok ==> work == db.(status := Invalid(Reason(db.cursor))) && mem == old(mem).(invalidation := Some(Reason(db.cursor)))
    {
      work := db;
      if db.cursor.Some? && db.cursor.value.appliedSlot.Some? {
        return work, true;
      }
      if db.cursor.Some? && db.cursor.value.lastSlot == anchor.slot && db.cursor.value.lastHash == anchor.hash {
        return work, true;
      }
      var reason := Reason(db.cursor);
      work := db.(status := Invalid(reason));
      mem := mem.(invalidation := Some(reason));
      ok := false;
    }

    /** Looks the unknown units up, remembers those found, and writes rows for the others. */
    method EnsureAssetRows(db: Db, units: seq<Unit>) returns (work: Db)
      modifies this
      ensures
        var a := WriteAssets(Attempt(old(mem), db, NotDue), settings, Block(0, "", units, {}));
        mem == a.mem && work == a.work
    {
      work := db;
      if !settings.catalogue {
        return;
      }
      var unknown := UnitsNotIn(units, Elements(mem.assets));
      ghost var start := mem;
      var missing: seq<Unit> := [];
      for i := 0 to |unknown|
        invariant missing == UnitsNotIn(unknown[..i], db.assets)
        invariant mem == start.(assets := NoteAll(start.assets, UnitsIn(unknown[..i], db.assets)))
      {
        ghost var seen := UnitsIn(unknown[..i], db.assets);
        assert unknown[..i + 1][..i] == unknown[..i];
        if unknown[i] in db.assets {
          NoteAssetSeen(unknown[i]);
          assert (seen + [unknown[i]])[..|seen|] == seen;
        } else {
          missing := missing + [unknown[i]];
        }
      }
      assert unknown[..|unknown|] == unknown;
      if missing == [] {
        return;
      }
      work := db.(assets := db.assets + set u | u in missing && settings.isAsset(u));
      mem := mem.(pending := mem.pending + [AssetsSeen(missing)]);
    }

    /** Whether the block belongs to the ledger, and whether the anchor is on the crawled chain. */
    method DecideLedger(db: Db, b: Block) returns (work: Db, decision: Decision)
      modifies this
      ensures var a := Decide(Attempt(old(mem), db, NotDue), settings, b); mem == a.mem && work == a.work && decision == a.decision
    {
      work := db;
      if !settings.utxoSet || mem.anchor.None? || b.slot <= mem.anchor.value.slot {
        return work, NotDue;
      }
      if mem.invalidation.Some? {
        return work, Prior(mem.invalidation.value);
      }
      if mem.verified {
        return work, OnChain;
      }
      var anchor := mem.anchor.value;
      var ok;
      work, ok := VerifyUtxoAnchor(work, anchor);
      if !ok {
        return work, OffChain;
      }
      mem := mem.(pending := mem.pending + [AnchorVerified(anchor)]);
      work := work.(checked := work.checked + {anchor});
      decision := OnChain;
    }

    /** One complete attempt inside the caller's transaction. */
    method IndexBlockFull(db: Db, b: Block) returns (work: Db)
      modifies this
      ensures var a := Upto(4, old(mem), db, settings, b); mem == a.mem && work == a.work
    {
      hide Decide, UnitsNotIn, UnitsIn, Elements, NoteAll;
      ghost var m := mem;
      mem := mem.(pending := []);
      work := db;
      var rows := b.epochRows - mem.epochs;
      if rows != {} {
        work := work.(epochs := work.epochs + rows);
        mem := mem.(pending := mem.pending + [EpochsWritten(rows)]);
      }
      assert Upto(1, m, db, settings, b) == Attempt(mem, work, NotDue);
      var decision;
      work, decision := DecideLedger(work, b);
      assert Upto(2, m, db, settings, b) == Attempt(mem, work, decision);
      match decision {
        case Prior(reason) => work := work.(status := Invalid(reason));
        case OnChain => work := work.(ledger := work.ledger + [b.slot]);
        case _ =>
      }
      assert Upto(3, m, db, settings, b) == Attempt(mem, work, decision);
      work := EnsureAssetRows(work, b.units);
    }
  }

  // ---------------------------------------------------------------- runs

  /**
   `tx` is a complete attempt awaiting its commit; `judged` remembers a verdict since the anchor was last set.
   `stood` collects the blocks the committed cursor was on; `clean` and `since` tell whether no block of a set
   had been applied when the anchor was set, and how many had been written to the ledger.
   */
  datatype State = State(db: Db, mem: Memory, tx: Option<Db>, judged: bool, stood: set<(nat, Hash)>, clean: bool, since: nat)

  /** An attempt may end after any step, or between the asset lookups of the last; only a complete one can commit. */
  datatype Event = Try(block: Block, steps: nat) | TryLookups(block: Block, looked: nat) | Commit | Rollback | SetAnchor(anchor: Option<Anchor>)

  predicate Enabled(st: State, e: Event) {
    match e
    case Try(_, steps) => st.tx.None? && steps <= 4
    case TryLookups(_, _) => st.tx.None?
    case Commit => st.tx.Some?
    case Rollback => st.tx.Some?
    case SetAnchor(_) => true
  }

  function Next(st: State, e: Event, s: Settings): State
    requires Enabled(st, e)
  {
    match e
    case Try(b, steps) =>
      var a := Upto(steps, st.mem, st.db, s, b);
      st.(mem := a.mem, tx := if steps == 4 then Some(Advanced(a, s, b)) else None, judged := st.judged || a.mem.invalidation.Some?)
    case TryLookups(b, looked) =>
      var a := LookUpAssets(Upto(3, st.mem, st.db, s, b), s, b, looked);
      st.(mem := a.mem, tx := None, judged := st.judged || a.mem.invalidation.Some?)
    case Commit =>
      st.(db := st.tx.value, mem := Taken(Confirmed(st.mem)), tx := None, stood := st.stood + Position(st.tx.value))
    case Rollback => st.(tx := None)
    case SetAnchor(anchor) =>
      st.(mem := WithAnchor(st.mem, anchor), judged := false, since := |st.db.ledger|,
          clean := NothingApplied(st.db) && (st.tx.Some? ==> NothingApplied(st.tx.value)))
  }

  /** The block the cursor is on. */
  function Position(db: Db): set<(nat, Hash)> {
    if db.cursor.Some? then {(db.cursor.value.lastSlot, db.cursor.value.lastHash)} else {}
  }

  predicate NothingApplied(db: Db) {
    db.cursor.Some? ==> db.cursor.value.appliedSlot.None?
  }

  /** A remembered unit has its row, or is one that never gets a row. */
  predicate UnitsStored(units: seq<Unit>, db: Db, s: Settings) {
    forall u :: u in units ==> u in db.assets || !s.isAsset(u)
  }

  /** The memory only holds facts of the database. */
  predicate MemoryOk(m: Memory, db: Db, s: Settings) {
    && UnitsStored(m.assets, db, s)
    && m.epochs <= db.epochs
    && (m.verified ==> m.anchor.Some? && m.anchor.value in db.checked)
  }

  predicate MemoOk(memo: Memo, work: Db, s: Settings) {
    match memo
    case EpochsWritten(rows) => rows <= work.epochs
    case AnchorVerified(a) => a in work.checked
    case AssetsSeen(units) => UnitsStored(units, work, s)
  }

  /** What waits for the commit are facts of the transaction. */
  predicate PendingOk(pending: seq<Memo>, work: Db, s: Settings) {
    forall i :: 0 <= i < |pending| ==> MemoOk(pending[i], work, s)
  }

  /** The transaction adds to the stored facts. */
  predicate Extends(db: Db, work: Db) {
    db.assets <= work.assets && db.epochs <= work.epochs && db.checked <= work.checked
  }

  predicate Inv(st: State, s: Settings) {
    && MemoryOk(st.mem, st.db, s)
    && (st.tx.Some? ==> Extends(st.db, st.tx.value) && PendingOk(st.mem.pending, st.tx.value, s))
    && (st.judged ==> st.mem.invalidation.Some? || st.mem.anchor.None?)
    && (st.mem.invalidation.Some? ==> st.judged)
  }

  lemma {:induction false} NotedStored(memo: seq<Unit>, units: seq<Unit>, db: Db, s: Settings)
    requires UnitsStored(memo, db, s) && UnitsStored(units, db, s)
    ensures UnitsStored(NoteAll(memo, units), db, s)
  {
    if units != [] {
      NotedStored(memo, units[..|units| - 1], db, s);
      assert units[|units| - 1] in units;
    }
  }

  lemma {:induction false} UnitsNotInIs(units: seq<Unit>, known: set<Unit>)
    ensures forall u :: u in UnitsNotIn(units, known) <==> u in units && u !in known
    ensures forall u :: u in UnitsIn(units, known) <==> u in units && u in known
  {
    if units != [] {
      UnitsNotInIs(units[..|units| - 1], known);
      assert units == units[..|units| - 1] + [units[|units| - 1]];
    }
  }

  /** The memo never changes what is written: afterwards every unit that gets a row has one. */
  lemma MemoChangesNoWrite(a: Attempt, s: Settings, b: Block)
    requires UnitsStored(a.mem.assets, a.work, s) && s.catalogue
    ensures WriteAssets(a, s, b).work.assets == a.work.assets + set u | u in b.units && s.isAsset(u)
  {
    UnitsNotInIs(b.units, Elements(a.mem.assets));
    UnitsNotInIs(UnitsNotIn(b.units, Elements(a.mem.assets)), a.work.assets);
  }

  /** What holds after each step of an attempt. */
  predicate AttemptOk(a: Attempt, db: Db, s: Settings) {
    && MemoryOk(a.mem, db, s) && Extends(db, a.work) && PendingOk(a.mem.pending, a.work, s)
    && (a.work.assets == db.assets || s.catalogue)
  }

  lemma PendingMore(pending: seq<Memo>, memo: Memo, work: Db, work': Db, s: Settings)
    requires PendingOk(pending, work, s) && Extends(work, work') && MemoOk(memo, work', s)
    ensures PendingOk(pending + [memo], work', s)
  {
    forall i | 0 <= i < |pending|
      ensures MemoOk(pending[i], work', s)
    {
      assert MemoOk(pending[i], work, s);
    }
  }

  lemma AssetsStepOk(a: Attempt, db: Db, s: Settings, b: Block)
    requires AttemptOk(a, db, s) && a.work.assets == db.assets
    ensures AttemptOk(WriteAssets(a, s, b), db, s)
  {
    if s.catalogue {
      var unknown := UnitsNotIn(b.units, Elements(a.mem.assets));
      var missing := UnitsNotIn(unknown, a.work.assets);
      UnitsNotInIs(unknown, a.work.assets);
      NotedStored(a.mem.assets, UnitsIn(unknown, a.work.assets), db, s);
      hide UnitsNotIn, UnitsIn, NoteAll;
      if missing != [] {
        PendingMore(a.mem.pending, AssetsSeen(missing), a.work, WriteAssets(a, s, b).work, s);
      }
    }
  }

  /** Rows found by lookups that were made inside the transaction are already committed ones. */
  lemma LookupsOk(a: Attempt, db: Db, s: Settings, b: Block, looked: nat)
    requires MemoryOk(a.mem, db, s) && a.work.assets == db.assets
    ensures
      var m := LookUpAssets(a, s, b, looked).mem;
      MemoryOk(m, db, s) && m == a.mem.(assets := m.assets)
  {
    if s.catalogue {
      var unknown := UnitsNotIn(b.units, Elements(a.mem.assets));
      var prefix := unknown[..if looked < |unknown| then looked else |unknown|];
      UnitsNotInIs(prefix, a.work.assets);
      NotedStored(a.mem.assets, UnitsIn(prefix, a.work.assets), db, s);
    }
  }

  lemma DecideStepOk(a: Attempt, db: Db, s: Settings, b: Block)
    requires AttemptOk(a, db, s)
    ensures AttemptOk(Decide(a, s, b), db, s)
  {
    var d := Decide(a, s, b);
    if d.mem.pending != a.mem.pending {
      PendingMore(a.mem.pending, AnchorVerified(a.mem.anchor.value), a.work, d.work, s);
    } else {
      PendingSame(a.mem.pending, a.work, d.work, s);
    }
  }

  lemma PendingSame(pending: seq<Memo>, work: Db, work': Db, s: Settings)
    requires PendingOk(pending, work, s) && Extends(work, work')
    ensures PendingOk(pending, work', s)
  {
    forall i | 0 <= i < |pending|
      ensures MemoOk(pending[i], work', s)
    {
      assert MemoOk(pending[i], work, s);
    }
  }

  lemma {:induction false} UptoOk(n: nat, m: Memory, db: Db, s: Settings, b: Block)
    requires n <= 4 && MemoryOk(m, db, s)
    ensures AttemptOk(Upto(n, m, db, s, b), db, s) && (n < 4 ==> Upto(n, m, db, s, b).work.assets == db.assets)
  {
    if n > 0 {
      UptoOk(n - 1, m, db, s, b);
      var a := Upto(n - 1, m, db, s, b);
      if n == 1 {
        var rows := b.epochRows - a.mem.epochs;
        if rows != {} {
          PendingMore(a.mem.pending, EpochsWritten(rows), a.work, WriteEpochs(a, b).work, s);
        }
      } else if n == 2 {
        DecideStepOk(a, db, s, b);
      } else if n == 3 {
        PendingSame(a.mem.pending, a.work, WriteLedger(a, b).work, s);
      } else {
        AssetsStepOk(a, db, s, b);
      }
    }
  }

  /** Nothing but the decision touches anchor, verification and verdict during an attempt. */
  lemma {:induction false} UptoVerdict(n: nat, m: Memory, db: Db, s: Settings, b: Block)
    requires n <= 4
    ensures
      var a := Upto(n, m, db, s, b);
      && a.mem.anchor == m.anchor && a.mem.verified == m.verified
      && (m.invalidation.Some? ==> a.mem.invalidation == m.invalidation)
      && a.work.cursor == db.cursor
      && (a.mem.invalidation != m.invalidation ==> IsDue(s, m, b))
      && (n >= 2 ==> a.decision == Upto(2, m, db, s, b).decision)
  {
    if n > 0 {
      UptoVerdict(n - 1, m, db, s, b);
    }
  }

  lemma {:induction false} ConfirmedOk(m: Memory, memos: seq<Memo>, db: Db, s: Settings)
    requires MemoryOk(m, db, s) && PendingOk(memos, db, s)
    ensures MemoryOk(ApplyAll(m, memos), db, s)
    ensures ApplyAll(m, memos).anchor == m.anchor && ApplyAll(m, memos).invalidation == m.invalidation
  {
    if memos != [] {
      var front, last := memos[..|memos| - 1], memos[|memos| - 1];
      ConfirmedOk(m, front, db, s);
      assert MemoOk(last, db, s);
      if last.AssetsSeen? {
        NotedStored(ApplyAll(m, front).assets, last.units, db, s);
      }
    }
  }

  lemma NextKeeps(st: State, e: Event, s: Settings)
    requires Inv(st, s) && Enabled(st, e)
    ensures Inv(Next(st, e, s), s)
  {
    match e
    case Try(b, steps) =>
      UptoOk(steps, st.mem, st.db, s, b);
      UptoVerdict(steps, st.mem, st.db, s, b);
      hide Upto;
      PendingSame(Upto(steps, st.mem, st.db, s, b).mem.pending, Upto(steps, st.mem, st.db, s, b).work,
                  Advanced(Upto(steps, st.mem, st.db, s, b), s, b), s);
    case TryLookups(b, looked) =>
      UptoOk(3, st.mem, st.db, s, b);
      UptoVerdict(3, st.mem, st.db, s, b);
      hide Upto;
      LookupsOk(Upto(3, st.mem, st.db, s, b), st.db, s, b, looked);
    case Commit => ConfirmedOk(st.mem.(pending := []), st.mem.pending, st.tx.value, s);
    case _ =>
  }

  /** A fresh process over any database. */
  function Start(db: Db): State {
    State(db, Memory(None, false, None, [], {}, []), None, false, Position(db), NothingApplied(db), |db.ledger|)
  }

  ghost predicate IsStep(st: State, t: State, s: Settings) {
    exists e :: Enabled(st, e) && t == Next(st, e, s)
  }

  ghost predicate IsRun(states: seq<State>, s: Settings) {
    states != [] && states[0] == Start(states[0].db) && forall i :: 0 < i < |states| ==> IsStep(states[i - 1], states[i], s)
  }

  lemma {:induction false} RunsKeep(states: seq<State>, s: Settings, i: nat)
    requires IsRun(states, s) && i < |states|
    ensures Inv(states[i], s)
  {
    if i > 0 {
      RunsKeep(states, s, i - 1);
      assert IsStep(states[i - 1], states[i], s);
      var e :| Enabled(states[i - 1], e) && states[i] == Next(states[i - 1], e, s);
      hide Next, Inv;
      NextKeeps(states[i - 1], e, s);
    }
  }

  /** In every reachable state the memory only holds facts of committed transactions. */
  lemma MemoryHoldsCommittedFacts(states: seq<State>, s: Settings, i: nat)
    requires IsRun(states, s) && i < |states|
    ensures MemoryOk(states[i].mem, states[i].db, s)
  {
    RunsKeep(states, s, i);
  }

  /** Once an anchor is judged invalid, no attempt applies ledger rows until an anchor is set again. */
  lemma NothingAppliedOnceJudged(states: seq<State>, s: Settings, i: nat, b: Block, steps: nat)
    requires IsRun(states, s) && i < |states| && states[i].judged && steps <= 4
    ensures Upto(steps, states[i].mem, states[i].db, s, b).work.ledger == states[i].db.ledger
  {
    RunsKeep(states, s, i);
    JudgedAppliesNothing(steps, states[i].mem, states[i].db, s, b);
  }

  lemma {:induction false} JudgedAppliesNothing(n: nat, m: Memory, db: Db, s: Settings, b: Block)
    requires n <= 4 && (m.invalidation.Some? || m.anchor.None?)
    ensures Upto(n, m, db, s, b).work.ledger == db.ledger
    ensures !Upto(n, m, db, s, b).decision.OnChain?
  {
    if n > 0 {
      JudgedAppliesNothing(n - 1, m, db, s, b);
      UptoVerdict(n - 1, m, db, s, b);
    }
  }

  /** Every complete attempt past the anchor that knows of the verdict, or reaches it, writes it. */
  lemma DueAttemptCarriesVerdict(m: Memory, db: Db, s: Settings, b: Block)
    requires IsDue(s, m, b) && Upto(4, m, db, s, b).mem.invalidation.Some?
    ensures Advanced(Upto(4, m, db, s, b), s, b).status.Invalid?
    ensures Upto(4, m, db, s, b).work.ledger == db.ledger
  {
    UptoVerdict(2, m, db, s, b);
    UptoVerdict(1, m, db, s, b);
  }

  /** The cursor is marked as applied exactly when the block reached the ledger. */
  lemma MarkedIffApplied(m: Memory, db: Db, s: Settings, b: Block)
    ensures Marks(s, Upto(4, m, db, s, b).mem, b) <==> Upto(4, m, db, s, b).work.ledger == db.ledger + [b.slot]
  {
    UptoVerdict(1, m, db, s, b);
    UptoVerdict(4, m, db, s, b);
  }

  // ---------------------------------------------------------------- the set belongs to the crawled chain

  /** Some block of the set, or the verdict that the crawl follows its anchor, has been reached. */
  predicate Reached(st: State) {
    || st.mem.verified || |st.db.ledger| > st.since || !NothingApplied(st.db)
    || (st.tx.Some? && !NothingApplied(st.tx.value))
  }

  ghost predicate ChainInv(st: State) {
    && Position(st.db) <= st.stood
    && (st.tx.Some? ==>
          && (NothingApplied(st.tx.value) ==> st.tx.value.ledger == st.db.ledger)
          && (forall a :: AnchorVerified(a) in st.mem.pending ==> !NothingApplied(st.tx.value)))
    && (st.clean && st.mem.anchor.Some? && Reached(st) ==> (st.mem.anchor.value.slot, st.mem.anchor.value.hash) in st.stood)
  }

  /** What an attempt changes of the ledger, the cursor and the pending marks. */
  lemma {:induction false} UptoChain(n: nat, m: Memory, db: Db, s: Settings, b: Block)
    requires n <= 4
    ensures
      var a := Upto(n, m, db, s, b);
      && a.work.cursor == db.cursor && a.mem.anchor == m.anchor && a.mem.verified == m.verified
      && (a.decision.OnChain? ==> IsDue(s, m, b) && a.mem.invalidation.None? && (m.verified || Follows(db.cursor, m.anchor.value)))
      && (!a.decision.OnChain? ==> a.work.ledger == db.ledger)
      && (forall x :: AnchorVerified(x) in a.mem.pending ==> a.decision.OnChain?)
      && (n >= 2 && IsDue(s, m, b) && !a.decision.OnChain? ==> a.mem.invalidation.Some?)
      && (n < 2 ==> a.decision.NotDue? && a.mem.invalidation == m.invalidation && forall x :: AnchorVerified(x) !in a.mem.pending)
  {
    if n > 0 {
      UptoChain(n - 1, m, db, s, b);
    }
  }

  lemma TryKeepsChain(st: State, b: Block, steps: nat, s: Settings)
    requires ChainInv(st) && Enabled(st, Try(b, steps))
    ensures ChainInv(Next(st, Try(b, steps), s))
  {
    UptoChain(steps, st.mem, st.db, s, b);
    hide Upto;
  }

  lemma TryLookupsKeepsChain(st: State, b: Block, looked: nat, s: Settings)
    requires ChainInv(st) && Enabled(st, TryLookups(b, looked))
    ensures ChainInv(Next(st, TryLookups(b, looked), s))
  {
    UptoChain(3, st.mem, st.db, s, b);
    hide Upto;
  }

  lemma {:induction false} ConfirmedVerifies(m: Memory, memos: seq<Memo>)
    ensures ApplyAll(m, memos).anchor == m.anchor
    ensures ApplyAll(m, memos).verified ==> m.verified || (m.anchor.Some? && AnchorVerified(m.anchor.value) in memos)
  {
    if memos != [] {
      ConfirmedVerifies(m, memos[..|memos| - 1]);
      assert memos == memos[..|memos| - 1] + [memos[|memos| - 1]];
    }
  }

  lemma CommitKeepsChain(st: State, s: Settings)
    requires ChainInv(st) && Enabled(st, Commit)
    ensures ChainInv(Next(st, Commit, s))
  {
    ConfirmedVerifies(st.mem.(pending := []), st.mem.pending);
    hide ApplyAll;
  }

  lemma NextKeepsChain(st: State, e: Event, s: Settings)
    requires ChainInv(st) && Enabled(st, e)
    ensures ChainInv(Next(st, e, s))
  {
    match e
    case Try(b, steps) => TryKeepsChain(st, b, steps, s);
    case TryLookups(b, looked) => TryLookupsKeepsChain(st, b, looked, s);
    case Commit => CommitKeepsChain(st, s);
    case _ =>
  }

  lemma {:induction false} RunsKeepChain(states: seq<State>, s: Settings, i: nat)
    requires IsRun(states, s) && i < |states|
    ensures ChainInv(states[i])
    ensures forall p :: p in states[i].stood ==> exists j :: 0 <= j <= i && p in Position(states[j].db)
  {
    if i > 0 {
      RunsKeepChain(states, s, i - 1);
      assert IsStep(states[i - 1], states[i], s);
      var e :| Enabled(states[i - 1], e) && states[i] == Next(states[i - 1], e, s);
      NextKeepsChain(states[i - 1], e, s);
      assert states[i].stood <= states[i - 1].stood + Position(states[i].db);
      hide Next, ChainInv, Position;
    }
  }

  /**
   With no block of a set applied when the anchor was set, the anchor counts as verified, and blocks have been
   written to the ledger since, only if the crawl stood on the very block the anchor names.
   */
  lemma SetBelongsToChain(states: seq<State>, s: Settings, i: nat)
    requires IsRun(states, s) && i < |states| && states[i].mem.anchor.Some? && states[i].clean
    requires states[i].mem.verified || |states[i].db.ledger| > states[i].since
    ensures exists j :: 0 <= j <= i && states[j].db.cursor.Some?
                        && states[j].db.cursor.value.lastSlot == states[i].mem.anchor.value.slot
                        && states[j].db.cursor.value.lastHash == states[i].mem.anchor.value.hash
  {
    RunsKeepChain(states, s, i);
    var p := (states[i].mem.anchor.value.slot, states[i].mem.anchor.value.hash);
    var j :| 0 <= j <= i && p in Position(states[j].db);
  }

  /** The snapshot of a fork: a cursor on another block, past which no block was applied, is judged and nothing written. */
  lemma ForkIsJudged(m: Memory, db: Db, s: Settings, b: Block)
    requires s.utxoSet && m.anchor.Some? && b.slot > m.anchor.value.slot && !m.verified && NothingApplied(db)
    requires db.cursor.Some? ==> db.cursor.value.lastSlot != m.anchor.value.slot || db.cursor.value.lastHash != m.anchor.value.hash
    ensures
      var a := Upto(4, m, db, s, b);
      && Advanced(a, s, b).status.Invalid? && a.mem.invalidation.Some? && a.work.ledger == db.ledger
      && Advanced(a, s, b).cursor.Some? && (Advanced(a, s, b).cursor.value.appliedSlot.None?)
  {
    UptoChain(1, m, db, s, b);
    UptoChain(2, m, db, s, b);
    UptoChain(4, m, db, s, b);
    UptoVerdict(4, m, db, s, b);
  }

  /** On the anchor's own block, with no verdict pending, the block past it is applied and the anchor marked at the commit. */
  lemma AnchorIsFollowed(m: Memory, db: Db, s: Settings, b: Block)
    requires s.utxoSet && m.anchor.Some? && b.slot > m.anchor.value.slot && m.invalidation.None?
    requires db.cursor.Some? && db.cursor.value.lastSlot == m.anchor.value.slot && db.cursor.value.lastHash == m.anchor.value.hash
    ensures
      var a := Upto(4, m, db, s, b);
      && a.work.ledger == db.ledger + [b.slot] && a.mem.invalidation.None?
      && Advanced(a, s, b).cursor == Some(Cursor(b.slot, b.hash, Some(b.slot)))
      && (m.verified || AnchorVerified(m.anchor.value) in a.mem.pending)
  {
    UptoVerdict(1, m, db, s, b);
    UptoChain(1, m, db, s, b);
    var a := Upto(1, m, db, s, b);
    var d := Decide(a, s, b);
    assert d.decision.OnChain? && (m.verified || AnchorVerified(m.anchor.value) in d.mem.pending);
    assert Upto(2, m, db, s, b) == d;
    assert Upto(3, m, db, s, b) == WriteLedger(d, b);
    assert Upto(4, m, db, s, b) == WriteAssets(WriteLedger(d, b), s, b);
    hide Upto, UnitsNotIn, UnitsIn, NoteAll, Elements;
  }

  // ---------------------------------------------------------------- what a commit leaves behind

  /** A complete attempt is its four steps in order. */
  function Whole(m: Memory, db: Db, s: Settings, b: Block): Attempt {
    WriteAssets(WriteLedger(Decide(WriteEpochs(Begin(m, db), b), s, b), b), s, b)
  }

  lemma FourSteps(m: Memory, db: Db, s: Settings, b: Block)
    ensures Upto(4, m, db, s, b) == Whole(m, db, s, b)
  {
    hide Begin, WriteEpochs, Decide, WriteLedger, WriteAssets;
    assert Upto(0, m, db, s, b) == Begin(m, db);
    assert Upto(1, m, db, s, b) == WriteEpochs(Begin(m, db), b);
    assert Upto(2, m, db, s, b) == Decide(WriteEpochs(Begin(m, db), b), s, b);
    assert Upto(3, m, db, s, b) == WriteLedger(Decide(WriteEpochs(Begin(m, db), b), s, b), b);
  }

  predicate NoRepeats(units: seq<Unit>) {
    forall i, j :: 0 <= i < j < |units| ==> units[i] != units[j]
  }

  /** A noted unit is remembered; it stays within the cap, and only the oldest entry can make way for it. */
  lemma NoteIs(memo: seq<Unit>, u: Unit)
    requires NoRepeats(memo) && |memo| <= ASSET_MEMO_CAP
    ensures
      var r := NoteAsset(memo, u);
      && u in r && NoRepeats(r) && |r| <= ASSET_MEMO_CAP
      && (forall x :: x in r ==> x in memo || x == u)
      && (forall x :: x in memo && (|memo| < ASSET_MEMO_CAP || u in memo || x != memo[0]) ==> x in r)
  {
    if u !in memo && |memo| == ASSET_MEMO_CAP {
      assert memo == [memo[0]] + memo[1..];
    }
  }

  lemma {:induction false} NoteAllIs(memo: seq<Unit>, units: seq<Unit>)
    requires NoRepeats(memo) && |memo| <= ASSET_MEMO_CAP
    ensures NoRepeats(NoteAll(memo, units)) && |NoteAll(memo, units)| <= ASSET_MEMO_CAP
    ensures |NoteAll(memo, units)| <= |memo| + |units|
    ensures |memo| + |units| <= ASSET_MEMO_CAP ==> Elements(NoteAll(memo, units)) == Elements(memo) + Elements(units)
  {
    if units != [] {
      var n := |units| - 1;
      NoteAllIs(memo, units[..n]);
      NoteIs(NoteAll(memo, units[..n]), units[n]);
      assert units == units[..n] + [units[n]];
      ElementsPush(units[..n], units[n]);
      hide NoteAsset, NoRepeats;
      assert NoteAll(memo, units) == NoteAsset(NoteAll(memo, units[..n]), units[n]);
      NoteGrows(NoteAll(memo, units[..n]), units[n]);
      hide Elements, NoteAll;
    }
  }

  lemma NoteGrows(memo: seq<Unit>, u: Unit)
    ensures |NoteAsset(memo, u)| <= |memo| + 1
    ensures |memo| < ASSET_MEMO_CAP ==> Elements(NoteAsset(memo, u)) == Elements(memo) + {u}
  {
  }

  lemma ElementsPush(units: seq<Unit>, u: Unit)
    ensures Elements(units + [u]) == Elements(units) + {u}
  {
  }

  /** The asset memo never holds a unit twice and never outgrows its cap. */
  ghost predicate MemoCapped(m: Memory) {
    NoRepeats(m.assets) && |m.assets| <= ASSET_MEMO_CAP
  }

  lemma {:induction false} UptoCapped(n: nat, m: Memory, db: Db, s: Settings, b: Block)
    requires n <= 4 && MemoCapped(m)
    ensures MemoCapped(Upto(n, m, db, s, b).mem)
  {
    if n > 0 {
      UptoCapped(n - 1, m, db, s, b);
      var a := Upto(n - 1, m, db, s, b);
      var unknown := UnitsNotIn(b.units, Elements(a.mem.assets));
      NoteAllIs(a.mem.assets, UnitsIn(unknown, a.work.assets));
      hide NoRepeats, NoteAll, UnitsIn, UnitsNotIn;
    }
  }

  lemma {:induction false} ConfirmedCapped(m: Memory, memos: seq<Memo>)
    requires MemoCapped(m)
    ensures MemoCapped(ApplyAll(m, memos))
  {
    if memos != [] {
      var before, last := ApplyAll(m, memos[..|memos| - 1]), memos[|memos| - 1];
      ConfirmedCapped(m, memos[..|memos| - 1]);
      if last.AssetsSeen? {
        NoteAllIs(before.assets, last.units);
      }
      hide NoRepeats, NoteAll;
    }
  }

  /** In every reachable state the asset memo keeps to its cap. */
  lemma {:induction false} MemoStaysCapped(states: seq<State>, s: Settings, i: nat)
    requires IsRun(states, s) && i < |states|
    ensures MemoCapped(states[i].mem)
  {
    if i > 0 {
      MemoStaysCapped(states, s, i - 1);
      var st := states[i - 1];
      assert IsStep(st, states[i], s);
      var e :| Enabled(st, e) && states[i] == Next(st, e, s);
      hide MemoCapped, Upto, ApplyAll;
      match e
      case Try(b, steps) => UptoCapped(steps, st.mem, st.db, s, b);
      case TryLookups(b, looked) =>
        UptoCapped(3, st.mem, st.db, s, b);
        LookUpCapped(Upto(3, st.mem, st.db, s, b), s, b, looked);
      case Commit =>
        SameMemo(st.mem, st.mem.(pending := []));
        ConfirmedCapped(st.mem.(pending := []), st.mem.pending);
        SameMemo(Confirmed(st.mem), states[i].mem);
      case _ => SameMemo(st.mem, states[i].mem);
    }
  }

  lemma SameMemo(m: Memory, n: Memory)
    requires MemoCapped(m) && n.assets == m.assets
    ensures MemoCapped(n)
  {
  }

  lemma LookUpCapped(a: Attempt, s: Settings, b: Block, looked: nat)
    requires MemoCapped(a.mem)
    ensures MemoCapped(LookUpAssets(a, s, b, looked).mem)
  {
    var unknown := UnitsNotIn(b.units, Elements(a.mem.assets));
    NoteAllIs(a.mem.assets, UnitsIn(unknown[..if looked < |unknown| then looked else |unknown|], a.work.assets));
    hide NoRepeats, NoteAll, UnitsIn, UnitsNotIn;
  }

  /** Lookups that all came back leave the memo the finished step leaves. */
  lemma AllLookedUp(a: Attempt, s: Settings, b: Block, looked: nat)
    requires looked >= |UnitsNotIn(b.units, Elements(a.mem.assets))|
    ensures LookUpAssets(a, s, b, looked).mem.assets == WriteAssets(a, s, b).mem.assets
  {
    var unknown := UnitsNotIn(b.units, Elements(a.mem.assets));
    assert unknown[..|unknown|] == unknown;
  }

  /** A block at or before the anchor, or without one, decides nothing and writes nothing to the ledger. */
  lemma NotPastAnchor(m: Memory, db: Db, s: Settings, b: Block)
    requires !s.utxoSet || m.anchor.None? || b.slot <= m.anchor.value.slot
    ensures
      var a := Upto(4, m, db, s, b);
      && a.work.ledger == db.ledger && a.work.status == db.status && a.mem.invalidation == m.invalidation
      && Advanced(a, s, b).cursor == Some(Cursor(b.slot, b.hash, if db.cursor.Some? then db.cursor.value.appliedSlot else None))
  {
    FourSteps(m, db, s, b);
    hide Upto, UnitsNotIn, UnitsIn, NoteAll, Elements;
  }

  /** An attempt rolled back leaves the stored facts as they were, and the next attempt starts from them. */
  lemma RollbackLeavesNothing(st: State, b: Block, s: Settings)
    requires st.tx.None?
    ensures
      var t := Next(Next(st, Try(b, 4), s), Rollback, s);
      t.db == st.db && t.tx.None? && Begin(t.mem, t.db).mem.pending == [] && Begin(t.mem, t.db).work == st.db
  {
    hide Upto;
  }

  /** What is pending after each step of an attempt. */
  lemma UptoPending(m: Memory, db: Db, s: Settings, b: Block)
    ensures
      var a := Upto(4, m, db, s, b);
      var rows := b.epochRows - m.epochs;
      var epochs := if rows == {} then [] else [EpochsWritten(rows)];
      var anchor := if a.decision.OnChain? && !m.verified && m.anchor.Some? then [AnchorVerified(m.anchor.value)] else [];
      var unknown := UnitsNotIn(b.units, Elements(m.assets));
      var missing := UnitsNotIn(unknown, db.assets);
      var assets := if s.catalogue && missing != [] then [AssetsSeen(missing)] else [];
      && (a.decision.OnChain? && !m.verified ==> m.anchor.Some?)
      && a.mem.pending == epochs + anchor + assets
      && a.mem.epochs == m.epochs && a.mem.anchor == m.anchor && a.mem.verified == m.verified
      && a.mem.assets == if s.catalogue then NoteAll(m.assets, UnitsIn(unknown, db.assets)) else m.assets
  {
    FourSteps(m, db, s, b);
    hide Upto, UnitsNotIn, UnitsIn, NoteAll, Elements;
  }

  lemma {:induction false} ApplyAllConcat(m: Memory, front: seq<Memo>, back: seq<Memo>)
    ensures ApplyAll(m, front + back) == ApplyAll(ApplyAll(m, front), back)
  {
    if back == [] {
      assert front + back == front;
    } else {
      ApplyAllConcat(m, front, back[..|back| - 1]);
      assert (front + back)[..|front + back| - 1] == front + back[..|back| - 1];
    }
  }

  lemma ApplyOne(m: Memory, memo: Memo)
    ensures ApplyAll(m, [memo]) == Apply(m, memo) && ApplyAll(m, []) == m
  {
    assert [memo][..0] == [];
  }

  /** Applying what a complete attempt left pending remembers the rows and, if it was just found on the chain, the anchor. */
  lemma ConfirmedRemembers(m: Memory, db: Db, s: Settings, b: Block)
    ensures
      var a := Upto(4, m, db, s, b);
      var c := Confirmed(a.mem);
      && c.pending == [] && c.anchor == m.anchor && c.invalidation == a.mem.invalidation
      && c.epochs == m.epochs + b.epochRows
      && c.verified == (m.verified || a.decision.OnChain?)
      && c.assets == if s.catalogue then NoteAll(a.mem.assets, UnitsNotIn(UnitsNotIn(b.units, Elements(m.assets)), db.assets)) else m.assets
  {
    UptoPending(m, db, s, b);
    var a := Upto(4, m, db, s, b);
    hide Upto, UnitsNotIn, UnitsIn, NoteAll, Elements, ApplyAll;
    var missing := UnitsNotIn(UnitsNotIn(b.units, Elements(m.assets)), db.assets);
    var anchor := if a.decision.OnChain? && !m.verified && m.anchor.Some? then m.anchor else None;
    OnChainHasAnchor(m, db, s, b);
    ThreeMemos(a.mem.(pending := []), b.epochRows - m.epochs, anchor, if s.catalogue then missing else []);
    NothingNoted(a.mem.assets);
  }

  lemma OnChainHasAnchor(m: Memory, db: Db, s: Settings, b: Block)
    ensures Upto(4, m, db, s, b).decision.OnChain? ==> m.anchor.Some?
  {
    UptoChain(4, m, db, s, b);
    hide Upto;
  }

  /** The three memos an attempt can leave, applied in order. */
  lemma ThreeMemos(m: Memory, rows: set<nat>, anchor: Option<Anchor>, units: seq<Unit>)
    ensures
      var epochs := if rows == {} then [] else [EpochsWritten(rows)];
      var verified := if anchor.Some? then [AnchorVerified(anchor.value)] else [];
      var assets := if units != [] then [AssetsSeen(units)] else [];
      ApplyAll(m, epochs + verified + assets)
      == m.(epochs := m.epochs + rows, verified := m.verified || (anchor.Some? && m.anchor == anchor), assets := NoteAll(m.assets, units))
  {
    hide NoteAll, ApplyAll;
    var epochs := if rows == {} then [] else [EpochsWritten(rows)];
    var verified := if anchor.Some? then [AnchorVerified(anchor.value)] else [];
    var assets := if units != [] then [AssetsSeen(units)] else [];
    ApplyAllConcat(m, epochs + verified, assets);
    ApplyAllConcat(m, epochs, verified);
    ApplyOne(m, EpochsWritten(rows));
    var n := ApplyAll(m, epochs);
    assert n == m.(epochs := m.epochs + rows);
    ApplyOne(n, if anchor.Some? then AnchorVerified(anchor.value) else EpochsWritten(rows));
    ApplyOne(ApplyAll(n, verified), AssetsSeen(units));
    NothingNoted(m.assets);
  }

  lemma NothingNoted(memo: seq<Unit>)
    ensures NoteAll(memo, []) == memo
  {
  }

  /**
   After an attempt that committed, the block's epoch rows are remembered, a verdict has been handed out with the
   anchor dropped, and, room permitting, every unit of the block and every earlier one is in the memo.
   */
  lemma CommitRemembers(st: State, b: Block, s: Settings)
    requires st.tx.None? && MemoCapped(st.mem)
    ensures
      var t := Next(Next(st, Try(b, 4), s), Commit, s);
      var a := Upto(4, st.mem, st.db, s, b);
      && t.tx.None? && t.db == Advanced(a, s, b) && t.mem.pending == []
      && t.mem.epochs == st.mem.epochs + b.epochRows
      && t.mem.invalidation.None?
      && (a.mem.invalidation.Some? ==> t.mem.anchor.None? && !t.mem.verified)
      && (a.mem.invalidation.None? ==> t.mem.anchor == st.mem.anchor && t.mem.verified == (st.mem.verified || a.decision.OnChain?))
      && (s.catalogue && |st.mem.assets| + |b.units| <= ASSET_MEMO_CAP ==> Elements(t.mem.assets) == Elements(st.mem.assets) + Elements(b.units))
  {
    ConfirmedRemembers(st.mem, st.db, s, b);
    UptoPending(st.mem, st.db, s, b);
    var a := Upto(4, st.mem, st.db, s, b);
    hide Upto, ApplyAll, Elements, UnitsNotIn, UnitsIn, NoteAll;
    if s.catalogue && |st.mem.assets| + |b.units| <= ASSET_MEMO_CAP {
      UnitsRemembered(st.mem.assets, b.units, st.db.assets);
    }
  }

  /** Units not remembered are either found stored or missing; noting both leaves all of them in the memo. */
  lemma UnitsRemembered(memo: seq<Unit>, units: seq<Unit>, stored: set<Unit>)
    requires NoRepeats(memo) && |memo| + |units| <= ASSET_MEMO_CAP
    ensures
      var unknown := UnitsNotIn(units, Elements(memo));
      Elements(NoteAll(NoteAll(memo, UnitsIn(unknown, stored)), UnitsNotIn(unknown, stored))) == Elements(memo) + Elements(units)
  {
    var unknown := UnitsNotIn(units, Elements(memo));
    UnitsSplit(units, Elements(memo));
    UnitsSplit(unknown, stored);
    UnitsNotInIs(units, Elements(memo));
    UnitsNotInIs(unknown, stored);
    NoteAllIs(memo, UnitsIn(unknown, stored));
    NoteAllIs(NoteAll(memo, UnitsIn(unknown, stored)), UnitsNotIn(unknown, stored));
    hide NoteAll, UnitsIn, UnitsNotIn, NoRepeats;
  }

  lemma {:induction false} UnitsSplit(units: seq<Unit>, known: set<Unit>)
    ensures |UnitsIn(units, known)| + |UnitsNotIn(units, known)| == |units|
  {
    if units != [] {
      UnitsSplit(units[..|units| - 1], known);
    }
  }
}
