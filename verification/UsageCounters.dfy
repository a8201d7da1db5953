/**
 The deferred usage counters of agent grants. Calls and refunds collect in a buffer; a flush takes the whole
 buffer and writes it key by key, while requests keep buffering and other flushes run.
 */
module UsageCounters {
  import opened Options
  import opened Sums

  /** Grant, UTC day, service and action of a counter. */
  type Key = string

  datatype Usage = Usage(calls: nat, refunded: nat)

  datatype Column = Calls | Refunds

  function Of(u: Usage, c: Column): nat {
    if c == Calls then u.calls else u.refunded
  }

  /** What a table or a buffer counts for a key, 0 without an entry. */
  function At(m: map<Key, Usage>, k: Key, c: Column): nat {
    if k in m then Of(m[k], c) else 0
  }

  function Added(m: map<Key, Usage>, k: Key, d: Usage): map<Key, Usage> {
    m[k := Usage(At(m, k, Calls) + d.calls, At(m, k, Refunds) + d.refunded)]
  }

  // ---------------------------------------------------------------- the statements

  datatype Outcome = Threw | Affected(rows: nat)

  /** An UPDATE adding a delta; it touches no row when the key is absent. A failed statement has no effect. */
  function Bump(rows: map<Key, Usage>, k: Key, d: Usage, fails: bool): (map<Key, Usage>, Outcome) {
    if fails then (rows, Threw)
    else if k in rows then (Added(rows, k, d), Affected(1))
    else (rows, Affected(0))
  }

  /** An INSERT of a delta as a new row; the key is unique, so it fails when the row exists. */
  function Insert(rows: map<Key, Usage>, k: Key, d: Usage, fails: bool): (map<Key, Usage>, Outcome) {
    if fails || k in rows then (rows, Threw) else (rows[k := d], Affected(1))
  }

  // ---------------------------------------------------------------- one flush on its own

  /** Which of the statements for a key the database fails. */
  datatype Faults = Faults(bump: bool, insert: bool, secondBump: bool)

  /** A delta that no statement of its flush stores. */
  predicate Unstored(rows: map<Key, Usage>, k: Key, faults: Key -> Faults) {
    faults(k).bump || (k !in rows && faults(k).insert)
  }

  predicate SameAt(m: map<Key, Usage>, n: map<Key, Usage>, k: Key) {
    if k in n then k in m && m[k] == n[k] else k !in m
  }

  /** What a flush leaves for a key it took: stored once, or back in the buffer as it was. */
  predicate Settled(rows0: map<Key, Usage>, batch: map<Key, Usage>, faults: Key -> Faults,
                    rows: map<Key, Usage>, buffer: map<Key, Usage>, k: Key)
  {
    if k in batch && !Unstored(rows0, k, faults) then SameAt(rows, Added(rows0, k, batch[k]), k) && k !in buffer
    else SameAt(rows, rows0, k) && SameAt(buffer, batch, k)
  }

  lemma SettledConserves(rows0: map<Key, Usage>, batch: map<Key, Usage>, faults: Key -> Faults,
                         rows: map<Key, Usage>, buffer: map<Key, Usage>, k: Key, c: Column)
    requires Settled(rows0, batch, faults, rows, buffer, k)
    ensures At(rows, k, c) + At(buffer, k, c) == At(rows0, k, c) + At(batch, k, c)
  {
  }

  /** Settling one more key leaves the others settled. */
  lemma SettledStep(rows0: map<Key, Usage>, done: map<Key, Usage>, faults: Key -> Faults,
                    rows: map<Key, Usage>, buffer: map<Key, Usage>, k: Key, d: Usage,
                    done': map<Key, Usage>, rows': map<Key, Usage>, buffer': map<Key, Usage>)
    requires k !in done && done' == done[k := d]
    requires forall x :: Settled(rows0, done, faults, rows, buffer, x)
    requires rows' == if Unstored(rows0, k, faults) then rows else Added(rows, k, d)
    requires buffer' == if Unstored(rows0, k, faults) then Added(buffer, k, d) else buffer
    ensures forall x :: Settled(rows0, done', faults, rows', buffer', x)
  {
    assert Settled(rows0, done, faults, rows, buffer, k);
    forall x
      ensures Settled(rows0, done', faults, rows', buffer', x)
    {
      assert Settled(rows0, done, faults, rows, buffer, x);
    }
  }

  lemma SettledNone(rows: map<Key, Usage>, none: map<Key, Usage>, faults: Key -> Faults)
    requires none == map[]
    ensures forall k :: Settled(rows, none, faults, rows, none, k)
  {
  }

  /** A key the flush has not taken up yet. */
  lemma SettledUntouched(rows0: map<Key, Usage>, done: map<Key, Usage>, faults: Key -> Faults,
                         rows: map<Key, Usage>, buffer: map<Key, Usage>, k: Key)
    requires k !in done && Settled(rows0, done, faults, rows, buffer, k)
    ensures k !in buffer && (Unstored(rows, k, faults) <==> Unstored(rows0, k, faults))
  {
  }

  /** Buffer and table; both are replaced entry by entry. */
  class UsageStore {
    var buffer: map<Key, Usage>
    var rows: map<Key, Usage>

    method BufferUsage(k: Key, calls: nat, refunded: nat)
      modifies this`buffer
      ensures buffer == Added(old(buffer), k, Usage(calls, refunded))
    {
      if k in buffer {
        var d := buffer[k];
        buffer := buffer[k := Usage(d.calls + calls, d.refunded + refunded)];
      } else {
        buffer := buffer[k := Usage(calls, refunded)];
      }
    }

    /** Stores one delta: update, insert when no row was there, update again when the insert was refused. */
    method WriteDelta(k: Key, d: Usage, faults: Key -> Faults) returns (stored: bool)
      modifies this`rows
      ensures stored == !Unstored(old(rows), k, faults)
      ensures rows == if stored then Added(old(rows), k, d) else old(rows)
    {
      var (next, bumped) := Bump(rows, k, d, faults(k).bump);
      rows := next;
      if bumped == Threw {
        return false;
      }
      if bumped.rows == 0 {
        var (next, inserted) := Insert(rows, k, d, faults(k).insert);
        rows := next;
        if inserted == Threw {
          var (next, again) := Bump(rows, k, d, faults(k).secondBump);
          rows := next;
          return again.Affected? && again.rows > 0;
        }
      }
      return true;
    }

    /** Every key is stored once or back in the buffer unchanged, and the counts say how many of each. */
    method FlushGrantUsage(faults: Key -> Faults) returns (flushed: nat, failed: nat)
      modifies this
      ensures forall k :: Settled(old(rows), old(buffer), faults, rows, buffer, k)
      ensures forall k, c :: At(rows, k, c) + At(buffer, k, c) == old(At(rows, k, c)) + old(At(buffer, k, c))
      ensures failed == |buffer| && flushed + failed == old(|buffer|)
    {
      hide Unstored, Settled;
      ghost var rows0 := rows;
      ghost var done: map<Key, Usage> := map[];
      var batch := buffer;
      var rest := batch;
      buffer := map[];
      flushed, failed := 0, 0;
      SettledNone(rows, buffer, faults);
      while rest != map[]
        invariant forall k :: k in batch <==> k in rest || k in done
        invariant forall k :: k in rest ==> k !in done && rest[k] == batch[k]
        invariant forall k :: k in done ==> done[k] == batch[k]
        invariant forall k :: Settled(rows0, done, faults, rows, buffer, k)
        invariant failed == |buffer| && flushed + failed + |rest| == |batch|
        decreases |rest|
      {
        var k :| k in rest;
        var d := rest[k];
        assert (rest - {k}).Keys == rest.Keys - {k};
        rest := rest - {k};
        SettledUntouched(rows0, done, faults, rows, buffer, k);
        label Before:
        var stored := WriteDelta(k, d, faults);
        if stored {
          flushed := flushed + 1;
        } else {
          failed := failed + 1;
          BufferUsage(k, d.calls, d.refunded);
        }
        SettledStep(rows0, done, faults, old@Before(rows), old@Before(buffer), k, d, done[k := d], rows, buffer);
        done := done[k := d];
      }
      assert done == batch;
      forall k, c
        ensures At(rows, k, c) + At(buffer, k, c) == At(rows0, k, c) + At(batch, k, c)
      {
        SettledConserves(rows0, batch, faults, rows, buffer, k, c);
      }
    }
  }

  // ---------------------------------------------------------------- the protocol

  datatype Point = AtBump | AtInsert | AtSecondBump

  /** A running flush: the deltas it still has to write, and the statement it awaits for the current one. */
  datatype Flush = Flush(rest: map<Key, Usage>, current: Key, point: Point)

  /** A counted call, and whether it was refunded. */
  datatype Call = Call(key: Key, refunded: bool)

  datatype State = State(buffer: map<Key, Usage>, rows: map<Key, Usage>, flushes: map<nat, Flush>, calls: map<nat, Call>)

  /** `next` is the key a flush takes up when it is done with the current one. */
  datatype Action =
    | Record(call: nat, key: Key)
    | RefundCall(call: nat)
    | StartFlush(id: nat, first: Key)
    | RunStatement(id: nat, fails: bool, next: Key)

  predicate Enabled(s: State, a: Action) {
    match a
    case Record(call, _) => call !in s.calls
    case RefundCall(call) => call in s.calls && !s.calls[call].refunded
    case StartFlush(id, first) => id !in s.flushes && first in s.buffer
    case RunStatement(id, _, next) =>
      id in s.flushes && var rest := s.flushes[id].rest - {s.flushes[id].current}; rest == map[] || next in rest
  }

  /** The flush `id` has dealt with its current delta. */
  function Advance(flushes: map<nat, Flush>, id: nat, next: Key): map<nat, Flush>
    requires id in flushes
  {
    var rest := flushes[id].rest - {flushes[id].current};
    if rest == map[] then flushes - {id} else flushes[id := Flush(rest, next, AtBump)]
  }

  function Await(flushes: map<nat, Flush>, id: nat, point: Point): map<nat, Flush>
    requires id in flushes
  {
    flushes[id := flushes[id].(point := point)]
  }

  function Stored(s: State, rows: map<Key, Usage>, id: nat, next: Key): State
    requires id in s.flushes
  {
    s.(rows := rows, flushes := Advance(s.flushes, id, next))
  }

  function Requeued(s: State, id: nat, next: Key): State
    requires id in s.flushes && s.flushes[id].current in s.flushes[id].rest
  {
    var f := s.flushes[id];
    s.(buffer := Added(s.buffer, f.current, f.rest[f.current]), flushes := Advance(s.flushes, id, next))
  }

  function Statement(s: State, id: nat, fails: bool, next: Key): State
    requires id in s.flushes && s.flushes[id].current in s.flushes[id].rest
  {
    var f := s.flushes[id];
    var k, d := f.current, f.rest[f.current];
    match f.point
    case AtBump =>
      (match Bump(s.rows, k, d, fails)
       case (_, Threw) => Requeued(s, id, next)
       case (rows, Affected(n)) => if n == 0 then s.(flushes := Await(s.flushes, id, AtInsert)) else Stored(s, rows, id, next))
    case AtInsert =>
      (match Insert(s.rows, k, d, fails)
       case (_, Threw) => s.(flushes := Await(s.flushes, id, AtSecondBump))
       case (rows, Affected(_)) => Stored(s, rows, id, next))
    case AtSecondBump =>
      (match Bump(s.rows, k, d, fails)
       case (_, Threw) => Requeued(s, id, next)
       case (rows, Affected(n)) => if n == 0 then Requeued(s, id, next) else Stored(s, rows, id, next))
  }

  function Next(s: State, a: Action): State
    requires WellFormed(s) && Enabled(s, a)
  {
    match a
    case Record(call, key) => s.(buffer := Added(s.buffer, key, Usage(1, 0)), calls := s.calls[call := Call(key, false)])
    case RefundCall(call) =>
      s.(buffer := Added(s.buffer, s.calls[call].key, Usage(0, 1)), calls := s.calls[call := s.calls[call].(refunded := true)])
    case StartFlush(id, first) => s.(buffer := map[], flushes := s.flushes[id := Flush(s.buffer, first, AtBump)])
    case RunStatement(id, fails, next) => Statement(s, id, fails, next)
  }

  predicate WellFormed(s: State) {
    forall id :: id in s.flushes ==> s.flushes[id].current in s.flushes[id].rest
  }

  function Held(k: Key, c: Column): (nat, Flush) -> int {
    (_, f: Flush) => At(f.rest, k, c)
  }

  /** What the running flushes carry for a key. */
  ghost function InFlight(s: State, k: Key, c: Column): int {
    MapSum(s.flushes, Held(k, c))
  }

  /** What table and buffer count for a key. */
  function Total(s: State, k: Key, c: Column): nat {
    At(s.rows, k, c) + At(s.buffer, k, c)
  }

  function Counts(k: Key, c: Column): (nat, Call) -> int {
    (_, r: Call) => if r.key == k && (c == Refunds ==> r.refunded) then 1 else 0
  }

  /** Calls counted on a key, and those of them that were refunded. */
  ghost function Recorded(s: State, k: Key, c: Column): int {
    MapSum(s.calls, Counts(k, c))
  }

  ghost predicate Conserved(s: State) {
    forall k, c :: Total(s, k, c) + InFlight(s, k, c) == Recorded(s, k, c)
  }

  /** Dropping the current delta of a flush takes exactly that delta out of flight. */
  lemma AdvanceDrops(s: State, id: nat, next: Key, k: Key, c: Column)
    requires WellFormed(s) && id in s.flushes
    ensures
      var f := s.flushes[id];
      MapSum(Advance(s.flushes, id, next), Held(k, c))
      == InFlight(s, k, c) - if k == f.current then Of(f.rest[k], c) else 0
  {
    var f := s.flushes[id];
    var rest := f.rest - {f.current};
    SumPick(s.flushes, Held(k, c), id);
    assert At(rest, k, c) == At(f.rest, k, c) - if k == f.current then Of(f.rest[k], c) else 0;
    hide At, Of, MapSum;
    if rest == map[] {
      assert At(rest, k, c) == 0 by {
        NothingAt(k, c);
      }
    } else {
      SumPut(s.flushes, Held(k, c), id, Flush(rest, next, AtBump));
      assert Held(k, c)(id, Flush(rest, next, AtBump)) == At(rest, k, c);
    }
    assert Held(k, c)(id, f) == At(f.rest, k, c);
  }

  lemma NothingAt(k: Key, c: Column)
    ensures At(map[], k, c) == 0
  {
  }

  lemma AwaitKeeps(s: State, id: nat, point: Point, k: Key, c: Column)
    requires id in s.flushes
    ensures MapSum(Await(s.flushes, id, point), Held(k, c)) == InFlight(s, k, c)
  {
    SumPut(s.flushes, Held(k, c), id, s.flushes[id].(point := point));
  }

  /** A statement stores the current delta, puts it back, or moves on to the next statement for it. */
  lemma StatementOutcome(s: State, id: nat, fails: bool, next: Key)
    requires id in s.flushes && s.flushes[id].current in s.flushes[id].rest
    ensures
      var f := s.flushes[id];
      var t := Statement(s, id, fails, next);
      || t == Requeued(s, id, next)
      || t == Stored(s, Added(s.rows, f.current, f.rest[f.current]), id, next)
      || t == s.(flushes := Await(s.flushes, id, AtInsert))
      || t == s.(flushes := Await(s.flushes, id, AtSecondBump))
  {
    hide Advance, Await;
  }

  lemma StatementConserves(s: State, id: nat, fails: bool, next: Key, k: Key, c: Column)
    requires WellFormed(s) && id in s.flushes
    ensures var t := Statement(s, id, fails, next); Total(t, k, c) + InFlight(t, k, c) == Total(s, k, c) + InFlight(s, k, c)
  {
    StatementOutcome(s, id, fails, next);
    AdvanceDrops(s, id, next, k, c);
    AwaitKeeps(s, id, AtInsert, k, c);
    AwaitKeeps(s, id, AtSecondBump, k, c);
    hide Statement, Advance, Await;
  }

  lemma StatementKeepsCalls(s: State, id: nat, fails: bool, next: Key)
    requires WellFormed(s) && id in s.flushes
    ensures Statement(s, id, fails, next).calls == s.calls
  {
    StatementOutcome(s, id, fails, next);
    hide Statement, Advance, Await;
  }

  /** No step loses a unit or counts one twice. */
  lemma StepConserves(s: State, a: Action, k: Key, c: Column)
    requires WellFormed(s) && Enabled(s, a)
    ensures
      var t := Next(s, a);
      Total(t, k, c) + InFlight(t, k, c) - Recorded(t, k, c) == Total(s, k, c) + InFlight(s, k, c) - Recorded(s, k, c)
  {
    hide Statement;
    match a
    case Record(call, key) =>
      SumPut(s.calls, Counts(k, c), call, Call(key, false));
    case RefundCall(call) =>
      SumPut(s.calls, Counts(k, c), call, s.calls[call].(refunded := true));
    case StartFlush(id, first) =>
      SumPut(s.flushes, Held(k, c), id, Flush(s.buffer, first, AtBump));
    case RunStatement(id, fails, next) =>
      StatementConserves(s, id, fails, next, k, c);
      StatementKeepsCalls(s, id, fails, next);
  }

  // ---------------------------------------------------------------- runs

  const START := State(map[], map[], map[], map[])

  ghost predicate IsStep(s: State, t: State) {
    exists a :: WellFormed(s) && Enabled(s, a) && t == Next(s, a)
  }

  ghost predicate IsRun(states: seq<State>) {
    states != [] && states[0] == START && forall i :: 0 < i < |states| ==> IsStep(states[i - 1], states[i])
  }

  lemma StepKeepsWellFormed(s: State, a: Action)
    requires WellFormed(s) && Enabled(s, a)
    ensures WellFormed(Next(s, a))
  {
    if a.RunStatement? {
      StatementOutcome(s, a.id, a.fails, a.next);
      hide Statement;
    }
  }

  lemma ConservedStep(s: State, a: Action)
    requires WellFormed(s) && Enabled(s, a) && Conserved(s)
    ensures Conserved(Next(s, a))
  {
    forall k, c
      ensures Total(Next(s, a), k, c) + InFlight(Next(s, a), k, c) == Recorded(Next(s, a), k, c)
    {
      hide Next, Enabled, Total;
      StepConserves(s, a, k, c);
      assert Total(s, k, c) + InFlight(s, k, c) == Recorded(s, k, c);
    }
  }

  lemma {:induction false} RunsConserve(states: seq<State>, i: nat)
    requires IsRun(states) && i < |states|
    ensures WellFormed(states[i]) && Conserved(states[i])
  {
    if i > 0 {
      var s := states[i - 1];
      RunsConserve(states, i - 1);
      assert IsStep(s, states[i]);
      var a :| Enabled(s, a) && states[i] == Next(s, a);
      hide Next, Enabled, IsRun, Conserved, WellFormed;
      StepKeepsWellFormed(s, a);
      ConservedStep(s, a);
    }
  }

  /** In every reachable state table, buffer and running flushes together hold exactly what was recorded. */
  lemma CountersConserved(states: seq<State>, i: nat, k: Key, c: Column)
    requires IsRun(states) && i < |states|
    ensures Total(states[i], k, c) + InFlight(states[i], k, c) == Recorded(states[i], k, c)
  {
    RunsConserve(states, i);
  }

  function Kept(k: Key): (nat, Call) -> int {
    (_, r: Call) => if r.key == k && !r.refunded then 1 else 0
  }

  /** Over the three places together refunds never exceed calls. */
  lemma RefundsWithinCalls(states: seq<State>, i: nat, k: Key)
    requires IsRun(states) && i < |states|
    ensures Total(states[i], k, Refunds) + InFlight(states[i], k, Refunds)
            <= Total(states[i], k, Calls) + InFlight(states[i], k, Calls)
  {
    RunsConserve(states, i);
    var calls := states[i].calls;
    SumAdd(calls, Counts(k, Refunds), Kept(k), Counts(k, Calls));
    SumBounds(calls, Kept(k));
  }

  /** Once everything is flushed the table alone is exact, and no row refunds more than it counts. */
  lemma QuietTableIsExact(states: seq<State>, i: nat, k: Key, c: Column)
    requires IsRun(states) && i < |states|
    requires states[i].buffer == map[] && states[i].flushes == map[]
    ensures At(states[i].rows, k, c) == Recorded(states[i], k, c)
    ensures At(states[i].rows, k, Refunds) <= At(states[i].rows, k, Calls)
  {
    RunsConserve(states, i);
    RefundsWithinCalls(states, i, k);
  }

  function Overtaken(point: int): State {
    var one := map[0 := Flush(map["k" := Usage(1, 0)], "k", AtBump)];
    var two := one[1 := Flush(map["k" := Usage(0, 1)], "k", if point < 5 then AtBump else AtInsert)];
    var calls := map[0 := Call("k", point >= 3)];
    if point <= 0 then START
    else if point == 1 then State(map["k" := Usage(1, 0)], map[], map[], calls)
    else if point == 2 then State(map[], map[], one, calls)
    else if point == 3 then State(map["k" := Usage(0, 1)], map[], one, calls)
    else if point < 6 then State(map[], map[], two, calls)
    else State(map[], map["k" := Usage(0, 1)], one, calls)
  }

  lemma OvertakenBuffers()
    ensures IsStep(Overtaken(0), Overtaken(1))
    ensures IsStep(Overtaken(1), Overtaken(2))
    ensures IsStep(Overtaken(2), Overtaken(3))
    ensures IsStep(Overtaken(3), Overtaken(4))
  {
    hide Statement;
    assert Next(Overtaken(0), Record(0, "k")) == Overtaken(1);
    assert Next(Overtaken(1), StartFlush(0, "k")) == Overtaken(2);
    assert Next(Overtaken(2), RefundCall(0)) == Overtaken(3);
    assert Next(Overtaken(3), StartFlush(1, "k")) == Overtaken(4);
  }

  lemma OvertakenBump()
    ensures IsStep(Overtaken(4), Overtaken(5))
  {
    assert Next(Overtaken(4), RunStatement(1, false, "k")) == Overtaken(5);
  }

  lemma OvertakenInsert()
    ensures IsStep(Overtaken(5), Overtaken(6))
  {
    var s := Overtaken(5);
    assert s.flushes[1].rest - {"k"} == map[];
    assert s.flushes - {1} == Overtaken(6).flushes;
    assert Next(s, RunStatement(1, false, "k")) == Overtaken(6);
  }

  function OvertakenRun(): (r: seq<State>)
    ensures |r| == 7 && forall i :: 0 <= i < 7 ==> r[i] == Overtaken(i)
  {
    seq(7, i requires 0 <= i < 7 => Overtaken(i))
  }

  lemma OvertakenSteps()
    ensures IsRun(OvertakenRun())
  {
    OvertakenBuffers();
    OvertakenBump();
    OvertakenInsert();
    assert Overtaken(0) == START;
    hide Overtaken, IsStep;
    var states := OvertakenRun();
    forall i | 0 < i < 7
      ensures IsStep(states[i - 1], states[i])
    {
      assert i == 1 || i == 2 || i == 3 || i == 4 || i == 5 || i == 6;
    }
  }

  /** The overtaking run has two flushes. */
  lemma OvertakenFlushes(i: nat)
    requires i <= 6
    ensures |Overtaken(i).flushes| <= 2
  {
  }

  /** While flushes overlap the table alone may show a refund before the call it belongs to. */
  lemma RefundStoredFirst()
    ensures IsRun(OvertakenRun()) && forall i :: 0 <= i < 7 ==> |OvertakenRun()[i].flushes| <= 2
    ensures At(OvertakenRun()[6].rows, "k", Refunds) > At(OvertakenRun()[6].rows, "k", Calls)
  {
    OvertakenSteps();
    hide IsRun;
    forall i: nat | i <= 6
      ensures |Overtaken(i).flushes| <= 2
    {
      OvertakenFlushes(i);
    }
  }

  // ---------------------------------------------------------------- when the table alone is safe

  /** A run in which at most `n` flushes are ever running at once. */
  ghost predicate IsCappedRun(states: seq<State>, n: nat) {
    IsRun(states) && forall i :: 0 <= i < |states| ==> |states[i].flushes| <= n
  }

  ghost predicate TableWithinCalls(rows: map<Key, Usage>) {
    forall k :: At(rows, k, Refunds) <= At(rows, k, Calls)
  }

  /** Whatever happens, no row ever refunds more than it counts. */
  ghost predicate TableAlwaysWithinCalls(n: nat) {
    forall states: seq<State>, i: nat :: IsCappedRun(states, n) && i < |states| ==> TableWithinCalls(states[i].rows)
  }

  /** Rows with what a running flush still carries. */
  ghost predicate FlushWithinCalls(rows: map<Key, Usage>, rest: map<Key, Usage>) {
    forall k :: At(rows, k, Refunds) + At(rest, k, Refunds) <= At(rows, k, Calls) + At(rest, k, Calls)
  }

  ghost predicate WithinCalls(s: State) {
    TableWithinCalls(s.rows) && forall id :: id in s.flushes ==> FlushWithinCalls(s.rows, s.flushes[id].rest)
  }

  /** A flush that is alone takes up everything that is not stored yet. */
  lemma LoneFlushTakesAll(states: seq<State>, i: nat)
    requires IsRun(states) && i < |states| && states[i].flushes == map[]
    ensures FlushWithinCalls(states[i].rows, states[i].buffer)
  {
    forall k
      ensures At(states[i].rows, k, Refunds) + At(states[i].buffer, k, Refunds)
              <= At(states[i].rows, k, Calls) + At(states[i].buffer, k, Calls)
    {
      RefundsWithinCalls(states, i, k);
    }
  }

  /** Storing a delta moves it from the flush into its row. */
  lemma StoredWithinCalls(rows: map<Key, Usage>, rest: map<Key, Usage>, k: Key)
    requires TableWithinCalls(rows) && FlushWithinCalls(rows, rest) && k in rest
    ensures TableWithinCalls(Added(rows, k, rest[k])) && FlushWithinCalls(Added(rows, k, rest[k]), rest - {k})
  {
    forall x
      ensures At(Added(rows, k, rest[k]), x, Refunds) <= At(Added(rows, k, rest[k]), x, Calls)
      ensures At(Added(rows, k, rest[k]), x, Refunds) + At(rest - {k}, x, Refunds)
              <= At(Added(rows, k, rest[k]), x, Calls) + At(rest - {k}, x, Calls)
    {
      assert At(rows, x, Refunds) <= At(rows, x, Calls);
      assert At(rows, x, Refunds) + At(rest, x, Refunds) <= At(rows, x, Calls) + At(rest, x, Calls);
    }
  }

  lemma RequeuedWithinCalls(rows: map<Key, Usage>, rest: map<Key, Usage>, k: Key)
    requires TableWithinCalls(rows) && FlushWithinCalls(rows, rest)
    ensures FlushWithinCalls(rows, rest - {k})
  {
    forall x
      ensures At(rows, x, Refunds) + At(rest - {k}, x, Refunds) <= At(rows, x, Calls) + At(rest - {k}, x, Calls)
    {
      assert At(rows, x, Refunds) <= At(rows, x, Calls);
      assert At(rows, x, Refunds) + At(rest, x, Refunds) <= At(rows, x, Calls) + At(rest, x, Calls);
    }
  }

  lemma OnlyFlush(flushes: map<nat, Flush>, id: nat, other: nat)
    requires |flushes| <= 1 && id in flushes && other in flushes
    ensures other == id
  {
    assert |flushes.Keys| == |flushes|;
    assert flushes.Keys == {id, other} + (flushes.Keys - {id, other});
    assert |flushes.Keys| == |{id, other}| + |flushes.Keys - {id, other}|;
  }

  lemma StatementWithinCalls(s: State, id: nat, fails: bool, next: Key)
    requires WellFormed(s) && WithinCalls(s) && id in s.flushes && |s.flushes| <= 1
    ensures WithinCalls(Statement(s, id, fails, next))
  {
    var f := s.flushes[id];
    StatementOutcome(s, id, fails, next);
    StoredWithinCalls(s.rows, f.rest, f.current);
    RequeuedWithinCalls(s.rows, f.rest, f.current);
    forall other | other in s.flushes
      ensures other == id
    {
      OnlyFlush(s.flushes, id, other);
    }
    hide Statement, TableWithinCalls, FlushWithinCalls, Added;
  }

  lemma NoFlushBefore(flushes: map<nat, Flush>, id: nat, f: Flush)
    requires id !in flushes && |flushes[id := f]| <= 1
    ensures flushes == map[]
  {
    assert flushes[id := f].Keys == flushes.Keys + {id};
    assert |flushes[id := f]| == |flushes[id := f].Keys| && |flushes| == |flushes.Keys|;
  }

  lemma StepWithinCalls(states: seq<State>, i: nat, a: Action)
    requires IsRun(states) && i < |states| && WellFormed(states[i]) && WithinCalls(states[i]) && Enabled(states[i], a)
    requires |states[i].flushes| <= 1 && |Next(states[i], a).flushes| <= 1
    ensures WithinCalls(Next(states[i], a))
  {
    hide IsRun, Statement;
    var s := states[i];
    match a
    case StartFlush(id, first) =>
      NoFlushBefore(s.flushes, id, Flush(s.buffer, first, AtBump));
      LoneFlushTakesAll(states, i);
    case RunStatement(id, fails, next) => StatementWithinCalls(s, id, fails, next);
    case _ =>
  }

  lemma {:induction false} LoneFlushesKeepTable(states: seq<State>, i: nat)
    requires IsCappedRun(states, 1) && i < |states|
    ensures WithinCalls(states[i])
  {
    if i > 0 {
      LoneFlushesKeepTable(states, i - 1);
      RunsConserve(states, i - 1);
      assert IsStep(states[i - 1], states[i]);
      var a :| Enabled(states[i - 1], a) && states[i] == Next(states[i - 1], a);
      assert |states[i - 1].flushes| <= 1 && |states[i].flushes| <= 1;
      hide Next, Enabled, WithinCalls, Conserved, WellFormed;
      StepWithinCalls(states, i - 1, a);
    }
  }

  /** No row of the table ever refunds more than it counts, in every run, exactly when flushes never overlap. */
  lemma TableSafeIffFlushesAlone(n: nat)
    ensures TableAlwaysWithinCalls(n) <==> n <= 1
  {
    if n <= 1 {
      forall states: seq<State>, i: nat | IsCappedRun(states, n) && i < |states|
        ensures TableWithinCalls(states[i].rows)
      {
        LoneFlushesKeepTable(states, i);
      }
    } else {
      var states := OvertakenRun();
      RefundStoredFirst();
      assert IsCappedRun(states, n);
      assert !TableWithinCalls(states[6].rows);
    }
  }
}
