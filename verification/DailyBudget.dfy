/**
 The daily budget of an agent grant. Each request runs up to three separate statements on the grant row,
 and any number of requests interleave between them while holding rows read at any earlier time.
 */
module DailyBudget {
  import opened Options

  type Day = nat

  /** The stored columns: the day the counter belongs to, and the counter. */
  datatype GrantRow = GrantRow(budgetWindow: Option<Day>, jobsUsedToday: int)

  // ---------------------------------------------------------------- the three statements

  /** Compare-and-swap of the window: succeeds only while the row still holds the window the request read. */
  function ResetWindow(row: GrantRow, stale: Option<Day>, today: Day): (GrantRow, bool) {
    if row.budgetWindow == stale then (GrantRow(Some(today), 1), true) else (row, false)
  }

  function Increment(row: GrantRow, today: Day, max: nat): (GrantRow, bool) {
    if row.budgetWindow == Some(today) && row.jobsUsedToday < max then (row.(jobsUsedToday := row.jobsUsedToday + 1), true)
    else (row, false)
  }

  function Refund(row: GrantRow, window: Day): GrantRow {
    if row.budgetWindow == Some(window) && row.jobsUsedToday > 0 then row.(jobsUsedToday := row.jobsUsedToday - 1) else row
  }

  /** The grant table as one request sees it when no other statement runs in between. */
  class GrantTable {
    var row: GrantRow

    constructor (row: GrantRow)
      ensures this.row == row
    {
      this.row := row;
    }

    method ConsumeDailyBudget(stale: Option<Day>, today: Day, max: nat) returns (consumed: bool)
      modifies this
      ensures consumed == Admits(old(row), stale, today, max)
      ensures consumed ==> row.budgetWindow == Some(today)
      ensures consumed && old(row.budgetWindow) == Some(today) ==> row.jobsUsedToday == old(row.jobsUsedToday) + 1
      ensures consumed && old(row.budgetWindow) != Some(today) ==> row.jobsUsedToday == 1
      ensures !consumed ==> row == old(row)
    {
      if stale != Some(today) {
        var (next, reset) := ResetWindow(row, stale, today);
        row := next;
        if reset {
          return true;
        }
      }
      var (next, incremented) := Increment(row, today, max);
      row := next;
      consumed := incremented;
    }

    method RefundDailyBudget(window: Day)
      modifies this
      ensures row == Refund(old(row), window)
    {
      row := Refund(row, window);
    }
  }

  /** When a request running alone is admitted. */
  predicate Admits(row: GrantRow, stale: Option<Day>, today: Day, max: nat) {
    (stale != Some(today) && row.budgetWindow == stale) || (row.budgetWindow == Some(today) && row.jobsUsedToday < max)
  }

  /** A unit of today's budget is unused. */
  predicate Available(row: GrantRow, today: Day, max: nat) {
    row.budgetWindow == Some(today) ==> row.jobsUsedToday < max
  }

  /** With a unit left, a request is refused exactly when the row moved to another past window since it was read. */
  lemma AdmittedIffFresh(row: GrantRow, stale: Option<Day>, today: Day, max: nat)
    requires Available(row, today, max) && max >= 1
    ensures Admits(row, stale, today, max) <==> row.budgetWindow == stale || row.budgetWindow == Some(today)
  {
  }

  /** A request holding a row two windows behind is refused although nothing was used today. */
  lemma StaleRowRefused()
    ensures
      var row, stale, today := GrantRow(Some(2), 1), Some(1), 3;
      Available(row, today, 5) && !Admits(row, stale, today, 5)
  {
  }

  // ---------------------------------------------------------------- the protocol

  /** Where a request stands: before a statement, refused, or holding a unit it may give back. */
  datatype Phase = AtReset | AtIncrement | Refused | Charged | Refunded

  /** A request names the day it was counted on and the window of the row it holds. */
  datatype Request = Request(stale: Option<Day>, today: Day, phase: Phase)

  /** `seen` collects every window the row ever had, so a request may hold an arbitrarily old row. */
  datatype State = State(row: GrantRow, clock: Day, seen: set<Option<Day>>, requests: map<nat, Request>)

  datatype Action =
    | Tick
    | Begin(id: nat, stale: Option<Day>)
    | RunReset(id: nat)
    | RunIncrement(id: nat)
    | RunRefund(id: nat)
    | StatementFails(id: nat)

  predicate Enabled(s: State, a: Action) {
    match a
    case Tick => true
    case Begin(id, stale) => id !in s.requests && stale in s.seen
    case RunReset(id) => id in s.requests && s.requests[id].phase == AtReset
    case RunIncrement(id) => id in s.requests && s.requests[id].phase == AtIncrement
    case RunRefund(id) => id in s.requests && s.requests[id].phase == Charged
    case StatementFails(id) => id in s.requests && s.requests[id].phase in {AtReset, AtIncrement}
  }

  function SetPhase(s: State, id: nat, phase: Phase): map<nat, Request>
    requires id in s.requests
  {
    s.requests[id := s.requests[id].(phase := phase)]
  }

  function Next(s: State, a: Action, max: nat): State
    requires Enabled(s, a)
  {
    match a
    case Tick => s.(clock := s.clock + 1)
    case Begin(id, stale) =>
      s.(requests := s.requests[id := Request(stale, s.clock, if stale != Some(s.clock) then AtReset else AtIncrement)])
    case RunReset(id) =>
      var (row, reset) := ResetWindow(s.row, s.requests[id].stale, s.requests[id].today);
      State(row, s.clock, s.seen + {row.budgetWindow}, SetPhase(s, id, if reset then Charged else AtIncrement))
    case RunIncrement(id) =>
      var (row, incremented) := Increment(s.row, s.requests[id].today, max);
      State(row, s.clock, s.seen, SetPhase(s, id, if incremented then Charged else Refused))
    case RunRefund(id) =>
      State(Refund(s.row, s.requests[id].today), s.clock, s.seen, SetPhase(s, id, Refunded))
    case StatementFails(id) => s.(requests := SetPhase(s, id, Refused))
  }

  /** Units of a day that were admitted and not refunded: a request holds at most one. */
  function UnitsHeld(requests: map<nat, Request>, day: Day): set<nat> {
    set id | id in requests && requests[id].phase == Charged && requests[id].today == day
  }

  /** No window lies after it; a row without a window comes before every day. */
  predicate NotAfter(w: Option<Day>, v: Option<Day>) {
    w.Some? ==> v.Some? && w.value <= v.value
  }

  ghost predicate Inv(s: State, max: nat) {
    && NotAfter(s.row.budgetWindow, Some(s.clock))
    && (forall w :: w in s.seen ==> NotAfter(w, s.row.budgetWindow))
    && s.row.budgetWindow in s.seen
    && (forall id :: id in s.requests ==> NotAfter(s.requests[id].stale, Some(s.requests[id].today)))
    && (forall id :: id in s.requests ==> s.requests[id].today <= s.clock)
    && (forall id :: id in s.requests && s.requests[id].phase == AtReset ==> s.requests[id].stale != Some(s.requests[id].today))
    && (forall id :: id in s.requests && s.requests[id].phase == Charged ==> NotAfter(Some(s.requests[id].today), s.row.budgetWindow))
    && (s.row.budgetWindow.Some? ==> s.row.jobsUsedToday == |UnitsHeld(s.requests, s.row.budgetWindow.value)|)
    && (forall day :: |UnitsHeld(s.requests, day)| <= max)
  }

  /** Changing the phase of one request changes only the units of its day. */
  lemma UnitsAfter(s: State, id: nat, phase: Phase, day: Day)
    requires id in s.requests
    ensures
      var before, after := UnitsHeld(s.requests, day), UnitsHeld(SetPhase(s, id, phase), day);
      && (s.requests[id].today != day ==> after == before)
      && (s.requests[id].today == day && phase == Charged ==> after == before + {id})
      && (s.requests[id].today == day && phase != Charged ==> after == before - {id})
  {
  }

  /** A refund only ever takes one unit back, from the counter of its own day, and never below zero. */
  lemma RefundIs(row: GrantRow, window: Day)
    ensures
      var after := Refund(row, window);
      && after.budgetWindow == row.budgetWindow
      && after.jobsUsedToday == row.jobsUsedToday - (if row.budgetWindow == Some(window) && row.jobsUsedToday >= 1 then 1 else 0)
      && (row.jobsUsedToday >= 0 ==> after.jobsUsedToday >= 0)
  {
  }

  /** The statements one request runs when nothing interleaves. */
  function Alone(s: State, id: nat, stale: Option<Day>, max: nat): State
    requires id !in s.requests && stale in s.seen
  {
    var begun := Next(s, Begin(id, stale), max);
    var reset := if stale != Some(s.clock) then Next(begun, RunReset(id), max) else begun;
    if reset.requests[id].phase == AtIncrement then Next(reset, RunIncrement(id), max) else reset
  }

  /** On its own the protocol is the method: the unit is charged exactly when the method consumes it, and refunded once. */
  lemma AloneIsMethod(s: State, id: nat, stale: Option<Day>, max: nat)
    requires id !in s.requests && stale in s.seen
    ensures
      var t := Alone(s, id, stale, max);
      && t.clock == s.clock && id in t.requests && t.requests == s.requests[id := t.requests[id]]
      && t.requests[id] == Request(stale, s.clock, if Admits(s.row, stale, s.clock, max) then Charged else Refused)
      && (Admits(s.row, stale, s.clock, max) ==>
            && t.row == GrantRow(Some(s.clock), if s.row.budgetWindow == Some(s.clock) && stale == Some(s.clock) then s.row.jobsUsedToday + 1
                                                else if s.row.budgetWindow == stale then 1 else s.row.jobsUsedToday + 1)
            && Enabled(t, RunRefund(id)) && !Enabled(Next(t, RunRefund(id), max), RunRefund(id)))
      && (!Admits(s.row, stale, s.clock, max) ==> t.row == s.row && !Enabled(t, RunRefund(id)))
  {
  }

  /** A failing statement refuses its request for good and leaves the row alone. */
  lemma FailedStatementRefuses(s: State, id: nat, max: nat)
    requires Enabled(s, StatementFails(id))
    ensures
      var t := Next(s, StatementFails(id), max);
      t.row == s.row && t.requests[id].phase == Refused && forall a :: Enabled(t, a) ==> a.Tick? || a.id != id
  {
  }

  /** Nobody holds a unit of a day the window has not reached. */
  lemma NoUnitsYet(s: State, id: nat, max: nat)
    requires Inv(s, max) && Enabled(s, RunReset(id)) && s.row.budgetWindow == s.requests[id].stale
    ensures UnitsHeld(s.requests, s.requests[id].today) == {}
  {
    var r := s.requests[id];
    assert NotAfter(s.row.budgetWindow, Some(r.today)) && s.row.budgetWindow != Some(r.today);
  }

  lemma NothingHeld(s: State, id: nat, day: Day)
    requires id in s.requests && s.requests[id].phase != Charged
    ensures UnitsHeld(s.requests, day) - {id} == UnitsHeld(s.requests, day)
  {
  }

  /** A won reset moves the window to the day of its one unit. */
  lemma FirstUnit(s: State, id: nat, max: nat)
    requires Inv(s, max) && max >= 1 && Enabled(s, RunReset(id)) && s.row.budgetWindow == s.requests[id].stale
    requires forall day ::
               UnitsHeld(SetPhase(s, id, Charged), day) == if day == s.requests[id].today then {id} else UnitsHeld(s.requests, day)
    ensures Inv(Next(s, RunReset(id), max), max)
  {
    hide UnitsHeld;
    assert NotAfter(s.row.budgetWindow, Some(s.requests[id].today));
  }

  lemma ResetKeeps(s: State, id: nat, max: nat)
    requires Inv(s, max) && max >= 1 && Enabled(s, RunReset(id))
    ensures Inv(Next(s, RunReset(id), max), max)
  {
    hide UnitsHeld;
    if s.row.budgetWindow == s.requests[id].stale {
      NoUnitsYet(s, id, max);
      forall day
        ensures UnitsHeld(SetPhase(s, id, Charged), day) == if day == s.requests[id].today then {id} else UnitsHeld(s.requests, day)
      {
        UnitsAfter(s, id, Charged, day);
      }
      FirstUnit(s, id, max);
    } else {
      forall day
        ensures UnitsHeld(SetPhase(s, id, AtIncrement), day) == UnitsHeld(s.requests, day)
      {
        UnitsAfter(s, id, AtIncrement, day);
        NothingHeld(s, id, day);
      }
    }
  }

  lemma IncrementKeeps(s: State, id: nat, max: nat)
    requires Inv(s, max) && Enabled(s, RunIncrement(id))
    ensures Inv(Next(s, RunIncrement(id), max), max)
  {
    var s' := Next(s, RunIncrement(id), max);
    forall day {
      UnitsAfter(s, id, s'.requests[id].phase, day);
    }
  }

  /** A due refund in the current window is never stopped by the guard on the counter. */
  lemma RefundTakesEffect(s: State, id: nat, max: nat)
    requires Inv(s, max) && Enabled(s, RunRefund(id)) && s.row.budgetWindow == Some(s.requests[id].today)
    ensures s.row.jobsUsedToday > 0
    ensures Next(s, RunRefund(id), max).row.jobsUsedToday == s.row.jobsUsedToday - 1
  {
    assert id in UnitsHeld(s.requests, s.requests[id].today);
  }

  lemma RefundKeeps(s: State, id: nat, max: nat)
    requires Inv(s, max) && Enabled(s, RunRefund(id))
    ensures Inv(Next(s, RunRefund(id), max), max)
  {
    var r := s.requests[id];
    forall day {
      UnitsAfter(s, id, Refunded, day);
    }
    if s.row.budgetWindow == Some(r.today) {
      RefundTakesEffect(s, id, max);
    }
  }

  /** Every step keeps the counter exact and the budget unspent beyond its maximum. */
  lemma StepKeeps(s: State, a: Action, max: nat)
    requires Inv(s, max) && max >= 1 && Enabled(s, a)
    ensures Inv(Next(s, a, max), max)
    ensures NotAfter(s.row.budgetWindow, Next(s, a, max).row.budgetWindow)
  {
    match a
    case RunReset(id) => ResetKeeps(s, id, max);
    case RunIncrement(id) => IncrementKeeps(s, id, max);
    case RunRefund(id) => RefundKeeps(s, id, max);
    case _ =>
      forall day
        ensures UnitsHeld(Next(s, a, max).requests, day) == UnitsHeld(s.requests, day)
      {
      }
  }

  // ---------------------------------------------------------------- runs

  /** A new grant: no window, nothing used. */
  function Fresh(day: Day): State {
    State(GrantRow(None, 0), day, {None}, map[])
  }

  ghost predicate IsRun(states: seq<State>, max: nat) {
    && states != []
    && (exists day :: states[0] == Fresh(day))
    && (forall i :: 0 <= i < |states| - 1 ==> exists a :: Enabled(states[i], a) && states[i + 1] == Next(states[i], a, max))
  }

  lemma StepOf(states: seq<State>, max: nat, i: nat) returns (a: Action)
    requires IsRun(states, max) && 0 < i < |states|
    ensures Enabled(states[i - 1], a) && states[i] == Next(states[i - 1], a, max)
  {
    a :| Enabled(states[i - 1], a) && states[i] == Next(states[i - 1], a, max);
  }

  lemma {:induction false} RunsKeepInv(states: seq<State>, max: nat, i: nat)
    requires IsRun(states, max) && max >= 1 && i < |states|
    ensures Inv(states[i], max)
  {
    if i == 0 {
      forall day
        ensures UnitsHeld(states[0].requests, day) == {}
      {
      }
    } else {
      hide IsRun, Inv, Next, Enabled;
      RunsKeepInv(states, max, i - 1);
      var a := StepOf(states, max, i);
      StepKeeps(states[i - 1], a, max);
    }
  }

  /** In every reachable state no day is overspent and the counter is what its day still holds. */
  lemma BudgetNeverOverspent(states: seq<State>, max: nat, i: nat, day: Day)
    requires IsRun(states, max) && max >= 1 && i < |states|
    ensures |UnitsHeld(states[i].requests, day)| <= max
    ensures states[i].row.budgetWindow == Some(day) ==> states[i].row.jobsUsedToday == |UnitsHeld(states[i].requests, day)|
  {
    RunsKeepInv(states, max, i);
  }

  /** The window never moves backwards, however stale the rows the requests hold. */
  lemma {:induction false} WindowMovesForward(states: seq<State>, max: nat, i: nat, j: nat)
    requires IsRun(states, max) && max >= 1 && i <= j < |states|
    ensures NotAfter(states[i].row.budgetWindow, states[j].row.budgetWindow)
  {
    hide IsRun, Inv, Next, Enabled;
    if i < j {
      WindowMovesForward(states, max, i, j - 1);
      RunsKeepInv(states, max, j - 1);
      var a := StepOf(states, max, j);
      StepKeeps(states[j - 1], a, max);
    }
  }
}
