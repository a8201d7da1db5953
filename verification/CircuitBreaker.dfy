/**
 The circuit breaker of a backend. Closed passes calls, open passes none until the reset timeout has elapsed,
 half-open hands out a limited number of probe slots.
 */
module CircuitBreaker {
  import opened Options

  datatype Circuit = Closed | Open | HalfOpen

  datatype Config = Config(failureThreshold: nat, successThreshold: nat, resetTimeoutMs: nat)

  datatype Entry = Entry(circuit: Circuit, failures: nat, successes: nat, lastFailureTime: int, halfOpenProbes: nat)

  const NO_FAILURES := Entry(Closed, 0, 0, 0, 0)

  // ---------------------------------------------------------------- one circuit

  /** A call asks to go through; a backend without history is closed. */
  function Attempted(e: Option<Entry>, now: int, c: Config): (Option<Entry>, bool) {
    match e
    case None => (None, true)
    case Some(x) =>
      match x.circuit
      case Closed => (e, true)
      case Open =>
        if now - x.lastFailureTime >= c.resetTimeoutMs
        then (Some(x.(circuit := HalfOpen, successes := 0, halfOpenProbes := 1)), true)
        else (e, false)
      case HalfOpen =>
        if x.halfOpenProbes >= c.successThreshold then (e, false)
        else (Some(x.(halfOpenProbes := x.halfOpenProbes + 1)), true)
  }

  function Succeeded(e: Option<Entry>, c: Config): Option<Entry> {
    if e.None? then None else
      var x := e.value;
      match x.circuit
      case HalfOpen =>
        if x.successes + 1 >= c.successThreshold then Some(x.(circuit := Closed, failures := 0, successes := 0, halfOpenProbes := 0))
        else Some(x.(successes := x.successes + 1, halfOpenProbes := if x.halfOpenProbes > 0 then x.halfOpenProbes - 1 else 0))
      case Closed => Some(x.(failures := 0))
      case Open => e
  }

  function Failed(e: Option<Entry>, now: int, c: Config): Entry {
    var x := if e.Some? then e.value else NO_FAILURES;
    var y := x.(failures := x.failures + 1, lastFailureTime := now);
    match x.circuit
    case HalfOpen => y.(circuit := Open, successes := 0, halfOpenProbes := 0)
    case Closed => if y.failures >= c.failureThreshold then y.(circuit := Open) else y
    case Open => y
  }

  /** The state shown to callers: an overdue open circuit already counts as half-open. */
  function Shown(e: Option<Entry>, now: int, c: Config): Circuit {
    if e.None? then Closed
    else if e.value.circuit == Open && now - e.value.lastFailureTime >= c.resetTimeoutMs then HalfOpen
    else e.value.circuit
  }

  // ---------------------------------------------------------------- the manager

  function EntryOf(circuits: map<string, Entry>, name: string): Option<Entry> {
    if name in circuits then Some(circuits[name]) else None
  }

  /** A backend without history is closed. */
  function CircuitOf(e: Option<Entry>): Circuit {
    if e.Some? then e.value.circuit else Closed
  }

  function With(circuits: map<string, Entry>, name: string, e: Option<Entry>): map<string, Entry> {
    if e.Some? then circuits[name := e.value] else circuits
  }

  class CircuitBreakerManager {
    var circuits: map<string, Entry>
    const config: Config

    constructor (config: Config)
      ensures circuits == map[] && this.config == config
    {
      circuits := map[];
      this.config := config;
    }

    method ShouldAttempt(name: string, now: int) returns (admitted: bool)
      modifies this
      ensures admitted == Attempted(EntryOf(old(circuits), name), now, config).1
      ensures circuits == With(old(circuits), name, Attempted(EntryOf(old(circuits), name), now, config).0)
    {
      if name !in circuits {
        return true;
      }
      var entry := circuits[name];
      if entry.circuit == Closed {
        return true;
      }
      if entry.circuit == Open {
        var elapsed := now - entry.lastFailureTime;
        if elapsed >= config.resetTimeoutMs {
          entry := entry.(circuit := HalfOpen, successes := 0, halfOpenProbes := 1);
          circuits := circuits[name := entry];
          return true;
        }
        return false;
      }
      if entry.halfOpenProbes >= config.successThreshold {
        return false;
      }
      entry := entry.(halfOpenProbes := entry.halfOpenProbes + 1);
      circuits := circuits[name := entry];
      admitted := true;
    }

    method RecordSuccess(name: string)
      modifies this
      ensures circuits == With(old(circuits), name, Succeeded(EntryOf(old(circuits), name), config))
    {
      if name !in circuits {
        return;
      }
      var entry := circuits[name];
      if entry.circuit == HalfOpen {
        entry := entry.(halfOpenProbes := if entry.halfOpenProbes > 0 then entry.halfOpenProbes - 1 else 0, successes := entry.successes + 1);
        if entry.successes >= config.successThreshold {
          entry := entry.(circuit := Closed, failures := 0, successes := 0, halfOpenProbes := 0);
        }
      } else if entry.circuit == Closed {
        entry := entry.(failures := 0);
      }
      circuits := circuits[name := entry];
    }

    method RecordFailure(name: string, now: int)
      modifies this
      ensures circuits == old(circuits)[name := Failed(EntryOf(old(circuits), name), now, config)]
    {
      var entry := if name in circuits then circuits[name] else NO_FAILURES;
      entry := entry.(failures := entry.failures + 1, lastFailureTime := now);
      if entry.circuit == HalfOpen {
        entry := entry.(circuit := Open, successes := 0, halfOpenProbes := 0);
      } else if entry.circuit == Closed && entry.failures >= config.failureThreshold {
        entry := entry.(circuit := Open);
      }
      circuits := circuits[name := entry];
    }

    method GetState(name: string, now: int) returns (shown: Circuit)
      ensures shown == Shown(EntryOf(circuits, name), now, config)
      ensures Attempted(EntryOf(circuits, name), now, config).1 <==> shown != Open && !SlotsGone(EntryOf(circuits, name), config)
    {
      if name !in circuits {
        return Closed;
      }
      var entry := circuits[name];
      if entry.circuit == Open && now - entry.lastFailureTime >= config.resetTimeoutMs {
        return HalfOpen;
      }
      shown := entry.circuit;
    }
  }

  // ---------------------------------------------------------------- runs of one backend

  /**
   `calls` are admitted and not yet over; `sinceSuccess` counts failures reported after the last success,
   `recovered` the successes reported since the circuit was last tried again.
   */
  datatype State = State(entry: Option<Entry>, calls: nat, sinceSuccess: nat, recovered: nat, lastFailure: Option<int>, clock: int)

  /** A call ends with a success, a failure that is reported, or a client error, which is not. */
  datatype Event = Attempt(now: int) | Success(now: int) | Failure(now: int) | ClientError(now: int)

  predicate Enabled(s: State, e: Event) {
    e.now >= s.clock && (!e.Attempt? ==> s.calls > 0)
  }

  function Next(s: State, e: Event, c: Config): State
    requires Enabled(s, e)
  {
    match e
    case Attempt(now) =>
      var (entry, admitted) := Attempted(s.entry, now, c);
      State(entry, if admitted then s.calls + 1 else s.calls, s.sinceSuccess,
            if CircuitOf(s.entry) == Open && admitted then 0 else s.recovered, s.lastFailure, now)
    case Success(now) => State(Succeeded(s.entry, c), s.calls - 1, 0, s.recovered + 1, s.lastFailure, now)
    case Failure(now) => State(Some(Failed(s.entry, now, c)), s.calls - 1, s.sinceSuccess + 1, s.recovered, Some(now), now)
    case ClientError(now) => s.(calls := s.calls - 1, clock := now)
  }

  function After(s: State, events: seq<Event>, c: Config): State
    requires AllEnabled(s, events, c)
    decreases |events|, 1
  {
    if events == [] then s else Next(After(s, events[..|events| - 1], c), events[|events| - 1], c)
  }

  predicate AllEnabled(s: State, events: seq<Event>, c: Config)
    decreases |events|, 0
  {
    events == [] ||
    (AllEnabled(s, events[..|events| - 1], c) && Enabled(After(s, events[..|events| - 1], c), events[|events| - 1]))
  }

  function Start(clock: int): State {
    State(None, 0, 0, 0, None, clock)
  }

  predicate Usable(c: Config) {
    c.failureThreshold >= 1 && c.successThreshold >= 1
  }

  predicate Inv(s: State, c: Config) {
    && (s.entry.None? ==> s.sinceSuccess == 0 && s.lastFailure.None?)
    && (s.entry.Some? ==>
          var x := s.entry.value;
          && (x.circuit == Closed ==> x.failures == s.sinceSuccess < c.failureThreshold)
          && (x.circuit == HalfOpen ==> x.halfOpenProbes <= c.successThreshold && x.successes == s.recovered < c.successThreshold)
          && (x.circuit != HalfOpen ==> x.successes == 0 && x.halfOpenProbes == 0)
          && s.lastFailure == Some(x.lastFailureTime))
  }

  lemma NextKeeps(s: State, e: Event, c: Config)
    requires Inv(s, c) && Enabled(s, e) && Usable(c)
    ensures Inv(Next(s, e, c), c)
  {
  }

  lemma {:induction false} RunsKeep(clock: int, events: seq<Event>, c: Config)
    requires Usable(c) && AllEnabled(Start(clock), events, c)
    ensures Inv(After(Start(clock), events, c), c)
  {
    if events != [] {
      var n := |events| - 1;
      RunsKeep(clock, events[..n], c);
      NextKeeps(After(Start(clock), events[..n], c), events[n], c);
    }
  }

  /** A closed circuit has seen fewer failures since its last success than the threshold. */
  lemma ClosedBelowThreshold(clock: int, events: seq<Event>, c: Config)
    requires Usable(c) && AllEnabled(Start(clock), events, c)
    ensures var s := After(Start(clock), events, c);
            s.entry.None? || s.entry.value.circuit == Closed ==> s.sinceSuccess < c.failureThreshold
  {
    RunsKeep(clock, events, c);
  }

  /** A half-open circuit hands out at most `successThreshold` slots and waits for fewer successes; others count neither. */
  lemma HalfOpenWithinSlots(clock: int, events: seq<Event>, c: Config)
    requires Usable(c) && AllEnabled(Start(clock), events, c)
    ensures var s := After(Start(clock), events, c);
            s.entry.Some? ==>
              var x := s.entry.value;
              if x.circuit == HalfOpen then x.halfOpenProbes <= c.successThreshold && x.successes < c.successThreshold
              else x.halfOpenProbes == 0 && x.successes == 0
  {
    RunsKeep(clock, events, c);
  }

  /** An open circuit admits nothing within the reset timeout of the last reported failure, and the next call after it. */
  lemma OpenWaitsOutTimeout(clock: int, events: seq<Event>, c: Config, now: int)
    requires Usable(c) && AllEnabled(Start(clock), events, c)
    ensures var s := After(Start(clock), events, c);
            s.entry.Some? && s.entry.value.circuit == Open ==>
              s.lastFailure.Some? && (Attempted(s.entry, now, c).1 <==> now >= s.lastFailure.value + c.resetTimeoutMs)
  {
    RunsKeep(clock, events, c);
  }

  /**
   What the shown state says about the next call: open refuses it and the last failure is recent, closed admits
   it with fewer failures than the threshold, half-open admits it unless every slot is taken. An admitted call
   leaves the circuit in the state that was shown.
   */
  lemma ShownPredictsAttempt(clock: int, events: seq<Event>, c: Config, now: int)
    requires Usable(c) && AllEnabled(Start(clock), events, c)
    ensures
      var s := After(Start(clock), events, c);
      var (after, admitted) := Attempted(s.entry, now, c);
      var shown := Shown(s.entry, now, c);
      && (admitted <==> shown == Closed || (shown == HalfOpen && !SlotsGone(s.entry, c)))
      && (admitted ==> CircuitOf(after) == shown)
      && (shown == Closed ==> s.sinceSuccess < c.failureThreshold)
      && (shown == Open ==> s.lastFailure.Some? && now < s.lastFailure.value + c.resetTimeoutMs)
      && (shown == HalfOpen && s.calls == 0 && EveryCallReported(events) ==> admitted)
  {
    RunsKeep(clock, events, c);
    if EveryCallReported(events) {
      SlotsBelongToCalls(clock, events, c);
    }
  }

  /**
   When a circuit changes its state: a closed one opens with the failure that reaches the threshold and with no
   other, a half-open one reopens with any failure and closes with the success it waits for.
   */
  lemma ReportsDecide(clock: int, events: seq<Event>, c: Config, now: int)
    requires Usable(c) && AllEnabled(Start(clock), events, c)
    ensures
      var s := After(Start(clock), events, c);
      s.calls > 0 && now >= s.clock ==>
        var failed, succeeded := Next(s, Failure(now), c), Next(s, Success(now), c);
        match CircuitOf(s.entry)
        case Closed =>
          && CircuitOf(failed.entry) == (if s.sinceSuccess + 1 >= c.failureThreshold then Open else Closed)
          && CircuitOf(succeeded.entry) == Closed
        case HalfOpen =>
          && CircuitOf(failed.entry) == Open
          && CircuitOf(succeeded.entry) == (if s.recovered + 1 >= c.successThreshold then Closed else HalfOpen)
        case Open => CircuitOf(failed.entry) == Open && CircuitOf(succeeded.entry) == Open
  {
    RunsKeep(clock, events, c);
  }

  predicate NoFailure(events: seq<Event>) {
    forall e :: e in events ==> !e.Failure?
  }

  /** Without a reported failure, whatever client errors occur, a circuit that is not open or half-open stays closed. */
  lemma {:induction false} ClientErrorsNeverOpen(s: State, events: seq<Event>, c: Config)
    requires AllEnabled(s, events, c) && NoFailure(events)
    requires s.entry.None? || s.entry.value.circuit == Closed
    ensures var t := After(s, events, c); t.entry.None? || t.entry.value.circuit == Closed
  {
    if events != [] {
      var n := |events| - 1;
      assert events[n] in events;
      ClientErrorsNeverOpen(s, events[..n], c);
    }
  }

  // ---------------------------------------------------------------- progress of a half-open circuit

  predicate EveryCallReported(events: seq<Event>) {
    forall e :: e in events ==> !e.ClientError?
  }

  /** When every call is reported, each slot taken belongs to a call still running. */
  lemma {:induction false} SlotsBelongToCalls(clock: int, events: seq<Event>, c: Config)
    requires Usable(c) && AllEnabled(Start(clock), events, c) && EveryCallReported(events)
    ensures var s := After(Start(clock), events, c);
            s.entry.Some? ==> s.entry.value.halfOpenProbes <= s.calls
  {
    if events != [] {
      var n := |events| - 1;
      assert events[n] in events;
      SlotsBelongToCalls(clock, events[..n], c);
      RunsKeep(clock, events[..n], c);
    }
  }

  /** So once its calls are over a half-open circuit admits the next one. */
  lemma ReportedCallsKeepProgress(clock: int, events: seq<Event>, c: Config, now: int)
    requires Usable(c) && AllEnabled(Start(clock), events, c) && EveryCallReported(events)
    requires var s := After(Start(clock), events, c);
             s.calls == 0 && s.entry.Some? && s.entry.value.circuit == HalfOpen
    ensures Attempted(After(Start(clock), events, c).entry, now, c).1
  {
    SlotsBelongToCalls(clock, events, c);
  }

  /** Tried again and not closed yet. */
  predicate NotYetClosed(s: State, events: seq<Event>, c: Config)
    requires AllEnabled(s, events, c)
    decreases |events|
  {
    CircuitOf(After(s, events, c).entry) != Closed && (events == [] || NotYetClosed(s, events[..|events| - 1], c))
  }

  /**
   Tried again with no call running, and until it closes or a call fails or ends unreported, a circuit has as many
   slots taken as calls are running, so these are never more than it hands out.
   */
  lemma {:induction false} ProbesWithinSlots(s: State, events: seq<Event>, c: Config)
    requires Usable(c) && CircuitOf(s.entry) == Open && s.calls == 0 && AllEnabled(s, events, c)
    requires NoFailure(events) && EveryCallReported(events) && NotYetClosed(s, events, c)
    ensures
      var t := After(s, events, c);
      t.calls <= c.successThreshold && t.calls == if CircuitOf(t.entry) == HalfOpen then t.entry.value.halfOpenProbes else 0
  {
    if events != [] {
      var n := |events| - 1;
      assert events[n] in events;
      ProbesWithinSlots(s, events[..n], c);
    }
  }

  /** Half-open with every slot taken. */
  predicate SlotsGone(e: Option<Entry>, c: Config) {
    e.Some? && e.value.circuit == HalfOpen && e.value.halfOpenProbes >= c.successThreshold
  }

  /** With no call running, some later call is admitted exactly when the circuit is not half-open with its slots gone. */
  lemma EventuallyAdmittedIff(s: State, c: Config)
    requires s.calls == 0
    ensures (exists events :: AllEnabled(s, events, c) && After(s, events, c).calls > 0) <==> !SlotsGone(s.entry, c)
  {
    if SlotsGone(s.entry, c) {
      forall events | AllEnabled(s, events, c)
        ensures After(s, events, c).calls == 0
      {
        StuckForever(s, events, c);
      }
    } else {
      var late := if s.entry.Some? then s.entry.value.lastFailureTime + c.resetTimeoutMs else s.clock;
      var events := [Attempt(if late > s.clock then late else s.clock)];
      assert events[..0] == [] && AllEnabled(s, [], c);
      assert AllEnabled(s, events, c) && After(s, events, c).calls > 0;
    }
  }

  /** With its slots gone and no call running the circuit never changes again. */
  lemma {:induction false} StuckForever(s: State, events: seq<Event>, c: Config)
    requires s.calls == 0 && SlotsGone(s.entry, c) && AllEnabled(s, events, c)
    ensures After(s, events, c).entry == s.entry && After(s, events, c).calls == 0
  {
    if events != [] {
      StuckForever(s, events[..|events| - 1], c);
    }
  }

  /** Probes that each end in a client error, from the moment an open circuit is overdue. */
  function Leaks(now: int, n: nat): seq<Event> {
    if n == 0 then [] else Leaks(now, n - 1) + [Attempt(now), ClientError(now)]
  }

  lemma OneMore(s: State, events: seq<Event>, e: Event, c: Config)
    requires AllEnabled(s, events, c) && Enabled(After(s, events, c), e)
    ensures AllEnabled(s, events + [e], c) && After(s, events + [e], c) == Next(After(s, events, c), e, c)
  {
    assert (events + [e])[..|events|] == events;
  }

  /** No call runs, and the circuit is overdue to be tried, or half-open with `n` slots gone. */
  predicate SlotsTaken(s: State, n: nat, now: int, c: Config) {
    && s.calls == 0 && s.clock <= now && s.entry.Some?
    && (if n == 0 then s.entry.value.circuit == Open && now >= s.entry.value.lastFailureTime + c.resetTimeoutMs
        else s.entry.value.circuit == HalfOpen && s.entry.value.halfOpenProbes == n)
  }

  /** One more probe that ends in a client error takes one more slot. */
  lemma ProbeTakesSlot(s: State, n: nat, now: int, c: Config)
    requires SlotsTaken(s, n, now, c) && n < c.successThreshold
    ensures Enabled(s, Attempt(now)) && Enabled(Next(s, Attempt(now), c), ClientError(now))
    ensures SlotsTaken(Next(Next(s, Attempt(now), c), ClientError(now), c), n + 1, now, c)
  {
  }

  /** A half-open circuit loses one slot for good with every client error; as many as there are slots block it. */
  lemma {:induction false} ClientErrorsTakeSlots(s: State, now: int, n: nat, c: Config)
    requires SlotsTaken(s, 0, now, c) && n <= c.successThreshold
    ensures AllEnabled(s, Leaks(now, n), c) && SlotsTaken(After(s, Leaks(now, n), c), n, now, c)
    ensures n > 0 && n == c.successThreshold ==> SlotsGone(After(s, Leaks(now, n), c).entry, c)
  {
    hide AllEnabled, After, Next, Enabled, SlotsTaken, SlotsGone;
    if n == 0 {
      NothingHappened(s, c);
    } else {
      ClientErrorsTakeSlots(s, now, n - 1, c);
      var before := Leaks(now, n - 1);
      ProbeTakesSlot(After(s, before, c), n - 1, now, c);
      OneMore(s, before, Attempt(now), c);
      OneMore(s, before + [Attempt(now)], ClientError(now), c);
      assert Leaks(now, n) == before + [Attempt(now)] + [ClientError(now)];
    }
    AllSlotsGone(After(s, Leaks(now, n), c), n, now, c);
  }

  lemma NothingHappened(s: State, c: Config)
    ensures AllEnabled(s, [], c) && After(s, [], c) == s
  {
  }

  lemma AllSlotsGone(s: State, n: nat, now: int, c: Config)
    requires SlotsTaken(s, n, now, c)
    ensures n > 0 && n == c.successThreshold ==> SlotsGone(s.entry, c)
  {
  }
}
