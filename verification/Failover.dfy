/**
 Calls over several backends: tried in preference order, skipped when they do not support the method or their
 circuit is open, initialised late when their start failed.
 */
module Failover {
  import opened Options
  import opened CircuitBreaker

  datatype Backend = Backend(name: string, unsupported: set<string>)

  datatype BackendError = BackendError(backend: string, statusCode: nat, message: string)

  datatype Outcome = Value(value: string) | Rejected(error: BackendError)

  /** How a backend behaves during one call: when it is asked and when it ends, a failing late start, its answer. */
  datatype Conduct = Conduct(askedAt: int, endedAt: int, initError: Option<BackendError>, outcome: Outcome)

  datatype Skip = Unsupported(backend: string) | CircuitOpen(backend: string)

  datatype Result = Answer(value: string) | Final(error: BackendError) | AllFailed(errors: seq<BackendError>, skipped: seq<Skip>)

  /** What a call meets: circuits and late starters before it, the method, and the backends' conduct. */
  datatype Setting = Setting(circuits: map<string, Entry>, config: Config, uninitialized: set<string>,
                             methodName: Option<string>, conduct: string -> Conduct)

  /** What becomes of one backend in the loop. */
  datatype Fate = Skipped(skip: Skip) | InitFailed(error: BackendError) | Answered(value: string) | Erred(error: BackendError)

  predicate IsClientError(e: BackendError) {
    400 <= e.statusCode < 500
  }

  function FateOf(b: Backend, s: Setting): Fate {
    var c := s.conduct(b.name);
    if s.methodName.Some? && s.methodName.value in b.unsupported then Skipped(Unsupported(b.name))
    else if !Attempted(EntryOf(s.circuits, b.name), c.askedAt, s.config).1 then Skipped(CircuitOpen(b.name))
    else if b.name in s.uninitialized && c.initError.Some? then InitFailed(c.initError.value)
    else match c.outcome
      case Value(v) => Answered(v)
      case Rejected(e) => Erred(e)
  }

  /** The loop ends at an answer, and at a client error when those are final. */
  predicate Stops(f: Fate, finalOnClientError: bool) {
    f.Answered? || (finalOnClientError && f.Erred? && IsClientError(f.error))
  }

  /** The circuit of a backend the loop has dealt with: client errors and skips report nothing. */
  function EntryAfter(e: Option<Entry>, f: Fate, c: Conduct, config: Config): Option<Entry> {
    var asked := Attempted(e, c.askedAt, config).0;
    match f
    case Skipped(_) => e
    case InitFailed(_) => Some(Failed(asked, c.endedAt, config))
    case Answered(_) => Succeeded(asked, config)
    case Erred(error) => if IsClientError(error) then asked else Some(Failed(asked, c.endedAt, config))
  }

  /** What the loop tells the circuit about one backend, in the terms of a run. */
  function EventsOf(f: Fate, c: Conduct): seq<Event> {
    match f
    case Skipped(skip) => if skip.Unsupported? then [] else [Attempt(c.askedAt)]
    case InitFailed(_) => [Attempt(c.askedAt), Failure(c.endedAt)]
    case Answered(_) => [Attempt(c.askedAt), Success(c.endedAt)]
    case Erred(error) => [Attempt(c.askedAt), if IsClientError(error) then ClientError(c.endedAt) else Failure(c.endedAt)]
  }

  function Errors(order: seq<Backend>, s: Setting): seq<BackendError> {
    if order == [] then [] else
      var n := |order| - 1;
      var f := FateOf(order[n], s);
      Errors(order[..n], s) + if f.InitFailed? || f.Erred? then [f.error] else []
  }

  function Skips(order: seq<Backend>, s: Setting): seq<Skip> {
    if order == [] then [] else
      var n := |order| - 1;
      var f := FateOf(order[n], s);
      Skips(order[..n], s) + if f.Skipped? then [f.skip] else []
  }

  ghost predicate DistinctNames(order: seq<Backend>) {
    forall i, j :: 0 <= i < j < |order| ==> order[i].name != order[j].name
  }

  /** The circuits when the first `n` backends are dealt with. */
  ghost predicate CircuitsAfter(circuits: map<string, Entry>, order: seq<Backend>, n: nat, s: Setting) {
    && n <= |order|
    && (forall i :: 0 <= i < n ==>
          EntryOf(circuits, order[i].name)
          == EntryAfter(EntryOf(s.circuits, order[i].name), FateOf(order[i], s), s.conduct(order[i].name), s.config))
    && (forall name :: (forall i :: 0 <= i < n ==> order[i].name != name) ==> EntryOf(circuits, name) == EntryOf(s.circuits, name))
  }

  /** A backend that was called is initialised. */
  ghost predicate StartedAfter(uninitialized: set<string>, order: seq<Backend>, n: nat, s: Setting) {
    && n <= |order|
    && uninitialized <= s.uninitialized
    && forall name :: name in s.uninitialized ==>
         (name !in uninitialized <==> exists i :: 0 <= i < n && order[i].name == name && CalledIn(order[i], s))
  }

  predicate CalledIn(b: Backend, s: Setting) {
    FateOf(b, s).Answered? || FateOf(b, s).Erred?
  }

  /** How many backends the loop deals with: up to the first that ends it, else all. */
  function Reached(order: seq<Backend>, s: Setting, finalOnClientError: bool): (n: nat)
    ensures n <= |order|
    ensures forall i :: 0 <= i < n - 1 ==> !Stops(FateOf(order[i], s), finalOnClientError)
    ensures n < |order| ==> n > 0 && Stops(FateOf(order[n - 1], s), finalOnClientError)
  {
    if order == [] then 0
    else if Stops(FateOf(order[0], s), finalOnClientError) then 1
    else
      var n := Reached(order[1..], s, finalOnClientError);
      assert forall i :: 0 <= i < |order| - 1 ==> order[1..][i] == order[i + 1];
      n + 1
  }

  class Client {
    const breaker: CircuitBreakerManager
    const live: Option<Backend>
    const historical: seq<Backend>
    var uninitialized: set<string>

    constructor (breaker: CircuitBreakerManager, live: Option<Backend>, historical: seq<Backend>, uninitialized: set<string>)
      ensures this.breaker == breaker && this.live == live && this.historical == historical
      ensures this.uninitialized == uninitialized
    {
      this.breaker := breaker;
      this.live := live;
      this.historical := historical;
      this.uninitialized := uninitialized;
    }

    function Order(preferLive: bool): seq<Backend> {
      var liveFirst := if live.Some? then [live.value] else [];
      if preferLive then liveFirst + historical else historical + liveFirst
    }

    function Now(methodName: Option<string>, conduct: string -> Conduct): Setting
      reads this, breaker
    {
      Setting(breaker.circuits, breaker.config, uninitialized, methodName, conduct)
    }

    /** Retries a failed start; a failing retry counts against the circuit. */
    method EnsureInitialized(name: string, conduct: Conduct) returns (error: Option<BackendError>)
      modifies this, breaker
      ensures error == if name in old(uninitialized) then conduct.initError else None
      ensures breaker.circuits == if error.Some? then old(breaker.circuits)[name := Failed(EntryOf(old(breaker.circuits), name), conduct.endedAt, breaker.config)]
                                  else old(breaker.circuits)
      ensures uninitialized == if error.Some? then old(uninitialized) else old(uninitialized) - {name}
    {
      if name !in uninitialized {
        return None;
      }
      if conduct.initError.None? {
        uninitialized := uninitialized - {name};
        return None;
      }
      breaker.RecordFailure(name, conduct.endedAt);
      error := conduct.initError;
    }

    /** Asks one backend; the result is its fate, and only its circuit changes. */
    method Ask(b: Backend, methodName: Option<string>, conduct: string -> Conduct) returns (f: Fate)
      modifies this, breaker
      ensures f == FateOf(b, old(Now(methodName, conduct)))
      ensures EntryOf(breaker.circuits, b.name)
              == EntryAfter(EntryOf(old(breaker.circuits), b.name), f, conduct(b.name), breaker.config)
      ensures forall name :: name != b.name ==> EntryOf(breaker.circuits, name) == EntryOf(old(breaker.circuits), name)
      ensures uninitialized == if f.Answered? || f.Erred? then old(uninitialized) - {b.name} else old(uninitialized)
    {
      var c := conduct(b.name);
      if methodName.Some? && methodName.value in b.unsupported {
        return Skipped(Unsupported(b.name));
      }
      var admitted := breaker.ShouldAttempt(b.name, c.askedAt);
      if !admitted {
        return Skipped(CircuitOpen(b.name));
      }
      var initError := EnsureInitialized(b.name, c);
      if initError.Some? {
        return InitFailed(initError.value);
      }
      match c.outcome {
        case Value(v) =>
          breaker.RecordSuccess(b.name);
          return Answered(v);
        case Rejected(e) =>
          if !IsClientError(e) {
            breaker.RecordFailure(b.name, c.endedAt);
          }
          return Erred(e);
      }
    }

    /**
     The first answer in preference order, the first client error when those are final, or else every error and
     every skip in order; circuits and late starts are updated for the backends reached and for no other.
     */
    method ExecuteWithPriority(preferLive: bool, methodName: Option<string>, finalOnClientError: bool, conduct: string -> Conduct)
        returns (r: Result)
      requires DistinctNames(Order(preferLive))
      modifies this, breaker
      ensures
        var order, s := Order(preferLive), old(Now(methodName, conduct));
        var n := Reached(order, s, finalOnClientError);
        && CircuitsAfter(breaker.circuits, order, n, s) && StartedAfter(uninitialized, order, n, s)
        && r == if n > 0 && FateOf(order[n - 1], s).Answered? then Answer(FateOf(order[n - 1], s).value)
                else if n > 0 && Stops(FateOf(order[n - 1], s), finalOnClientError) then Final(FateOf(order[n - 1], s).error)
                else AllFailed(Errors(order, s), Skips(order, s))
    {
      hide FateOf, CircuitsAfter, StartedAfter, EntryAfter, EntryOf, DistinctNames, Reached;
      var order := Order(preferLive);
      ghost var s := Now(methodName, conduct);
      NothingReached(order, s);
      var errors: seq<BackendError> := [];
      var skipped: seq<Skip> := [];
      var i := 0;
      while i < |order|
        invariant 0 <= i <= |order|
        invariant forall j :: 0 <= j < i ==> !Stops(FateOf(order[j], s), finalOnClientError)
        invariant CircuitsAfter(breaker.circuits, order, i, s) && StartedAfter(uninitialized, order, i, s)
        invariant errors == Errors(order[..i], s) && skipped == Skips(order[..i], s)
      {
        var b := order[i];
        FateUnchanged(breaker.circuits, uninitialized, order, i, s);
        label Before:
        var f := Ask(b, methodName, conduct);
        StepCircuits(old@Before(breaker.circuits), breaker.circuits, order, i, s);
        StepStarted(old@Before(uninitialized), uninitialized, order, i, s);
        assert order[..i + 1][..i] == order[..i];
        if f.Answered? {
          ReachedAt(order, s, finalOnClientError, i);
          return Answer(f.value);
        }
        if f.Skipped? {
          skipped := skipped + [f.skip];
        } else {
          errors := errors + [f.error];
          if finalOnClientError && f.Erred? && IsClientError(f.error) {
            ReachedAt(order, s, finalOnClientError, i);
            return Final(f.error);
          }
        }
        i := i + 1;
      }
      assert order[..|order|] == order;
      r := AllFailed(errors, skipped);
    }

    /** One backend that cannot be replaced by another. */
    method CallWithResilience(b: Backend, conduct: string -> Conduct) returns (f: Fate)
      modifies this, breaker
      ensures f == FateOf(b, old(Now(None, conduct)))
      ensures EntryOf(breaker.circuits, b.name)
              == EntryAfter(EntryOf(old(breaker.circuits), b.name), f, conduct(b.name), breaker.config)
      ensures forall name :: name != b.name ==> EntryOf(breaker.circuits, name) == EntryOf(old(breaker.circuits), name)
    {
      f := Ask(b, None, conduct);
    }
  }

  /** The live backend is tried first when preferred and last otherwise, the historical ones in their order. */
  lemma OrderPrefers(client: Client, preferLive: bool)
    ensures
      var order, h := client.Order(preferLive), |client.historical|;
      && |order| == h + (if client.live.Some? then 1 else 0)
      && (preferLive && client.live.Some? ==> order[0] == client.live.value && order[1..] == client.historical)
      && (!preferLive && client.live.Some? ==> order[h] == client.live.value && order[..h] == client.historical)
      && (client.live.None? ==> order == client.historical)
  {
  }

  /** A preferred live backend that can answer is the one that answers; so is the first historical one otherwise. */
  lemma PreferredAnswers(client: Client, preferLive: bool, s: Setting, finalOnClientError: bool)
    ensures
      var order := client.Order(preferLive);
      && (preferLive && client.live.Some? && FateOf(client.live.value, s).Answered? ==> Reached(order, s, finalOnClientError) == 1)
      && (!preferLive && client.historical != [] && FateOf(client.historical[0], s).Answered? ==>
            Reached(order, s, finalOnClientError) == 1 && order[0] == client.historical[0])
  {
    OrderPrefers(client, preferLive);
  }

  lemma {:induction false} ReachedAt(order: seq<Backend>, s: Setting, finalOnClientError: bool, i: nat)
    requires i < |order| && Stops(FateOf(order[i], s), finalOnClientError)
    requires forall j :: 0 <= j < i ==> !Stops(FateOf(order[j], s), finalOnClientError)
    ensures Reached(order, s, finalOnClientError) == i + 1
  {
    var n := Reached(order, s, finalOnClientError);
    assert n < i + 1 ==> 0 < n < |order|;
  }

  /** The backends before it change nothing about the one whose turn it is. */
  lemma FateUnchanged(circuits: map<string, Entry>, uninitialized: set<string>, order: seq<Backend>, i: nat, s: Setting)
    requires DistinctNames(order) && i < |order|
    requires CircuitsAfter(circuits, order, i, s) && StartedAfter(uninitialized, order, i, s)
    ensures EntryOf(circuits, order[i].name) == EntryOf(s.circuits, order[i].name)
    ensures order[i].name in uninitialized <==> order[i].name in s.uninitialized
    ensures FateOf(order[i], s.(circuits := circuits, uninitialized := uninitialized)) == FateOf(order[i], s)
  {
  }

  lemma NothingReached(order: seq<Backend>, s: Setting)
    ensures CircuitsAfter(s.circuits, order, 0, s) && StartedAfter(s.uninitialized, order, 0, s)
  {
  }

  lemma StepCircuits(before: map<string, Entry>, after: map<string, Entry>, order: seq<Backend>, i: nat, s: Setting)
    requires DistinctNames(order) && i < |order| && CircuitsAfter(before, order, i, s)
    requires EntryOf(after, order[i].name)
             == EntryAfter(EntryOf(s.circuits, order[i].name), FateOf(order[i], s), s.conduct(order[i].name), s.config)
    requires forall name :: name != order[i].name ==> EntryOf(after, name) == EntryOf(before, name)
    ensures CircuitsAfter(after, order, i + 1, s)
  {
    hide EntryOf, EntryAfter, FateOf;
  }

  lemma StepStarted(before: set<string>, after: set<string>, order: seq<Backend>, i: nat, s: Setting)
    requires i < |order| && StartedAfter(before, order, i, s)
    requires after == if CalledIn(order[i], s) then before - {order[i].name} else before
    ensures StartedAfter(after, order, i + 1, s)
  {
    hide CalledIn;
  }

  // ---------------------------------------------------------------- what becomes of a backend

  /** The method and the circuit let the call through. */
  predicate LetThrough(b: Backend, s: Setting) {
    && (s.methodName.Some? ==> s.methodName.value !in b.unsupported)
    && Shown(EntryOf(s.circuits, b.name), s.conduct(b.name).askedAt, s.config) != Open
    && !SlotsGone(EntryOf(s.circuits, b.name), s.config)
  }

  /** A backend is skipped exactly when it is not let through; one let through fails its start, answers or errs. */
  lemma FateIs(b: Backend, s: Setting)
    ensures
      var f, c := FateOf(b, s), s.conduct(b.name);
      var late := b.name in s.uninitialized && c.initError.Some?;
      && (f.Skipped? <==> !LetThrough(b, s))
      && (f.Skipped? ==> f.skip == if s.methodName.Some? && s.methodName.value in b.unsupported then Unsupported(b.name) else CircuitOpen(b.name))
      && (f.InitFailed? <==> LetThrough(b, s) && late)
      && (f.InitFailed? ==> Some(f.error) == c.initError)
      && (LetThrough(b, s) && !late ==> f == if c.outcome.Value? then Answered(c.outcome.value) else Erred(c.outcome.error))
  {
  }

  /** A failing start, and an answer whose status is no 4xx, is reported to the circuit; a 4xx and a skip are not. */
  lemma OnlyHealthIsReported(b: Backend, s: Setting, at: int)
    ensures
      var f := FateOf(b, s);
      Failure(at) in EventsOf(f, s.conduct(b.name)) <==>
        at == s.conduct(b.name).endedAt && (f.InitFailed? || (f.Erred? && f.error.statusCode / 100 != 4))
  {
    hide FateOf;
  }

  // ---------------------------------------------------------------- what the loop does is a run of each circuit

  /** The times of a call do not run backwards. */
  predicate InTime(c: Conduct, clock: int) {
    clock <= c.askedAt <= c.endedAt
  }

  /** The circuit is left as the loop leaves it, and no call is added. */
  predicate IsDealtWith(x: State, y: State, f: Fate, c: Conduct, config: Config) {
    y.entry == EntryAfter(x.entry, f, c, config) && y.calls == x.calls && y.clock <= c.endedAt
  }

  /** The events of a fate can follow, and end with the circuit the loop leaves. */
  lemma FateIsEvents(x: State, b: Backend, s: Setting)
    requires x.entry == EntryOf(s.circuits, b.name) && InTime(s.conduct(b.name), x.clock)
    ensures
      var f, c := FateOf(b, s), s.conduct(b.name);
      var events := EventsOf(f, c);
      && |events| <= 2
      && (|events| == 0 ==> IsDealtWith(x, x, f, c, s.config))
      && (|events| > 0 ==> events[0] == Attempt(c.askedAt) && Enabled(x, events[0]))
      && (|events| == 1 ==> IsDealtWith(x, Next(x, events[0], s.config), f, c, s.config))
      && (|events| == 2 ==> Enabled(Next(x, events[0], s.config), events[1])
                            && IsDealtWith(x, Next(Next(x, events[0], s.config), events[1], s.config), f, c, s.config))
  {
  }

  /** Dealing with one backend continues the run of its circuit by the events of its fate; its call is over afterwards. */
  lemma AskContinuesRun(st: State, run: seq<Event>, b: Backend, s: Setting)
    requires AllEnabled(st, run, s.config) && InTime(s.conduct(b.name), After(st, run, s.config).clock)
    requires EntryOf(s.circuits, b.name) == After(st, run, s.config).entry
    ensures
      var before, f := After(st, run, s.config), FateOf(b, s);
      var run' := run + EventsOf(f, s.conduct(b.name));
      && AllEnabled(st, run', s.config)
      && IsDealtWith(before, After(st, run', s.config), f, s.conduct(b.name), s.config)
  {
    hide FateOf, EventsOf, IsDealtWith, InTime, Next, After, AllEnabled, Enabled, EntryOf;
    FateIsEvents(After(st, run, s.config), b, s);
    var events := EventsOf(FateOf(b, s), s.conduct(b.name));
    if events == [] {
      assert run + events == run;
    } else {
      OneMore(st, run, events[0], s.config);
      if |events| == 1 {
        assert run + events == run + [events[0]];
      } else {
        OneMore(st, run + [events[0]], events[1], s.config);
        assert run + events == run + [events[0]] + [events[1]];
      }
    }
  }

  /** A state of the circuit that some run from the start reaches by the given time. */
  ghost predicate ReachesBy(e: Option<Entry>, time: int, c: Config) {
    exists clock, run :: Reaches(clock, run, e, time, c)
  }

  ghost predicate Reaches(clock: int, run: seq<Event>, e: Option<Entry>, time: int, c: Config) {
    AllEnabled(Start(clock), run, c) && After(Start(clock), run, c).entry == e && After(Start(clock), run, c).clock <= time
  }

  /**
   A whole call keeps every circuit a reachable one, so what holds in every run holds of the circuits the loop
   leaves behind.
   */
  lemma LoopKeepsReachable(circuits: map<string, Entry>, order: seq<Backend>, n: nat, s: Setting, name: string, start: int, end: int)
    requires CircuitsAfter(circuits, order, n, s) && start <= end
    requires ReachesBy(EntryOf(s.circuits, name), start, s.config)
    requires forall b :: b in order ==> InTime(s.conduct(b.name), start) && s.conduct(b.name).endedAt <= end
    ensures ReachesBy(EntryOf(circuits, name), end, s.config)
  {
    var clock, run :| Reaches(clock, run, EntryOf(s.circuits, name), start, s.config);
    if i :| 0 <= i < n && order[i].name == name {
      var run' := run + EventsOf(FateOf(order[i], s), s.conduct(name));
      AskContinuesRun(Start(clock), run, order[i], s);
      assert Reaches(clock, run', EntryOf(circuits, name), end, s.config);
    } else {
      assert Reaches(clock, run, EntryOf(circuits, name), end, s.config);
    }
  }

  // ---------------------------------------------------------------- what the order of backends guarantees

  /** A backend that would answer, among those the method and the circuits let through. */
  ghost predicate CanAnswer(order: seq<Backend>, s: Setting) {
    exists i :: 0 <= i < |order| && FateOf(order[i], s).Answered?
  }

  /** With client errors not final, the loop ends in an answer exactly when some admitted backend can answer. */
  lemma AnswerFoundIff(order: seq<Backend>, s: Setting)
    ensures var n := Reached(order, s, false); (n > 0 && FateOf(order[n - 1], s).Answered?) <==> CanAnswer(order, s)
  {
    var n := Reached(order, s, false);
    if i :| 0 <= i < |order| && FateOf(order[i], s).Answered? {
      assert Stops(FateOf(order[i], s), false);
    }
  }

  /** When no backend ends the loop, every one of them is reported once, as an error or as a skip. */
  lemma {:induction false} EveryBackendAccounted(order: seq<Backend>, s: Setting)
    requires forall b :: b in order ==> !FateOf(b, s).Answered?
    ensures |Errors(order, s)| + |Skips(order, s)| == |order|
  {
    if order != [] {
      var n := |order| - 1;
      assert order[n] in order;
      EveryBackendAccounted(order[..n], s);
    }
  }

  /** Errors and skips are reported in the order the backends were tried. */
  lemma {:induction false} ReportedInOrder(order: seq<Backend>, s: Setting, i: nat)
    requires i < |order|
    ensures Errors(order[..i], s) <= Errors(order, s) && Skips(order[..i], s) <= Skips(order, s)
    ensures
      var f, e, k := FateOf(order[i], s), |Errors(order[..i], s)|, |Skips(order[..i], s)|;
      && (f.InitFailed? || f.Erred? ==> e < |Errors(order, s)| && Errors(order, s)[e] == f.error)
      && (f.Skipped? ==> k < |Skips(order, s)| && Skips(order, s)[k] == f.skip)
  {
    hide FateOf;
    var n := |order| - 1;
    if i < n {
      ReportedInOrder(order[..n], s, i);
      assert order[..n][..i] == order[..i];
    }
  }
}
