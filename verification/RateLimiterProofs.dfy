/** What the rate limiter guarantees over runs of checks and sweeps with a clock that never goes back. */
module RateLimiterProofs {
  import opened Chain
  import opened RateLimiter

  // ---------------------------------------------------------------- filtered lists

  lemma {:induction false} FilterNested(s: seq<int>, p: int -> bool, q: int -> bool)
    requires forall x :: p(x) ==> q(x)
    ensures Filter(Filter(s, q), p) == Filter(s, p)
  {
    if s != [] {
      FilterNested(s[..|s| - 1], p, q);
      FilterAppend(Filter(s[..|s| - 1], q), s[|s| - 1], p);
    }
  }

  lemma {:induction false} FilterWeaker(s: seq<int>, p: int -> bool, q: int -> bool)
    requires forall x :: p(x) ==> q(x)
    ensures |Filter(s, p)| <= |Filter(s, q)|
  {
    if s != [] {
      FilterWeaker(s[..|s| - 1], p, q);
    }
  }

  lemma {:induction false} InsertCounts(x: int, s: seq<int>, p: int -> bool)
    ensures |Filter(Insert(x, s), p)| == |Filter(s, p)| + if p(x) then 1 else 0
  {
    if s == [] || x <= s[0] {
      FilterConcat([x], s, p);
      FilterAppend([], x, p);
      assert [] + [x] == [x];
    } else {
      InsertCounts(x, s[1..], p);
      FilterConcat([s[0]], Insert(x, s[1..]), p);
      FilterConcat([s[0]], s[1..], p);
      assert s == [s[0]] + s[1..];
    }
  }

  /** Sorting changes no count. */
  lemma {:induction false} SortCounts(s: seq<int>, p: int -> bool)
    ensures |Filter(Sort(s), p)| == |Filter(s, p)|
  {
    if s != [] {
      SortCounts(s[1..], p);
      InsertCounts(s[0], Sort(s[1..]), p);
      FilterConcat([s[0]], s[1..], p);
      FilterAppend([], s[0], p);
      assert s == [s[0]] + s[1..] && [] + [s[0]] == [s[0]];
    }
  }

  lemma {:induction false} CopiesCount(x: int, n: nat, p: int -> bool)
    ensures |Filter(Copies(x, n), p)| == if p(x) then n else 0
    ensures |Copies(x, n)| == n
  {
    if n > 0 {
      CopiesCount(x, n - 1, p);
      FilterAppend(Copies(x, n - 1), x, p);
    }
  }

  lemma {:induction false} LeastIs(s: seq<int>)
    requires s != []
    ensures Least(s) in s && forall x :: x in s ==> Least(s) <= x
  {
    if |s| > 1 {
      LeastIs(s[1..]);
      assert s == [s[0]] + s[1..];
    }
  }

  lemma {:induction false} FilterDrops(s: seq<int>, x: int, p: int -> bool)
    requires x in s && !p(x)
    ensures |Filter(s, p)| < |s|
  {
    var front := s[..|s| - 1];
    assert s == front + [s[|s| - 1]];
    if x in front {
      FilterDrops(front, x, p);
    }
  }

  /** A cut removes something exactly when it reaches the least element. */
  lemma CutRemoves(s: seq<int>, t: int)
    requires s != []
    ensures |Filter(s, After(t))| < |s| <==> Least(s) <= t
  {
    LeastIs(s);
    if Least(s) <= t {
      FilterDrops(s, Least(s), After(t));
    } else {
      KeepAll(s, After(t));
    }
  }

  // ---------------------------------------------------------------- runs

  /**
   `log` collects the accepted hits of every key, `evicted` the keys ever dropped at capacity, and `stamps`
   the number of the last step that looked a tracked key up.
   */
  datatype State = State(table: Table, clock: int, log: map<Key, seq<int>>, evicted: set<Key>, stamps: map<Key, nat>, step: nat)

  datatype Action = Check(key: Key, count: int, time: int) | Sweep(time: int)

  const START := State(Table([], map[]), 0, map[], {}, map[], 0)

  function LogOf(log: map<Key, seq<int>>, key: Key): seq<int> {
    if key in log then log[key] else []
  }

  function HitsOf(t: Table, key: Key): seq<int> {
    if key in t.hits then t.hits[key] else []
  }

  function NextCheck(s: State, key: Key, count: int, time: int, l: Limits): State {
    var (table, verdict) := Checked(s.table, key, count, time, l);
    if count <= 0 || Refused(s.table, key, l) then s.(clock := time, step := s.step + 1)
    else State(table, time,
               if verdict.allowed then s.log[key := LogOf(s.log, key) + Copies(time, count)] else s.log,
               if Evicts(s.table, key, l) then s.evicted + {s.table.order[0]} else s.evicted,
               s.stamps[key := s.step], s.step + 1)
  }

  function Next(s: State, a: Action, l: Limits): State {
    match a
    case Check(key, count, time) => NextCheck(s, key, count, time, l)
    case Sweep(time) => s.(table := Swept(s.table, time, l), clock := time, step := s.step + 1)
  }

  ghost predicate IsStep(s: State, t: State, l: Limits) {
    exists a: Action :: a.time >= s.clock && t == Next(s, a, l)
  }

  ghost predicate IsRun(states: seq<State>, l: Limits) {
    && states != [] && states[0].table == START.table && states[0] == START.(clock := states[0].clock)
    && forall i :: 0 < i < |states| ==> IsStep(states[i - 1], states[i], l)
  }

  // ---------------------------------------------------------------- caps and order

  ghost predicate WithinCaps(t: Table, l: Limits) {
    && |t.hits| <= l.maxKeys
    && (forall g :: |Members(t.hits.Keys, g)| <= l.maxKeysPerGroup)
    && (forall k :: k in t.hits ==> |t.hits[k]| <= Max0(l.maxRequests))
  }

  /** The first key of the order is the one whose last check lies furthest back. */
  ghost predicate OrderedByUse(order: seq<Key>, stamps: map<Key, nat>, step: nat) {
    && (forall i :: 0 <= i < |order| ==> order[i] in stamps && stamps[order[i]] < step)
    && (forall i, j :: 0 <= i < j < |order| ==> stamps[order[i]] < stamps[order[j]])
  }

  lemma {:induction false} FilterKeepsUse(order: seq<Key>, keep: Key -> bool, stamps: map<Key, nat>, step: nat)
    requires OrderedByUse(order, stamps, step)
    ensures OrderedByUse(Filter(order, keep), stamps, step)
  {
    if order != [] {
      var front, last := order[..|order| - 1], order[|order| - 1];
      FilterKeepsUse(front, keep, stamps, step);
      var kept := Filter(front, keep);
      if keep(last) {
        forall i | 0 <= i < |kept|
          ensures stamps[kept[i]] < stamps[last]
        {
          assert kept[i] in front;
        }
      }
    }
  }

  lemma MembersFewer(a: set<Key>, b: set<Key>, g: string)
    requires a <= b
    ensures |Members(a, g)| <= |Members(b, g)|
  {
    assert Members(b, g) == Members(a, g) + (Members(b, g) - Members(a, g));
  }

  lemma KeysFewer(m: map<Key, seq<int>>, n: map<Key, seq<int>>)
    requires m.Keys <= n.Keys
    ensures |m| <= |n| && forall g :: |Members(m.Keys, g)| <= |Members(n.Keys, g)|
  {
    assert n.Keys == m.Keys + (n.Keys - m.Keys);
    assert |m| == |m.Keys| && |n| == |n.Keys|;
    forall g
      ensures |Members(m.Keys, g)| <= |Members(n.Keys, g)|
    {
      MembersFewer(m.Keys, n.Keys, g);
    }
  }

  /** Room is made for a key that is not refused: one more key fits within every cap. */
  lemma RoomForOne(t: Table, key: Key, l: Limits)
    requires TableOk(t) && WithinCaps(t, l) && Bounded(l) && !Refused(t, key, l)
    ensures
      var r := WithRoom(t, key, l);
      && TableOk(r) && WithinCaps(r, l)
      && |r.hits.Keys + {key}| <= l.maxKeys
      && forall g :: |Members(r.hits.Keys + {key}, g)| <= l.maxKeysPerGroup
  {
    var r := WithRoom(t, key, l);
    if Evicts(t, key, l) {
      DroppedOk(t, t.order[0]);
    }
    KeysFewer(r.hits, t.hits);
    if key in t.hits {
      assert r.hits.Keys + {key} == r.hits.Keys;
    } else {
      forall g
        ensures |Members(r.hits.Keys + {key}, g)| <= l.maxKeysPerGroup
      {
        MembersAdd(r.hits.Keys, key, g);
      }
      assert t.order == [] ==> t.hits.Keys == {};
      assert |r.hits| == |r.hits.Keys|;
    }
  }

  lemma StoredWithinCaps(t: Table, key: Key, hits: seq<int>, l: Limits)
    requires WithinCaps(t, l) && |hits| <= Max0(l.maxRequests)
    requires |t.hits.Keys + {key}| <= l.maxKeys && forall g :: |Members(t.hits.Keys + {key}, g)| <= l.maxKeysPerGroup
    ensures WithinCaps(Stored(t, key, hits), l)
  {
    assert Stored(t, key, hits).hits.Keys == t.hits.Keys + {key};
  }

  /** A check stores at most `maxRequests` hits. */
  lemma CheckWithinCaps(t: Table, key: Key, count: int, now: int, l: Limits)
    requires TableOk(t) && WithinCaps(t, l) && Bounded(l)
    ensures TableOk(Checked(t, key, count, now, l).0) && WithinCaps(Checked(t, key, count, now, l).0, l)
  {
    hide TableOk, WithinCaps, Refused, Stored, WithRoom, Filter;
    if count > 0 && !Refused(t, key, l) {
      var room, recent := WithRoom(t, key, l), Recent(t, key, now, l);
      RoomForOne(t, key, l);
      RecentFew(t, key, now, l);
      SortLeast(recent);
      CopiesCount(now, count, After(now));
      var hits := if |recent| + count > l.maxRequests then Sort(recent) else recent + Copies(now, count);
      StoredOk(room, key, hits);
      StoredWithinCaps(room, key, hits, l);
    }
  }

  lemma RecentFew(t: Table, key: Key, now: int, l: Limits)
    requires WithinCaps(t, l)
    ensures |Recent(t, key, now, l)| <= Max0(l.maxRequests)
  {
  }

  lemma SweepWithinCaps(t: Table, now: int, l: Limits)
    requires TableOk(t) && WithinCaps(t, l)
    ensures TableOk(Swept(t, now, l)) && WithinCaps(Swept(t, now, l), l)
  {
    SweptOk(t, now, l);
    KeysFewer(Swept(t, now, l).hits, t.hits);
  }

  ghost predicate Structured(s: State, l: Limits) {
    TableOk(s.table) && WithinCaps(s.table, l) && OrderedByUse(s.table.order, s.stamps, s.step)
  }

  lemma UseAfterStore(order: seq<Key>, stamps: map<Key, nat>, step: nat, key: Key)
    requires OrderedByUse(order, stamps, step)
    ensures OrderedByUse(Filter(order, Other(key)) + [key], stamps[key := step], step + 1)
  {
    FilterKeepsUse(order, Other(key), stamps, step);
    var kept := Filter(order, Other(key));
    forall i | 0 <= i < |kept|
      ensures kept[i] in stamps && kept[i] != key
    {
      assert kept[i] in kept;
    }
  }

  lemma StepKeepsStructure(s: State, a: Action, l: Limits)
    requires Structured(s, l) && Bounded(l)
    ensures Structured(Next(s, a, l), l)
  {
    hide TableOk, WithinCaps, Filter, OrderedByUse, Refused;
    match a
    case Check(key, count, time) =>
      CheckWithinCaps(s.table, key, count, time, l);
      if count <= 0 || Refused(s.table, key, l) {
        LaterStep(s.table.order, s.stamps, s.step);
      } else {
        if Evicts(s.table, key, l) {
          FilterKeepsUse(s.table.order, Other(s.table.order[0]), s.stamps, s.step);
        }
        UseAfterStore(WithRoom(s.table, key, l).order, s.stamps, s.step, key);
      }
    case Sweep(time) =>
      SweepWithinCaps(s.table, time, l);
      FilterKeepsUse(s.table.order, IsLive(s.table.hits, time, l), s.stamps, s.step);
      LaterStep(Filter(s.table.order, IsLive(s.table.hits, time, l)), s.stamps, s.step);
  }

  lemma LaterStep(order: seq<Key>, stamps: map<Key, nat>, step: nat)
    requires OrderedByUse(order, stamps, step)
    ensures OrderedByUse(order, stamps, step + 1)
  {
  }

  lemma {:induction false} RunsStructured(states: seq<State>, l: Limits, i: nat)
    requires IsRun(states, l) && Bounded(l) && i < |states|
    ensures Structured(states[i], l)
  {
    if i == 0 {
      forall g
        ensures Members({}, g) == {}
      {
      }
    } else {
      RunsStructured(states, l, i - 1);
      assert IsStep(states[i - 1], states[i], l);
      var a: Action :| a.time >= states[i - 1].clock && states[i] == Next(states[i - 1], a, l);
      StepKeepsStructure(states[i - 1], a, l);
    }
  }

  /** Keys in all, keys per group and hits per key stay within their limits. */
  lemma CapsHold(states: seq<State>, l: Limits, i: nat, g: string)
    requires IsRun(states, l) && Bounded(l) && i < |states|
    ensures |states[i].table.hits| <= l.maxKeys
    ensures |Members(states[i].table.hits.Keys, g)| <= l.maxKeysPerGroup
    ensures forall k :: k in states[i].table.hits ==> |states[i].table.hits[k]| <= Max0(l.maxRequests)
  {
    RunsStructured(states, l, i);
  }

  /** The key a check evicts is the tracked key whose last check lies furthest back. */
  lemma EvictsLeastRecentlyUsed(states: seq<State>, l: Limits, i: nat, key: Key, other: Key)
    requires IsRun(states, l) && Bounded(l) && i < |states|
    requires Evicts(states[i].table, key, l) && other in states[i].table.hits && other != states[i].table.order[0]
    ensures var victim := states[i].table.order[0];
            victim in states[i].stamps && other in states[i].stamps && states[i].stamps[victim] < states[i].stamps[other]
  {
    RunsStructured(states, l, i);
    var order := states[i].table.order;
    assert other in order;
    var j :| 0 <= j < |order| && order[j] == other;
  }

  // ---------------------------------------------------------------- the sliding window

  function Within(a: int, width: nat): int -> bool {
    x => a <= x < a + width
  }

  /** For times the window still covers, the tracked hits of the key count what was accepted. */
  ghost predicate Tracks(log: seq<int>, hits: seq<int>, clock: int, l: Limits) {
    forall t :: t >= clock - l.windowMs ==> |Filter(log, After(t))| == |Filter(hits, After(t))|
  }

  /** No half-open interval of the window's length holds more accepted hits than allowed. */
  ghost predicate Limited(log: seq<int>, l: Limits) {
    forall a :: |Filter(log, Within(a, l.windowMs))| <= Max0(l.maxRequests)
  }

  ghost predicate KeyOk(s: State, key: Key, l: Limits) {
    Tracks(LogOf(s.log, key), HitsOf(s.table, key), s.clock, l) && Limited(LogOf(s.log, key), l)
  }

  /** Time passing and dropping overdue hits change no count. */
  lemma TracksLater(log: seq<int>, hits: seq<int>, clock: int, now: int, l: Limits)
    requires Tracks(log, hits, clock, l) && now >= clock
    ensures Tracks(log, hits, now, l)
    ensures Tracks(log, Filter(hits, After(now - l.windowMs)), now, l)
  {
    forall t | t >= now - l.windowMs
      ensures |Filter(log, After(t))| == |Filter(Filter(hits, After(now - l.windowMs)), After(t))|
    {
      FilterNested(hits, After(t), After(now - l.windowMs));
    }
  }

  lemma TracksSorted(log: seq<int>, hits: seq<int>, now: int, l: Limits)
    requires Tracks(log, hits, now, l)
    ensures Tracks(log, Sort(hits), now, l)
  {
    forall t | t >= now - l.windowMs
      ensures |Filter(log, After(t))| == |Filter(Sort(hits), After(t))|
    {
      SortCounts(hits, After(t));
    }
  }

  lemma TracksAccepted(log: seq<int>, hits: seq<int>, now: int, n: nat, l: Limits)
    requires Tracks(log, hits, now, l)
    ensures Tracks(log + Copies(now, n), hits + Copies(now, n), now, l)
  {
    forall t | t >= now - l.windowMs
      ensures |Filter(log + Copies(now, n), After(t))| == |Filter(hits + Copies(now, n), After(t))|
    {
      FilterConcat(log, Copies(now, n), After(t));
      FilterConcat(hits, Copies(now, n), After(t));
    }
  }

  /** Accepting hits that fit beside the recent ones overfills no interval. */
  lemma LimitedAccepted(log: seq<int>, recent: seq<int>, now: int, n: nat, l: Limits)
    requires Tracks(log, recent, now, l) && Limited(log, l) && |recent| + n <= l.maxRequests
    ensures Limited(log + Copies(now, n), l)
  {
    forall a
      ensures |Filter(log + Copies(now, n), Within(a, l.windowMs))| <= Max0(l.maxRequests)
    {
      var inside := Within(a, l.windowMs);
      FilterConcat(log, Copies(now, n), inside);
      CopiesCount(now, n, inside);
      if inside(now) {
        FilterWeaker(log, inside, After(a - 1));
        assert |Filter(log, After(a - 1))| == |Filter(recent, After(a - 1))|;
      }
    }
  }

  lemma CheckKeepsKey(s: State, key: Key, count: int, time: int, l: Limits)
    requires KeyOk(s, key, l) && time >= s.clock && count > 0 && !Refused(s.table, key, l)
    ensures KeyOk(NextCheck(s, key, count, time, l), key, l)
  {
    var log, hits := LogOf(s.log, key), HitsOf(s.table, key);
    var recent := Recent(s.table, key, time, l);
    TracksLater(log, hits, s.clock, time, l);
    assert recent == Filter(hits, After(time - l.windowMs));
    hide Tracks, Limited, Filter, Refused, WithRoom;
    if |recent| + count > l.maxRequests {
      TracksSorted(log, recent, time, l);
    } else {
      TracksAccepted(log, recent, time, count, l);
      LimitedAccepted(log, recent, time, count, l);
    }
  }

  /** A check of another key leaves this one alone, unless it evicts it. */
  lemma CheckKeepsOthers(s: State, key: Key, count: int, time: int, l: Limits, other: Key)
    requires KeyOk(s, other, l) && time >= s.clock
    requires other !in NextCheck(s, key, count, time, l).evicted
    requires other != key || count <= 0 || Refused(s.table, key, l)
    ensures KeyOk(NextCheck(s, key, count, time, l), other, l)
  {
    TracksLater(LogOf(s.log, other), HitsOf(s.table, other), s.clock, time, l);
    hide Tracks, Limited, Refused, Filter;
  }

  /** A sweep drops only keys without a hit in the window. */
  lemma SweepKeepsKey(s: State, time: int, l: Limits, key: Key)
    requires KeyOk(s, key, l) && time >= s.clock
    ensures KeyOk(Next(s, Sweep(time), l), key, l)
  {
    var log, hits := LogOf(s.log, key), HitsOf(s.table, key);
    TracksLater(log, hits, s.clock, time, l);
    assert Filter([], After(time - l.windowMs)) == [];
    hide Tracks, Limited, Filter;
    if key in s.table.hits && !Live(s.table.hits, time, l, key) {
      assert HitsOf(Swept(s.table, time, l), key) == Filter(hits, After(time - l.windowMs));
    }
  }

  lemma EvictedOnlyGrows(s: State, a: Action, l: Limits)
    ensures s.evicted <= Next(s, a, l).evicted
  {
  }

  lemma StartTracks(s: State, l: Limits, key: Key)
    requires s.table == START.table && s.log == START.log
    ensures KeyOk(s, key, l)
  {
  }

  lemma StepTracks(s: State, a: Action, l: Limits, key: Key)
    requires KeyOk(s, key, l) && a.time >= s.clock && key !in Next(s, a, l).evicted
    ensures KeyOk(Next(s, a, l), key, l)
  {
    hide KeyOk, NextCheck, Refused;
    match a
    case Check(k, count, time) =>
      if k == key && count > 0 && !Refused(s.table, k, l) {
        CheckKeepsKey(s, k, count, time, l);
      } else {
        CheckKeepsOthers(s, k, count, time, l, key);
      }
    case Sweep(time) => SweepKeepsKey(s, time, l, key);
  }

  lemma {:induction false} RunsTrack(states: seq<State>, l: Limits, i: nat, key: Key)
    requires IsRun(states, l) && i < |states| && key !in states[i].evicted
    ensures KeyOk(states[i], key, l)
  {
    if i == 0 {
      StartTracks(states[0], l, key);
    } else {
      assert IsStep(states[i - 1], states[i], l);
      var a: Action :| a.time >= states[i - 1].clock && states[i] == Next(states[i - 1], a, l);
      hide KeyOk, Next;
      EvictedOnlyGrows(states[i - 1], a, l);
      RunsTrack(states, l, i - 1, key);
      StepTracks(states[i - 1], a, l, key);
    }
  }

  /**
   However checks and sweeps interleave, a key never evicted at capacity has at most `maxRequests` accepted
   hits in any half-open interval of the window's length.
   */
  lemma WindowNeverOverfilled(states: seq<State>, l: Limits, i: nat, key: Key, a: int)
    requires IsRun(states, l) && i < |states| && key !in states[i].evicted
    ensures |Filter(LogOf(states[i].log, key), Within(a, l.windowMs))| <= Max0(l.maxRequests)
  {
    RunsTrack(states, l, i, key);
  }

  // ---------------------------------------------------------------- waiting and peeking

  lemma {:induction false} LeastSame(s: seq<int>, t: seq<int>)
    requires s != [] && t != [] && forall x :: x in s <==> x in t
    ensures Least(s) == Least(t)
  {
    LeastIs(s);
    LeastIs(t);
  }

  lemma {:induction false} SortSame(s: seq<int>)
    ensures forall x :: x in Sort(s) <==> x in s
  {
    if s != [] {
      SortSame(s[1..]);
      InsertSame(s[0], Sort(s[1..]));
      assert s == [s[0]] + s[1..];
    }
  }

  lemma {:induction false} InsertSame(x: int, s: seq<int>)
    ensures forall y :: y in Insert(x, s) <==> y == x || y in s
  {
    if s != [] && x > s[0] {
      InsertSame(x, s[1..]);
      assert s == [s[0]] + s[1..];
    }
  }

  /**
   After a refused single hit on a tracked key, with nothing else done to it, the next hit is allowed exactly
   from the time the answer named.
   */
  lemma RetryAfterIsExact(t: Table, u: Table, key: Key, now: int, later: int, l: Limits)
    requires key in t.hits && |t.hits[key]| <= l.maxRequests && l.maxRequests >= 1
    requires !Checked(t, key, 1, now, l).1.allowed
    requires key in u.hits && u.hits[key] == Checked(t, key, 1, now, l).0.hits[key] && later >= now
    ensures Checked(u, key, 1, later, l).1.allowed <==> later >= now + Checked(t, key, 1, now, l).1.retryAfterMs
  {
    var recent := Recent(t, key, now, l);
    var sorted := Sort(recent);
    RefusedFull(t, key, now, l);
    SortLeast(recent);
    SortSame(recent);
    LeastSame(recent, sorted);
    CutRemoves(sorted, later - l.windowMs);
    hide Filter, Sort, Least, Stored, WithRoom;
    assert Recent(u, key, later, l) == Filter(sorted, After(later - l.windowMs));
  }

  /** A single hit is refused on a tracked key when the window is full of hits that are still in it. */
  lemma RefusedFull(t: Table, key: Key, now: int, l: Limits)
    requires key in t.hits && |t.hits[key]| <= l.maxRequests && l.maxRequests >= 1
    requires !Checked(t, key, 1, now, l).1.allowed
    ensures
      var recent := Recent(t, key, now, l);
      && |recent| == l.maxRequests && Least(recent) > now - l.windowMs
      && Checked(t, key, 1, now, l).1.retryAfterMs == Least(recent) + l.windowMs - now
      && Checked(t, key, 1, now, l).0.hits[key] == Sort(recent)
  {
    var recent := Recent(t, key, now, l);
    LeastIs(recent);
    assert After(now - l.windowMs)(Least(recent));
    hide Filter, Sort, Least, WithRoom;
  }

  /** For a tracked key a peek says what a check of one slot would answer. */
  lemma PeekPredictsCheck(t: Table, key: Key, now: int, l: Limits)
    requires key in t.hits && l.maxRequests >= 1
    ensures var v := Checked(t, key, 1, now, l).1;
            Peeked(t, key, now, l) == if v.allowed then Fits else Wait(v.retryAfterMs)
  {
  }

  /** For any key a peek is right exactly when the check is not one of a new key in a full group. */
  lemma PeekRightIff(t: Table, key: Key, now: int, l: Limits)
    ensures (Peeked(t, key, now, l) == Fits) == Checked(t, key, 1, now, l).1.allowed
            <==> !(Refused(t, key, l) && l.maxRequests >= 1)
  {
  }

  /** A peek promises room that a full group then refuses. */
  lemma PeekMissesFullGroup()
    ensures
      var l := Limits(1000, 5, 10, 1);
      var t := Table(["a:x"], map["a:x" := [7]]);
      Peeked(t, "a:y", 8, l) == Fits && !Checked(t, "a:y", 1, 8, l).1.allowed
  {
    assert GroupOf("a:x") == "a" && GroupOf("a:y") == "a";
    assert "a:x" in Members({"a:x"}, "a");
  }
}
