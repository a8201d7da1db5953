/**
 The in-memory sliding-window rate limiter. Hits per key are kept in an insertion-ordered map; a second index
 counts the tracked keys of each group, so one principal cannot crowd out the others.
 */
module RateLimiter {
  import opened Chain

  type Key = string

  /** The options after their defaults are applied. */
  datatype Limits = Limits(windowMs: nat, maxRequests: int, maxKeys: nat, maxKeysPerGroup: nat)

  predicate Bounded(l: Limits) {
    l.maxKeys >= 1 && l.maxKeysPerGroup >= 1
  }

  /** `order` lists the tracked keys as the map iterates them. */
  datatype Table = Table(order: seq<Key>, hits: map<Key, seq<int>>)

  datatype Verdict = Verdict(allowed: bool, retryAfterMs: nat)

  /** A peek may have no finite waiting time. */
  datatype Forecast = Fits | Wait(ms: nat) | Never

  /** Everything before the first ':'. */
  function GroupOf(key: Key): string {
    if key == "" || key[0] == ':' then "" else [key[0]] + GroupOf(key[1..])
  }

  /** The group of a key is the name in front of its first colon, the whole key without one. */
  lemma {:induction false} GroupIsPrefix(group: string, rest: string)
    requires ':' !in group
    ensures GroupOf(group) == group && GroupOf(group + ":" + rest) == group
  {
    if group != "" {
      assert group == [group[0]] + group[1..];
      GroupIsPrefix(group[1..], rest);
      assert (group + ":" + rest)[1..] == group[1..] + ":" + rest;
    }
  }

  function Members(keys: set<Key>, g: string): set<Key> {
    set k | k in keys && GroupOf(k) == g
  }

  function After(t: int): int -> bool {
    x => x > t
  }

  function Other(key: Key): Key -> bool {
    x => x != key
  }

  function Max0(n: int): nat {
    if n < 0 then 0 else n
  }

  function Least(s: seq<int>): int
    requires s != []
  {
    if |s| == 1 then s[0] else var m := Least(s[1..]); if s[0] < m then s[0] else m
  }

  function Insert(x: int, s: seq<int>): seq<int> {
    if s == [] || x <= s[0] then [x] + s else [s[0]] + Insert(x, s[1..])
  }

  function Sort(s: seq<int>): seq<int> {
    if s == [] then [] else Insert(s[0], Sort(s[1..]))
  }

  function Copies(x: int, n: nat): seq<int> {
    if n == 0 then [] else Copies(x, n - 1) + [x]
  }

  // ---------------------------------------------------------------- the operations on values

  function Dropped(t: Table, key: Key): Table {
    Table(Filter(t.order, Other(key)), t.hits - {key})
  }

  function Stored(t: Table, key: Key, hits: seq<int>): Table {
    Table(Filter(t.order, Other(key)) + [key], t.hits[key := hits])
  }

  predicate Refused(t: Table, key: Key, l: Limits) {
    key !in t.hits && |Members(t.hits.Keys, GroupOf(key))| >= l.maxKeysPerGroup
  }

  /** At capacity a new key evicts the first key of the order. */
  predicate Evicts(t: Table, key: Key, l: Limits) {
    key !in t.hits && |t.hits| >= l.maxKeys && t.order != []
  }

  function WithRoom(t: Table, key: Key, l: Limits): Table {
    if Evicts(t, key, l) then Dropped(t, t.order[0]) else t
  }

  function Recent(t: Table, key: Key, now: int, l: Limits): seq<int> {
    if key in t.hits then Filter(t.hits[key], After(now - l.windowMs)) else []
  }

  /** A check of `count` slots: all are recorded or none; either way the key becomes the last of the order. */
  function Checked(t: Table, key: Key, count: int, now: int, l: Limits): (Table, Verdict) {
    if count <= 0 then (t, Verdict(true, 0))
    else if Refused(t, key, l) then (t, Verdict(false, l.windowMs))
    else
      var recent := Recent(t, key, now, l);
      if |recent| + count > l.maxRequests
      then (Stored(WithRoom(t, key, l), key, Sort(recent)),
            Verdict(false, if recent == [] then l.windowMs else Max0(Least(recent) + l.windowMs - now)))
      else (Stored(WithRoom(t, key, l), key, recent + Copies(now, count)), Verdict(true, 0))
  }

  function Peeked(t: Table, key: Key, now: int, l: Limits): Forecast {
    var recent := Recent(t, key, now, l);
    if |recent| < l.maxRequests then Fits
    else if recent == [] then Never
    else Wait(Max0(Least(recent) + l.windowMs - now))
  }

  predicate Live(hits: map<Key, seq<int>>, now: int, l: Limits, key: Key) {
    key in hits && Filter(hits[key], After(now - l.windowMs)) != []
  }

  function IsLive(hits: map<Key, seq<int>>, now: int, l: Limits): Key -> bool {
    k => Live(hits, now, l, k)
  }

  /** A sweep keeps the keys with a hit in the window, in their order. */
  function Swept(t: Table, now: int, l: Limits): Table {
    Table(Filter(t.order, IsLive(t.hits, now, l)), map k | k in t.hits && Live(t.hits, now, l, k) :: t.hits[k])
  }

  // ---------------------------------------------------------------- table and group index

  ghost predicate TableOk(t: Table) {
    && (forall k :: k in t.order <==> k in t.hits)
    && (forall i, j :: 0 <= i < j < |t.order| ==> t.order[i] != t.order[j])
  }

  /** The index holds, per group, the number of tracked keys, and no entry for a group without one. */
  ghost predicate IndexOk(groups: map<string, nat>, keys: set<Key>) {
    forall g :: if g in groups then groups[g] == |Members(keys, g)| > 0 else Members(keys, g) == {}
  }

  lemma MembersAdd(keys: set<Key>, key: Key, g: string)
    requires key !in keys
    ensures Members(keys + {key}, g) == if GroupOf(key) == g then Members(keys, g) + {key} else Members(keys, g)
    ensures |Members(keys + {key}, g)| == |Members(keys, g)| + if GroupOf(key) == g then 1 else 0
  {
    assert Members(keys + {key}, g) == if GroupOf(key) == g then Members(keys, g) + {key} else Members(keys, g);
  }

  function IndexWith(groups: map<string, nat>, g: string): map<string, nat> {
    groups[g := (if g in groups then groups[g] else 0) + 1]
  }

  lemma IndexAdd(groups: map<string, nat>, keys: set<Key>, key: Key)
    requires key !in keys && IndexOk(groups, keys)
    ensures IndexOk(IndexWith(groups, GroupOf(key)), keys + {key})
  {
    forall g
      ensures |Members(keys + {key}, g)| == |Members(keys, g)| + if GroupOf(key) == g then 1 else 0
    {
      MembersAdd(keys, key, g);
    }
  }

  function IndexWithout(groups: map<string, nat>, g: string): map<string, nat> {
    if g in groups && groups[g] > 1 then groups[g := groups[g] - 1] else groups - {g}
  }

  lemma IndexDrop(groups: map<string, nat>, keys: set<Key>, key: Key)
    requires key in keys && IndexOk(groups, keys)
    ensures IndexOk(IndexWithout(groups, GroupOf(key)), keys - {key})
  {
    assert keys - {key} + {key} == keys;
    forall g
      ensures |Members(keys, g)| == |Members(keys - {key}, g)| + if GroupOf(key) == g then 1 else 0
    {
      MembersAdd(keys - {key}, key, g);
    }
  }

  lemma DroppedOk(t: Table, key: Key)
    requires TableOk(t)
    ensures TableOk(Dropped(t, key))
  {
    FilterDistinct(t.order, Other(key));
  }

  lemma StoredOk(t: Table, key: Key, hits: seq<int>)
    requires TableOk(t)
    ensures TableOk(Stored(t, key, hits))
  {
    FilterDistinct(t.order, Other(key));
    var kept := Filter(t.order, Other(key));
    assert key !in kept;
    forall i, j | 0 <= i < j < |kept + [key]|
      ensures (kept + [key])[i] != (kept + [key])[j]
    {
      assert kept[i] in kept;
    }
  }

  lemma SweptOk(t: Table, now: int, l: Limits)
    requires TableOk(t)
    ensures TableOk(Swept(t, now, l))
  {
    FilterDistinct(t.order, IsLive(t.hits, now, l));
  }

  /** Deleting one key of a distinct order. */
  lemma {:induction false} FilterOthers(a: seq<Key>, key: Key, b: seq<Key>)
    requires key !in a && key !in b
    ensures Filter(a + [key] + b, Other(key)) == a + b
  {
    KeepAll(a, Other(key));
    KeepAll(b, Other(key));
    FilterAppend(a, key, Other(key));
    FilterConcat(a + [key], b, Other(key));
    assert a + [] == a;
  }

  // ---------------------------------------------------------------- the class

  class Limiter {
    const limits: Limits
    var order: seq<Key>
    var hits: map<Key, seq<int>>
    var groupCounts: map<string, nat>

    function View(): Table
      reads this
    {
      Table(order, hits)
    }

    ghost predicate Valid()
      reads this
    {
      TableOk(View()) && IndexOk(groupCounts, hits.Keys)
    }

    constructor (windowMs: nat, maxRequests: int, maxKeys: nat, maxKeysPerGroup: nat)
      ensures Valid() && View() == Table([], map[]) && Bounded(limits)
      ensures limits.windowMs == windowMs && limits.maxRequests == maxRequests
      ensures limits.maxKeys == if maxKeys == 0 then 10000 else maxKeys
      ensures limits.maxKeysPerGroup == if maxKeysPerGroup == 0 then 64 else maxKeysPerGroup
    {
      limits := Limits(windowMs, maxRequests, if maxKeys == 0 then 10000 else maxKeys, if maxKeysPerGroup == 0 then 64 else maxKeysPerGroup);
      order, hits, groupCounts := [], map[], map[];
    }

    method Reset()
      modifies this
      ensures Valid() && View() == Table([], map[])
    {
      order, hits, groupCounts := [], map[], map[];
    }

    method Peek(key: Key, now: int) returns (f: Forecast)
      ensures f == Peeked(View(), key, now, limits)
    {
      var inWindow := if key in hits then Filter(hits[key], After(now - limits.windowMs)) else [];
      if |inWindow| < limits.maxRequests {
        return Fits;
      }
      if inWindow == [] {
        return Never;
      }
      f := Wait(Max0(Least(inWindow) + limits.windowMs - now));
    }

    method DropKey(key: Key)
      requires Valid()
      modifies this
      ensures Valid()
      ensures View() == if key in old(hits) then Dropped(old(View()), key) else old(View())
    {
      hide IndexOk, TableOk;
      if key !in hits {
        return;
      }
      DroppedOk(View(), key);
      IndexDrop(groupCounts, hits.Keys, key);
      order, hits := Filter(order, Other(key)), hits - {key};
      assert hits.Keys == old(hits.Keys) - {key};
      var group := GroupOf(key);
      var counted: int := if group in groupCounts then groupCounts[group] else 1;
      var n := counted - 1;
      if n <= 0 {
        groupCounts := groupCounts - {group};
      } else {
        groupCounts := groupCounts[group := n];
      }
    }

    method IsGroupFull(group: string) returns (full: bool)
      requires Valid()
      ensures full == (|Members(hits.Keys, group)| >= limits.maxKeysPerGroup)
    {
      full := (if group in groupCounts then groupCounts[group] else 0) >= limits.maxKeysPerGroup;
    }

    /** Makes room for a new key and counts it in its group; false when the group is full. */
    method AdmitKey(key: Key) returns (admitted: bool)
      requires Valid()
      modifies this
      ensures admitted == !Refused(old(View()), key, limits)
      ensures View() == if admitted then WithRoom(old(View()), key, limits) else old(View())
      ensures TableOk(View()) && IndexOk(groupCounts, if admitted then hits.Keys + {key} else hits.Keys)
    {
      hide IndexOk, TableOk, Members;
      admitted := true;
      if key in hits {
        assert hits.Keys + {key} == hits.Keys;
      } else {
        var group := GroupOf(key);
        var full := IsGroupFull(group);
        if full {
          return false;
        }
        if |hits| >= limits.maxKeys && order != [] {
          FirstTracked(View());
          var oldest := order[0];
          DropKey(oldest);
        }
        IndexAdd(groupCounts, hits.Keys, key);
        groupCounts := groupCounts[group := (if group in groupCounts then groupCounts[group] else 0) + 1];
      }
    }

    static method Push(recent: seq<int>, count: nat, now: int) returns (timestamps: seq<int>)
      ensures timestamps == recent + Copies(now, count)
    {
      timestamps := recent;
      for i := 0 to count
        invariant timestamps == recent + Copies(now, i)
      {
        timestamps := timestamps + [now];
      }
    }

    /** Deletes the key and inserts it again, which makes it the most recently used. */
    method Reinsert(key: Key, timestamps: seq<int>)
      requires TableOk(View()) && IndexOk(groupCounts, hits.Keys + {key})
      modifies this
      ensures Valid() && View() == Stored(old(View()), key, timestamps)
    {
      hide IndexOk, TableOk;
      StoredOk(View(), key, timestamps);
      order, hits := Filter(order, Other(key)) + [key], hits[key := timestamps];
      assert hits.Keys == old(hits.Keys) + {key};
    }

    method CheckMany(key: Key, count: int, now: int) returns (v: Verdict)
      requires Valid()
      modifies this
      ensures Valid()
      ensures (View(), v) == Checked(old(View()), key, count, now, limits)
    {
      hide IndexOk, TableOk, Stored, Refused;
      if count <= 0 {
        return Verdict(true, 0);
      }
      var admitted := AdmitKey(key);
      if !admitted {
        return Verdict(false, limits.windowMs);
      }
      var timestamps := if key in hits then Filter(hits[key], After(now - limits.windowMs)) else [];
      if |timestamps| + count > limits.maxRequests {
        SortLeast(timestamps);
        timestamps := Sort(timestamps);
        var retryAfterMs := if timestamps == [] then limits.windowMs else timestamps[0] + limits.windowMs - now;
        v := Verdict(false, Max0(retryAfterMs));
      } else {
        timestamps := Push(timestamps, count, now);
        v := Verdict(true, 0);
      }
      Reinsert(key, timestamps);
    }

    method Sweep(now: int)
      requires Valid()
      modifies this
      ensures Valid()
      ensures View() == Swept(old(View()), now, limits)
    {
      hide TableOk, IndexOk, SweptTo, Swept, Dropped, Filter;
      ghost var t := View();
      var keys := order;
      var i := 0;
      SweepStart(t, now, limits);
      while i < |keys|
        invariant 0 <= i <= |keys|
        invariant Valid()
        invariant View() == SweptTo(t, i, now, limits)
      {
        var key := keys[i];
        SweepStep(t, i, now, limits);
        assert hits == SweptTo(t, i, now, limits).hits;
        if Filter(hits[key], After(now - limits.windowMs)) == [] {
          DropKey(key);
        }
        i := i + 1;
      }
      SweepEnd(t, now, limits);
    }
  }

  lemma FirstTracked(t: Table)
    requires TableOk(t) && t.order != []
    ensures t.order[0] in t.hits
  {
  }

  /** The table when a sweep has looked at the first `i` keys. */
  function SweptTo(t: Table, i: nat, now: int, l: Limits): Table
    requires i <= |t.order|
  {
    Table(Filter(t.order[..i], IsLive(t.hits, now, l)) + t.order[i..],
          map k | k in t.hits && (Live(t.hits, now, l, k) || k !in t.order[..i]) :: t.hits[k])
  }

  lemma SweepStart(t: Table, now: int, l: Limits)
    ensures SweptTo(t, 0, now, l) == t
  {
  }

  lemma SweepEnd(t: Table, now: int, l: Limits)
    requires TableOk(t)
    ensures SweptTo(t, |t.order|, now, l) == Swept(t, now, l)
  {
    assert t.order[..|t.order|] == t.order;
  }

  lemma SweepStep(t: Table, i: nat, now: int, l: Limits)
    requires TableOk(t) && i < |t.order|
    ensures
      var s, key := SweptTo(t, i, now, l), t.order[i];
      && key in s.hits && key in t.hits && s.hits[key] == t.hits[key]
      && SweptTo(t, i + 1, now, l) == if Live(t.hits, now, l, key) then s else Dropped(s, key)
  {
    var key := t.order[i];
    SweepOrder(t, t.order, i, now, l);
    assert t.order[..i + 1] == t.order[..i] + [key];
    SweepHits(t, i, now, l);
  }

  lemma SweepHits(t: Table, i: nat, now: int, l: Limits)
    requires TableOk(t) && i < |t.order|
    ensures
      var s, key := SweptTo(t, i, now, l), t.order[i];
      && key in s.hits
      && SweptTo(t, i + 1, now, l).hits == if Live(t.hits, now, l, key) then s.hits else s.hits - {key}
  {
    var key := t.order[i];
    assert key !in t.order[..i];
    assert t.order[..i + 1] == t.order[..i] + [key];
  }

  /** The order before and after the sweep looks at the key at position `i`. */
  lemma SweepOrder(t: Table, keys: seq<Key>, i: nat, now: int, l: Limits)
    requires i < |keys| && forall a, b :: 0 <= a < b < |keys| ==> keys[a] != keys[b]
    ensures
      var live := IsLive(t.hits, now, l);
      var order := Filter(keys[..i], live) + keys[i..];
      && keys[i] in order
      && Filter(keys[..i + 1], live) + keys[i + 1..] == if live(keys[i]) then order else Filter(order, Other(keys[i]))
  {
    var live := IsLive(t.hits, now, l);
    var kept, rest := Filter(keys[..i], live), keys[i + 1..];
    assert keys[..i + 1] == keys[..i] + [keys[i]];
    FilterAppend(keys[..i], keys[i], live);
    assert keys[i..] == [keys[i]] + rest;
    assert kept + keys[i..] == kept + [keys[i]] + rest;
    assert keys[i] !in kept && keys[i] !in rest;
    FilterOthers(kept, keys[i], rest);
  }

  lemma {:induction false} SortLeast(s: seq<int>)
    ensures |Sort(s)| == |s|
    ensures s != [] ==> Sort(s)[0] == Least(s)
  {
    if s != [] {
      SortLeast(s[1..]);
      InsertLength(s[0], Sort(s[1..]));
    }
  }

  lemma {:induction false} InsertLength(x: int, s: seq<int>)
    ensures |Insert(x, s)| == |s| + 1
    ensures Insert(x, s)[0] == if s == [] || x <= s[0] then x else s[0]
  {
    if s != [] && x > s[0] {
      InsertLength(x, s[1..]);
    }
  }
}
