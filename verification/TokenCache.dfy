/**
 The token cache of agent grants: the grant row per token hash, dropped by every change of the grant.
 Lookups, changes and invalidations interleave; a generation counter keeps a lookup in flight from caching a
 row that an invalidation already replaced.
 */
module TokenCache {
  import opened Options

  type Hash = string
  type GrantId = string

  const TOKEN_CACHE_MAX := 10000

  /** The columns grant changes touch. */
  datatype GrantRow = GrantRow(tokenHash: Hash, isActive: bool, validUntil: Option<nat>, settings: string)

  predicate Expired(r: GrantRow, now: nat) {
    r.validUntil.Some? && r.validUntil.value < now
  }

  /** `version` tells which state of the grant's row was read: changes number the states from 0. */
  datatype Entry = Entry(grant: GrantId, version: nat, row: GrantRow, until: nat)

  /** The module-level maps: row per token hash, token hash per grant, and the generation. */
  datatype Cache = Cache(entries: map<Hash, Entry>, hashOf: map<GrantId, Hash>, generation: nat)

  const EMPTY := Cache(map[], map[], 0)

  function Invalidated(c: Cache, g: GrantId): Cache {
    if g in c.hashOf then Cache(c.entries - {c.hashOf[g]}, c.hashOf - {g}, c.generation + 1)
    else c.(generation := c.generation + 1)
  }

  function Remembered(c: Cache, h: Hash, e: Entry): Cache {
    if |c.entries| >= TOKEN_CACHE_MAX then Cache(map[h := e], map[e.grant := h], c.generation)
    else Cache(c.entries[h := e], c.hashOf[e.grant := h], c.generation)
  }

  predicate Hit(c: Cache, h: Hash, now: nat) {
    h in c.entries && c.entries[h].until > now
  }

  /** What a lookup answers from a row: the grant, or that it has ended. */
  datatype Answer = Granted(row: GrantRow) | Ended

  function AnswerOf(r: GrantRow, now: nat): Answer {
    if Expired(r, now) then Ended else Granted(r)
  }

  /** The answer from the cache, if it holds a live entry. */
  function CachedAnswer(c: Cache, h: Hash, now: nat): Option<Answer> {
    if Hit(c, h, now) then Some(AnswerOf(c.entries[h].row, now)) else None
  }

  /** A miss drops the overdue entry and leaves the reverse map alone. */
  function Missed(c: Cache, h: Hash): Cache {
    c.(entries := c.entries - {h})
  }

  class TokenStore {
    var entries: map<Hash, Entry>
    var hashOf: map<GrantId, Hash>
    var generation: nat

    function View(): Cache
      reads this
    {
      Cache(entries, hashOf, generation)
    }

    constructor ()
      ensures View() == EMPTY
    {
      entries, hashOf, generation := map[], map[], 0;
    }

    method InvalidateTokenCache(g: GrantId)
      modifies this
      ensures View() == Invalidated(old(View()), g)
    {
      generation := generation + 1;
      if g in hashOf {
        var hash := hashOf[g];
        entries := entries - {hash};
        hashOf := hashOf - {g};
      }
    }

    method RememberToken(h: Hash, g: GrantId, version: nat, row: GrantRow, now: nat, ttl: nat)
      modifies this
      ensures View() == Remembered(old(View()), h, Entry(g, version, row, now + ttl))
    {
      if |entries| >= TOKEN_CACHE_MAX {
        entries, hashOf := map[], map[];
      }
      entries := entries[h := Entry(g, version, row, now + ttl)];
      hashOf := hashOf[g := h];
    }

    /** The part of a lookup before its SELECT: the answer from the cache, or the generation the SELECT starts in. */
    method TakeCached(h: Hash, now: nat) returns (cached: Option<Answer>, started: nat)
      modifies this
      ensures cached == CachedAnswer(old(View()), h, now)
      ensures cached.Some? && cached.value.Granted? ==> cached.value.row.validUntil.None? || now <= cached.value.row.validUntil.value
      ensures View() == if cached.Some? then old(View()) else Missed(old(View()), h)
      ensures started == generation
    {
      started := generation;
      if h in entries && entries[h].until > now {
        if Expired(entries[h].row, now) {
          return Some(Ended), started;
        }
        return Some(Granted(entries[h].row)), started;
      }
      cached := None;
      entries := entries - {h};
    }

    /** The part of a lookup after its SELECT: the row is kept unless it expired or an invalidation ran meanwhile. */
    method KeepSelected(h: Hash, g: GrantId, version: nat, row: GrantRow, started: nat, now: nat, ttl: nat)
        returns (answer: Answer)
      modifies this
      ensures answer == if row.validUntil.None? || now <= row.validUntil.value then Granted(row) else Ended
      ensures View() == if answer.Granted? && started == old(generation) then Remembered(old(View()), h, Entry(g, version, row, now + ttl))
                        else old(View())
    {
      if Expired(row, now) {
        return Ended;
      }
      answer := Granted(row);
      if started == generation {
        RememberToken(h, g, version, row, now, ttl);
      }
    }
  }

  // ---------------------------------------------------------------- the protocol

  /** A lookup in flight: before its SELECT, or holding what the SELECT found. */
  datatype Lookup = Asking(hash: Hash, started: nat) | Found(hash: Hash, started: nat, grant: GrantId, version: nat) | NotFound(hash: Hash, started: nat)

  /** A change whose UPDATE ran and whose invalidation is still to come; a rotation carries the new hash. */
  datatype Change = Change(grant: GrantId, minted: Option<Hash>)

  /**
   `history` lists the states of every row, oldest first; `settled` is the version the last invalidation of a
   grant saw. Hashes of tokens a running rotation has not handed out yet are `secret`.
   */
  datatype State = State(history: map<GrantId, seq<GrantRow>>, settled: map<GrantId, nat>, secret: set<Hash>,
                         cache: Cache, lookups: map<nat, Lookup>, changes: map<nat, Change>)

  datatype Action =
    | Issue(grant: GrantId, row: GrantRow)
    | Edit(id: nat, grant: GrantId, validUntil: Option<nat>, settings: string)
    | Rotate(id: nat, grant: GrantId, minted: Hash)
    | Revoke(id: nat, grant: GrantId)
    | FinishChange(id: nat)
    | StartLookup(id: nat, hash: Hash, now: nat)
    | SelectRow(id: nat, owner: Option<GrantId>)
    | FinishLookup(id: nat, now: nat, ttl: nat)

  function Current(history: map<GrantId, seq<GrantRow>>, g: GrantId): GrantRow
    requires g in history && history[g] != []
  {
    history[g][|history[g]| - 1]
  }

  predicate Matches(history: map<GrantId, seq<GrantRow>>, g: GrantId, h: Hash) {
    g in history && history[g] != [] && Current(history, g).tokenHash == h && Current(history, g).isActive
  }

  /** The UPDATEs of grant changes only touch active rows. */
  predicate IsActive(history: map<GrantId, seq<GrantRow>>, g: GrantId) {
    g in history && history[g] != [] && Current(history, g).isActive
  }

  /** What a lookup that found a row leaves in the cache: the row, unless it expired or an invalidation ran meanwhile. */
  function Offered(c: Cache, l: Lookup, row: GrantRow, now: nat, ttl: nat): Cache
    requires l.Found?
  {
    if !Expired(row, now) && l.started == c.generation then Remembered(c, l.hash, Entry(l.grant, l.version, row, now + ttl)) else c
  }

  /** A hash drawn at random: no row ever carried it, no rotation minted it and no lookup presents it. */
  ghost predicate Unused(s: State, h: Hash) {
    && h !in s.secret
    && (forall id :: id in s.lookups ==> s.lookups[id].hash != h)
    && forall g, i :: g in s.history && 0 <= i < |s.history[g]| ==> s.history[g][i].tokenHash != h
  }

  ghost predicate Enabled(s: State, a: Action) {
    match a
    case Issue(g, row) => g !in s.history && row.isActive && Unused(s, row.tokenHash)
    case Edit(id, _, _, _) => id !in s.changes
    case Rotate(id, _, minted) => id !in s.changes && Unused(s, minted)
    case Revoke(id, _) => id !in s.changes
    case FinishChange(id) => id in s.changes
    case StartLookup(id, h, _) => id !in s.lookups && h !in s.secret
    case SelectRow(id, g) =>
      && id in s.lookups && s.lookups[id].Asking?
      && (if g.Some? then Matches(s.history, g.value, s.lookups[id].hash)
          else forall x :: x in s.history ==> !Matches(s.history, x, s.lookups[id].hash))
    case FinishLookup(id, _, _) => id in s.lookups && !s.lookups[id].Asking?
  }

  /** The UPDATE of a change: a further state of an active row, nothing otherwise. */
  function Write(s: State, id: nat, g: GrantId, row: GrantRow, minted: Option<Hash>): State {
    var history := if IsActive(s.history, g) then s.history[g := s.history[g] + [row]] else s.history;
    s.(history := history, changes := s.changes[id := Change(g, minted)])
  }

  function RowOf(s: State, g: GrantId): GrantRow {
    if IsActive(s.history, g) then Current(s.history, g) else GrantRow("", false, None, "")
  }

  function Settle(s: State, g: GrantId): map<GrantId, nat> {
    if g in s.history && s.history[g] != [] then s.settled[g := |s.history[g]| - 1] else s.settled
  }

  function Next(s: State, a: Action): State
    requires Sane(s) && Enabled(s, a)
  {
    match a
    case Issue(g, row) => s.(history := s.history[g := [row]], settled := s.settled[g := 0])
    case Edit(id, g, validUntil, settings) => Write(s, id, g, RowOf(s, g).(validUntil := validUntil, settings := settings), None)
    case Rotate(id, g, minted) => Write(s, id, g, RowOf(s, g).(tokenHash := minted), Some(minted)).(secret := s.secret + {minted})
    case Revoke(id, g) => Write(s, id, g, RowOf(s, g).(isActive := false), None)
    case FinishChange(id) =>
      var c := s.changes[id];
      State(s.history, Settle(s, c.grant), if c.minted.Some? then s.secret - {c.minted.value} else s.secret,
            Invalidated(s.cache, c.grant), s.lookups, s.changes - {id})
    case StartLookup(id, h, now) =>
      if Hit(s.cache, h, now) then s
      else s.(cache := Missed(s.cache, h), lookups := s.lookups[id := Asking(h, s.cache.generation)])
    case SelectRow(id, g) =>
      var l := s.lookups[id];
      s.(lookups := s.lookups[id := if g.Some? then Found(l.hash, l.started, g.value, |s.history[g.value]| - 1)
                                    else NotFound(l.hash, l.started)])
    case FinishLookup(id, now, ttl) =>
      var l := s.lookups[id];
      var cache := if l.Found? then Offered(s.cache, l, s.history[l.grant][l.version], now, ttl) else s.cache;
      s.(cache := cache, lookups := s.lookups - {id})
  }

  // ---------------------------------------------------------------- invariant

  /** The row versions that lookups and settled marks name exist. */
  ghost predicate Sane(s: State) {
    && s.settled.Keys == s.history.Keys
    && (forall g :: g in s.history ==> s.settled[g] < |s.history[g]|)
    && (forall id :: id in s.lookups ==> s.lookups[id].started <= s.cache.generation)
    && (forall id :: id in s.lookups && s.lookups[id].Found? ==>
          s.lookups[id].grant in s.history && s.lookups[id].version < |s.history[s.lookups[id].grant]|)
  }

  /** No two grants ever carry the same hash. */
  ghost predicate OwnHashes(history: map<GrantId, seq<GrantRow>>) {
    forall g, i, x, j ::
      g in history && 0 <= i < |history[g]| && x in history && 0 <= j < |history[x]| ==>
        history[g][i].tokenHash == history[x][j].tokenHash ==> g == x
  }

  /** A grant never returns to a hash it replaced. */
  ghost predicate NoReturn(rows: seq<GrantRow>) {
    forall i, k, j :: 0 <= i <= k <= j < |rows| && rows[i].tokenHash == rows[j].tokenHash ==> rows[k].tokenHash == rows[i].tokenHash
  }

  /** Only the last state of a grant can be inactive. */
  ghost predicate ActiveBefore(rows: seq<GrantRow>) {
    forall i :: 0 <= i < |rows| && !rows[i].isActive ==> i == |rows| - 1
  }

  ghost predicate HistoryOk(history: map<GrantId, seq<GrantRow>>) {
    OwnHashes(history) && forall g :: g in history ==> NoReturn(history[g]) && ActiveBefore(history[g])
  }

  /** A hash in use since the last invalidation of its grant was in use at that invalidation, or is still secret. */
  ghost predicate HashesSettled(s: State) {
    forall g, i :: g in s.history && g in s.settled && s.settled[g] <= i < |s.history[g]| && s.history[g][i].tokenHash !in s.secret ==>
      s.history[g][i].tokenHash == s.history[g][s.settled[g]].tokenHash
  }

  /** A secret hash belongs to the one rotation that minted it. */
  ghost predicate SecretsOwned(s: State) {
    && (forall id :: id in s.changes && s.changes[id].minted.Some? ==> s.changes[id].minted.value in s.secret)
    && (forall id, x ::
          id in s.changes && s.changes[id].minted.Some? && x in s.changes && s.changes[x].minted.Some? ==>
            s.changes[id].minted == s.changes[x].minted ==> id == x)
    && (forall id, g, i ::
          id in s.changes && s.changes[id].minted.Some? && g in s.history && 0 <= i < |s.history[g]| ==>
            s.history[g][i].tokenHash == s.changes[id].minted.value ==> g == s.changes[id].grant)
  }

  /** A row read for a hash: active, of the grant that owns the hash, and not older than its last invalidation. */
  predicate IsFresh(s: State, h: Hash, g: GrantId, version: nat, row: GrantRow) {
    && h !in s.secret
    && g in s.history && g in s.settled
    && s.settled[g] <= version < |s.history[g]|
    && s.history[g][version] == row
    && row.tokenHash == h && row.isActive
  }

  /** The reverse map names the hash for the grant of its entry. */
  predicate Named(c: Cache, h: Hash)
    requires h in c.entries
  {
    c.entries[h].grant in c.hashOf && c.hashOf[c.entries[h].grant] == h
  }

  predicate EntryFresh(s: State, h: Hash, e: Entry) {
    IsFresh(s, h, e.grant, e.version, e.row)
  }

  ghost predicate CacheCoherent(s: State, c: Cache) {
    && |c.entries| <= TOKEN_CACHE_MAX
    && (forall h :: h in c.entries ==> EntryFresh(s, h, c.entries[h]))
    && (forall h :: h in c.entries ==> Named(c, h))
  }

  predicate LookupCoherent(s: State, l: Lookup) {
    && l.hash !in s.secret
    && (l.Found? && l.started == s.cache.generation ==>
          l.grant in s.history && l.version < |s.history[l.grant]|
          && IsFresh(s, l.hash, l.grant, l.version, s.history[l.grant][l.version]))
  }

  ghost predicate LookupsCoherent(s: State) {
    forall id :: id in s.lookups ==> LookupCoherent(s, s.lookups[id])
  }

  ghost predicate Inv(s: State) {
    Sane(s) && HistoryOk(s.history) && HashesSettled(s) && SecretsOwned(s) && CacheCoherent(s, s.cache) && LookupsCoherent(s)
  }

  const START := State(map[], map[], {}, EMPTY, map[], map[])

  lemma InitInv()
    ensures Inv(START)
  {
  }

  /** Fresh rows of `s` are fresh in `t`, wherever the hash is not secret there. */
  ghost predicate KeepsFresh(s: State, t: State, settling: Option<GrantId>) {
    forall h, g, version, row :: IsFresh(s, h, g, version, row) && h !in t.secret && settling != Some(g) ==> IsFresh(t, h, g, version, row)
  }

  lemma CacheStays(s: State, t: State)
    requires CacheCoherent(s, s.cache) && KeepsFresh(s, t, None)
    requires t.cache == s.cache && forall h :: h in s.cache.entries ==> h !in t.secret
    ensures CacheCoherent(t, t.cache)
  {
    hide IsFresh, Named;
  }

  lemma LookupsStay(s: State, t: State)
    requires LookupsCoherent(s) && KeepsFresh(s, t, None) && Sane(s)
    requires t.cache.generation == s.cache.generation && t.lookups == s.lookups
    requires forall id :: id in s.lookups ==> s.lookups[id].hash !in t.secret
    ensures LookupsCoherent(t)
  {
    forall id | id in t.lookups
      ensures LookupCoherent(t, t.lookups[id])
    {
      var l := s.lookups[id];
      assert LookupCoherent(s, l);
      if l.Found? && l.started == s.cache.generation {
        assert IsFresh(t, l.hash, l.grant, l.version, s.history[l.grant][l.version]);
      }
    }
  }

  // ---------------------------------------------------------------- changes

  /** What appending a state to the row of an active grant needs to know of the new state. */
  ghost predicate Writable(s: State, id: nat, g: GrantId, row: GrantRow, minted: Option<Hash>) {
    && id !in s.changes
    && (minted.None? && IsActive(s.history, g) ==> row.tokenHash == Current(s.history, g).tokenHash)
    && (minted.Some? ==> row.tokenHash == minted.value && Unused(s, minted.value))
  }

  function Hiding(s: State, minted: Option<Hash>): State {
    if minted.Some? then s.(secret := s.secret + {minted.value}) else s
  }

  lemma WriteKeepsRows(s: State, id: nat, g: GrantId, row: GrantRow, minted: Option<Hash>)
    requires IsActive(s.history, g) && NoReturn(s.history[g]) && ActiveBefore(s.history[g]) && Writable(s, id, g, row, minted)
    ensures NoReturn(s.history[g] + [row]) && ActiveBefore(s.history[g] + [row])
  {
    var rows := s.history[g] + [row];
    forall i, k, j | 0 <= i <= k <= j < |rows| && rows[i].tokenHash == rows[j].tokenHash
      ensures rows[k].tokenHash == rows[i].tokenHash
    {
      if j == |rows| - 1 && i < j && minted.None? {
        assert rows[j].tokenHash == rows[j - 1].tokenHash;
      }
    }
  }

  lemma WriteKeepsOwnHashes(s: State, id: nat, g: GrantId, row: GrantRow, minted: Option<Hash>)
    requires OwnHashes(s.history) && Writable(s, id, g, row, minted)
    ensures OwnHashes(Hiding(Write(s, id, g, row, minted), minted).history)
  {
  }

  lemma WriteKeepsHistory(s: State, id: nat, g: GrantId, row: GrantRow, minted: Option<Hash>)
    requires HistoryOk(s.history) && Writable(s, id, g, row, minted)
    ensures HistoryOk(Hiding(Write(s, id, g, row, minted), minted).history)
  {
    WriteKeepsOwnHashes(s, id, g, row, minted);
    if IsActive(s.history, g) {
      WriteKeepsRows(s, id, g, row, minted);
    }
    hide NoReturn, ActiveBefore, OwnHashes, Writable;
  }

  lemma WriteKeepsHashes(s: State, id: nat, g: GrantId, row: GrantRow, minted: Option<Hash>)
    requires Sane(s) && HashesSettled(s) && Writable(s, id, g, row, minted)
    ensures HashesSettled(Hiding(Write(s, id, g, row, minted), minted))
  {
  }

  lemma WriteKeepsSecrets(s: State, id: nat, g: GrantId, row: GrantRow, minted: Option<Hash>)
    requires HistoryOk(s.history) && SecretsOwned(s) && Writable(s, id, g, row, minted)
    ensures SecretsOwned(Hiding(Write(s, id, g, row, minted), minted))
  {
    hide NoReturn, ActiveBefore;
  }

  lemma WriteKeepsFresh(s: State, id: nat, g: GrantId, row: GrantRow, minted: Option<Hash>)
    ensures KeepsFresh(s, Hiding(Write(s, id, g, row, minted), minted), None)
  {
  }

  lemma WriteKeepsSane(s: State, id: nat, g: GrantId, row: GrantRow, minted: Option<Hash>)
    requires Sane(s)
    ensures Sane(Hiding(Write(s, id, g, row, minted), minted))
  {
  }

  /** Neither a cached hash nor the hash of a lookup is secret. */
  lemma NoSecretsOut(s: State)
    requires CacheCoherent(s, s.cache) && LookupsCoherent(s)
    ensures forall h :: h in s.cache.entries ==> h !in s.secret
    ensures forall id :: id in s.lookups ==> s.lookups[id].hash !in s.secret
  {
    forall h | h in s.cache.entries
      ensures h !in s.secret
    {
      assert EntryFresh(s, h, s.cache.entries[h]);
    }
    forall id | id in s.lookups
      ensures s.lookups[id].hash !in s.secret
    {
      assert LookupCoherent(s, s.lookups[id]);
    }
  }

  /** A hash no row carries is not cached. */
  lemma UnusedNotCached(s: State, h: Hash)
    requires Unused(s, h) && CacheCoherent(s, s.cache)
    ensures h !in s.cache.entries
  {
    assert h in s.cache.entries ==> EntryFresh(s, h, s.cache.entries[h]);
  }

  /** Cache and lookups do not notice an UPDATE; rows they hold may now lag, but not behind the last invalidation. */
  lemma WriteKeepsCache(s: State, t: State, minted: Option<Hash>)
    requires CacheCoherent(s, s.cache) && LookupsCoherent(s) && Sane(s) && KeepsFresh(s, t, None)
    requires t.cache == s.cache && t.lookups == s.lookups
    requires minted.None? ==> t.secret == s.secret
    requires minted.Some? ==> t.secret == s.secret + {minted.value} && Unused(s, minted.value)
    ensures CacheCoherent(t, t.cache) && LookupsCoherent(t)
  {
    NoSecretsOut(s);
    if minted.Some? {
      UnusedNotCached(s, minted.value);
    }
    hide CacheCoherent, LookupsCoherent, KeepsFresh, Sane;
    CacheStays(s, t);
    LookupsStay(s, t);
  }

  lemma WriteKeeps(s: State, id: nat, g: GrantId, row: GrantRow, minted: Option<Hash>)
    requires Inv(s) && Writable(s, id, g, row, minted)
    ensures Inv(Hiding(Write(s, id, g, row, minted), minted))
  {
    hide HistoryOk, HashesSettled, SecretsOwned, CacheCoherent, LookupsCoherent, KeepsFresh, Sane, Unused;
    WriteKeepsSane(s, id, g, row, minted);
    WriteKeepsHistory(s, id, g, row, minted);
    WriteKeepsHashes(s, id, g, row, minted);
    WriteKeepsSecrets(s, id, g, row, minted);
    WriteKeepsFresh(s, id, g, row, minted);
    WriteKeepsCache(s, Hiding(Write(s, id, g, row, minted), minted), minted);
  }

  function Issued(s: State, g: GrantId, row: GrantRow): State {
    s.(history := s.history[g := [row]], settled := s.settled[g := 0])
  }

  lemma IssueKeepsSane(s: State, g: GrantId, row: GrantRow)
    requires Sane(s) && g !in s.history
    ensures Sane(Issued(s, g, row))
    ensures HashesSettled(s) ==> HashesSettled(Issued(s, g, row))
    ensures KeepsFresh(s, Issued(s, g, row), None)
  {
  }

  lemma IssueKeepsHistory(s: State, g: GrantId, row: GrantRow)
    requires HistoryOk(s.history) && row.isActive && Unused(s, row.tokenHash)
    ensures HistoryOk(Issued(s, g, row).history)
  {
  }

  lemma IssueKeepsSecrets(s: State, g: GrantId, row: GrantRow)
    requires SecretsOwned(s) && Unused(s, row.tokenHash)
    ensures SecretsOwned(Issued(s, g, row))
  {
  }

  lemma IssueKeeps(s: State, g: GrantId, row: GrantRow)
    requires Inv(s) && Enabled(s, Issue(g, row))
    ensures Inv(Next(s, Issue(g, row)))
  {
    hide HistoryOk, HashesSettled, SecretsOwned, CacheCoherent, LookupsCoherent, KeepsFresh, Sane, Unused;
    IssueKeepsSane(s, g, row);
    IssueKeepsHistory(s, g, row);
    IssueKeepsSecrets(s, g, row);
    WriteKeepsCache(s, Issued(s, g, row), None);
  }

  // ---------------------------------------------------------------- invalidation

  lemma FinishKeepsSane(s: State, id: nat)
    requires Sane(s) && id in s.changes
    ensures Sane(Next(s, FinishChange(id)))
  {
  }

  lemma FinishKeepsHashes(s: State, id: nat)
    requires Sane(s) && HashesSettled(s) && SecretsOwned(s) && id in s.changes
    ensures HashesSettled(Next(s, FinishChange(id)))
  {
  }

  lemma FinishKeepsSecrets(s: State, id: nat)
    requires Sane(s) && SecretsOwned(s) && id in s.changes
    ensures SecretsOwned(Next(s, FinishChange(id)))
  {
  }

  /** No entry of the grant is left: the reverse map names the only one there was. */
  lemma InvalidatedDropsGrant(s: State, c: Cache, g: GrantId)
    requires CacheCoherent(s, c)
    ensures forall h :: h in Invalidated(c, g).entries ==> h in c.entries && Invalidated(c, g).entries[h] == c.entries[h] && c.entries[h].grant != g
    ensures forall h :: h in Invalidated(c, g).entries ==> Named(Invalidated(c, g), h)
    ensures |Invalidated(c, g).entries| <= TOKEN_CACHE_MAX
  {
    var d := Invalidated(c, g);
    forall h | h in d.entries
      ensures h in c.entries && d.entries[h] == c.entries[h] && c.entries[h].grant != g && Named(d, h)
    {
      assert Named(c, h);
    }
    SubmapSmaller(d.entries, c.entries);
  }

  lemma SubmapSmaller(m: map<Hash, Entry>, n: map<Hash, Entry>)
    requires m.Keys <= n.Keys
    ensures |m| <= |n|
  {
    assert |n.Keys| == |m.Keys| + |n.Keys - m.Keys|;
    assert |m| == |m.Keys| && |n| == |n.Keys|;
  }

  lemma FinishKeepsFresh(s: State, id: nat)
    requires Sane(s) && id in s.changes
    ensures KeepsFresh(s, Next(s, FinishChange(id)), Some(s.changes[id].grant))
  {
  }

  /** The invalidation leaves no entry of its grant, and makes every lookup in flight too old to be cached. */
  lemma FinishKeepsCache(s: State, t: State, g: GrantId)
    requires CacheCoherent(s, s.cache) && LookupsCoherent(s) && Sane(s) && KeepsFresh(s, t, Some(g))
    requires t.cache == Invalidated(s.cache, g) && t.lookups == s.lookups && t.secret <= s.secret
    ensures CacheCoherent(t, t.cache) && LookupsCoherent(t)
  {
    NoSecretsOut(s);
    InvalidatedDropsGrant(s, s.cache, g);
    forall h | h in t.cache.entries
      ensures EntryFresh(t, h, t.cache.entries[h])
    {
      hide IsFresh, Invalidated, Named;
      assert EntryFresh(s, h, s.cache.entries[h]);
    }
    forall id | id in t.lookups
      ensures LookupCoherent(t, t.lookups[id])
    {
    }
  }

  lemma FinishKeeps(s: State, id: nat)
    requires Inv(s) && Enabled(s, FinishChange(id))
    ensures Inv(Next(s, FinishChange(id)))
  {
    hide HistoryOk, HashesSettled, SecretsOwned, CacheCoherent, LookupsCoherent, KeepsFresh, Sane, Invalidated, Settle;
    FinishKeepsSane(s, id);
    FinishKeepsHashes(s, id);
    FinishKeepsSecrets(s, id);
    FinishKeepsFresh(s, id);
    FinishKeepsCache(s, Next(s, FinishChange(id)), s.changes[id].grant);
  }

  // ---------------------------------------------------------------- lookups

  lemma StartKeepsCache(s: State, h: Hash)
    requires CacheCoherent(s, s.cache)
    ensures CacheCoherent(s, Missed(s.cache, h))
  {
    forall x | x in Missed(s.cache, h).entries
      ensures EntryFresh(s, x, s.cache.entries[x]) && Named(Missed(s.cache, h), x)
    {
      assert EntryFresh(s, x, s.cache.entries[x]) && Named(s.cache, x);
    }
    SubmapSmaller(Missed(s.cache, h).entries, s.cache.entries);
  }

  /** A step of the lookup `id` that leaves the rows alone. */
  lemma LookupStep(s: State, t: State, id: nat)
    requires Inv(s)
    requires t == s.(cache := t.cache, lookups := t.lookups)
    requires CacheCoherent(s, t.cache) && t.cache.generation == s.cache.generation
    requires forall x :: x in t.lookups && x != id ==> x in s.lookups && t.lookups[x] == s.lookups[x]
    requires id in t.lookups ==> LookupCoherent(s, t.lookups[id]) && t.lookups[id].started <= s.cache.generation
    requires id in t.lookups && t.lookups[id].Found? ==>
      t.lookups[id].grant in s.history && t.lookups[id].version < |s.history[t.lookups[id].grant]|
    ensures Inv(t)
  {
    hide HistoryOk, IsFresh;
    assert CacheCoherent(t, t.cache) by {
      forall h | h in t.cache.entries
        ensures EntryFresh(t, h, t.cache.entries[h])
      {
        assert EntryFresh(s, h, t.cache.entries[h]);
        SameFresh(s, t, h, t.cache.entries[h].grant, t.cache.entries[h].version, t.cache.entries[h].row);
      }
    }
    LookupStepLookups(s, t, id);
    LookupStepTables(s, t, id);
  }

  lemma SameFresh(s: State, t: State, h: Hash, g: GrantId, version: nat, row: GrantRow)
    requires t.history == s.history && t.settled == s.settled && t.secret == s.secret
    ensures IsFresh(t, h, g, version, row) == IsFresh(s, h, g, version, row)
  {
  }

  lemma LookupStepLookups(s: State, t: State, id: nat)
    requires LookupsCoherent(s)
    requires t == s.(cache := t.cache, lookups := t.lookups) && t.cache.generation == s.cache.generation
    requires forall x :: x in t.lookups && x != id ==> x in s.lookups && t.lookups[x] == s.lookups[x]
    requires id in t.lookups ==> LookupCoherent(s, t.lookups[id])
    ensures LookupsCoherent(t)
  {
    forall x | x in t.lookups
      ensures LookupCoherent(t, t.lookups[x])
    {
      assert LookupCoherent(s, t.lookups[x]);
    }
  }

  lemma LookupStepTables(s: State, t: State, id: nat)
    requires Sane(s) && HashesSettled(s) && SecretsOwned(s)
    requires t == s.(cache := t.cache, lookups := t.lookups) && t.cache.generation == s.cache.generation
    requires forall x :: x in t.lookups && x != id ==> x in s.lookups && t.lookups[x] == s.lookups[x]
    requires id in t.lookups ==> t.lookups[id].started <= s.cache.generation
    requires id in t.lookups && t.lookups[id].Found? ==>
      t.lookups[id].grant in s.history && t.lookups[id].version < |s.history[t.lookups[id].grant]|
    ensures Sane(t) && HashesSettled(t) && SecretsOwned(t)
  {
  }

  lemma StartKeeps(s: State, id: nat, h: Hash, now: nat)
    requires Inv(s) && Enabled(s, StartLookup(id, h, now))
    ensures Inv(Next(s, StartLookup(id, h, now)))
  {
    hide HistoryOk, HashesSettled, SecretsOwned, CacheCoherent, LookupsCoherent, Sane, Unused;
    if !Hit(s.cache, h, now) {
      StartKeepsCache(s, h);
      LookupStep(s, Next(s, StartLookup(id, h, now)), id);
    }
  }

  /** The SELECT reads the current state of the row, which no invalidation has overtaken. */
  lemma SelectFresh(s: State, l: Lookup, g: GrantId)
    requires Sane(s) && l.hash !in s.secret && Matches(s.history, g, l.hash)
    ensures LookupCoherent(s, Found(l.hash, l.started, g, |s.history[g]| - 1))
  {
  }

  lemma LookupKnown(s: State, id: nat)
    requires Sane(s) && LookupsCoherent(s) && id in s.lookups
    ensures LookupCoherent(s, s.lookups[id]) && s.lookups[id].started <= s.cache.generation
    ensures s.lookups[id].hash !in s.secret
    ensures s.lookups[id].Found? ==> s.lookups[id].grant in s.history && s.lookups[id].version < |s.history[s.lookups[id].grant]|
  {
  }

  lemma SelectKeeps(s: State, id: nat, g: Option<GrantId>)
    requires Inv(s) && Enabled(s, SelectRow(id, g))
    ensures Inv(Next(s, SelectRow(id, g)))
  {
    LookupKnown(s, id);
    hide HistoryOk, HashesSettled, SecretsOwned, CacheCoherent, LookupsCoherent, LookupCoherent, Sane, Unused;
    if g.Some? {
      SelectFresh(s, s.lookups[id], g.value);
    }
    LookupStep(s, Next(s, SelectRow(id, g)), id);
  }

  /** Fresh rows of one grant all carry the hash the grant had at its last invalidation. */
  lemma FreshHash(s: State, h: Hash, g: GrantId, version: nat, row: GrantRow)
    requires HashesSettled(s) && IsFresh(s, h, g, version, row)
    ensures g in s.history && g in s.settled && s.settled[g] < |s.history[g]|
    ensures h == s.history[g][s.settled[g]].tokenHash
  {
  }

  /** Caching a fresh row leaves its grant with this one entry. */
  lemma RememberKeeps(s: State, h: Hash, e: Entry)
    requires CacheCoherent(s, s.cache) && HashesSettled(s) && EntryFresh(s, h, e)
    ensures CacheCoherent(s, Remembered(s.cache, h, e))
  {
    hide HashesSettled, IsFresh;
    var d := Remembered(s.cache, h, e);
    FreshHash(s, h, e.grant, e.version, e.row);
    forall x | x in d.entries
      ensures EntryFresh(s, x, d.entries[x]) && Named(d, x)
    {
      if x != h {
        assert EntryFresh(s, x, s.cache.entries[x]) && Named(s.cache, x);
        FreshHash(s, x, s.cache.entries[x].grant, s.cache.entries[x].version, s.cache.entries[x].row);
      }
    }
  }

  lemma FinishLookupCaches(s: State, l: Lookup, now: nat, ttl: nat)
    requires CacheCoherent(s, s.cache) && HashesSettled(s)
    requires l.Found? && l.grant in s.history && l.version < |s.history[l.grant]| && LookupCoherent(s, l)
    ensures CacheCoherent(s, Offered(s.cache, l, s.history[l.grant][l.version], now, ttl))
  {
    hide HashesSettled, IsFresh, CacheCoherent, Remembered;
    var row := s.history[l.grant][l.version];
    if !Expired(row, now) && l.started == s.cache.generation {
      RememberKeeps(s, l.hash, Entry(l.grant, l.version, row, now + ttl));
    }
  }

  lemma FinishLookupKeeps(s: State, id: nat, now: nat, ttl: nat)
    requires Inv(s) && Enabled(s, FinishLookup(id, now, ttl))
    ensures Inv(Next(s, FinishLookup(id, now, ttl)))
  {
    LookupKnown(s, id);
    hide HistoryOk, HashesSettled, SecretsOwned, CacheCoherent, LookupsCoherent, Unused;
    if s.lookups[id].Found? {
      FinishLookupCaches(s, s.lookups[id], now, ttl);
    }
    LookupStep(s, Next(s, FinishLookup(id, now, ttl)), id);
  }

  // ---------------------------------------------------------------- runs

  /** Rows only get new states, and no invalidation mark moves back. */
  ghost predicate Grows(s: State, t: State) {
    forall g :: g in s.history && g in s.settled ==>
      && g in t.history && g in t.settled
      && s.history[g] <= t.history[g]
      && s.settled[g] <= t.settled[g]
  }

  lemma StepGrows(s: State, a: Action)
    requires Sane(s) && Enabled(s, a)
    ensures Grows(s, Next(s, a))
  {
  }

  lemma StepKeeps(s: State, a: Action)
    requires Inv(s) && Enabled(s, a)
    ensures Inv(Next(s, a))
  {
    match a
    case Issue(g, row) => IssueKeeps(s, g, row);
    case Edit(id, g, validUntil, settings) => WriteKeeps(s, id, g, RowOf(s, g).(validUntil := validUntil, settings := settings), None);
    case Rotate(id, g, minted) => WriteKeeps(s, id, g, RowOf(s, g).(tokenHash := minted), Some(minted));
    case Revoke(id, g) => WriteKeeps(s, id, g, RowOf(s, g).(isActive := false), None);
    case FinishChange(id) => FinishKeeps(s, id);
    case StartLookup(id, h, now) => StartKeeps(s, id, h, now);
    case SelectRow(id, g) => SelectKeeps(s, id, g);
    case FinishLookup(id, now, ttl) => FinishLookupKeeps(s, id, now, ttl);
  }

  ghost predicate IsStep(s: State, t: State) {
    exists a :: Sane(s) && Enabled(s, a) && t == Next(s, a)
  }

  ghost predicate IsRun(states: seq<State>) {
    states != [] && states[0] == START && forall i :: 0 < i < |states| ==> IsStep(states[i - 1], states[i])
  }

  lemma {:induction false} RunsKeepInv(states: seq<State>, i: nat)
    requires IsRun(states) && i < |states|
    ensures Inv(states[i])
  {
    if i == 0 {
      InitInv();
    } else {
      RunsKeepInv(states, i - 1);
      assert IsStep(states[i - 1], states[i]);
      var a :| Enabled(states[i - 1], a) && states[i] == Next(states[i - 1], a);
      hide Next, Enabled, Inv;
      StepKeeps(states[i - 1], a);
    }
  }

  lemma {:induction false} RunsGrow(states: seq<State>, i: nat, j: nat)
    requires IsRun(states) && i <= j < |states|
    ensures Grows(states[i], states[j])
  {
    hide Next, Enabled, Sane, Grows;
    GrowsSame(states[i]);
    if i < j {
      RunsGrow(states, i, j - 1);
      assert IsStep(states[j - 1], states[j]);
      var a :| Enabled(states[j - 1], a) && states[j] == Next(states[j - 1], a);
      StepGrows(states[j - 1], a);
      GrowsTransitive(states[i], states[j - 1], states[j]);
    }
  }

  lemma GrowsSame(s: State)
    ensures Grows(s, s)
  {
  }

  lemma GrowsTransitive(s: State, t: State, u: State)
    requires Grows(s, t) && Grows(t, u)
    ensures Grows(s, u)
  {
  }

  /** The invalidation of a change to `g` runs between two states. */
  ghost predicate Invalidates(s: State, t: State, g: GrantId) {
    g in s.history && exists id :: Sane(s) && id in s.changes && s.changes[id].grant == g && t == Next(s, FinishChange(id))
  }

  /** The invalidation sees every state written so far, and later runs only add to them. */
  lemma SettledSince(states: seq<State>, i: nat, j: nat, g: GrantId)
    requires IsRun(states) && 0 < i <= j < |states| && Invalidates(states[i - 1], states[i], g)
    ensures Inv(states[j])
    ensures g in states[i].history && g in states[j].history && g in states[j].settled
    ensures 0 < |states[i].history[g]| && states[i].history[g] <= states[j].history[g]
    ensures |states[i].history[g]| - 1 <= states[j].settled[g]
  {
    RunsKeepInv(states, i);
    RunsKeepInv(states, j);
    RunsGrow(states, i, j);
    hide IsRun;
    Settles(states[i - 1], states[i], g);
  }

  lemma Settles(s: State, t: State, g: GrantId)
    requires Invalidates(s, t, g)
    ensures g in t.history && g in t.settled && 0 < |t.history[g]| && t.settled[g] == |t.history[g]| - 1
  {
  }

  /** Whatever runs later, no cached row of the grant is older than the state its invalidation saw. */
  lemma NoOlderRowCached(states: seq<State>, i: nat, j: nat, g: GrantId, h: Hash)
    requires IsRun(states) && 0 < i <= j < |states| && Invalidates(states[i - 1], states[i], g)
    requires h in states[j].cache.entries && states[j].cache.entries[h].grant == g
    ensures g in states[i].history && states[i].history[g] != []
    ensures states[j].cache.entries[h].version >= |states[i].history[g]| - 1
  {
    SettledSince(states, i, j, g);
    hide IsRun, Invalidates;
    assert EntryFresh(states[j], h, states[j].cache.entries[h]);
  }

  /** Every cached hash is the one the reverse map names for its grant, and holds the row that carries it. */
  lemma CachedHashNamed(states: seq<State>, i: nat, h: Hash)
    requires IsRun(states) && i < |states| && h in states[i].cache.entries
    ensures var e := states[i].cache.entries[h];
            e.grant in states[i].cache.hashOf && states[i].cache.hashOf[e.grant] == h && e.row.tokenHash == h && e.row.isActive
  {
    RunsKeepInv(states, i);
    assert Named(states[i].cache, h) && EntryFresh(states[i], h, states[i].cache.entries[h]);
  }

  /** After the invalidation of a revoke no token of the grant is ever answered from the cache or found by a SELECT. */
  lemma RevokedNeverServed(states: seq<State>, i: nat, j: nat, g: GrantId, h: Hash)
    requires IsRun(states) && 0 < i <= j < |states| && Invalidates(states[i - 1], states[i], g)
    requires !IsActive(states[i].history, g)
    ensures h in states[j].cache.entries ==> states[j].cache.entries[h].grant != g
    ensures !Matches(states[j].history, g, h)
  {
    SettledSince(states, i, j, g);
    hide IsRun, Invalidates;
    InactiveNotServed(states[j], states[i].history[g], g, h);
  }

  lemma InactiveNotServed(t: State, rows: seq<GrantRow>, g: GrantId, h: Hash)
    requires HistoryOk(t.history) && CacheCoherent(t, t.cache)
    requires g in t.history && g in t.settled && 0 < |rows| && rows <= t.history[g] && |rows| - 1 <= t.settled[g]
    requires !rows[|rows| - 1].isActive
    ensures h in t.cache.entries ==> t.cache.entries[h].grant != g
    ensures !Matches(t.history, g, h)
  {
    hide OwnHashes, NoReturn;
    assert !t.history[g][|rows| - 1].isActive;
    assert ActiveBefore(t.history[g]);
    assert h in t.cache.entries ==> EntryFresh(t, h, t.cache.entries[h]);
  }

  /** After the invalidation of a rotation no token the grant had before is answered from the cache or found by a SELECT. */
  lemma ReplacedTokenNeverServed(states: seq<State>, i: nat, j: nat, g: GrantId, k: nat, x: GrantId)
    requires IsRun(states) && 0 < i <= j < |states| && Invalidates(states[i - 1], states[i], g)
    requires g in states[i].history && k < |states[i].history[g]|
    requires states[i].history[g][k].tokenHash != Current(states[i].history, g).tokenHash
    ensures states[i].history[g][k].tokenHash !in states[j].cache.entries
    ensures !Matches(states[j].history, x, states[i].history[g][k].tokenHash)
  {
    SettledSince(states, i, j, g);
    hide IsRun, Invalidates;
    ReplacedNotServed(states[j], states[i].history[g], g, k, x);
  }

  lemma ReplacedNotServed(t: State, rows: seq<GrantRow>, g: GrantId, k: nat, x: GrantId)
    requires HistoryOk(t.history) && CacheCoherent(t, t.cache)
    requires g in t.history && g in t.settled && rows <= t.history[g] && |rows| - 1 <= t.settled[g]
    requires k < |rows| && rows[k].tokenHash != rows[|rows| - 1].tokenHash
    ensures rows[k].tokenHash !in t.cache.entries
    ensures !Matches(t.history, x, rows[k].tokenHash)
  {
    var h := rows[k].tokenHash;
    var n := |rows| - 1;
    assert t.history[g][k] == rows[k] && t.history[g][n] == rows[n];
    NeverReturns(t.history, g, k, n);
    assert h in t.cache.entries ==> EntryFresh(t, h, t.cache.entries[h]);
  }

  /** A hash replaced at state `n` belongs to no grant's state from `n` on. */
  lemma NeverReturns(history: map<GrantId, seq<GrantRow>>, g: GrantId, k: nat, n: nat)
    requires HistoryOk(history) && g in history && k <= n < |history[g]|
    requires history[g][k].tokenHash != history[g][n].tokenHash
    ensures forall x, v :: x in history && 0 <= v < |history[x]| && history[x][v].tokenHash == history[g][k].tokenHash ==> x == g && v < n
  {
  }

  // ---------------------------------------------------------------- validity of cached rows

  /** A lookup that ended at `now` put the entry into the cache, and its row was not overdue then. */
  ghost predicate CachedBy(s: State, t: State, h: Hash, e: Entry) {
    exists id, now: nat, ttl: nat ::
      && Sane(s) && Enabled(s, FinishLookup(id, now, ttl)) && t == Next(s, FinishLookup(id, now, ttl))
      && s.lookups[id].hash == h && e.until == now + ttl && (e.row.validUntil.Some? ==> now <= e.row.validUntil.value)
  }

  /** Only the end of a lookup adds to the cache. */
  lemma OthersCacheNothing(s: State, a: Action, h: Hash)
    requires Sane(s) && Enabled(s, a) && !a.FinishLookup? && h in Next(s, a).cache.entries
    ensures h in s.cache.entries && s.cache.entries[h] == Next(s, a).cache.entries[h]
  {
    hide Unused, Matches;
  }

  lemma FinishCaches(s: State, id: nat, now: nat, ttl: nat, h: Hash)
    requires Sane(s) && Enabled(s, FinishLookup(id, now, ttl))
    requires h in Next(s, FinishLookup(id, now, ttl)).cache.entries
    ensures
      var t := Next(s, FinishLookup(id, now, ttl));
      (h in s.cache.entries && s.cache.entries[h] == t.cache.entries[h]) || CachedBy(s, t, h, t.cache.entries[h])
  {
    hide Sane, Unused;
  }

  lemma StepCaches(s: State, t: State, h: Hash)
    requires IsStep(s, t) && h in t.cache.entries
    ensures (h in s.cache.entries && s.cache.entries[h] == t.cache.entries[h]) || CachedBy(s, t, h, t.cache.entries[h])
  {
    hide Sane, Enabled, Next, CachedBy;
    var a :| Sane(s) && Enabled(s, a) && t == Next(s, a);
    if a.FinishLookup? {
      FinishCaches(s, a.id, a.now, a.ttl, h);
    } else {
      OthersCacheNothing(s, a, h);
    }
  }

  /** Every cached row was put there by a lookup during the run at whose end it was still valid. */
  lemma {:induction false} CachedWasValid(states: seq<State>, i: nat, h: Hash)
    requires IsRun(states) && i < |states| && h in states[i].cache.entries
    ensures exists j :: 0 < j <= i && CachedBy(states[j - 1], states[j], h, states[i].cache.entries[h])
  {
    hide IsStep, CachedBy;
    if i > 0 {
      assert IsStep(states[i - 1], states[i]);
      StepCaches(states[i - 1], states[i], h);
      if h in states[i - 1].cache.entries && states[i - 1].cache.entries[h] == states[i].cache.entries[h] {
        CachedWasValid(states, i - 1, h);
      }
    }
  }

  /**
   What the cache grants, in any run: an active row of the token asked for that is not overdue, and no older than
   the last change of its grant whose invalidation has run.
   */
  lemma GrantedIsValid(states: seq<State>, i: nat, h: Hash, now: nat)
    requires IsRun(states) && i < |states|
    requires CachedAnswer(states[i].cache, h, now).Some? && CachedAnswer(states[i].cache, h, now).value.Granted?
    ensures
      var row, e := CachedAnswer(states[i].cache, h, now).value.row, states[i].cache.entries[h];
      && row.tokenHash == h && row.isActive && (row.validUntil.Some? ==> now <= row.validUntil.value)
      && e.row == row && now < e.until
      && e.grant in states[i].history && e.grant in states[i].settled
      && states[i].settled[e.grant] <= e.version < |states[i].history[e.grant]| && states[i].history[e.grant][e.version] == row
  {
    RunsKeepInv(states, i);
    hide IsRun, HistoryOk, HashesSettled, SecretsOwned, LookupsCoherent, Sane;
    assert EntryFresh(states[i], h, states[i].cache.entries[h]);
  }

  /**
   After a lookup whose row is neither overdue nor overtaken by an invalidation the cache answers for the time it
   was given: the grant, and once that has run out, that it has ended.
   */
  lemma LookupIsCached(s: State, id: nat, now: nat, ttl: nat, later: nat)
    requires Sane(s) && Enabled(s, FinishLookup(id, now, ttl)) && s.lookups[id].Found? && s.lookups[id].started == s.cache.generation
    ensures
      var l := s.lookups[id];
      var row := s.history[l.grant][l.version];
      (row.validUntil.None? || now <= row.validUntil.value) && now <= later < now + ttl ==>
        CachedAnswer(Next(s, FinishLookup(id, now, ttl)).cache, l.hash, later)
        == Some(if row.validUntil.Some? && row.validUntil.value < later then Ended else Granted(row))
  {
    hide Sane;
  }

  /** An invalidated grant is answered by a SELECT: the hash the reverse map named is no longer cached. */
  lemma InvalidatedIsMissed(c: Cache, g: GrantId, now: nat)
    requires g in c.hashOf
    ensures CachedAnswer(Invalidated(c, g), c.hashOf[g], now).None? && Invalidated(c, g).generation == c.generation + 1
    ensures forall h :: h != c.hashOf[g] ==> CachedAnswer(Invalidated(c, g), h, now) == CachedAnswer(c, h, now)
  {
  }

  /** A miss forgets an overdue entry and no other. */
  lemma OverdueIsForgotten(c: Cache, h: Hash, now: nat)
    requires !Hit(c, h, now)
    ensures h !in Missed(c, h).entries && Missed(c, h).generation == c.generation
    ensures forall x :: CachedAnswer(Missed(c, h), x, now) == CachedAnswer(c, x, now)
  {
  }

  /** A lookup that missed, before its SELECT and after it. */
  function AskedFor(s: State, id: nat, h: Hash): State {
    s.(cache := Missed(s.cache, h), lookups := s.lookups[id := Asking(h, s.cache.generation)])
  }

  function FoundFor(s: State, id: nat, h: Hash, g: GrantId): State
    requires g in s.history && s.history[g] != []
  {
    AskedFor(s, id, h).(lookups := s.lookups[id := Found(h, s.cache.generation, g, |s.history[g]| - 1)])
  }

  lemma LoneLookupAsks(s: State, id: nat, h: Hash, g: GrantId, now: nat)
    requires Inv(s) && id !in s.lookups && h !in s.secret && !Hit(s.cache, h, now) && Matches(s.history, g, h)
    ensures Enabled(s, StartLookup(id, h, now)) && Sane(s) && Next(s, StartLookup(id, h, now)) == AskedFor(s, id, h)
    ensures Inv(AskedFor(s, id, h)) && Enabled(AskedFor(s, id, h), SelectRow(id, Some(g)))
  {
    hide Inv, Sane, Unused, Missed, Hit;
    SaneOf(s);
    StartKeeps(s, id, h, now);
  }

  lemma LoneLookupFinds(s: State, id: nat, h: Hash, g: GrantId, now: nat, ttl: nat)
    requires Inv(AskedFor(s, id, h)) && Enabled(AskedFor(s, id, h), SelectRow(id, Some(g)))
    ensures g in s.history && s.history[g] != [] && Sane(AskedFor(s, id, h))
    ensures Next(AskedFor(s, id, h), SelectRow(id, Some(g))) == FoundFor(s, id, h, g)
    ensures Inv(FoundFor(s, id, h, g)) && Enabled(FoundFor(s, id, h, g), FinishLookup(id, now, ttl))
  {
    hide Inv, Sane, Unused, Missed;
    SaneOf(AskedFor(s, id, h));
    SelectKeeps(AskedFor(s, id, h), id, Some(g));
    assert Next(AskedFor(s, id, h), SelectRow(id, Some(g))).lookups == FoundFor(s, id, h, g).lookups;
  }

  /** Undisturbed, a lookup of a token that misses ends with the current row of its grant in the cache. */
  lemma LoneLookup(s: State, id: nat, h: Hash, g: GrantId, now: nat, ttl: nat)
    requires Inv(s) && id !in s.lookups && h !in s.secret && !Hit(s.cache, h, now) && Matches(s.history, g, h)
    ensures Sane(s) && Next(s, StartLookup(id, h, now)) == AskedFor(s, id, h)
    ensures Sane(AskedFor(s, id, h)) && Enabled(AskedFor(s, id, h), SelectRow(id, Some(g)))
    ensures Next(AskedFor(s, id, h), SelectRow(id, Some(g))) == FoundFor(s, id, h, g)
    ensures Sane(FoundFor(s, id, h, g)) && Enabled(FoundFor(s, id, h, g), FinishLookup(id, now, ttl))
    ensures
      var t := Next(FoundFor(s, id, h, g), FinishLookup(id, now, ttl));
      && t.lookups == s.lookups && t.history == s.history
      && (ttl > 0 && !Expired(Current(s.history, g), now) ==> CachedAnswer(t.cache, h, now) == Some(Granted(Current(s.history, g))))
  {
    hide Inv, Sane, Unused, Missed, Hit;
    LoneLookupAsks(s, id, h, g, now);
    LoneLookupFinds(s, id, h, g, now, ttl);
    var found := FoundFor(s, id, h, g);
    SaneOf(found);
    OverdueIsForgotten(s.cache, h, now);
    LookupIsCached(found, id, now, ttl, now);
    assert found.lookups - {id} == s.lookups;
    hide Remembered;
  }

  lemma SaneOf(s: State)
    requires Inv(s)
    ensures Sane(s)
  {
  }

  /** The row a change writes: a further state of an active row with the columns of the change, which then awaits its invalidation. */
  lemma ChangesAreWritten(s: State, id: nat, g: GrantId, minted: Hash, validUntil: Option<nat>, settings: string)
    requires Sane(s) && id !in s.changes && IsActive(s.history, g) && Unused(s, minted)
    ensures
      var row := Current(s.history, g);
      var edited, rotated, revoked := Next(s, Edit(id, g, validUntil, settings)), Next(s, Rotate(id, g, minted)), Next(s, Revoke(id, g));
      && edited.history == s.history[g := s.history[g] + [GrantRow(row.tokenHash, true, validUntil, settings)]]
      && rotated.history == s.history[g := s.history[g] + [GrantRow(minted, true, row.validUntil, row.settings)]]
      && revoked.history == s.history[g := s.history[g] + [GrantRow(row.tokenHash, false, row.validUntil, row.settings)]]
      && edited.changes == revoked.changes == s.changes[id := Change(g, None)]
      && rotated.changes == s.changes[id := Change(g, Some(minted))]
      && edited.cache == rotated.cache == revoked.cache == s.cache
  {
    hide Sane, Unused;
  }
}
