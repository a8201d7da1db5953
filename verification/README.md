# Verification of the crawled ledger, its feeders and the request protocols

A Dafny model of the parts of the service whose correctness spans several functions or many runs, and proofs
about it. Nothing here replaces the TypeScript sources; paths below are relative to the repository.

## What is modelled

**The crawled UTxO ledger** (`Chain`, `LedgerRules`, `LedgerApplyProofs`, `LedgerRunProofs`,
`LedgerRollbackProofs`, `LedgerSteps`, `LedgerStore`, `LedgerColumns`). Outputs, their asset rows and the three
materialised sums are maps keyed by their key columns; decoding an address is an arbitrary function.
`LedgerRules` says what applying, undoing and recounting do to the tables; the class `LedgerStore.LedgerStore`
does it with the source's loops, and each of its methods is proved equal to the rule. `LedgerColumns` says of
the block's transactions alone what every column of every row holds. The proofs then show that the sums are an
index over the open outputs in every reachable state and that rollback inverts the chain.

**What feeds the ledger** (`ResolveInputs`, `StoredInputs`, `Supply`, `SupplyProofs`, `CrawlMemos`). Bare inputs
are filled from the block, the ledger and the stored chain; mint and burn rows conserve supply; memory kept
between block transactions survives failures at any step.

**Rows and views** (`LedgerOrder`, `LedgerView`, `LedgerViewProofs`, `StoredChain`, `StoredChainProofs`,
`MintRoundTrip`, `SpenderProofs`, `Placeholders`, `PlaceholderOrder`, `PlaceholderTexts`, `PlutusLimits`). The
ledger view of a transaction, its rows, reading them back, the spender derived from rows, and index placeholders
with the limits a request passes first.

**Protocols of requests** (`DailyBudget`, `UsageCounters`, `TokenCache`, `RateLimiter`, `RateLimiterProofs`,
`PendingSpends`, `CircuitBreaker`, `Failover`). Concurrent code is a state machine with one step per statement
between two awaits; its theorems hold for every run. Classes carry the source's fields and methods.

`Sums`, `Permutations` and `Chain` hold the shared vocabulary: sums over maps, permuted lists, transactions.

## Assumptions

- A block brings new transaction hashes, distinct outpoints, each stored output consumed once, each unit once per
  output. `AgreesIffSpentOnce` shows the third is needed: a second spender of one stored row is deducted again
  (srv/blockchain/ledger-state.ts:232-251).
- Supply: every consumed input is resolved and open, and a failed transaction returns the native assets of its
  collateral (CIP-40).
- Budget: a UTC day that never goes back and a fixed maximum of at least 1. Token cache: one replica, an UPDATE
  visible before its invalidation, a random token nobody presents before the rotation returns it.
- A valid transaction spends a regular input and a failed one spends collateral; no input is both collateral and
  reference.

## What turned out false, and when it holds

- A stale grant row two windows behind is refused on a fresh day (`StaleRowRefused`); exactly then
  (`AdmittedIffFresh`).
- The usage table alone can show a refund before its call (`RefundStoredFirst`), exactly when flushes may overlap
  (`TableSafeIffFlushesAlone`); the total never does.
- A peek can promise room that a full group refuses (`PeekMissesFullGroup`); exactly then (`PeekRightIff`).
- A half-open circuit can block a backend for good after client errors (`ClientErrorsTakeSlots`); exactly when all
  slots are gone with no call running (`EventuallyAdmittedIff`).
- A confirmed chain of two own transactions leaves a spent output in the overlay
  (`ConfirmedChainLeavesStaleOutput`); the exact condition is `OverlayRefinesIff`.
- The walker alone can fail on its own result (`DeepPlaceholderResolvesOnce`); the exact condition is
  `WalkAgainIff`. No request reaches it: the check in front refuses such a value (`DeepPlaceholderRefused`), and
  what it accepts resolves the same again (`AcceptedResolvesOnce`).

## Model

| member | source | states |
|---|---|---|
| LedgerRollbackProofs.ReachableConsistent | srv/blockchain/ledger-state.ts:196-464 | In every state any sequence of block applications and rollbacks reaches, each address total, UTxO count and asset quantity equals the sum over its open outputs (none stored as zero or less) and each account equals the sum over its address rows, missing inputs or not |
| LedgerRollbackProofs.RollbackInvertsChain | srv/blockchain/ledger-state.ts:364-380 | Undoing in one call all transactions of the last blocks gives exactly the output and asset rows of the state before them, and its sums when zero rows count as absent, outputs created and spent inside the range included |
| LedgerRollbackProofs.ForkLeavesNoTrace | srv/blockchain/ledger-state.ts:364-380 | Crawling one fork, undoing it and crawling another gives the rows and sums of never having seen the first |
| LedgerRollbackProofs.RollbackRestoresRows | srv/blockchain/ledger-state.ts:364-380 | Undoing all transactions of any blocks restores every output and asset row of the state before |
| LedgerRollbackProofs.DeltaRefinesRecount | srv/blockchain/ledger-state.ts:276-357 | On any consistent state the incremental update of addresses, assets and accounts equals recounting the touched addresses from the new rows: the same sums, the same accounts, the same number of addresses in each |
| LedgerRollbackProofs.UndoKeepsConsistent | srv/blockchain/ledger-state.ts:364-380 | Undoing any set of transactions keeps every running sum equal to the open rows it sums |
| LedgerRollbackProofs.RowsDetermineSums | srv/blockchain/ledger-state.ts:383-464 | Two consistent ledgers with the same rows have the same sums: the aggregates are a function of the outputs |
| LedgerRollbackProofs.ApplyBlockConsistent | srv/blockchain/ledger-state.ts:196-360 | A legal block keeps the whole ledger consistent |
| LedgerApplyProofs.ApplyKeepsConsistent | srv/blockchain/ledger-state.ts:196-360 | One effect (outputs created, outpoints consumed) keeps rows well formed and every aggregate exact, with `hasAssets` true exactly when asset rows exist |
| LedgerApplyProofs.AgreesIffSpentOnce | srv/blockchain/ledger-state.ts:232-251 | After a block the address sums agree with the open rows if and only if no stored row is consumed twice in it: the second spender of one row would be deducted again |
| LedgerApplyProofs.OpenSumAfter | srv/blockchain/ledger-state.ts:253-262 | The block delta misses the new open sum of any weight by exactly what is consumed more than once |
| LedgerApplyProofs.AllSpentMembers | srv/blockchain/ledger-state.ts:232-251 | A stored row is spent by a block exactly when it is open, not created in the block, and consumed |
| LedgerApplyProofs.AccountAgreesAfter | srv/blockchain/ledger-state.ts:339-357 | The per-stake-key deltas keep every account equal to the sum over its address rows |
| LedgerRunProofs.RecountRepairs | srv/blockchain/ledger-state.ts:383-464 | Recounting restores agreement of the whole ledger from an arbitrary drift of the covered addresses |
| LedgerRunProofs.RecountedAgrees | srv/blockchain/ledger-state.ts:383-431 | A recounted address agrees with its open rows whatever its sums were before |
| LedgerRunProofs.RecountIdempotent | srv/blockchain/ledger-state.ts:383-464 | Recounting a second time changes nothing |
| LedgerStore.CollectCreated | srv/blockchain/ledger-state.ts:204-211 | Builds the rows of the outputs a block produces: equal to the specified creation map |
| LedgerStore.SplitConsumed | srv/blockchain/ledger-state.ts:213-228 | Marks the block's own outputs it consumes and lists every other outpoint once for lookup |
| LedgerStore.ResolveSpent | srv/blockchain/ledger-state.ts:229-251 | Outpoints with an open row become marked rows; one without is counted as missing, not an error |
| LedgerStore.CollectDeltas | srv/blockchain/ledger-state.ts:253-262 | Accumulates per-address deltas that equal the specified deltas of created minus spent outputs, per lovelace, count and unit |
| LedgerStore.LedgerStore.ReadLedgerOutputs | srv/blockchain/ledger-state.ts:165-184 | After the call the shared lookup holds exactly the stored rows and asset rows of the requested transactions |
| LedgerStore.LedgerStore.ApplyBlockToLedger | srv/blockchain/ledger-state.ts:196-360 | The new tables are exactly the specified block application, with a caller's lookup or a fresh read alike; created, spent, missing and address counts are exact |
| LedgerStore.LedgerStore.RecountAddress | srv/blockchain/ledger-state.ts:385-428 | The rewritten row and asset rows of one address are those recounted from its open outputs |
| LedgerStore.LedgerStore.RecountLedgerAddresses | srv/blockchain/ledger-state.ts:383-431 | The new tables are the specified recount of the addresses and their stake keys |
| LedgerStore.LedgerStore.RecountLedgerAccounts | srv/blockchain/ledger-state.ts:434-464 | Accounts of the stake keys are rewritten to the sums over their address rows; everything else is unchanged |
| LedgerStore.LedgerStore.UndoLedgerForTransactions | srv/blockchain/ledger-state.ts:364-380 | The chunked undo leaves exactly the specified undo of all the transactions and names every recounted address |
| LedgerColumns.NewRow | srv/blockchain/ledger-state.ts:76-134 | Every output a block produces has a row holding, column by column, its address and what that decodes to, its first lovelace entry, the slot, its five datum and script columns (blank text as null) and whether it has assets, marked with the last transaction of the block that spends it |
| LedgerColumns.NewAssets | srv/blockchain/ledger-state.ts:76-112 | The asset rows of a new output are exactly its native amounts above zero |
| LedgerColumns.OldRow | srv/blockchain/ledger-state.ts:213-251 | Every other row keeps its columns; an open one is marked exactly when a transaction of the block spends it (collateral if it failed, a regular input else), with the last such transaction and the slot |
| LedgerColumns.AddressSlots | srv/blockchain/ledger-state.ts:276-310 | Exactly the addresses of produced and spent outputs get the slot as last active and, when new, as first seen |
| LedgerColumns.AccountSlots | srv/blockchain/ledger-state.ts:318-357 | Exactly the accounts of those addresses get the slot as last active |
| LedgerColumns.RecountColumns | srv/blockchain/ledger-state.ts:383-464 | A recount leaves the slots of addresses and accounts as they were, and output and asset rows alone |
| Supply.NetOf | srv/blockchain/cardano-indexer.ts:1426-1462 | The net change per unit: the reported mint, else produced outputs minus consumed inputs; absent exactly when no mint is reported and the transaction failed or a regular input has no address |
| Supply.BuildAssetHistoryRows | srv/blockchain/cardano-indexer.ts:1422-1478 | One mint or burn row per unit and transaction whose supply changes, with the sign and quantity of the net change, and no other row; none for a transaction with an unresolved input and no reported mint |
| Supply.UnknownLeavesNoRow | srv/blockchain/cardano-indexer.ts:1436-1447 | Without a reported mint a failed transaction, and one with a regular input whose address is unknown, leave no row |
| Supply.DerivedRow | srv/blockchain/cardano-indexer.ts:1437-1470 | Without a reported mint, a valid resolved transaction has for each unit the mint of what regular outputs deliver beyond regular inputs, the burn of what is missing, or no row |
| Supply.ReportedMintRows | srv/blockchain/cardano-indexer.ts:1429-1436 | Of a reported mint every non-zero native entry is one row with its sign, and nothing else is |
| Supply.LocalSupply | srv/blockchain/cardano-indexer.ts:301-312 | The signed sum over the rows of a unit; nothing exactly when the unit has no row |
| SupplyProofs.SupplyConserved | srv/blockchain/cardano-indexer.ts:1422-1478 | One complete balanced block changes the open quantity of every native unit by exactly what its history rows record, whether mints are reported or derived |
| SupplyProofs.SupplyInvariant | srv/blockchain/cardano-indexer.ts:1422-1478 | Over any forward run of such blocks the open quantity of a unit minus its recorded supply is constant |
| SupplyProofs.DeltaIsFlow | srv/blockchain/ledger-state.ts:253-262 | The ledger delta of a unit over a block is what its produced outputs deliver minus what its consumed inputs carry |
| ResolveInputs.ResolveLocal | srv/blockchain/cardano-indexer.ts:1301-1323 | Inputs answered by outputs of the same block are filled; the others are listed in order |
| ResolveInputs.ResolveFromLedger | srv/blockchain/cardano-indexer.ts:1326-1339 | The backward splice loop fills what the ledger answers and leaves exactly the unanswered inputs, in order |
| ResolveInputs.ResolveFromStored | srv/blockchain/cardano-indexer.ts:1341-1372 | The rest is filled from stored outputs as far as those know; nothing else is touched |
| ResolveInputs.ResolveAll | srv/blockchain/cardano-indexer.ts:1301-1373 | Every bare input ends with the data of the first layer that knows its outpoint, resolved inputs are untouched, and the lookup stays coherent with the tables |
| ResolveInputs.PendingUnknown | srv/blockchain/cardano-indexer.ts:1330-1337 | Removing the answered inputs one by one leaves exactly those no layer so far knows |
| ResolveInputs.ResolveKeepsEffect | srv/blockchain/cardano-indexer.ts:1301-1373 | Resolution changes neither outpoints nor flags, so the ledger effect of the block is the same before and after |
| ResolveInputs.ResolvedIsConsumed | srv/blockchain/cardano-indexer.ts:1301-1339 | A bare input consuming an output of the block or of the set comes back with that output's address, lovelace, quantity of every unit, datum and script columns |
| StoredInputs.StoredInputResolved | srv/blockchain/cardano-indexer.ts:1341-1372 | An outpoint neither the block nor the set knows comes back as the output a stored transaction wrote: its address, its amounts, its datum and script columns |
| StoredInputs.UnknownInputStays | srv/blockchain/cardano-indexer.ts:1366-1372 | An outpoint no layer knows leaves the input as it was |
| StoredInputs.StoredKeysInjective | srv/blockchain/cardano-indexer.ts:1344-1348 | Stored positions give distinct keys, as resolution needs |
| CrawlMemos.Indexer.IndexBlockFull | srv/blockchain/cardano-indexer.ts:1139-1249 | One complete attempt leaves the memory and the transaction specified step by step: epochs, anchor decision, ledger or verdict, assets |
| CrawlMemos.Indexer.VerifyUtxoAnchor | srv/blockchain/cardano-indexer.ts:521-532 | The anchor passes exactly when a block of the set was applied or the cursor stands on it; otherwise the verdict is stored and remembered |
| CrawlMemos.Indexer.ConfirmBlockCommit | srv/blockchain/cardano-indexer.ts:540-544 | Every update waiting for the commit is applied in order; an anchor replaced meanwhile is not marked verified |
| CrawlMemos.Indexer.TakeLedgerInvalidation | srv/blockchain/cardano-indexer.ts:547-555 | A pending verdict is handed out once and drops the anchor |
| CrawlMemos.Indexer.EnsureAssetRows | srv/blockchain/cardano-indexer.ts:1482-1519 | Known units are remembered, unknown ones written and remembered only after the commit |
| CrawlMemos.MemoryHoldsCommittedFacts | srv/blockchain/cardano-indexer.ts:513-555 | Over any sequence of attempts failing at any step or between two asset lookups, commits, rollbacks and anchor changes, the asset memo, the written epochs and the verified flag hold only facts of committed transactions |
| CrawlMemos.NothingAppliedOnceJudged | srv/blockchain/cardano-indexer.ts:1159-1235 | Once an anchor is judged invalid no later attempt writes ledger rows until an anchor is set again |
| CrawlMemos.DueAttemptCarriesVerdict | srv/blockchain/cardano-indexer.ts:1221-1227 | Every complete attempt past the anchor that knows of or reaches the verdict writes it and applies nothing |
| CrawlMemos.MarkedIffApplied | srv/blockchain/cardano-indexer.ts:535-537 | The cursor is marked as applied exactly when the attempt wrote the block to the ledger |
| CrawlMemos.MemoChangesNoWrite | srv/blockchain/cardano-indexer.ts:1482-1529 | A lost or present memo entry never changes what is written: afterwards every unit that gets a row has one |
| CrawlMemos.SetBelongsToChain | srv/blockchain/cardano-indexer.ts:519-532 | In every run, with nothing applied when the anchor was set, the anchor is verified and blocks are written to the ledger only if the crawl stood on a block with the anchor's slot and hash |
| CrawlMemos.ForkIsJudged | srv/blockchain/cardano-indexer.ts:521-532 | From a cursor with another slot or hash, past which nothing was applied, a complete attempt past the anchor carries the verdict and writes no ledger row |
| CrawlMemos.AnchorIsFollowed | srv/blockchain/cardano-indexer.ts:1159-1177 | From a cursor on the anchor the next block is applied, the cursor marked, and the anchor verified at the commit |
| CrawlMemos.NotPastAnchor | srv/blockchain/cardano-indexer.ts:1157-1160 | A block at or before the anchor, or without one, decides and writes nothing |
| CrawlMemos.CommitRemembers | srv/blockchain/cardano-indexer.ts:540-555 | After a committed attempt its epoch rows are remembered, a verdict was handed out once with the anchor dropped, and, room permitting, the memo holds every earlier unit and every unit of the block |
| CrawlMemos.MemoStaysCapped | srv/blockchain/cardano-indexer.ts:1522-1529 | In every run the asset memo holds no unit twice and keeps to its cap |
| DailyBudget.GrantTable.ConsumeDailyBudget | srv/utils/agent-grants.ts:890-910 | A unit is consumed exactly when the window read is still stored or the counter of today is below the maximum; the row then holds today |
| DailyBudget.BudgetNeverOverspent | srv/utils/agent-grants.ts:890-920 | Under every interleaving of requests holding arbitrarily old rows, units of a day admitted and not refunded never exceed the maximum, and the counter of the current window equals them |
| DailyBudget.WindowMovesForward | srv/utils/agent-grants.ts:890-910 | The stored window never moves backwards |
| DailyBudget.RefundTakesEffect | srv/utils/agent-grants.ts:913-920 | The guard on the counter never blocks a due refund of the current window |
| DailyBudget.AdmittedIffFresh | srv/utils/agent-grants.ts:890-910 | With a unit left, a request is refused exactly when the row moved to another past window since it was read |
| DailyBudget.StaleRowRefused | srv/utils/agent-grants.ts:890-910 | A request holding a row two windows behind is refused although nothing was used today |
| DailyBudget.AloneIsMethod | srv/utils/agent-grants.ts:890-920 | A request nothing interleaves with is charged exactly when the method admits it, leaves the same row, and can be refunded once |
| UsageCounters.UsageStore.WriteDelta | srv/utils/agent-grants.ts:992-1000 | A delta is stored exactly once, or not at all when its update fails or its insert fails while the row is missing |
| UsageCounters.UsageStore.FlushGrantUsage | srv/utils/agent-grants.ts:978-1010 | Every buffered key is stored once or back in the buffer unchanged; the counts say how many of each |
| UsageCounters.CountersConserved | srv/utils/agent-grants.ts:958-1010 | In every interleaving of buffering, concurrent flushes, lost insert races and failed statements, table plus buffer plus running flushes hold exactly what was recorded per key and column |
| UsageCounters.RefundsWithinCalls | srv/utils/agent-grants.ts:1042-1060 | Over the three places together refunds of a key never exceed its calls |
| UsageCounters.QuietTableIsExact | srv/utils/agent-grants.ts:978-1010 | Once nothing is buffered or in flight the table alone is exact |
| UsageCounters.TableSafeIffFlushesAlone | srv/utils/agent-grants.ts:978-1010 | With at most n flushes at a time, no run ever shows more refunds than calls of a key in the table, exactly when n is at most 1 |
| UsageCounters.LoneFlushesKeepTable | srv/utils/agent-grants.ts:978-1010 | While flushes never overlap, refunds of a key stay within its calls in the table alone and in the table together with the running flush |
| UsageCounters.RefundStoredFirst | srv/utils/agent-grants.ts:978-1010 | A run with two flushes at a time reaches a table with a refund and no call |
| TokenCache.TokenStore.InvalidateTokenCache | srv/utils/agent-grants.ts:199-206 | Bumps the generation and drops the entry the reverse map names |
| TokenCache.TokenStore.RememberToken | srv/utils/agent-grants.ts:213-221 | Stores row and reverse entry; at the size limit both maps start over |
| TokenCache.TokenStore.TakeCached | srv/utils/agent-grants.ts:231-239 | A live entry answers its grant, or that the grant has ended; an overdue entry is dropped |
| TokenCache.TokenStore.KeepSelected | srv/utils/agent-grants.ts:240-247 | The selected row is granted unless it has ended, and kept when no invalidation ran since its lookup started |
| TokenCache.NoOlderRowCached | srv/utils/agent-grants.ts:199-248 | Once an invalidation for a grant has run, no cache entry ever holds a row of the grant older than the change, whatever lookups were in flight |
| TokenCache.CachedHashNamed | srv/utils/agent-grants.ts:213-221 | Every cached hash is the one the reverse map names for its grant and the one its active row carries |
| TokenCache.RevokedNeverServed | srv/utils/agent-grants.ts:401-412 | After the invalidation of a revoke no token of the grant is answered from the cache or found by a SELECT |
| TokenCache.ReplacedTokenNeverServed | srv/utils/agent-grants.ts:425-435 | After the invalidation of a rotation no earlier token of the grant is answered from the cache or found by a SELECT |
| TokenCache.RememberKeeps | srv/utils/agent-grants.ts:213-221 | Caching a row no older than the last invalidation leaves its grant with that one entry |
| TokenCache.CachedWasValid | srv/utils/agent-grants.ts:240-247 | Every cached row was put there by a lookup of the run at whose end it was not overdue, to live for the time given then |
| TokenCache.GrantedIsValid | srv/utils/agent-grants.ts:233-236 | In every run what the cache grants is an active row of the token asked for, not past its end, and no older than the last invalidated change of its grant |
| TokenCache.LookupIsCached | srv/utils/agent-grants.ts:240-247 | After a lookup whose row has not ended, with no invalidation meanwhile, the cache answers the token for the time given |
| TokenCache.LoneLookup | srv/utils/agent-grants.ts:226-248 | Undisturbed, the steps of a lookup that missed end with the current row of the grant in the cache |
| TokenCache.InvalidatedIsMissed | srv/utils/agent-grants.ts:199-206 | After an invalidation the token of the grant is no longer answered from the cache; every other token is as before |
| RateLimiter.Limiter.CheckMany | srv/utils/rate-limiter.ts:80-113 | All slots fit and are recorded or none are, a full group or the least recently used victim included, with the group index kept exact |
| RateLimiter.Limiter.DropKey | srv/utils/rate-limiter.ts:115-121 | Removes the key from map and order and its group count, without a zero entry |
| RateLimiter.Limiter.Sweep | srv/utils/rate-limiter.ts:124-129 | Keeps exactly the keys with a hit in the window, in their order, and the index exact |
| RateLimiter.Limiter.Peek | srv/utils/rate-limiter.ts:65-71 | Answers from the recent hits without changing anything |
| RateLimiter.IndexDrop | srv/utils/rate-limiter.ts:115-121 | The group index without a key counts the remaining keys |
| RateLimiter.GroupIsPrefix | srv/utils/rate-limiter.ts:18-23 | The group of a key is the name before its first colon, the whole key without one |
| RateLimiterProofs.CapsHold | srv/utils/rate-limiter.ts:80-113 | In every reachable state keys, keys per group and hits per key stay within their caps |
| RateLimiterProofs.EvictsLeastRecentlyUsed | srv/utils/rate-limiter.ts:91-95 | The evicted key is the tracked key whose last check lies furthest back |
| RateLimiterProofs.WindowNeverOverfilled | srv/utils/rate-limiter.ts:80-129 | With a clock that never goes back, any half-open interval of the window's length holds at most the allowed number of accepted hits of a key never evicted at capacity, across sweeps |
| RateLimiterProofs.RetryAfterIsExact | srv/utils/rate-limiter.ts:103-109 | After a refused single hit on a tracked key the next one is allowed exactly from the time the answer named |
| RateLimiterProofs.PeekPredictsCheck | srv/utils/rate-limiter.ts:65-71 | For a tracked key a peek says what a check of one slot answers, waiting time included |
| RateLimiterProofs.PeekRightIff | srv/utils/rate-limiter.ts:65-71 | For any key a peek is right exactly unless a new key meets a full group |
| RateLimiterProofs.PeekMissesFullGroup | srv/utils/rate-limiter.ts:65-90 | A peek promises room that a full group refuses |
| PendingSpends.PendingStore.Record | srv/blockchain/pending-spends.ts:26-45 | A parsed transaction replaces an entry of its hash in place or is appended; an unparseable one changes nothing |
| PendingSpends.PendingStore.SpentBy | srv/blockchain/pending-spends.ts:48-53 | Names the first remembered transaction spending the output, and none exactly when none spends it |
| PendingSpends.PendingStore.Apply | srv/blockchain/pending-spends.ts:57-69 | Prunes, forgets crawled transactions and returns the specified overlay |
| PendingSpends.ExecutedIs | srv/blockchain/pending-spends.ts:18-19 | Executing transactions in any dependency order leaves what ledger and outputs hold and none of them spends |
| PendingSpends.OverlayRefines | srv/blockchain/pending-spends.ts:57-69 | When every confirmed remembered transaction still has an output in the list, the overlay is the same set as executing the unconfirmed ones in any dependency order and projecting on the address |
| PendingSpends.OverlayRefinesIff | srv/blockchain/pending-spends.ts:57-69 | For any ledger, the overlay is that set exactly when every output at the address of a confirmed remembered transaction without a listed output is spent by such a remembered transaction |
| PendingSpends.OverlayIsClean | srv/blockchain/pending-spends.ts:57-69 | The overlay lists every output once and none that a remembered transaction without a listed output spends |
| PendingSpends.OverlayOrder | srv/blockchain/pending-spends.ts:57-69 | The overlay lists what is left of the view first, in its order, then pending outputs in the order recorded |
| PendingSpends.ConfirmedChainLeavesStaleOutput | srv/blockchain/pending-spends.ts:57-69 | When a chain of two own transactions is confirmed between two calls, only the second is forgotten and the output it spent comes back |
| PendingSpends.ConfirmedChainView | srv/blockchain/pending-spends.ts:57-69 | With such a chain confirmed, the view of the address is the last output alone and the spent one is in no execution of what is unconfirmed |
| PendingSpends.RememberedTenMinutes | srv/blockchain/pending-spends.ts:7-40 | A recorded transaction is remembered for ten minutes and not longer |
| PendingSpends.PutInPlace | srv/blockchain/pending-spends.ts:26-45 | A hash already remembered keeps its place; a new one comes last |
| PendingSpends.ForgetsListed | srv/blockchain/pending-spends.ts:57-69 | Exactly the transactions with an output in the list are forgotten |
| CircuitBreaker.CircuitBreakerManager.ShouldAttempt | srv/blockchain/circuit-breaker.ts:42-67 | Admission and new state of one backend; the others are untouched |
| CircuitBreaker.CircuitBreakerManager.RecordSuccess | srv/blockchain/circuit-breaker.ts:70-88 | A success releases its slot, closes a recovered circuit or clears the failures |
| CircuitBreaker.CircuitBreakerManager.RecordFailure | srv/blockchain/circuit-breaker.ts:91-111 | A failure opens at the threshold or reopens a half-open circuit |
| CircuitBreaker.ShownPredictsAttempt | srv/blockchain/circuit-breaker.ts:114-124 | In every run the shown state tells what a call would meet: open refuses it and its last failure is recent, closed admits it, half-open admits it unless all slots are taken, and an admitted call leaves the circuit in the state shown |
| CircuitBreaker.ClosedBelowThreshold | srv/blockchain/circuit-breaker.ts:42-111 | In every run a closed circuit has seen fewer failures since its last success than the threshold |
| CircuitBreaker.ReportsDecide | srv/blockchain/circuit-breaker.ts:70-111 | In every run a closed circuit opens with the failure that reaches the threshold and no other, a half-open one reopens with any failure and closes with the success it waits for |
| CircuitBreaker.HalfOpenWithinSlots | srv/blockchain/circuit-breaker.ts:60-88 | In every run a half-open circuit has at most `successThreshold` slots taken and fewer successes; any other has none of either |
| CircuitBreaker.OpenWaitsOutTimeout | srv/blockchain/circuit-breaker.ts:48-58 | An open circuit admits exactly from the reset timeout after the last reported failure on |
| CircuitBreaker.ClientErrorsNeverOpen | srv/blockchain/cardano-client.ts:348-357 | Without a reported failure a closed circuit stays closed, whatever client errors occur |
| CircuitBreaker.ReportedCallsKeepProgress | srv/blockchain/circuit-breaker.ts:60-67 | When every admitted call is reported, a half-open circuit with no call running admits the next one |
| CircuitBreaker.ProbesWithinSlots | srv/blockchain/circuit-breaker.ts:60-88 | Tried again with no call running, and until it closes or a call fails or ends unreported, a circuit has exactly as many slots taken as calls run, never more than it hands out |
| CircuitBreaker.EventuallyAdmittedIff | srv/blockchain/circuit-breaker.ts:60-67 | With no call running, some later call is admitted exactly when the circuit is not half-open with all slots gone |
| CircuitBreaker.ClientErrorsTakeSlots | srv/blockchain/cardano-client.ts:348-357 | Each half-open probe that ends in a client error loses its slot for good; as many as there are slots block the backend |
| Failover.Client.ExecuteWithPriority | srv/blockchain/cardano-client.ts:298-368 | Returns the first answer in preference order, a final client error, or all errors and skips in order; circuits and late starts change for the backends reached only |
| Failover.Client.EnsureInitialized | srv/blockchain/cardano-client.ts:231-245 | A late start succeeds and is forgotten, or fails and counts against the circuit |
| Failover.Client.CallWithResilience | srv/blockchain/cardano-client.ts:275-296 | A single backend follows the same rules |
| Failover.AskContinuesRun | srv/blockchain/cardano-client.ts:310-357 | Dealing with one backend continues the run of its circuit: an attempt, and the success, failure or client error its fate reports; afterwards its call is over |
| Failover.LoopKeepsReachable | srv/blockchain/cardano-client.ts:298-368 | A whole call leaves every circuit in a state some run of events reaches, so what holds in every run holds of the circuits behind the loop |
| Failover.FateIs | srv/blockchain/cardano-client.ts:319-364 | A backend is skipped exactly when it lacks the method or its circuit shows open or is out of slots; one let through fails its late start, answers or errs as it does |
| Failover.OnlyHealthIsReported | srv/blockchain/cardano-client.ts:352-357 | A failing start, and an error whose status is no 4xx, counts against the circuit; a 4xx and a skip do not |
| Failover.PreferredAnswers | srv/blockchain/cardano-client.ts:308-347 | A preferred backend that can answer is the one that answers |
| Failover.AnswerFoundIff | srv/blockchain/cardano-client.ts:298-368 | With client errors not final, a call is answered exactly when some supported, admitted and startable backend can answer |
| Failover.EveryBackendAccounted | srv/blockchain/cardano-client.ts:298-368 | When no backend answers, each is reported once, as an error or as a skip |
| Failover.ReportedInOrder | srv/blockchain/cardano-client.ts:305-367 | Errors and skips are listed in the order the backends were tried |
| LedgerOrder.OrdersCoincide | srv/utils/mappers.ts:198-201 | Comparing lower-case hex hashes and comparing decoded bytes always agree on the order of two output references |
| LedgerOrder.HexOrderIsByteOrder | srv/utils/mappers.ts:198-201 | Lower-cased hex strings compare as their bytes do |
| LedgerOrder.SortIgnoresArrival | srv/utils/plutus-placeholders.ts:39-49 | Sorting by an order that tells elements apart gives one list for every arrival order |
| LedgerView.ViewIdempotent | srv/utils/mappers.ts:213-223 | Taking the ledger view of a ledger view changes nothing |
| LedgerView.ViewKeepsProduced | srv/utils/mappers.ts:213-223 | A transaction and its view create the same outputs in the same order |
| LedgerView.ViewKeepsConsumed | srv/utils/mappers.ts:213-223 | A transaction and its view consume the same inputs |
| LedgerView.ViewIs | srv/utils/mappers.ts:213-223 | A view drops, after a failure, regular inputs and the mint, keeps the outputs of the transaction's validity, and changes no other field |
| LedgerView.ViewOrdered | srv/utils/mappers.ts:205-208 | Inputs of a view come regular, collateral, reference, each kind by hash and index |
| LedgerViewProofs.ViewsKeepLedger | srv/utils/mappers.ts:205-223 | Applying the views of a block's transactions leaves the same tables as applying the transactions, whatever the tables were |
| StoredChain.GroupBy | srv/blockchain/stored-chain.ts:135-143 | Every key maps to exactly its rows, in their order |
| StoredChain.FetchIn | srv/blockchain/stored-chain.ts:150-156 | Chunked reads return per key exactly the rows of the table |
| StoredChain.AssembleTransactions | srv/blockchain/stored-chain.ts:146-264 | Each row becomes one transaction made of all rows with its key and no other, in the order of the rows |
| StoredChainProofs.TxSeqInjective | srv/utils/mappers.ts:81-84 | Positions with fewer than 65536 transactions per block never share a row key |
| StoredChainProofs.OwnRows | srv/utils/mappers.ts:111-164 | Among the rows of any transactions, those with a transaction's key are exactly the rows it wrote |
| StoredChainProofs.InputsRoundTrip | srv/blockchain/stored-chain.ts:184-199 | A written transaction reads back with its own inputs in order: outpoint, address, flags, data (blank columns as null) and amounts with lovelace first |
| StoredChainProofs.NoBlankAddress | srv/utils/mappers.ts:119-121 | A stored input has no blank address: it is null exactly when the input came without one |
| StoredChainProofs.OutputsRoundTrip | srv/blockchain/stored-chain.ts:202-215 | Every written output reads back once and nothing else does, by strictly ascending index with address, data and amounts; position by position when written ascending |
| StoredChainProofs.AmountsRead | srv/blockchain/stored-chain.ts:130-133 | Asset rows in any order read back as the written amounts, lovelace first |
| StoredChainProofs.FailureFlagRoundTrip | srv/blockchain/stored-chain.ts:200-201 | The failure flag inferred from stored inputs is the original one, and the read transaction consumes and creates what the written one did |
| MintRoundTrip.MintReadBack | srv/blockchain/stored-chain.ts:177-235 | The mint read back lists exactly the units whose net change was recorded, each once with its signed quantity; no rows read back as no mint |
| MintRoundTrip.RebuiltHistory | srv/blockchain/stored-chain.ts:177-235 | The net changes of a transaction read back with a mint are those first recorded |
| StoredChainProofs.ConsumingTx | srv/blockchain/asset-decimals.ts:21-34 | Finds a row that consumes the output: a regular input, or collateral of a transaction without regular inputs |
| StoredChainProofs.ConsumerFound | srv/blockchain/asset-decimals.ts:21-34 | The transaction found consumed the output by the ledger's rules, and none is found only if none did |
| SpenderProofs.SpenderAgrees | srv/blockchain/asset-decimals.ts:21-34 | From any imported open set on, the spender derived from the stored rows is the one the crawled ledger recorded on the output |
| SpenderProofs.RecordedSpenderConsumes | srv/blockchain/ledger-state.ts:213-251 | From any imported open set on, every spender the crawl records is a crawled transaction that consumed the output |
| SpenderProofs.SpentIffConsumed | srv/blockchain/ledger-state.ts:213-251 | When blocks bring new outpoints and consume an output only once it is stored, its row is marked as spent exactly when a crawled transaction consumed it |
| SpenderProofs.OpenHasNoSpender | srv/blockchain/asset-decimals.ts:21-34 | For an output whose row is still open no crawled transaction consumes it and the stored rows name no spender |
| SpenderProofs.ImportedSpenderIff | srv/blockchain/asset-decimals.ts:21-34 | An imported output has a derived spender exactly when its ledger row records one |
| PlaceholderOrder.SortsCoincide | srv/utils/plutus-placeholders.ts:39-49 | The builder's byte-wise sort and the crawler's string sort give the same list |
| PlaceholderOrder.ResolutionIgnoresArrival | srv/utils/plutus-placeholders.ts:39-65 | Resolution does not depend on the order in which the caller lists its inputs |
| PlaceholderOrder.WithdrawalsSorted | srv/utils/plutus-placeholders.ts:52-59 | Script withdrawals come before key withdrawals, each kind by hash bytes, none lost |
| PlaceholderOrder.PositionsCoincide | srv/utils/mappers.ts:203-208 | The sorted references are the outpoints of the leading stored inputs, which are exactly the regular ones |
| PlaceholderTexts.ResolvedIndexIsStored | srv/utils/plutus-placeholders.ts:67-79 | The text `__INPUT_IDX:h#d__` resolves to the `inputIndex` under which a crawl stores the regular input h#d, and fails only if there is none |
| PlaceholderTexts.ParseIff | srv/utils/plutus-placeholders.ts:4-14 | A text is a placeholder exactly when the whole of it has one of the three forms, and names the hash in lower case and the number its digits denote |
| PlaceholderTexts.DigitsReadBack | srv/utils/plutus-placeholders.ts:72 | The decimal rendering of a number reads back as the number |
| PlaceholderTexts.RenderedInput | srv/utils/plutus-placeholders.ts:67-95 | The text made of an outpoint reads back as that outpoint, in the input form and in the reference form |
| Placeholders.FillRecord | srv/utils/plutus-placeholders.ts:123-135 | Copying the entries one by one gives the specified walk of the object |
| Placeholders.WalkReplaces | srv/utils/plutus-placeholders.ts:114-136 | A walk that succeeds replaces every placeholder in an `int` field by the first position of what it names, changes nothing else and leaves no placeholder |
| Placeholders.WalkSucceedsIff | srv/utils/plutus-placeholders.ts:67-136 | It succeeds exactly when every placeholder names an element of a supported list and nothing but placeholders lies beyond the depth limit |
| Placeholders.WalkAgainIff | srv/utils/plutus-placeholders.ts:114-136 | Resolving again, even against other lists, changes nothing exactly when no node, placeholders included, lies beyond the depth limit |
| PlutusLimits.CheckPassesIff | srv/utils/validators.ts:75-111 | The request check passes exactly the values with no node beyond depth 64, leaves included, and no text, array or object over its size limit |
| PlutusLimits.AcceptedResolvesIff | srv/utils/validators.ts:64-66 | For an accepted value resolution succeeds exactly when every placeholder names an element of a supported list |
| PlutusLimits.AcceptedResolvesOnce | srv/utils/validators.ts:64-66 | For an accepted value resolving the result again, even against other lists, changes nothing |
| PlutusLimits.DeepPlaceholderRefused | srv/utils/validators.ts:75-78 | A placeholder one level beyond the limit is refused by the request check |
| Placeholders.DeepPlaceholderResolvesOnce | srv/utils/plutus-placeholders.ts:114-136 | Handed to the walker without that check, such a placeholder is resolved once and the result then refused as too deep |

## Left out

- LedgerStore.LedgerStore.ApplyBlockToLedger: steps that read or write in batches of 500 or 1000 keys are one pass over the distinct keys; quantities are integers, not decimal strings; `num` and the derived asset-name columns are not modelled.
- LedgerRollbackProofs.RollbackInvertsChain: sums are equal when zero rows count as absent, because undo leaves a zero row for an address first seen in the undone block; `lastActiveSlot` and `addressCount` of such rows are not restored by the source.
- Backfill of payment credentials (`backfillPaymentCredentials`) and the snapshot import.
- Supply.BuildAssetHistoryRows: provider enrichment, block time and height of the rows.
- SupplyProofs.SupplyConserved: blocks with unresolved inputs, where the source skips the history row and logs.
- ResolveInputs.ResolveAll: hashes and addresses are canonical non-empty strings; collateral fees are not modelled.
- CrawlMemos.Indexer.EnsureAssetRows: lookups in batches are one pass (a run may stop after any of them); the enrichment queue, CIP-68 decimals and the order of epoch refreshes are left out; hashes are canonical lower case.
- CrawlMemos.DueAttemptCarriesVerdict: a committed block at or before the anchor hands out a pending verdict without writing it; the crawler never follows one with the anchor still set.
- CrawlMemos.SetBelongsToChain: reorgs, which move the cursor and the applied slot back, are left out.
- UsageCounters.CountersConserved: the synchronous mode (`recordGrantUsage` awaited) may drop a count when its statements fail, as the source accepts; timers and shutdown only start flushes.
- TokenCache.NoOlderRowCached: lookups that bypass the cache touch nothing; budget columns and `lastUsedAt` of a cached row may be older.
- RateLimiterProofs.WindowNeverOverfilled: keys evicted at capacity lose their hits, so they are excluded; the timer that calls the sweep is a step at any time.
- PendingSpends.PendingStore.Record: CBOR parsing is a parameter; hashes are lower case.
- PendingSpends.OverlayRefines: stated for a view that lists each output of the address once.
- Failover.Client.ExecuteWithPriority: one call at a time; `LoopKeepsReachable` places it in the runs of CircuitBreaker, which also interleave calls. Timeouts and error normalisation are part of a backend's conduct.
- StoredChainProofs.OutputsRoundTrip: fees, metadata, certificates, withdrawals, redeemers and datums are not part of the modelled transaction.
- StoredChain.AssembleTransactions: the text key of asset rows is a pair of numbers; rows written before outpoints were recorded, and derived columns (payment credential, presence flags), are left out.
- SpenderProofs.SpenderAgrees: forward crawls after an import; the hop loop that follows a reference NFT through its spenders is left out.
- Placeholders.WalkReplaces: numbers are exact integers; object entries keep their order; no object has a key `__proto__`, whose entry the copy would take as the prototype instead of keeping it.
- PlutusLimits.CheckPassesIff: the size limit on the text before it is parsed, and the parser.
- Building `PlaceholderOrder` lists from a request, transaction building, network backends, HTTP services and configuration.
- Removal of superseded blocks and stale transaction keys, reading consecutive blocks, paging and epoch arithmetic: true but easy.
