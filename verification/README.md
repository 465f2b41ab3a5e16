# Indelible: verified models of the download cache, the placeholder rewriter, merkle payments and their neighbours

This project models the parts of Indelible whose comments promise something about all
interleavings, all inputs or all runs, and proves those promises with Dafny. Run
`dafny verify dfyconfig.toml` to check everything.

**The download cache protocol** (`Store`, `Flight`, `Gate`, `Counter`, `Handlers*`). The cache store,
the fill coalescing, the admission gate and the miss counter are classes whose methods are proved
equal to functions on their state; each function is one critical section. `Handlers.dfy` runs any
number of `DownloadUpload` and `DeleteUpload` requests over these functions as a step machine: one
step per critical section, per file operation and per database access, in any order. Failures,
timeouts, cancellations, settings and clocks are choices a step is given. Between any two steps
evictions, purges by key, changes of the download limit and every write to the uploads table may
come (`Lifecycle`: creation, import, the worker, retries, the publish migration), and somebody
outside may remove cached files or replace them by something of another size. The theorems in
`HandlerGate`, `HandlerLimit`, `HandlerFlight`, `HandlerProgress`, `HandlerStaging`, `HandlerStore`,
`HandlerContent`, `HandlerServe`, `HandlerPurge`, `HandlerDelete`, `HandlerClean` and `HandlerBoot`
hold after every possible sequence of such steps. `HandlerRuns`, `HandlerReimport`,
`HandlerPollution` and `HandlerLimit` build whole runs that show where a promise is not kept.
`StoreLaws.dfy` proves the store's own laws over all sequences of store operations,
`HandlerStore.StoreTrace` shows that what requests do to the store is such a sequence, and
`HandlerLookup` that a lookup nothing interrupts is the store's own.

**`rebindPostgres`** (`Rebind`, `RebindLoop`, `RebindLaws`). The byte loop is proved to print the numbered tokens
of its query; the laws say what that means without the lexer: the token split is the only
well-formed one, the output is read exactly as the query was, rewriting twice changes nothing, the
length is known, and the query can be read back exactly under one condition.

**Merkle payments** (`Median`, `Merkle`, `Allowance`, `AllowanceShared`). Bounds on what one tree and
one plan can be charged, and the allowance protocol that spends against them, for every draw of the
payment contract and every fate of a transaction: first for a plan that has the signer to itself,
then for any number of uploads whose calls interleave on one signer and one wallet.

**The rate limiter, the keyring and the publish migration** (`RateLimiter`, `Keyring`, `Publish`,
`PublishConvergence`), each over whole runs.

## What the model found

- Deleted content can come back to stay until a sweep finds it, with nothing failing, in two ways.
  The check after a promotion looks the row up by its uuid, and an import brings back a deleted uuid
  under a new row: a download that is about to promote while its row is deleted and an old export
  imported leaves the deleted content cached (`HandlerReimport.ReimportOrphans`, exact condition
  `HandlerClean.RecheckIff`). And a delete purges the keys it read at its start: one that read an
  upload still being processed, and deletes it after it completed and was cached, purges nothing
  (`HandlerReimport.StaleDeleteOrphans`, exact condition `HandlerClean.DeleteIff`). Otherwise only a
  failing purge or row read leaves anything (`HandlerClean.PurgeIff`,
  `HandlerClean.OrphanedByStepOnly`), and runs without such steps leave nothing
  (`HandlerClean.CleanRunLeavesNothing`).
- A `?` placeholder directly followed by a digit is rewritten into another number (`?5` becomes
  `$15`, `RebindLaws.DigitAfterPlaceholder`). `RebindLaws.RoundTrip` gives the exact condition.
- A plan's single approval does not survive other uploads. The signer is locked per call, not per
  plan, so with more than one upload at a time another payment can spend a plan's approval between
  two of its batches, and the plan approves again (`SharedAllowance.SecondApproval`), although
  internal/evm/signer.go:473-477 says it never does. The rest of a plan is sure to need no further
  approval if and only if the allowance is at least the sum of its remaining bounds
  (`SharedAllowance.OneApprovalIff`). No payment is ever turned down because of it
  (`SharedAllowance.FairCallsSucceedAmidOthers`).
- Validation before paying does not look at signs, the encoding of a payment refuses negative
  amounts: a plan whose second batch has one candidate asking for "-1" passes validation, is approved
  whole, has its first batch paid and then stops (`SharedAllowance.NegativeQuoteStopsPlan`), against
  the purpose stated at internal/worker/upload.go:128-131. `Allowance.FairPay` and
  `Allowance.FairPlanIsPaid` give the exact condition.
- The publish migration reaches a candidate if and only if it decodes, has the UUID asked for, and
  stands behind fewer than `limit` candidates that do not decode or have another UUID, wherever those
  are (`PublishConvergence.PublishedIff`). All others starve, however often it is repeated
  (`PublishConvergence.NeverReached`). Its "skipped" outcome never occurs (`Publishing.RunCounts`),
  and a row deleted while it is being published is reported as published
  (`Publishing.SuccessIsRecorded`).
- The gate reads its limit before locking, so a request standing between the two is admitted against
  an obsolete limit, which the comment above `downloadGate` rules out
  (`HandlerLimit.ObsoleteAdmission`, a run from boot). As long as the limit then stays, all admissions
  are below it if and only if no request stands there with a higher limit
  (`HandlerLimit.AlwaysBelowIff`).
- The integrity guard at internal/downloadcache/downloadcache.go:19-22 is said to be checked on boot
  scan. The scan has no recorded size to compare with: it adopts a file that was cut short at the size
  it finds, and lookups then serve it (`StoreLaws.ScanAdoptsAnySize`). While the program runs, the
  guard works (`HandlerContent.EveryBodyIsRight`).
- The rate limiter admits the request that opens a window even when the limit is below one, and a
  closed interval as long as the window admits at most 2·max(max, 1) − 1 requests, or max(max, 1) for
  a window of length zero; the bound is reached for every limit and every window. A limit below one
  also tells that request a negative number of requests left (`RateLimits.WindowHeaders`), while
  all later ones are told zero at least.
- Ciphertext from before envelopes is read only while its key is the primary one; keeping that key
  for reading does not help (`Keyrings.LegacyReadIffPrimary`). Of two kept keys whose ids collide the
  later is not held (`Keyrings.CollisionDropsLaterKey`).
- The fetch identifier and the cache key of a row come from different rules
  (internal/handlers/uploads.go:651-662 against internal/handlers/uploads.go:963-986). They agree for
  every row the program's own writers leave (`HandlerContent.WrittenIsConsistent`). The one kind of
  row on which they differ, an empty but non-NULL data map beside an address, could only be put there
  by other hands (`HandlerPollution.NoWriterLeavesIt`); if it were, and the network answered for the
  empty identifier, another row's reader would be served those bytes
  (`HandlerPollution.WrongBytesServed`).

## Assumptions

- `HandlerContent.SoundEnv`: a digest of a non-empty identifier is a valid key, and identifiers with
  equal digests hold equal bytes on the network, by whichever of the two download calls they are
  fetched. The network's answer for an identifier does not change.
- POSIX files: an open descriptor keeps its bytes when the name is unlinked or replaced; a rename is
  atomic; a directory walk meets each path once. Requests stage their downloads under distinct names.
- A deleted row's number is not used again, and uuids are unique among rows; a created upload's uuid
  is new, an imported one's need not be. One worker at a time finishes an upload
  (internal/services/upload.go:486-491 keeps others away).
- Whoever tampers with the cache directory does not put other bytes of the recorded size there, nor
  files at positions the index does not know; and at boot cached files are what they were promoted as.
- `Keyrings.Sound`: opening inverts sealing under the same key material, and key ids hold no colon.
  Only `Keyrings.LegacyReadIffPrimary` also needs that other material does not open
  (`Keyrings.Authentic`).
- The payment contract charges the drawn pool's median times two to the depth or reverts; `approve`
  overwrites the allowance, as in EIP-20. All payments of a wallet to the contract go through one
  signer, and its transactions take effect in the order sent; the code does not ensure the former:
  internal/worker/upload.go:532-537 replaces the signer unsynchronised, so two uploads that start at
  once may hold two. Amounts and approvals fit in 256 bits,
  and byte counts do not overflow 64. `Allowance.CoveredPlanNeedsNoApproval`,
  `Allowance.AllowanceCoversRemainder`, `Allowance.PlanUnderOneApproval` and
  `Allowance.FairPlanIsPaid` are about a plan that has the signer to itself; `SharedAllowance` is
  about the rest.
- The daemon reports content that is on the network as already stored, and a finalize it confirms
  has stored the session's chunk.

## Model

| member | source | states |
|---|---|---|
| CacheStore.Store.PromoteIfFits | internal/downloadcache/downloadcache.go:238-276 | the in-place promotion is the atomic transition `Promote`: checks in the program's order, one result per error, and nothing changed on refusal |
| CacheStore.Store.UnlinkLocked | internal/downloadcache/downloadcache.go:348-367 | an invalid key touches no file, a missing file is success, a failing unlink leaves the directory |
| CacheStore.Store.DropKey | internal/downloadcache/downloadcache.go:296-312 | unlink first; index and byte count change only after it succeeded, also for keys that are not indexed |
| CacheStore.Store.DropGeneration | internal/downloadcache/downloadcache.go:326-339 | acts only on the observed generation |
| CacheStore.Store.Open | internal/downloadcache/downloadcache.go:173-220 | uninterrupted, with an I/O error at any of its three file operations or none, the lookup is `Lookup` |
| CacheStore.Store.Visited | internal/downloadcache/downloadcache.go:414-457 | one file of the boot walk is adopted, removed as a stray, or already counted |
| CacheStore.Store.Scan | internal/downloadcache/downloadcache.go:414-457 | the walk equals its specification, and only a walk to the end makes the store ready |
| CacheStore.Store.Oldest | internal/downloadcache/downloadcache.go:371-401 | exactly min(max, count) distinct entries, in access order, and everything left out was accessed no earlier |
| CacheStore.Store.EvictBatchToBytes | internal/worker/cache_sweep.go:479-491 | the batch evicts oldest first until the live byte count is at the target, counting what it removed |
| StoreLaws.RunKeepsValid | internal/downloadcache/downloadcache.go:89-117 | over any sequence of operations, failing ones and half-finished scans included, `bytes` is the sum of the indexed sizes, keys are valid, generations are distinct and were issued |
| StoreLaws.PromoteLaw | internal/downloadcache/downloadcache.go:223-276 | a promotion succeeds if and only if key, source file, readiness, rename and the budget after the replaced size allow it; then the entry has the file's size, the promotion's time and a new generation, the source is gone and no other key is touched; refused, nothing changes |
| StoreLaws.RunBudget | internal/downloadcache/downloadcache.go:223-276 | in any reachable state the total is at most the starting total or the largest budget used, plus what scans adopted |
| StoreLaws.StaleEvictionIsSafe | internal/downloadcache/downloadcache.go:314-339 | evicting from an old snapshot does nothing if the key was promoted since, even if it was dropped in between |
| StoreLaws.DroppedGenerationIsDead | internal/downloadcache/downloadcache.go:326-339 | a generation observed for a key no longer indexed never matches again |
| StoreLaws.DropLaw | internal/downloadcache/downloadcache.go:278-312 | success leaves neither file nor entry, failure leaves everything, other keys are untouched |
| StoreLaws.RunKeepsCovered | internal/downloadcache/downloadcache.go:89-117 | once every cached file is indexed, no sequence of operations undercounts the directory again |
| StoreLaws.RunKeepsBacked | internal/downloadcache/downloadcache.go:341-367 | as long as nobody outside touches the directory, every entry keeps a regular file of its recorded size |
| StoreLaws.ScanIsRun | internal/downloadcache/downloadcache.go:414-457 | a scan is a run of store steps, so the run laws hold of it |
| StoreLaws.ScanOnlyRemoves | internal/downloadcache/downloadcache.go:414-457 | a scan, finished or not, alters no cached file, no existing entry and no staging file |
| StoreLaws.ScanMakesIndexAuthoritative | internal/downloadcache/downloadcache.go:403-457 | after a completed scan of any directory, whatever failed to be removed, the index covers it and the store is ready; nothing else is left there but the strays whose removal failed |
| StoreLaws.FirstScanIsBacked | internal/downloadcache/downloadcache.go:414-457 | a first scan indexes only files that are there, even while files vanish under it |
| StoreLaws.RetriedScanIsExact | internal/downloadcache/downloadcache.go:403-457 | a scan that failed half-way and its retry count every file once; only files that vanished after they were indexed stay counted |
| StoreLaws.ScanAdoptsAnySize | internal/downloadcache/downloadcache.go:19-22 | the scan adopts a file at whatever size it finds, and an uninterrupted lookup serves it |
| StoreLaws.LookupLaw | internal/downloadcache/downloadcache.go:173-220 | a hit is exactly an entry whose file matches and meets no lstat, open or fstat error; it serves that file and sets the entry's access time to now, its size and generation, all other entries, the bytes and the disk staying as they were; any other lookup leaves no entry of the key unless the unlink failed |
| StoreLaws.HitGoesLast | internal/downloadcache/downloadcache.go:208-212 | a key hit later than every other access comes last in every full answer of the least recently accessed |
| StoreLaws.EvictPrefix | internal/worker/cache_sweep.go:479-491 | undisturbed but for any set of keys whose unlink fails, a batch goes through a prefix of the snapshot and drops exactly its other keys: entries, files, bytes and both counts say so, and not one victim more is tried than the target needs |
| StoreLaws.SurvivorsAreFresher | internal/downloadcache/downloadcache.go:378-401 | every survivor of a batch was accessed no earlier than every victim |
| Flights.Flight.BeginFill | internal/downloadcache/flight.go:27-36 | the first caller leads with a fresh open channel, later ones get that channel |
| Flights.Flight.FinishFill | internal/downloadcache/flight.go:40-47 | closes exactly the registered channel, which is provably still open |
| Gates.DownloadGate.Attempt | internal/handlers/download_gate.go:48-57 | one locked admission attempt: a slot if below the limit, else the current channel |
| Gates.DownloadGate.ReleaseSlot | internal/handlers/download_gate.go:71-77 | frees one slot, closes the current channel once and replaces it by an open one |
| Counters.Counter.BumpKey | internal/downloadcache/counter.go:26-36 | the map update and wholesale reset equal `Bump` |
| Counters.ExactSinceReset | internal/downloadcache/counter.go:26-36 | after any bumps every count is the true count since the last reset, and the map holds exactly the keys bumped since |
| Counters.NeverEarly | internal/downloadcache/counter.go:8-36 | never more than the true number of bumps, so threshold n is not met before the n-th miss |
| Counters.Bounded | internal/downloadcache/counter.go:8-36 | the map never holds more than max(cap, 1) keys |
| Counters.ExactWhenFewKeys | internal/downloadcache/counter.go:26-36 | with at most cap distinct keys there is no reset and every count is exact |
| HandlerShape.NextShape | internal/handlers/uploads.go:701-1072 | at every point of the download program, which deferred calls are registered, whether a slot is held, and that a key is led once the loop is passed |
| HandlerGate.RunKeepsGate | internal/handlers/download_gate.go:44-77 | in every reachable state `inFlight` is exactly the number of requests holding a slot |
| HandlerGate.NoLostWakeup | internal/handlers/download_gate.go:48-77 | a waiter on an open channel holds the current `notify`, and the gate is at least as full as the limit it read |
| HandlerLimit.ObsoleteStepIff | internal/handlers/download_gate.go:48-57 | a step admits at or above the limit in force if and only if it is an attempt with a limit read before, and the occupancy lies between the two |
| HandlerLimit.BelowForIff | internal/handlers/download_gate.go:20-26 | while the limit stays, a request is only ever admitted below it if and only if it does not stand between reading a higher limit and using it |
| HandlerLimit.AlwaysBelowIff | internal/handlers/download_gate.go:20-26 | while the limit stays, every admission of every request, also of those to come, is below it if and only if no request stands there |
| HandlerLimit.ObsoleteAdmission | internal/handlers/download_gate.go:48-55 | a run from boot: one download holds a slot, a second read the limit of two, the limit is lowered to one, and the second is admitted |
| HandlerGate.NeverAboveConstantLimit | internal/handlers/download_gate.go:44-77 | with an unchanged limit, occupancy never exceeds it |
| HandlerFlight.RunKeepsFlight | internal/handlers/uploads.go:867-903 | registered flights and their leaders match one to one in every reachable state |
| HandlerFlight.SinglePromoter | internal/handlers/uploads.go:853-944 | a request past the loop with a cache key is that key's registered leader, so promotions of one key, guard included, never overlap |
| HandlerFlight.CoalescingLaw | internal/handlers/uploads.go:867-903 | channels are never closed twice; a waiter holds no slot, leads nothing, has used fewer than the maximal rounds, and waits for a live leader |
| HandlerFlight.ClosedForever | internal/downloadcache/flight.go:40-47 | a closed channel is never reopened or reissued |
| HandlerFlight.NoDeadlock | internal/handlers/uploads.go:867-944 | while any request is unfinished, some request can step without a timeout or cancellation |
| HandlerProgress.StepsAreBounded | internal/handlers/uploads.go:867-1072 | requests take boundedly many steps, whatever happens around them: each slot is released once and wakes a waiter at most once, and fills are awaited for a bounded number of rounds |
| HandlerProgress.PotentialBound | internal/handlers/uploads.go:867-1072 | with n requests the bound is at most n · (67 + 3n) |
| HandlerProgress.StuckIsDone | internal/handlers/uploads.go:867-944 | where no request can step by itself, all are done |
| HandlerProgress.EveryRequestFinishes | internal/handlers/uploads.go:867-1072 | from every reachable state, steps without timeouts or cancellations bring every request to its end within the bound |
| HandlerStore.StoreTrace | internal/handlers/uploads.go:871-1057 | whatever requests, evictions and purges do to the store is a sequence of its own operations |
| HandlerStore.AccountingUnderRequests | internal/downloadcache/downloadcache.go:89-117 | in every reachable state the byte count is exact, every cached file is indexed and the total within the start or the largest budget used; untampered, index and directory agree |
| HandlerLookup.LookupIsOpen | internal/downloadcache/downloadcache.go:161-220 | from any state with a valid store, the step-wise lookup of a request, uninterrupted, with an I/O error at any of its file operations or none, does to the store exactly what `Open` does, goes on with the bytes `Open` returns or as after a miss, and changes nothing else |
| HandlerStore.RunKeepsIssued | internal/downloadcache/downloadcache.go:173-220 | the generation a lookup carries between its steps was issued |
| HandlerStore.HealSparesNewerEntry | internal/downloadcache/downloadcache.go:160-220 | a lookup's self-heal leaves the store alone if the key was promoted since the lookup read its entry |
| Lifecycle.LivesWellWritten | internal/services/upload.go:343-398 | over any sequence of writes to a row, failed, requeued, retried, imported or published, an empty data map never stands beside an address |
| Lifecycle.IdentifiersAreFinal | internal/services/upload.go:341-398 | once a row has an identifier its data map never changes, and its address only by its first publication |
| Lifecycle.CreatedHasContent | internal/services/upload.go:343-388 | an upload created here that may be downloaded has a data map if private, an address if public |
| Lifecycle.FinishableIff | internal/services/upload.go:431-580 | whatever was written to a row, it can ever be downloaded if and only if it can be now or still has its source |
| Lifecycle.FailureIff | internal/services/upload.go:430-459 | a failed row can ever be downloaded later if and only if the failure keeps a source that is still there |
| Lifecycle.StagedCanFinish | internal/services/upload.go:343-385 | one that has its source can be finished from wherever failures, requeueings and retries took it, and then has the status, data map and address finalize answered |
| Lifecycle.PublicationIsFinal | internal/services/upload.go:387-398 | a private row with a usable data map that is published is public under that address for good, its data map kept |
| HandlerContent.ConsistentIff | internal/handlers/uploads.go:963-986 | fetch identifier and cache key disagree exactly for a row with an address and an empty, non-NULL data map |
| HandlerContent.WrittenIsConsistent | internal/services/upload.go:343-398 | every row its writers leave is fetched by the identifier its cache key is derived from |
| HandlerContent.PurgeCoversDownloadKey | internal/services/upload.go:647-663 | the key a download caches under is always among those a delete purges |
| HandlerContent.PublishingKeepsKeys | internal/services/upload.go:387-398 | publishing a row's DataMap changes neither its cache key nor its bytes, and a delete that read the row before still purges that key |
| HandlerContent.RunKeepsContent | internal/handlers/uploads.go:871-1057 | in every reachable state, with any writes to rows and any tampering, every cached file of its content's size and every staged file holds the right content, and the index has the right sizes |
| HandlerContent.EveryBodyIsRight | internal/downloadcache/downloadcache.go:161-172 | every body served, by hit or fetch, promoted, refused or evicted again, is the content of the request's row, also while cached files are removed or replaced by others of another size from outside |
| HandlerServe.FetchedIsServed | internal/handlers/uploads.go:988-1070 | from any state, over any run, a download that has opened its fetched file answers with that file or nothing yet, whatever thresholds, sizes, budget, promotion and failures |
| HandlerServe.HitIsServed | internal/downloadcache/downloadcache.go:161-220 | the same of a hit that has checked its cached file, though it be removed or replaced meanwhile |
| HandlerServe.AliveIff | internal/handlers/uploads.go:867-1070 | over any run among anything else, a download of something that can be fetched is refused if and only if one of its own steps is a failed fetch or opening of the fetched file, a cancelled wait, or a timed-out wait for a slot |
| HandlerServe.UnhinderedIsServed | internal/handlers/uploads.go:867-1070 | a download none of whose steps is one of those, once done, has served the content of its row |
| HandlerServe.StartsAliveIff | internal/handlers/uploads.go:701-760 | a download that may see its row starts alive if and only if the row is completed or already stored |
| HandlerServe.EveryDownloadIsServed | internal/handlers/uploads.go:867-1070 | from every reachable state there is a run without failures, timeouts or cancellations that finishes all requests, and it serves every such download its row's content |
| HandlerServe.FollowersWait | internal/handlers/uploads.go:853-903 | no stampede: without a timeout, a download gets past the loop only as the registered leader of its key or after waiting out a fill in every round |
| HandlerServe.PromotesAtNthMiss | internal/handlers/uploads.go:1019-1034 | while the keys missed fit the counter, a fetched object goes on to promotion if and only if it may be cached, its size is allowed, and its key has been missed as often as configured |
| HandlerRuns.FollowerIsServed | internal/handlers/uploads.go:890-894 | a follower woken by a fill that left its object cached is served from the cache, with no slot and no fetch |
| HandlerStaging.RunKeepsStaging | internal/handlers/uploads.go:944-953 | every staging file is still its request's to remove, or one whose removal failed |
| HandlerStaging.TempDiskBound | internal/handlers/uploads.go:905-953 | live staging files never outnumber the slots taken, nor the highest limit in force, whatever the rows |
| HandlerPollution.NoWriterLeavesIt | internal/services/upload.go:343-398 | the row of the run below is none the program writes |
| HandlerPollution.WrongBytesServed | internal/handlers/uploads.go:963-968 | were such a row put into the table, and did the network answer for the empty identifier, a fault-free run would serve another row's reader wrong bytes |
| HandlerPurge.RunKeepsPurge | internal/handlers/uploads.go:1034-1048 | in every reachable state each cached key serves a live row, or has an owed purge, or has been there since one of the recorded steps left it |
| HandlerPurge.NoResurrection | internal/handlers/uploads.go:1240-1280 | a cached key that serves no live row has a request that still owes its purge, unless a recorded step left it behind |
| HandlerClean.OrphanedByStepOnly | internal/handlers/uploads.go:1034-1048 | a key becomes an orphan only by one of those steps, by no eviction, purge, write to a row, import or tampering |
| HandlerClean.RecheckIff | internal/handlers/uploads.go:1043-1048 | once no row is served under the key, the check after a promotion lets the bytes stand if and only if it fails or some row has the uuid, be it another one |
| HandlerClean.DeleteIff | internal/handlers/uploads.go:1246-1280 | a delete of the only row served under a key leaves the key if and only if the row it read at its start did not have it |
| HandlerClean.PurgeIff | internal/handlers/uploads.go:1263-1280 | a last purge leaves its key if and only if the unlink fails |
| HandlerClean.CleanRunLeavesNothing | internal/handlers/uploads.go:1034-1048 | runs in which no late purge or row read fails, no delete removes a row finished after it was read, and no import brings back a uuid an unfinished download read, leave nothing behind |
| HandlerReimport.ReimportOrphans | internal/services/backup.go:242-262 | a fault-free run from boot: delete and import overtake a download, whose check is satisfied by the imported uuid; all done, the deleted content is cached for no row |
| HandlerReimport.StaleDeleteOrphans | internal/handlers/uploads.go:1224-1280 | a fault-free run from boot: a delete that read an upload in processing removes it after it completed and was cached, and purges nothing |
| HandlerPurge.DeletedStaysDeleted | internal/handlers/uploads.go:1216-1287 | once all requests are done, what is on disk or indexed serves a live row or was left behind by a recorded step |
| HandlerDelete.CacheKeysIff | internal/services/upload.go:647-663 | a delete's keys are exactly the digests of the row's usable identifiers, each once, the serve key first |
| HandlerDelete.ClearedIsGone | internal/handlers/uploads.go:1247-1255 | a purge step that succeeded leaves neither file nor entry of its key |
| HandlerDelete.DeleteIsHonest | internal/handlers/uploads.go:1240-1280 | over any run, a delete that removes its row has successfully purged every key of the row as it read it; once done it answers "deleted" if and only if it removed the row, and otherwise refuses |
| HandlerDelete.RowGoesLast | internal/handlers/uploads.go:1240-1260 | all those purges come before the removal |
| HandlerDelete.FailedPurgeStopsDelete | internal/handlers/uploads.go:1247-1255 | a purge that fails before the row delete leaves the rows and ends the request with status 500 for good |
| HandlerDelete.OnlyFinishedRowsGo | internal/services/upload.go:601-645 | rows go only by the row delete of a request for that row, and only when completed, already stored or failed |
| HandlerDelete.DeletableRowGoes | internal/services/upload.go:601-645 | a row delete that meets no failure removes such a row |
| HandlerPurge.NoEarlyAdmission | internal/handlers/uploads.go:1019-1034 | with threshold n, a download about to promote has n recorded misses of its key behind it |
| HandlerBoot.BootEstablishesAll | internal/downloadcache/downloadcache.go:403-457 | a booted system satisfies every invariant above; files without a row count as left behind |
| HandlerBoot.ScanBoots | internal/downloadcache/downloadcache.go:403-457 | a completed boot scan over a directory of promoted files, of uploads deleted in the meantime too, and of any strays, removable or not, yields such a system |
| HandlerBoot.QuiescentIsClean | internal/handlers/uploads.go:867-953 | when every request is done, all slots are free, all flights over and all staging files gone, except those whose removal failed |
| RebindLoop.OnePass | internal/database/db.go:162-247 | one pass of the loop, in any mode: what is still to be written equals what it writes now and what remains after it |
| RebindLoop.RebindPostgres | internal/database/db.go:152-248 | the byte loop with its five modes and lookahead prints the query's tokens, the k-th placeholder as number k |
| RebindLaws.LexIsCanonical | internal/database/db.go:152-248 | the token split concatenates to the query and is well-formed under a grammar stated without the lexer |
| RebindLaws.CanonicalIsUnique | internal/database/db.go:152-248 | it is the only such split |
| RebindLaws.PrintAt | internal/database/db.go:145-151 | every literal, identifier, comment and JSON operator is copied byte for byte and the k-th placeholder becomes `$k` |
| RebindLaws.DecValue | internal/database/db.go:238-241 | the printed number is the decimal text of the placeholder's position |
| RebindLaws.OutputTokens | internal/database/db.go:152-248 | the lexer reads the output as it read the query, placeholders turned to code |
| RebindLaws.Idempotent | internal/database/db.go:152-248 | rewriting a rewritten query changes nothing |
| RebindLaws.OutputLength | internal/database/db.go:152-248 | the output is longer by exactly the digits of 1 to n |
| RebindLaws.RoundTrip | internal/database/db.go:152-248 | reading the numbers back gives the query if and only if in its code no `?` and no `$` stands before a digit |
| RebindLaws.DigitAfterPlaceholder | internal/database/db.go:238-241 | `?5` becomes `$15`, which reads as one placeholder |
| Medians.SortedMedian | internal/evm/signer.go:425-431 | the in-place method returns the median of the amounts it was given and only permutes them |
| Medians.MedianIsUpper | internal/evm/signer.go:418-431 | at most half of the amounts are below it, more than half are not above it |
| Medians.UpperMedianIsUnique | internal/evm/signer.go:418-431 | nothing else has that property |
| Medians.MedianOfMultiset | internal/evm/signer.go:425-431 | it depends on the multiset of amounts only |
| Merkle.MerkleTreeCharge | internal/evm/signer.go:438-459 | the loop computes the largest pool median, or zero, times two to the clamped depth |
| Merkle.MaxMerklePayout | internal/evm/signer.go:512-533 | the same bound over the commitments about to be encoded, without modifying them |
| Merkle.MaxMerkleBatchesPayout | internal/evm/signer.go:461-471 | the sum of the batches' bounds |
| Merkle.ChargeIsSound | internal/evm/signer.go:433-459 | no drawn pool charges more than the bound |
| Merkle.ChargeIsTight | internal/evm/signer.go:433-459 | some pool charges exactly the bound, or it is zero |
| Merkle.ChargeDoubles | internal/evm/signer.go:453-459 | the bound at depth 0 is the largest median or zero, each level up to the eighth doubles it, and beyond either end it stays |
| Merkle.ChargeAtFullDepth | internal/evm/signer.go:512-533 | at depth 8 it is 256 times that |
| Merkle.WinnerDoubles | internal/evm/signer.go:433-437 | what the contract charges doubles with each level as well |
| Merkle.ParseReadsDecimals | internal/evm/signer.go:443-449 | an amount is read as the number whose decimal text it is, with either sign |
| Merkle.ParsesIff | internal/evm/signer.go:288-291 | an amount parses if and only if it is at least one digit after at most one sign |
| Merkle.ChargeIgnoresOrder | internal/evm/signer.go:425-459 | the order of candidates in a pool does not matter |
| Merkle.BoundsAgree | internal/evm/signer.go:507-533 | for every validated batch the payment call's strict conversion (internal/evm/signer.go:277-298) succeeds and reads every pool as the lenient estimate did, in order, so it checks the bound the plan's approval summed |
| Merkle.LenientOnlyForTheEstimate | internal/evm/signer.go:443-449 | an amount that does not parse counts as zero in the estimate and refuses the batch in the payment |
| Allowance.Signer.EnsureAllowance | internal/evm/signer.go:189-230 | in place: short-circuit, or exactly one approval of exactly the required amount |
| Allowance.Signer.EnsureMerkleAllowance | internal/evm/signer.go:478-505 | the plan's bound is ensured, and nothing is sent for a zero plan |
| Allowance.Signer.PayForMerkleTree | internal/evm/signer.go:253-343 | what is encoded and charged is the strictly parsed batch in its original order although its bound sorted it; an amount that does not parse refuses it before anything is sent, a negative one after the approval |
| Allowance.Signer.PayForQuotes | internal/evm/signer.go:117-186 | the other payment on the same allowance ensures and pulls exactly its quotes' total |
| Allowance.TotalIsSum | internal/evm/signer.go:137-146 | the total of one quote is its amount, and the total of a concatenation is the sum of both totals |
| Allowance.QuotesLaw | internal/evm/signer.go:117-186 | when nothing outside fails, quotes are paid if and only if all parse and none is negative; exactly their total is pulled then, with an approval if and only if the allowance was below it, and nothing otherwise |
| Allowance.QuotesAddUp | internal/evm/signer.go:117-186 | two payments together pull what one payment of all their quotes pulls |
| Allowance.Signer.PayMerkleBatches | internal/worker/upload.go:776-808 | pays in order up to the first batch not seen to be paid |
| Allowance.PayLaw | internal/evm/signer.go:300-318 | a batch pulls at most its bound and sends at most one approval, only if the allowance is below the bound; a covering allowance gives up exactly what is pulled, and no approval goes beyond the bound |
| Allowance.MalformedIff | internal/evm/signer.go:277-298 | of the batches that need an approval, those that leave the chain alone are exactly the ones with a pool of other than sixteen candidates or an amount that does not parse |
| Allowance.CoveredPlanNeedsNoApproval | internal/evm/signer.go:473-505 | with the plan covered and no other call on the signer between, no batch sends an approval and the total pulled is within the plan's bound |
| Allowance.AllowanceCoversRemainder | internal/evm/signer.go:473-505 | with no other call between, before batch i the allowance is at least the sum of the remaining bounds |
| Allowance.PlanUnderOneApproval | internal/worker/upload.go:555-584 | a plan with the signer to itself sends at most one approval, none if already covered, and pulled plus still approved is never above max(initial allowance, plan bound) |
| Allowance.FairPay | internal/evm/signer.go:300-318 | when nothing outside fails, a validated batch is paid, in any draw, if and only if it has no negative amount, and what is pulled is exactly the drawn pool's charge |
| Allowance.FairPlanIsPaid | internal/worker/upload.go:555-584 | when nothing outside fails, a plan with the signer to itself has exactly the batches before its first negative amount paid, at exactly what is drawn for them; all of them if and only if there is none |
| SharedAllowance.CallLaw | internal/evm/signer.go:189-230 | one call in any state the others left: at most one approval, only if it finds less than it asks for; an approval never lowers the allowance nor exceeds what is asked |
| SharedAllowance.FairCallsSucceedAmidOthers | internal/evm/signer.go:262-263 | in any interleaving of any uploads' calls, a call that nothing outside fails succeeds if and only if it has no negative or malformed amount |
| SharedAllowance.InterleavedBounds | internal/evm/signer.go:213-219 | over any interleaving: approvals at most the calls that found too little, pulled at most what the payments may spend, allowance never above its start or the largest single demand |
| SharedAllowance.OneApprovalAmidOthers | internal/evm/signer.go:473-477 | an approved plan sends no other approval as long as every call of others leaves the sum of its remaining bounds |
| SharedAllowance.OneApprovalIff | internal/evm/signer.go:473-477 | the rest of a plan needs no approval under any draw if and only if the allowance is at least the sum of its remaining bounds |
| SharedAllowance.SecondApproval | internal/worker/upload.go:308-327 | two uploads at once, nothing failing: a plan that approved its whole bound approves again |
| SharedAllowance.NegativeQuoteStopsPlan | internal/worker/upload.go:128-154 | a validated plan with "-1" in its second batch is approved whole and paid by half |
| RateLimits.RateLimiter.CheckKey | internal/middleware/ratelimit.go:65-91 | the in-place check equals the window transition and its verdict |
| RateLimits.RateLimiter.Sweep | internal/middleware/ratelimit.go:48-57 | the loop removes exactly the expired windows |
| RateLimits.CleanupChangesNothing | internal/middleware/ratelimit.go:48-91 | sweeps anywhere in a run change no verdict |
| RateLimits.SlidingBound | internal/middleware/ratelimit.go:65-91 | any closed interval as long as the window admits a key at most 2·max(max, 1) − 1 times, max(max, 1) times for a window of length zero |
| RateLimits.SlidingBoundIsTight | internal/middleware/ratelimit.go:65-91 | for every limit and every window an ordered run reaches that bound |
| RateLimits.FixedWindow | internal/middleware/ratelimit.go:65-91 | a window admits exactly min(requests, max(max, 1)) |
| RateLimits.WindowHeaders | internal/middleware/ratelimit.go:65-91 | the n-th request of a window is told the limit, the window's end, and the limit less n, or zero when that is negative, except that a limit below one gives the request that opens the window a negative remainder |
| RateLimits.ResetOpensNext | internal/middleware/ratelimit.go:65-91 | the reset time told is the one from whose passing, and not before, the next request opens a window |
| Keyrings.NewKeyring | internal/crypto/keyring.go:76-94 | the loop builds the specified keyring, and any malformed key fails it |
| Keyrings.Previous | internal/crypto/keyring.go:107-113 | the loop returns the keys after the primary, in order |
| Keyrings.BuildHolds | internal/crypto/keyring.go:76-94 | for each id the keyring holds the first key with that id, primary first, and nothing else |
| Keyrings.PreviousIsDedupe | internal/crypto/keyring.go:103-113 | `Previous` is the extras' first occurrences without the primary |
| Keyrings.EnvelopeLaw | internal/crypto/keyring.go:115-137 | an envelope opens under every keyring holding its key; only the key its tag names is tried; an unknown tag is an error |
| Keyrings.LegacyLaw | internal/crypto/keyring.go:125-137 | untagged ciphertext opens with the primary key |
| Keyrings.EncryptIff | internal/crypto/keyring.go:115-123 | whatever extras are kept, encryption succeeds if and only if sealing under the primary key does, and gives the primary's id and the sealed text |
| Keyrings.LegacyReadIffPrimary | internal/crypto/keyring.go:125-137 | over any rotations, untagged ciphertext is read if and only if the reading deployment's primary is its key, in any spelling |
| Keyrings.SelectsIffFirst | internal/crypto/keyring.go:76-137 | the right key material is selected if and only if the first key of that id has it |
| Keyrings.RotationLosesNothing | internal/crypto/keyring.go:39-66 | over any rotations that keep former keys, in any spelling, every tagged envelope ever written is read under every later deployment |
| Keyrings.CollisionDropsLaterKey | internal/crypto/keyring.go:84-91 | of two keys of different material with one id the later is not held |
| Publishing.Migration.PublishChunk | internal/migrate/publish_datamaps.go:175-222 | the calls in order, each failure with its own state of network and ledger |
| Publishing.Migration.PublishRow | internal/migrate/publish_datamaps.go:105-153 | one candidate: dry run, missing or malformed DataMap, publication, row update |
| Publishing.Migration.PublishDataMaps | internal/migrate/publish_datamaps.go:75-169 | the run with its in-loop counters and cancellation is the specified one |
| Publishing.ChunkLaw | internal/migrate/publish_datamaps.go:171-222 | money moves only for content not on the network; an address that comes back, even beside an error, is the content's own and the content is stored; "verified" means the same bytes came back; what the attempt stored was paid in full |
| Publishing.SelectedIff | internal/services/upload.go:400-428 | a row is attempted if and only if it is a candidate, has the UUID asked for, and fewer than `limit` candidates of any UUID precede it |
| Publishing.RestProgress | internal/migrate/publish_datamaps.go:100-166 | from any point inside a run to its end: no payment for a chunk on the network at that point, rows unchanged or public under their own address |
| Publishing.HistoryProgress | internal/migrate/publish_datamaps.go:64-74 | over any history of failing and interrupted runs no payment is made for a chunk on the network when the history begins, and every row is unchanged or public under its own DataMap's address |
| Publishing.OnlyCandidatesChange | internal/services/upload.go:400-428 | over any history nothing of a row changes, deletion aside, unless it is private, completed and has a decodable data map and no address: then it becomes public under its own address |
| Publishing.LostUpdateCostsNothing | internal/migrate/publish_datamaps.go:132-151 | a candidate that came back with an address is never paid for again, in the rest of its run or in any later history, even if verification failed or its update was lost |
| Publishing.SuccessIsRecorded | internal/migrate/publish_datamaps.go:131-166 | a candidate reported as published is on the network, and public in the table under its own address unless it was deleted meanwhile |
| Publishing.RunCounts | internal/migrate/publish_datamaps.go:98-168 | one result per candidate in order, complete exactly when not cut short, candidates = results = published + failed, none skipped; a dry run publishes nothing |
| Publishing.DryRunTouchesNothing | internal/migrate/publish_datamaps.go:106-111 | a dry run leaves network, sessions, payments and every row as they were, but for rows others delete meanwhile |
| Publishing.CancellationStops | internal/migrate/publish_datamaps.go:100-103 | a run attempts exactly the candidates before the one at which it finds itself cancelled |
| Publishing.HexReadsBack | internal/migrate/publish_datamaps.go:121-129 | decoding reads back what hex encoding writes |
| Publishing.HexIff | internal/migrate/publish_datamaps.go:121-129 | a text decodes to some bytes if and only if it is their hex text, in either letter case |
| Publishing.CalmRunCompletes | internal/migrate/publish_datamaps.go:69-71 | after any history, one run without failures publishes every decodable candidate it selects and pays only for chunks not yet stored |
| PublishConvergence.NeverReached | internal/services/upload.go:400-428 | a candidate behind `limit` barren ones is never touched, however often and in whatever weather runs are repeated |
| PublishConvergence.PublishedIff | internal/migrate/publish_datamaps.go:84-96 | repeated fault-free runs publish a candidate if and only if it decodes, has the UUID, and has fewer than `limit` barren candidates before it, wherever they are |

## Left out

- HandlerPurge.DeletedStaysDeleted: leaves out what the steps named under `HandlerClean` left behind and no sweep, purge or eviction has removed since; the code relies on its purge log and reconciliation for these.
- Keyrings.RotationLosesNothing: assumes deployed keys of different material to have distinct ids; `Keyrings.SelectsIffFirst` is the exact condition for one key. Untagged ciphertext is `Keyrings.LegacyReadIffPrimary`.
- StoreLaws.RetriedScanIsExact: a file that vanishes after it was indexed stays counted until a lookup heals its entry, as in the code.
- CacheStore.Store.Open: stated without interruption; the interrupted lookup is the step-wise one of `Handlers`, on values, because its steps interleave with other requests (`HandlerLookup.LookupIsOpen` connects the two).
- HandlerStore.HealSparesNewerEntry: about one lookup step; hits that race with a replacement are covered by `HandlerContent.EveryBodyIsRight`.
- Handlers: the two request programs are a step relation on values rather than methods, since the proofs are about their interleaving; settings, budgets and times are read as choices of the step that uses them.
- `Get`, the lookup that returns a path (internal/downloadcache/downloadcache.go:128-159): the same check and self-heal as `Open`, used by no serving path.
- The 304 path, headers, range serving, access log, metrics and log rate limits: no shared state of the protocol.
- Upload-side seeding of the cache: it promotes through the same store operation, with its own guard.
- The sweep worker's schedule, inactivity cutoff, disk-pressure rule and purge log: its evictions and purges are actions that may come at any time.
- The boot scan interleaved with requests: the program finishes it before serving.
- The library sorts in `Oldest` and `sortedMedian`: an insertion sort stands in; for equal access times the order is not specified.
- Postgres dollar quotes, nested comments and escape strings: the lexer does not treat them either.
- A transaction that mines after its confirmation timed out is taken to mine at once.
- Several processes paying from one wallet.
- Gas price, receipt polling and key parsing in the signer: a transaction is confirmed, fails, or is never seen through, mined or not.
- Merkle depths outside 0 to 8 in the soundness claims: the worker refuses them before paying and the bound clamps there.
- The payment of quotes inside `PayForQuotes`: a call that pays all, or fails having moved any part.
- Changes to the uploads table by others while a publish run is under way, other than deletions: new rows appear between runs.
- Two workers finishing one upload at once, and database errors inside a write to a row: a write happens or does not.
- The progress writer and durations of the migration: output only.
- AES-GCM, SHA-256 and ECDSA: functions with the laws named under Assumptions.
