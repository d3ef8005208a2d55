# Verified model of the data plane's cache, capability and scanning logic

A Dafny model of the parts of the data plane that carry real invariants: the fixed-grid chunk cache with
its value ledger, the capability manager's concurrent protocols and its failover loop, the time and rate
logic they depend on, and the record scanner of the media-search benchmark. `dafny verify dfyconfig.toml`
checks everything.

## How the model is laid out

| files | what they hold |
|---|---|
| `Grid`, `Plan` | the chunk grid, planning a window, cutting a plan into runs |
| `Keys` | the byte string hashed into a physical cache key |
| `InFlight` | the per-chunk in-flight map as an object, and readers and batches as a step machine |
| `Walk` | the chunk-by-chunk walk of `stage` and `pread` on every byte range, 64-bit wrap-around included |
| `Disk`, `Engine`, `Serving` | rows, files and marks; the cache engine as an object; serving one window from it |
| `Staging`, `Stager` | what a stager has staged, as values; the stager as an object |
| `Crash`, `PowerLoss` | staging, eviction, reset, crash and reopening as single steps; the same beside a disk that may undo commits and removals |
| `Steps` | the operations of the two cache objects as sequences of those steps |
| `ChunkValue` | the chunk value ledger |
| `SingleFlight`, `Lease` | the two concurrent protocols of the manager, as step machines |
| `Breaker` (module `Capability`), `RetryAfter` | the breaker, one capability's life, the backoff ledger |
| `Placement`, `Failover`, `Routes`, `Turns` | the manager's slots and pools as an object; laws of a whole read; laws of one turn |
| `CivilDate`, `HttpDate`, `HttpGrammar` | civil-date arithmetic; the Retry-After header and its parser; the texts it accepts |
| `Throughput` | the estimator and the consecutive-low policy |
| `Scanner` | `streamParseDMM` |
| `Outcomes`, `Intervals`, `Sums`, `Chunks` | small shared vocabulary |

Code that updates fields is a class whose methods are proved against a function of the old state; the
theorems are then about those functions, over every input, every run or every history. Protocols with
several actors are step machines whose lemmas quantify over every run. The remote file is a ghost byte
sequence per cache key (`Remote`); rows and files are maps. `CacheEngine.Valid()` holds after opening and after
every operation but one (see the first point below), and it contains: every published file is a complete chunk of the
remote file, every row is backed by such a file of the recorded size, the byte counter is the sum of the row sizes,
cached handles read complete chunks, and the ledger is in step with the rows. `ChunkStager.Valid()` adds a ghost set of
staged offsets: each incomplete chunk's counter is the number of its staged offsets, and its temporary file holds the
right bytes there, whatever else (stale bytes included) it holds elsewhere; and its list of promoted chunks names each
chunk to which it gave a row once.

Every lemma carries `{:induction false}`: automatic induction is off throughout, so the written proofs are the
proofs. `hide` statements only make the solver's work smaller.

Instants and durations are natural numbers of nanoseconds unless a file says otherwise.

## Where the code does something its reader may not expect

- **Bytes past an unaligned end of file.** `stage` and `pread` notice the end of the file by meeting a chunk that does
  not exist. If the file is not a whole number of chunks, offsets at and behind its end still lie in the slot of the
  short last chunk. A range that leaves the file from within brings both loops to the end of the file, where a step has
  no bytes and the loop stands for ever. A range that begins strictly past the end meets a 64-bit subtraction that
  wraps: `stage` takes the whole span in one turn, writes it behind the chunk, counts it as the chunk's own and, if the
  count fits, publishes a file that is not the chunk; `pread` asks for a buffer of nearly 2^64 bytes. `WalkMeetsItsFate`
  says where the walk ends on every range, `ErrorExactlyIfEndIsSeen` when it ends with the error, `StagePastEnd` what
  the store looks like afterwards. (The wrap is that of a release build; one with overflow checks panics at that turn,
  and `pread` already at the end of the file.)
- **Counting bytes.** A chunk counts as complete when enough bytes were written, so correctness depends on no
  offset being written twice (`FullCountCompletesIffNothingTwice` is exact).
- **Length prefixes** are cast to 32 bits. Encoding is injective exactly below 2^32 bytes per string; beyond that two
  different files share their encoding (`LongNamesCollide`).
- **Breaker cooldown.** An elapsed cooldown forgets every failure; there is no half-open probe
  (`ElapsedCooldownForgets`), although comments speak of one.
- **Throttling a dead capability** makes it Throttled, so that it is no longer pruned and is usable again after the wait
  (`UsableOverLife`).
- **Double recording.** A provider error is recorded by `try_slot` and again by `acquire_for_read`. A fresh rate
  limit from the provider is still recorded once, by `try_slot`; an account that is backed off is not recorded. With a
  threshold of three the second refused read opens the breaker (`BreakerHearsTwice`, `SecondRefusalOpens`).
- **Rounding.** A rate less than half a byte per second below the floor is called Healthy (`LowExactly`).
- **`tainted`** is latched by the send pre-check and never read (`PresendsChangeNothing`).
- **Days beyond the month.** The date parser accepts a day past the end of its month and counts it into the next one
  (`DaysBeyondMonthRollOver`).
- **An unmatched closing brace** shifts the scanner down one level for the rest of the text (`StrayBraceShiftsLevel`).
- **`abort`** removes only the open chunk's temporary file (`Abort`).
- **Eviction overlapping promotion** of the same chunk would leave a row without a file (`OverlapLosesTheFile`);
  the crash machine therefore keeps the two apart, and so does the engine, whose methods are atomic.
- **A batch that names an idle chunk twice** joins its own fill (`OwnFillJoined`).

## Model

| member | source | states |
|---|---|---|
| Grid.ChunksPartition | data-plane/src/cache.rs:263-266 | every file offset lies in exactly one chunk, the one `index_of` names; no other offset lies in any |
| Grid.ChunkExists | data-plane/src/cache.rs:230-252 | a chunk has bytes exactly if its index is below the chunk count; all but the last are whole |
| Grid.LengthsSumToFile | data-plane/src/cache.rs:244-252 | the expected lengths of all chunks add up to the file size |
| Grid.TouchingExact | data-plane/src/cache.rs:268-280 | `chunks_touching` lists exactly the chunks that share a byte with the window |
| Plan.BuildSegments | data-plane/src/cache.rs:808-826 | the planning loop yields segments that tile exactly the window clipped to the end of the file, cut along the grid, each marked by whether its chunk is present |
| Plan.PlanUnique | data-plane/src/cache.rs:808-826 | those promises leave only one plan |
| Plan.PlanTouches | data-plane/src/cache.rs:808-826 | a plan has one segment for each touched chunk, in order, and no other |
| Plan.Runs | data-plane/src/cache.rs:340-365 | the runs cut the segments into nonempty stretches of one kind that alternate and carry their outer bounds |
| Plan.RunsTileWindow | data-plane/src/cache.rs:340-365 | the runs of a plan tile the clipped window in order, without gap or overlap |
| Plan.RunIndicesConcat | data-plane/src/cache.rs:368-373 | the `run_indices` of all runs, one after another, are the touched chunks |
| Plan.LocalBytesCounts | data-plane/src/cache.rs:376-384 | `local_bytes` is the number of window offsets that lie in present chunks |
| Plan.FullHitIsOneLocalRun | data-plane/src/cache.rs:334-336 | a full hit is exactly a plan that is one local run |
| Keys.DecodeUndoesEncode | data-plane/src/cache.rs:187-207 | the length-prefixed big-endian encoding can be undone exactly while both strings are shorter than 2^32 bytes |
| Keys.KeysIdentifyFiles | data-plane/src/cache.rs:187-207 | with a collision-free digest a file whose strings are shorter than 2^32 bytes shares its physical key with no other file at all |
| Keys.LongNamesCollide | data-plane/src/cache.rs:187-207 | two different files whose names reach 2^32 bytes have the same encoding |
| InFlight.InFlightMap.JoinOrClaimMany | data-plane/src/cache.rs:479-507 | the loop under one lock claims and joins as the batch function says |
| InFlight.InFlightMap.JoinOrClaim | data-plane/src/cache.rs:453-477 | a live fill is joined, otherwise a fresh record is inserted and owned |
| InFlight.InFlightMap.Finalize | data-plane/src/cache.rs:520-523 | exactly the named chunk's record goes |
| InFlight.BatchClaims | data-plane/src/cache.rs:479-507 | a batch owns exactly the first mention of each chunk that was idle and joins the live record otherwise; nothing else becomes live |
| InFlight.OwnFillJoined | data-plane/src/cache.rs:479-507 | a batch joins a fill of its own exactly when it names an idle chunk again |
| InFlight.OneOwnerForever | data-plane/src/cache.rs:451-522 | in every run the owner of a record never changes |
| InFlight.NoWaitCycle | data-plane/src/cache.rs:451-522 | in every run where each reader makes one batch call, no reader waits, directly or through others, for itself |
| InFlight.SomeOwnerIsFree | data-plane/src/cache.rs:451-522 | while a fill is live, some owner of a live fill waits for nobody, and it and no one else can finish that fill |
| InFlight.ReaderTold | data-plane/src/cache.rs:479-507 | in every run a batch settles for good that its reader waits for exactly the fills that were live among the chunks it named, and owns the fills of exactly the others |
| InFlight.FinishFrees | data-plane/src/cache.rs:520-523 | finishing a fill ends it and no other; nobody waits for it any more |
| InFlight.SingleClaimsCanDeadlock | data-plane/src/cache.rs:453-477 | claiming chunk by chunk instead lets two readers wait for each other |
| Walk.WalkMeetsItsFate | data-plane/src/cache.rs:1174-1187 | on every range and for both loops the walk comes to rest, and where: the end of the range, the missing chunk, the end of the file for ever, or past the end the whole span at once (staging) or a huge buffer (reading) |
| Walk.ErrorExactlyIfEndIsSeen | data-plane/src/cache.rs:1174-1187 | a walk that leaves the file ends with the error exactly if the slot at its end has no chunk, and stands at the end of the file for ever exactly if it leaves from within and that slot has one |
| Walk.OneRestingPlace | data-plane/src/cache.rs:1174-1187 | a walk has only one place to come to rest |
| Walk.TurnPastEnd | data-plane/src/cache.rs:1184-1187 | strictly past the end, in the slot of the short chunk, the wrapped room takes the whole span, and a read asks for 2^64 bytes less its distance from the end |
| Walk.AlignedEndIsSeen | data-plane/src/cache.rs:244-252 | for a range that crosses the end of the file the end is seen exactly if the file is a whole number of chunks |
| Walk.SixBytesCutByFour | data-plane/src/cache.rs:1174-1187 | six bytes cut by four: both walks from zero stand at six for ever; two bytes staged at seven are taken in one turn, as many as the short chunk expects |
| Disk.ContentSlice | data-plane/src/cache.rs:876-905 | reading inside a complete chunk is reading the remote file at the chunk's offset |
| Engine.CacheEngine.Open | data-plane/src/cache.rs:587-654 | opening any trustworthy disk keeps it if version and stride fit and otherwise leaves an empty marked store; the counter equals the row sizes and the ledger is fresh |
| Engine.SumOfSizes | data-plane/src/cache.rs:647-652 | the budget recount is the sum of the row sizes |
| Engine.CacheEngine.ResetStore | data-plane/src/cache.rs:677-698 | no row, file, handle or counted byte is left |
| Engine.CacheEngine.Touch | data-plane/src/cache.rs:775-790 | exactly the rows of the key in range get the new access time; no other time changes |
| Engine.CacheEngine.PlanChunks | data-plane/src/cache.rs:792-857 | the plan agrees with the whole row table although only the touched range is looked up; exactly the rows of the chunks that share a byte with the window were used now, and no row changes otherwise |
| Engine.CacheEngine.OpenChunkFile | data-plane/src/cache.rs:861-874 | an opened chunk file is the complete chunk; it fails exactly if there is neither a cached handle nor a file |
| Engine.CacheEngine.Pread | data-plane/src/cache.rs:876-905 | on every range: the remote file's bytes exactly if the range is inside the file and all its chunks can be opened; otherwise the first chunk that cannot be opened, the end of the file if it is seen, an endless loop, or a request for nearly 2^64 bytes, each exactly when it happens |
| Engine.CacheEngine.RowsAreOpen | data-plane/src/cache.rs:861-874 | every chunk with a row can be opened |
| Engine.CacheEngine.PublishChunk | data-plane/src/cache.rs:937-968 | a row and its bytes are added exactly if there was no row, and the engine stays valid |
| Engine.CacheEngine.EvictChunk | data-plane/src/cache.rs:1039-1056 | row, handle, file and counted bytes go together, the ledger hears of it, nothing happens without a row; the engine stays valid |
| Engine.CacheEngine.MaybeEvict | data-plane/src/cache.rs:982-1036 | a sweep removes a prefix of the coldest-first candidates without a live fill, one only while the budget is exceeded, and ends within budget or with every such candidate gone; no row goes while an idle one used less recently stays |
| Engine.JustReadGoLast | data-plane/src/cache.rs:775-1036 | after a plan the chunks it touched come last in every order the query may return, and a sweep takes one of them only if no other idle chunk is left |
| Engine.SweepRemoves | data-plane/src/cache.rs:982-1036 | a sweep removes exactly the listed rows, files and handles, changes no other file, gives back exactly their bytes and keeps the store sound |
| Engine.SpentSweepLeavesLive | data-plane/src/cache.rs:982-1036 | a sweep that spent every candidate leaves exactly the rows whose chunk has a live fill |
| Serving.ServeRun | data-plane/src/cache.rs:876-905 | the bytes of one run, read locally or fetched as the plan says, are the remote file's |
| Serving.ServeWindow | data-plane/src/cache.rs:792-905 | in every valid state the runs' bytes, one after another, are exactly the remote file's bytes of the clipped window; upstream is asked for exactly those whose chunks have no row, each once and in order; the rows of the touched chunks were used now |
| StagingProgress.HeldFileIsContent | data-plane/src/cache.rs:1216-1244 | a temporary file in which every offset of the chunk was staged is the chunk's content, whatever it held before |
| StagingProgress.FullMeansAll | data-plane/src/cache.rs:1216-1244 | as many staged offsets as the chunk is long means every one of them |
| StagingProgress.FullCountCompletesIffNothingTwice | data-plane/src/cache.rs:1202-1217 | when the byte count reaches the length the chunk is complete exactly if no offset was written twice |
| StagingProgress.CountExactIffNothingTwice | data-plane/src/cache.rs:1202-1217 | the byte count never falls short of the offsets written and is exact only if none was written twice |
| StagingProgress.SwitchKeepsOk | data-plane/src/cache.rs:1258-1277 | parking the open chunk and taking up another, without truncating its file, keeps every counter and every file right |
| StagingProgress.WriteKeepsOk | data-plane/src/cache.rs:1202-1217 | a span of fresh offsets inside the open chunk keeps the counter exact; it reaches the length only with the last missing offset |
| Stager.ChunkStager.constructor | data-plane/src/cache.rs:910-930 | a new stager has a tag of its own, nothing staged and nothing promoted |
| Stager.ChunkStager.Publish | data-plane/src/cache.rs:1140-1166 | a row that is new is populated in the ledger in one valid step, as PostDisconnect once the consumer is gone and under the stager's source before |
| Stager.ChunkStager.WriteSpan | data-plane/src/cache.rs:1202-1244 | the open chunk is renamed into place exactly when it becomes full, and the renamed file is its content |
| Stager.ChunkStager.Stage | data-plane/src/cache.rs:1170-1256 | for spans disjoint from everything staged, in any order: it ends as the walk does; unless the span begins past an end it cannot see, exactly the chunks that become full get rows, the list of promoted chunks grows by exactly those, which is what it returns, each filed in the ledger under the stager's source, and no other file or row is disturbed; otherwise the store is broken |
| Stager.ChunkStager.StageTurn | data-plane/src/cache.rs:1174-1254 | one turn of that loop inside the file goes where the walk goes and keeps the same relation |
| Stager.ChunkStager.StagePastEnd | data-plane/src/cache.rs:1174-1254 | a span that begins past an end it cannot see leaves a file longer than its chunk, renamed into place and given a row exactly if the bytes counted so far and the span add up to the chunk's length |
| Stager.ChunkStager.DiscardCurrent | data-plane/src/cache.rs:1279-1296 | the open chunk's file and its staged offsets are given up; parked chunks stay |
| Stager.ChunkStager.Finish | data-plane/src/cache.rs:1298-1330 | the open chunk is always strictly partial, so finishing publishes nothing; it returns each chunk to which this stager ever gave a row exactly once, and no other |
| Stager.ChunkStager.Abort | data-plane/src/cache.rs:1334-1338 | every incomplete chunk is forgotten, only the open chunk's temporary file is removed, those of parked chunks stay |
| Stager.StageBeside | data-plane/src/cache.rs:910-930 | two stagers of one engine do not disturb each other: while one stages, the counters, files and list of the other stay right |
| Stager.EvictBeside | data-plane/src/cache.rs:982-1036 | a sweep leaves every stager at work valid: its counters, files and list |
| Crash.ActKeepsInv | data-plane/src/cache.rs:1217-1250 | every single step of staging, eviction, opening, reset or crash keeps the disk openable and every job's file right |
| Crash.CrashSafety | data-plane/src/cache.rs:622-645 | after any run with crashes between any two steps (the directory sync is one) and reopenings with any strides, every row of an open store is backed by a complete file of the grid in force; a crash may lose rows, and bring back rows that find their file |
| Crash.UnsyncedMayBeLost | data-plane/src/cache.rs:1217-1226 | in every run a crash may take what was written and not synced, whole or in part, and any rows |
| Crash.RenameMayBeUndone | data-plane/src/cache.rs:1236-1244 | until the directory is synced a crash may undo the rename of a chunk that was not there before |
| Crash.RollbackSafeExactly | data-plane/src/cache.rs:594-596 | whatever earlier row table a crash restores, the disk can be opened safely exactly if every row that came back finds its file |
| Crash.UndoneEvictionLosesTheFile | data-plane/src/cache.rs:1039-1051 | if a power loss undoes the row deletion of an eviction whose file is gone, a row is left without its file |
| Crash.ResetIsFinal | data-plane/src/cache.rs:677-693 | however often a reset is cut off and begun again, the deleted rows stay gone until the store is open, unless a crash undoes their deletion |
| Crash.CountedFileIsContent | data-plane/src/cache.rs:1216-1244 | a job whose byte count reached the length holds the chunk's content |
| Crash.OverlapLosesTheFile | data-plane/src/cache.rs:1039-1051 | if a promotion could rename its file into an eviction under way, a row would be left without its file |
| Crash.EvictionLosesTheNewFile | data-plane/src/cache.rs:1039-1051 | if an eviction could begin between another job's rename and its row, that row would be left without its file as well |
| PowerLoss.PowerSafety | data-plane/src/cache.rs:594-645 | over every run in which power losses may restore any earlier table of rows and marks and bring back removed or replaced files, as long as the restored rows find their bytes: every row, of the current table and of every earlier one that may return, is served from its chunk's bytes |
| PowerLoss.RestoredServesExactly | data-plane/src/cache.rs:594-596 | whatever a power loss leaves, the restored table can be served exactly if each of its rows finds the bytes that it had when the table was committed |
| PowerLoss.LostInsertsAreHarmless | data-plane/src/cache.rs:937-968 | a power loss that restores an earlier table of the same marks, all of whose rows are still there, always meets that condition |
| PowerLoss.NewestTableSurvives | data-plane/src/cache.rs:1217-1250 | as long as no commit is lost the condition is always met, whatever happens to the files |
| Steps.StageSpanInSteps | data-plane/src/cache.rs:1170-1256 | one turn of the staging loop does to disk and counters what a sequence of single steps does, each allowed when its turn comes: open unless in hand, write, and if that completes the chunk sync, rename, sync the directory, insert the row |
| Steps.BeginInSteps | data-plane/src/cache.rs:910-930 | a new stager beside a store at work begins with nothing in hand, under a tag that no step has used |
| Steps.DiscardInSteps | data-plane/src/cache.rs:1279-1296 | closing the open chunk without keeping it is one such step |
| Steps.AbortInSteps | data-plane/src/cache.rs:1334-1338 | aborting gives up the open chunk with its file and every parked chunk without, each in one such step |
| Steps.EvictInSteps | data-plane/src/cache.rs:1039-1056 | evicting a chunk is two such steps, the row before the file, and leaves every chunk in hand alone |
| Steps.CutOffAnywhere | data-plane/src/cache.rs:1217-1250 | cut off between any two of these steps, the disk can still be trusted |
| Steps.OpenInSteps | data-plane/src/cache.rs:622-645 | opening a store is a sequence of single steps: a store whose marks fit stays as it is, any other is emptied file by file and then marked |
| ChunkValue.ChunkValueLedger.RecordPopulate | data-plane/src/chunk_value.rs:129-170 | the object populates as the function: earlier deliveries and reuse move to the new source |
| ChunkValue.ChunkValueLedger.RecordDeliver | data-plane/src/chunk_value.rs:176-214 | the object delivers as the function; a chunk not seen before is Preexisting |
| ChunkValue.ChunkValueLedger.RecordEvict | data-plane/src/chunk_value.rs:220-236 | the object evicts as the function; used and unused bytes are told apart |
| ChunkValue.LedgerInLockstep | data-plane/src/chunk_value.rs:129-236 | over every history of a fresh ledger beside whatever rows an earlier process left: fetched bytes are evicted or live, every live fetched record has a row of its size, delivered bytes over all sources are all bytes ever delivered |
| ChunkValue.AccountsFollowEvents | data-plane/src/chunk_value.rs:129-236 | for each source the three totals are what the history of events says: bytes fetched for it, and bytes of it that left the store after being read or unread; for the chunks found at opening this needs deliveries that name the size of the row |
| ChunkValue.RecordSizesAgree | data-plane/src/chunk_value.rs:176-214 | then a live record beside a row has the row's size, found at opening or published since |
| ChunkValue.NamedSizeIsFiled | data-plane/src/chunk_value.rs:176-236 | otherwise not: a chunk found at opening is filed under the size its first delivery names |
| ChunkValue.RecordsTellHistory | data-plane/src/chunk_value.rs:129-236 | a live record holds the bytes read from its chunk since its row last went, the first and the last of these reads, what the chunk was fetched for and when it was published; reads before publishing and chunks found at opening included |
| ChunkValue.DeliveriesFollowEvents | data-plane/src/chunk_value.rs:129-214 | for each source the delivered total is what the events say: each delivery under what its chunk was fetched for, moved along when the chunk is published |
| ChunkValue.ReuseFollowsEvents | data-plane/src/chunk_value.rs:129-214 | over every history the reuse histogram counts each chunk's first use once, in the bucket of the time from publishing to reading, at once if it was read before |
| ChunkValue.DeliveredCovered | data-plane/src/chunk_value.rs:129-170 | the subtraction that moves a record's deliveries never goes below zero |
| ChunkValue.PopulateKeepsStep | data-plane/src/chunk_value.rs:129-170 | populating a new row keeps ledger and rows in step and moves, but never changes, the delivered total |
| ChunkValue.EvictKeepsStep | data-plane/src/chunk_value.rs:220-236 | evicting with the row keeps ledger and rows in step |
| ChunkValue.EarlyDeliveryMoves | data-plane/src/chunk_value.rs:129-170 | bytes delivered before the chunk was published end under the fetch's source and count as one immediate reuse |
| ChunkValue.RepublishingUnbalances | data-plane/src/chunk_value.rs:129-170 | populating a chunk that is live already would break the balance |
| SingleFlight.OneCallPerKey | data-plane/src/manager.rs:613-757 | in every interleaving at most one provider call per key is running |
| SingleFlight.OwnerIsForever | data-plane/src/manager.rs:636-643 | an entry's owner, once set, never changes |
| SingleFlight.RemovalHitsOwnEntry | data-plane/src/manager.rs:744-747 | the owner's removal by key removes its own entry and nothing else |
| SingleFlight.JoinersShareTheOwnersAnswer | data-plane/src/manager.rs:758-782 | every task that left through an entry returns its one owner's answer |
| SingleFlight.AnswersComeFromTheProvider | data-plane/src/manager.rs:703-747 | whoever leaves through an entry carries what the provider answered to the call that the entry's owner made, for the key that the task itself was to resolve |
| SingleFlight.OneCallPerEntry | data-plane/src/manager.rs:636-703 | all answers of an entry come from one call: two calls for it are the same step |
| SingleFlight.OthersLeftEarly | data-plane/src/manager.rs:603-632 | whoever leaves without an entry took the early exit, with its answer |
| SingleFlight.NoLostWakeup | data-plane/src/manager.rs:764-782 | once the owner has notified, every parked waiter can go on |
| SingleFlight.SomeoneCanStep | data-plane/src/manager.rs:613-782 | while some task has not returned, some task can step, whatever the provider answers |
| SingleFlight.RunsAreFinite | data-plane/src/manager.rs:613-782 | without new tasks every run ends after a bounded number of steps |
| Lease.CapabilityLease.ChildReader | data-plane/src/manager.rs:236-252 | a child is lent exactly while fewer than two are out and the permit is held |
| Lease.CapabilityLease.DropChild | data-plane/src/manager.rs:171-179 | the count falls by one, and the last child takes the reservation along |
| Lease.ChildCountIsExact | data-plane/src/manager.rs:132-264 | in every run of create, clone and drop the counter is the number of logical children with a live handle or still returning, at most two |
| Lease.LentExactly | data-plane/src/manager.rs:236-252 | in every run a child is created exactly while fewer than two are out and the permit has not gone back; a refusal changes nothing |
| Lease.HandlesFollowActions | data-plane/src/manager.rs:132-264 | in every run each child has as many live handles as were created or cloned and not dropped, its return is finished once, and the lease has as many references |
| Lease.PermitReleasedExactlyOnce | data-plane/src/manager.rs:132-264 | the permit is held while any handle lives, goes back at most once, and has gone back when every reference is gone |
| Lease.ReleasePoint | data-plane/src/manager.rs:171-179 | the permit goes back exactly when the only child out returns or the last reference to a lease without children is dropped |
| Lease.NoChildAfterRelease | data-plane/src/manager.rs:236-252 | after the release no child is ever created |
| Capability.Breaker.RecordFailure | data-plane/src/capability.rs:233-238 | one more failure; at the threshold the breaker opens now |
| Capability.Breaker.IsOpen | data-plane/src/capability.rs:245-256 | open during the cooldown; asking later resets everything |
| Capability.BreakerFollowsStreak | data-plane/src/capability.rs:223-257 | over every history the breaker is open exactly while the current streak has reached the threshold and its last failure is younger than the cooldown |
| Capability.ElapsedCooldownForgets | data-plane/src/capability.rs:245-256 | after an elapsed cooldown one failure reopens the breaker only if the threshold is at most one |
| Capability.UsableOverLife | data-plane/src/capability.rs:150-207 | over every life of a capability: usable exactly while it has not expired, is not gone and need not wait; pruned exactly once it has expired or is gone; a throttle brings a dead one back |
| Capability.ThrottleRunsOut | data-plane/src/capability.rs:150-191 | a throttled capability is kept, unusable until its deadline, and usable from then on by itself |
| Placement.Group | data-plane/src/manager.rs:450-495 | the grouping loops yield one target per placement in first-seen order |
| Placement.OneSlotPerPlacement | data-plane/src/manager.rs:450-495 | each offered placement has exactly one slot, on its first file of the wanted size or, without one, on its first file; placements come in the order in which they were first offered |
| Failover.CapabilityManager.constructor | data-plane/src/manager.rs:433-495 | a new manager has the grouped slots, each with a pool and a closed breaker of its own, and an empty backoff ledger |
| Failover.CapabilityManager.FillSlot | data-plane/src/manager.rs:905-934 | the filling loop of `try_slot` computes the recursive fill, on the slot and the backoff ledger |
| Failover.CapabilityManager.TrySlot | data-plane/src/manager.rs:847-1000 | one attempt computes the turn function: prune, backoff, reuse, growth, fill, wait |
| Failover.CapabilityManager.TakeFree | data-plane/src/manager.rs:1019-1046 | the fast path computes the fast pass |
| Failover.CapabilityManager.AskSlot | data-plane/src/manager.rs:1048-1100 | one round of the main loop computes the turn and what the breaker hears |
| Failover.CapabilityManager.AcquireForRead | data-plane/src/manager.rs:1005-1108 | the two loops compute the fast pass and then the main pass |
| Routes.FailsOnlyAfterEverySlot | data-plane/src/manager.rs:1005-1108 | for every provider a read fails exactly when no slot had a capability free at once and none gave one in its turn; it then reports each slot once, in slot order, with what became of it, and the first wait named |
| Routes.FirstSlotWins | data-plane/src/manager.rs:1019-1070 | the winner is the first slot that has, behind a breaker that is not open, a free capability that is not dead, not expired and not told to wait; otherwise the first that gives in its turn |
| Routes.ReadIsFastPassThenPass | data-plane/src/manager.rs:1019-1108 | which pass answers, and the state every slot is left in |
| Routes.RoutesFollowTheOffer | data-plane/src/manager.rs:450-495 | a failed read of a manager, after any reads, reports each offered placement once, in first-seen order, under the file picked for it |
| Routes.SlotsStay | data-plane/src/manager.rs:1005-1108 | every read leaves the manager with the slots it was made with |
| Turns.RefusedExactly | data-plane/src/manager.rs:847-1000 | a turn fails with an error exactly if the account is backed off, the provider refused the position it was asked for, or the pool was empty and all it obtained was dead on arrival |
| Turns.GivenExactly | data-plane/src/manager.rs:847-1000 | a turn gives a pool position exactly when the account is not backed off and it is the first free capability kept, or nothing was free and the provider's answer for it came free, or everything is in other hands and it is the first worth waiting for |
| Turns.OnePermitAtMost | data-plane/src/manager.rs:823-1000 | a turn keeps every capability that survives pruning, adds only what the provider answered and takes exactly the one permit it returns, none if it fails |
| Turns.TerminalExactly | data-plane/src/manager.rs:1086-1100 | a route is reported terminal exactly when its breaker was not open and its provider, being asked, said so; never for throttling or an open breaker |
| Turns.BreakerHearsTwice | data-plane/src/manager.rs:929-932 | a refused turn adds one failure for a provider error and one more unless it is a rate limit, so a backed-off account adds none; a turn that gives closes the breaker and a skipped slot keeps it |
| Turns.SecondRefusalOpens | data-plane/src/manager.rs:1086-1088 | two reads refused by the provider in a row open a breaker of threshold three, and one does not |
| Turns.ReadKeepsBound | data-plane/src/manager.rs:889-934 | reads one after another never take a pool past its target or a target past the bound |
| Turns.BackoffAfterTurn | data-plane/src/manager.rs:706-711 | what any account is told after a turn: the slot's own what its provider asked for in this turn, up to the ceiling, and everybody else what they were told before |
| Turns.TakesItsTurn | data-plane/src/manager.rs:1048-1100 | a slot is skipped exactly while its breaker is open; otherwise its turn gives or fails exactly as stated above, and its pool and target are exactly what that turn leaves |
| Turns.KeptInOrder | data-plane/src/manager.rs:862-870 | pruning keeps exactly the capabilities that are neither dead nor expired, each once and in order |
| Turns.DirectiveSparesTheAccount | data-plane/src/manager.rs:867-876 | once a provider has asked an account to wait, no later slot of that account asks the provider in the same pass |
| RetryAfter.RetryAfterLedger.Record | data-plane/src/retry_after.rs:76-81 | expired deadlines go and the scope gets the new one, capped at the horizon |
| RetryAfter.RetryAfterLedger.BlockedFor | data-plane/src/retry_after.rs:85-92 | expired deadlines go; the answer is the time left to the scope's deadline, if any |
| RetryAfter.PruningUnobservable | data-plane/src/retry_after.rs:58-92 | over every history a query is answered as by a ledger that keeps the last directive of each scope for ever |
| RetryAfter.WaitBounded | data-plane/src/retry_after.rs:55-92 | no answer exceeds the ceiling |
| RetryAfter.QueryLeavesBlockedScopes | data-plane/src/retry_after.rs:85-92 | a query leaves exactly the scopes that are blocked at that instant |
| RetryAfter.ScopesIndependent | data-plane/src/retry_after.rs:76-92 | a scope without a directive of its own is never told to wait |
| CivilDate.AlgorithmsCountDays | data-plane/src/capability.rs:329-339 | for every Gregorian date since 1970 `days_from_civil` is the number of calendar pages turned since the epoch, and `civil_from_days` is the date reached by turning them |
| CivilDate.NextDayCountsOne | data-plane/src/capability.rs:329-339 | the next calendar day has the next number |
| CivilDate.CountStrictlyIncreasing | data-plane/src/capability.rs:329-339 | later dates have larger numbers, and only they |
| CivilDate.CivilUndoesCount | data-plane/src/capability.rs:463-474 | `civil_from_days` undoes `days_from_civil` |
| CivilDate.DaysBeyondMonthRollOver | data-plane/src/capability.rs:329-333 | a day past the end of its month counts into the next month |
| HttpDate.ParseUndoesFormat | data-plane/src/capability.rs:294-326 | every printed instant up to the year 9999 reads back as itself, and no later one reads at all |
| HttpDate.DateFormWaits | data-plane/src/capability.rs:341-355 | a date header asks for the time left until that date, never negative and never past the ceiling |
| HttpDate.SecondsFormWaits | data-plane/src/capability.rs:341-355 | a number of seconds is honoured up to the ceiling; one beyond 64 bits is no evidence |
| HttpGrammar.DateExactly | data-plane/src/capability.rs:294-326 | the date parser accepts exactly the texts of five fields, one space apart, that the grammar lists, and reads each as its instant |
| HttpGrammar.HeaderExactly | data-plane/src/capability.rs:341-355 | exactly the headers of the grammar are understood, each with exactly its wait: no header and any other text are no evidence |
| Throughput.ThroughputEstimator.ObserveBytes | data-plane/src/throughput.rs:335-352 | the object observes as the function and drops samples beyond the bound |
| Throughput.ThroughputEstimator.SendCompleted | data-plane/src/throughput.rs:365-389 | a blocked send clears and suspends once, a fast one resumes |
| Throughput.ThroughputEstimator.Evaluate | data-plane/src/throughput.rs:391-449 | the evicting loop and the verdict are those of the classifying function |
| Throughput.LowObservationPolicy.Note | data-plane/src/throughput.rs:189-217 | the object counts as the function and reports exactly a new independent observation |
| Throughput.VerdictFromEvents | data-plane/src/throughput.rs:335-449 | on every trace the incremental verdict, its rate and its byte count are those read off the events since the last contamination |
| Throughput.ResetsFromEvents | data-plane/src/throughput.rs:308-389 | on every trace the resets, the latest reason, the producer and the taint are those of the events; a blocked send during a suspension is no reset |
| Throughput.RateIsNearest | data-plane/src/throughput.rs:420-449 | the measured rate is the whole number nearest to the exact one, upwards from the half |
| Throughput.EpochIsClean | data-plane/src/throughput.rs:308-333 | every sample in use was observed after the last new producer and after every blocked send |
| Throughput.UsedAreRecent | data-plane/src/throughput.rs:391-420 | every sample in use is at most one window old |
| Throughput.ArmingNeedsTwoObservations | data-plane/src/throughput.rs:189-217 | a count of two means two Low verdicts at least one window apart, with no new producer, blocked send, restart or Healthy verdict since the first, from samples that meet at one instant at most |
| Throughput.CountIsChain | data-plane/src/throughput.rs:189-217 | over every trace the count is the number of independent observations since the last restart: the first Low verdict, then each Low verdict at least one window after the one before it |
| Throughput.ObservationsCounted | data-plane/src/throughput.rs:189-217 | right after an evaluation the count is the length of that chain, and the evaluation reports a new observation exactly when it is its latest link |
| Throughput.LowExactly | data-plane/src/throughput.rs:420-449 | Low means that the exact rate is more than half a byte per second under the floor |
| Throughput.PresendsChangeNothing | data-plane/src/throughput.rs:354-363 | leaving out every pre-send report changes no verdict and no count |
| Scanner.StreamParse | media-search/dmm-benchmark.js:45-96 | the index loop takes the slices of the recursive scan |
| Scanner.ScanFindsObjects | media-search/dmm-benchmark.js:45-96 | on every well-formed text the slices are its top-level objects, whole and in order |
| Scanner.ScannerUndoesJoin | media-search/dmm-benchmark.js:45-96 | for every list of brace-balanced objects (string literals with braces, quotes and escapes included) joined by separators without braces and quotes, the slices are that list |
| Scanner.StrayBraceShiftsLevel | media-search/dmm-benchmark.js:75-78 | between two well-formed texts, one unmatched closing brace leaves the objects of the first and the objects one level down in the second |
| Scanner.ScanExactly | media-search/dmm-benchmark.js:45-96 | on every text at all, the slices are exactly the stretches from a brace at level nought to the brace that closes it, in order; what is left open at the end yields nothing |

## Left out

- HTTP serving, transport and its two-lane coordinator, provider calls and their JSON, playback heuristics: network
  plumbing and bounded heuristics; the provider is an oracle that answers per slot and pool position.
- Environment gates (forced failures, slot reordering), logging, metrics and timing traces: no invariant.
- SHA-256 is an injective digest; SQLite is a map of rows; `fsync` always succeeds.
- Handles are snapshots of file contents: published files are never written in place, so sharing of an open file
  between readers and file positions are not modelled.
- Byte ranges end at or below 2^64 and files are shorter, as their types demand.
- What a power loss may do: a removed or replaced file comes back as it was or not at all, and a run excludes the loss
  that restores a row without its bytes. `RestoredServesExactly` says which losses these are, and
  `UndoneEvictionLosesTheFile` that they exist.
- The loop over the turns of one `stage` call and the eviction sweep are not spelled out as steps; each turn and each
  eviction is (`Steps`).
- Widths of counters: byte counters and offsets are unbounded naturals; saturation and overflow of `u64` are not modelled
  outside `Walk` (the subtractions are proved not to go below zero). The 32-bit length fields
  and the parsers' integer ranges are.
- Rates are exact rationals; rounding of `f64` is not modelled beyond the final `round`.
- The engine's methods are atomic: eviction inside another task's publish is excluded. Finer steps are in `Crash`.
- A stager's spans are disjoint and carry the remote file's bytes: what upstream guarantees is assumed.
- Single flight: owner tasks run to their end (cancellation is not handled by the code); the negative cache and the
  early return for a usable capability are one step with a free answer.
- Failover runs reads one after another: a wait for a permit ends with that permit, and interleavings that could
  overfill a pool or hand out one capability twice are not modelled; readers free permits between reads.
- Failover.CapabilityManager.TrySlot: one clock value per turn stands for every reading of the clock during that turn.
- `reacquire_for_read`, prewarming and slot refresh of the manager are not part of this model.
- The scanner works on characters rather than UTF-16 code units, and stops at the slice: parsing a slice as JSON and
  flattening its `torrents` array are not modelled.
- Only the fixed-date form of the header is parsed, as in the code; the weekday name is not checked there either.
