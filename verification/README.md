# The block store, modelled and proved in Dafny

This project models the block store of JuiceFS (`pkg/chunk`) and two places that must agree
with it, garbage collection (`cmd/gc.go`, `cmd/gc_external.go`) and the access control rule cache
(`pkg/acl`), and proves what they promise for every input, every interleaving and every run.

`dafny verify dfyconfig.toml` checks everything.

## What is modelled

- **Writeback** (`Writeback*.dfy`). The pending-upload protocol as a transition system: writers stage,
  register and acknowledge blocks; staging goroutines race with a timeout; uploaders drain the queue; a
  sweep queues blocks again; `Remove` cancels and deletes; `RemoteDurability` takes a fence and sleeps on
  a broadcast channel. Every critical section under `pendingMutex`, every compare-and-swap, every channel
  operation and every call to the object store is one step, but for a direct put, which is one step with the
  send of its result; each step is chosen by an adversary, who also decides how calls end. `Step` and `Run` are total functions, so the theorems are about all runs.
  A step is an event on the shared state and a new program counter; the invariants are kept event by event.
- **Slices** (`SliceStore.dfy`, `SliceRead.dfy`, `SliceDurability.dfy`). `wSlice` with its small and large
  pages, zero filling, partial flushes and block assembly, and the recursive `rSlice.ReadAt`, against a flat
  byte array; and `Finish` on the error channel of the upload goroutines, up to the object store.
- **Cache index and accounting** (`LruHeap.dfy`, `LruIndex.dfy`, `DiskCache.dfy`). The atime heap with the
  sift loops of Go's `container/heap`, the map that shares its items by reference, the in-place change of
  an item between `get` and `add`, and the `used` counter through all critical sections that change it.
- **Block files** (`BlockFile.dfy`). Checksums for every 32 KiB, the four checksum levels of
  `cacheFile.ReadAt`, and the footer that is told apart by its length modulo 4. CRC-32C is an arbitrary
  function and MessagePack an arbitrary codec with an inverse and a length of base plus padding.
- **Fast against simple** (`GcMerge.dfy`, `SingleFlight*.dfy`, `AclRule.dfy`, `AclCache.dfy`). The
  external-sort merge against the map lookup, single flight with reference counted pages, the
  checksum-bucketed rule cache against a search of all rules.
- **Names, ranges and disk health** (`BlockNames.dfy`, `BlockIndexes.dfy`, `DiskState.dfy`).

Where a promise does not hold of the code, the code is modelled as it is and the exact condition is proved:

- A sleeping barrier can miss its wake-up only for an item whose writer missed its upload slot, cleared
  the flag without a signal after the barrier took its fence, and then found the item not due
  (`NoLostWakeup`, `NoStuckBarrier`). Such an item is neither uploading nor queued and has no owner
  (`LeftAloneIsFree`); the barrier sleeps until a sweep finds it due (`WakeupCanBeLost` is such a run).
- A `Remove` leaves no object, whatever else happens, if and only if before it starts the writer of the block
  will neither put nor register it any more, or can only register it again and the stage file is gone
  (`RemoveIsExact`, from `RemoveLeavesNothing`, `NoFileLeavesNothing` and `RemoveNeedsSpentWriter`). Otherwise
  the object can outlive it in two ways: the writer puts it after the delete (`DirectUploadOutlivesRemove`), or
  the writer registers the block again after the cancel and an uploader that has the stage file open puts it
  after the delete (`DelayedBlockOutlivesRemove`).
- A writer that returns to register its block after an uploader has stored it and removed the stage file makes
  an item that no upload can complete (`ReturnMakesOrphan`). It stays pending until a `Remove`
  (`OrphanForever`), no barrier that starts later succeeds (`NeverDurable`), and one can fail though the block is
  stored (`StoredBlockFailsBarrier`). It takes a second registration (`OnlyByRegisteringTwice`), so it cannot
  happen if the item is still pending when the writer returns (`PendingAtReturn`).
- `verifyHeap` complains exactly if a cached block was re-added as a staging block and is still in the heap
  (`VerifyHeap`, `RunAndVerify`, `StagedAgain`). Accounting and eviction are right nevertheless (`Run`).
- With `extend` and `shrink`, exactly the empty read at the end of whole 32 KiB blocks of a file without
  a footer fails (`WrittenReads`, `StageAndRead`, `EmptyReadRefused`).
- The tier of a staged file is lost exactly if the file is empty and has no checksums (`StageAndOpen`,
  `TierLost`).
- When inodes run out, the goal of a cleanup forgets the limit on the number of blocks (`NumFrees`,
  `LimitForgotten`).
- `GetMissIds` is wrong exactly if id 0 fakes a full count or the bound wraps at 2^32 - 1 before a gap
  (`GapUnreported`).
- Object records survive the external sorter exactly if index and block size fit 32 bits; otherwise merge and
  lookup can disagree (`ObjectsSurvive`, `SorterHidesLeak`).
- `blockIndexes` selects a block exactly if the first part that reaches it does not start behind it, so
  parts out of order can lose blocks (`SelectedIff`, `UnsortedLoses`).
- `isLeakedBlock` also spares whole blocks with a negative index (`LeakedIsExact`).

## Model

| member | source | states |
|---|---|---|
| `Writeback.Step` | pkg/chunk/cached_store.go:415-499 | every step of every goroutine, whatever the scheduler and the calls it makes decide, leaves a well-formed table and well-formed goroutines |
| `Writeback.MoveSound` | pkg/chunk/cached_store.go:1134-1284 | no goroutine refers to an item that does not exist, in any state it can stand in |
| `Writeback.AfterOk` | pkg/chunk/cached_store.go:1202-1290 | each change to the pending table keeps every pending entry at an item of its own key |
| `WritebackOwnership.NextDisciplined` | pkg/chunk/cached_store.go:1230-1261 | a step touches the uploading flag of an item or the queue only as the owner of that item |
| `WritebackOwnership.KeepsExclusive` | pkg/chunk/cached_store.go:1230-1261 | such a step keeps it so that the flag of an item is set exactly while the item is in the queue once or held by exactly one goroutine |
| `WritebackInvariant.StageKept` | pkg/chunk/cached_store.go:439-499 | every step keeps the agreement of writer and staging goroutine on the stage file, whichever of staging and timeout wins the race |
| `WritebackInvariant.MovePermitted` | pkg/chunk/cached_store.go:1134-1200 | a block is registered only with its stage file kept, acknowledged only once registered, and dropped from the table only once stored; a stage file that a registered block relies on goes only after the block is stored, and an object only after Remove cancelled it |
| `WritebackDurability.StepKeeps` | pkg/chunk/cached_store.go:415-499 | every step keeps the durability invariant |
| `WritebackDurability.RunKeeps` | pkg/chunk/cached_store.go:1134-1290 | so does every run |
| `WritebackDurability.AcknowledgedNeverLost` | pkg/chunk/cached_store.go:439-499 | in every interleaving an acknowledged block that was not removed is in the object store, or pending with its stage file on disk |
| `WritebackFence.AfterLater` | pkg/chunk/cached_store.go:1207-1228 | items never become pending again, failure counts never drop, and no change of the pending set goes unsignalled |
| `WritebackFence.BarriersRun` | pkg/chunk/cached_store.go:1420-1472 | what a barrier has captured stays true of its fence in every run |
| `WritebackFence.TargetsOnlyShrink` | pkg/chunk/cached_store.go:1431-1456 | the target set of a barrier only shrinks, whatever is registered meanwhile |
| `WritebackFence.FenceIsExact` | pkg/chunk/cached_store.go:1420-1456 | a barrier fails only if an item it captured recorded a failure after the capture, and succeeds only when no item from before the capture is pending |
| `WritebackFence.BarrierMeansStored` | pkg/chunk/cached_store.go:1420-1472 | end-to-end durability: a block acknowledged before a barrier started is in the object store once the barrier reports success, unless it was removed |
| `WritebackFinish.OneMessageEach` | pkg/chunk/cached_store.go:466-498 | in every run each upload goroutine has sent exactly one message on the error channel of its slice once it is past its send, and none before |
| `WritebackFinish.NilForEach` | pkg/chunk/cached_store.go:536-541 | with at most one message for a block, as many nil messages as blocks come in if and only if there is one for every block |
| `WritebackFinish.FinishMeansAcked` | pkg/chunk/cached_store.go:527-543 | in every run Finish finds as many nil messages as the slice has blocks if and only if every block of the slice is acknowledged; there are never more messages than blocks, so no send waits |
| `WritebackFinish.FinishedSliceIsStored` | pkg/chunk/cached_store.go:1420-1472 | end-to-end durability of a slice: Finish succeeded, a barrier started afterwards and reports success, so every block of the slice is in the object store, unless it was removed |
| `WritebackWakeup.ClearIsFollowedUp` | pkg/chunk/cached_store.go:485-491 | whoever clears a flag is about to signal or to queue the item again |
| `WritebackWakeup.NoLostWakeup` | pkg/chunk/cached_store.go:1202-1261 | when a barrier sleeps on an open channel, each target is in the queue, owned by a goroutine, or about to be signalled, or was cleared without a signal after the barrier took its fence |
| `WritebackWakeup.AsleepMeansCovered` | pkg/chunk/cached_store.go:1202-1261 | each target of such a barrier is owned, about to be signalled or queued again, or was left alone after a slot miss and not claimed since |
| `WritebackWakeup.LeftAloneIsFree` | pkg/chunk/cached_store.go:485-492 | an item left alone is not uploading, not queued and owned by nobody, so that whoever comes next can claim it |
| `WritebackWakeup.NoStuckBarrier` | pkg/chunk/cached_store.go:1431-1472 | when all other work is done, a sleeping barrier waits only for items left alone after a slot miss and not claimed since |
| `WritebackExamples.WakeupCanBeLost` | pkg/chunk/cached_store.go:485-492 | a run in which that happens: every goroutine is at rest, the sweep included, the block is only staged, and the barrier sleeps until the next sweep that finds the block due |
| `WritebackOrphan.OrphanForever` | pkg/chunk/cached_store.go:1134-1200 | a pending item whose stage file is gone and not open stays pending in every run until Remove cancels it |
| `WritebackOrphan.NeverDurable` | pkg/chunk/cached_store.go:1420-1472 | its block is stored, and yet no barrier that starts after it reports success unless the block is removed |
| `WritebackOrphan.OnlyByRegisteringTwice` | pkg/chunk/cached_store.go:1191-1196 | in every run a pending block without its stage file was registered twice or removed |
| `WritebackOrphan.ReturnMakesOrphan` | pkg/chunk/cached_store.go:489-492 | a writer that returns to register its block makes such an item if and only if the stage file is gone |
| `WritebackOrphan.PendingAtReturn` | pkg/chunk/cached_store.go:489-492 | if its item is still pending then, the block has its stage file as long as it is pending, in every run, unless removed |
| `WritebackOrphanRun.OrphanArises` | pkg/chunk/cached_store.go:489-492 | from any state with one pending block whose writer is on its way back, a sweep and an uploader can be faster, and the block is stored and pending without its file |
| `WritebackExamples.StoredBlockFailsBarrier` | pkg/chunk/cached_store.go:1431-1456 | a run from the start in which a barrier reports a failed upload for a block that is stored and was not removed |
| `WritebackRemove.PutIsCleanedUp` | pkg/chunk/cached_store.go:1186-1196 | once the writer of a block does not put it any more, whoever puts its object has yet to check that it is needed and to delete it otherwise, unless the put reported an error |
| `WritebackRemove.SpentStays` | pkg/chunk/cached_store.go:439-499 | a writer past its put, or in queuePending or finishPendingUpload, neither puts nor registers its block any more |
| `WritebackRemove.RemoveLeavesNothing` | pkg/chunk/cached_store.go:191-213 | if such a writer's block is cancelled, then once Remove and all uploads of the block have finished, with successful deletes, the object is absent and nothing is pending |
| `WritebackRemove.NoFileLeavesNothing` | pkg/chunk/cached_store.go:485-495 | the object is absent too if the block is cancelled when its writer can only register it again and its stage file is gone |
| `WritebackOutlive.PutOutlives` | pkg/chunk/cached_store.go:469-499 | from any state in which the writer can still put its block itself, Remove can run to its end first, and the object is left |
| `WritebackOutlive.DelayOutlives` | pkg/chunk/cached_store.go:485-495 | from any state in which the writer can return to register its staged block again, Remove can run to its end beside the upload of the new item, and the object is left |
| `WritebackOutlive.RemoveNeedsSpentWriter` | pkg/chunk/cached_store.go:191-213 | the converse: from every reachable state in which the writer is not past its last put and registration, and has its stage file if it can only register again, there is a run after which Remove has ended without a failed delete, all has settled, and the object is there |
| `WritebackExact.HarmlessStays` | pkg/chunk/cached_store.go:439-499 | once a writer will neither put nor register its block, or only register it without a stage file, that stays so |
| `WritebackExact.RemoveIsExact` | pkg/chunk/cached_store.go:191-213 | in every reachable state, a Remove that has not started leaves no object in any run that settles without failed deletes if and only if the writer is in one of these two cases |
| `WritebackExamples.DirectUploadOutlivesRemove` | pkg/chunk/cached_store.go:495-498 | a run from the start in which a direct upload outlives Remove |
| `WritebackExamples.DelayedBlockOutlivesRemove` | pkg/chunk/cached_store.go:485-495 | a run from the start in which a staged block does, because its writer registers it again |
| `WritebackBacklog.BacklogIsBounded` | pkg/chunk/cached_store.go:1406-1418 | with a cap of L blocks at most L - 1 + W are ever pending, where W is the largest number of writers that were in the staging branch at once |
| `WritebackRest.SlotsRun` | pkg/chunk/cached_store.go:469-498 | in every run no more slots are taken than configured, and whoever has one stands where it will give it back |
| `WritebackRest.AllRest` | pkg/chunk/cached_store.go:1134-1200 | every upload and Remove can come to rest while one writer stands still, without a failed delete or a lost stage file |
| `WritebackRest.HolderLetsGo` | pkg/chunk/cached_store.go:1230-1261 | a set uploading flag can always be cleared before the writer claims the item |
| `SliceStore.WSlice.constructor` | pkg/chunk/cached_store.go:253-261 | a new writer holds the empty array |
| `SliceStore.WSlice.Locate` | pkg/chunk/cached_store.go:286-293 | block, page and offset in the page of a position, for both page sizes |
| `SliceStore.WSlice.WriteSome` | pkg/chunk/cached_store.go:285-309 | one page's worth of a write brings the pages from one flat array to the next |
| `SliceStore.WSlice.WriteAt` | pkg/chunk/cached_store.go:271-314 | refused exactly below the uploaded part or past the chunk; otherwise the pages hold the array with the last write on top and gaps filled with zeros |
| `SliceStore.WSlice.Assemble` | pkg/chunk/cached_store.go:423-436 | the copied pages are exactly the block, and their length is the expected one, so the panic is unreachable |
| `SliceStore.WSlice.Upload` | pkg/chunk/cached_store.go:415-437 | the block handed over is the slice of the flat array at its place |
| `SliceStore.WSlice.FlushTo` | pkg/chunk/cached_store.go:509-525 | hands over every whole block up to the offset, and no block twice |
| `SliceStore.WSlice.Finish` | pkg/chunk/cached_store.go:527-543 | an error for a wrong length; otherwise the blocks handed over are exactly those of the array, and success means that as many nil messages as blocks were received |
| `SliceStore.SentKept` | pkg/chunk/cached_store.go:275-277 | an accepted write never changes a block that was handed over |
| `SliceStore.LayoutFor` | pkg/chunk/cached_store.go:253-261 | every block size that divides the chunk size gives whole pages and whole blocks |
| `SliceStore.DivisorOfPow2` | pkg/chunk/cached_store.go:253-261 | because a divisor of a power of two is one |
| `SliceRead.ReadAt` | pkg/chunk/cached_store.go:101-183 | a read returns the bytes of the array up to its length; it reports the end exactly if the array ends, and a load error only at a missing block |
| `SliceRead.ReadBlocks` | pkg/chunk/cached_store.go:113-132 | so does a read over several blocks, and the recursion ends |
| `SliceRead.Do` | pkg/chunk/cached_store.go:271-314 | each operation on the writer does to its content what it does to the flat array |
| `SliceRead.Store` | pkg/chunk/cached_store.go:509-543 | after any operations and Finish, block i is stored exactly if i * B is below the length, and is bytes i * B to i * B + B of the array |
| `SliceRead.ReadWhole` | pkg/chunk/cached_store.go:101-183 | a read of a slice all of whose blocks can be loaded returns the flat array and is short exactly if it reports the end |
| `SliceRead.RoundTrip` | pkg/chunk/cached_store.go:101-132 | write with any operations, finish and read anywhere: the flat array comes back, and a read is short exactly if it reports the end |
| `SliceDurability.AsManyNames` | pkg/chunk/cached_store.go:415-420 | the blocks of a slice have as many names as there are blocks, which is the number Finish waits for |
| `SliceDurability.StoreAndFinish` | pkg/chunk/cached_store.go:527-543 | after any operations Finish, reading the error channel of any run of the upload goroutines, succeeds if and only if every block of the array is acknowledged |
| `SliceDurability.WriteSyncRead` | pkg/chunk/cached_store.go:1420-1472 | write with any operations, finish, sync and read from the object store alone: if Finish and a barrier that started after it report success, the flat array comes back, unless a block was removed |
| `LruHeap.UpStep` | pkg/chunk/cache_eviction.go:198-214 | swapping with the parent moves the hole up |
| `LruHeap.DownStep` | pkg/chunk/cache_eviction.go:198-214 | swapping with the least child moves the hole down |
| `LruHeap.RootIsLeast` | pkg/chunk/cache_eviction.go:200-208 | no entry of a heap comes before its root |
| `LruHeap.AtimeHeap.Swap` | pkg/chunk/cache_eviction.go:210-214 | two items change places and every item still knows its position |
| `LruHeap.AtimeHeap.Up` | pkg/chunk/cache_eviction.go:198-214 | restores the heap order when an entry may be before its parent, with the same members |
| `LruHeap.AtimeHeap.Down` | pkg/chunk/cache_eviction.go:198-214 | restores it when an entry may be after its children, and says truly whether it moved |
| `LruHeap.AtimeHeap.Sift` | pkg/chunk/cache_eviction.go:252-256 | heap.Fix restores the order whatever happened to one entry |
| `LruHeap.AtimeHeap.Push` | pkg/chunk/cache_eviction.go:216-220 | exactly one member more, in order and with exact positions |
| `LruHeap.AtimeHeap.Pop` | pkg/chunk/cache_eviction.go:222-229 | takes the root and leaves a heap of the others |
| `LruHeap.AtimeHeap.RemoveAt` | pkg/chunk/cache_eviction.go:269-271 | takes any one item and leaves a heap of the others |
| `LruIndex.LruEviction.Add` | pkg/chunk/cache_eviction.go:241-258 | the index takes the new value even after its item was changed in place and stays valid; a staging block is stuck in the heap afterwards exactly if it was in the heap before |
| `LruIndex.LruEviction.Get` | pkg/chunk/cache_eviction.go:275-285 | returns the shared item, marks it used now and keeps the index valid |
| `LruIndex.LruEviction.Remove` | pkg/chunk/cache_eviction.go:260-273 | removes the key unless it is staging and that was not asked for; null in exactly the other cases |
| `LruIndex.LruEviction.Evict` | pkg/chunk/cache_eviction.go:318-331 | evicts a block no other cached block comes before, never a staging block, and finds none only if there is none; staging blocks stuck in the heap are skipped and stay indexed |
| `LruIndex.LruEviction.SkipRoot` | pkg/chunk/cache_eviction.go:322-325 | skipping a staging block takes it out of the heap and nothing else |
| `LruIndex.LeastMeans` | pkg/chunk/cache_eviction.go:200-208 | what is evicted first was used least recently, then is largest, then has the lowest id |
| `LruIndex.LruEviction.RootIsNext` | pkg/chunk/cache_eviction.go:318-331 | the root of the heap is a least recently used block of the whole map |
| `LruIndex.LruEviction.Reset` | pkg/chunk/cache_eviction.go:298-306 | empties the index and hands the old contents to a valid snapshot |
| `LruIndex.LruEviction.Changed` | pkg/chunk/disk_cache.go:824-833 | changing size or access time of one shared item leaves only that entry out of place |
| `LruIndex.LruEviction.CountMatches` | pkg/chunk/cache_eviction.go:336-348 | without stuck blocks the heap has as many items as there are keys of positive size |
| `LruIndex.LruEviction.VerifyHeap` | pkg/chunk/cache_eviction.go:335-377 | of a valid index, true exactly if no staging block is stuck in the heap; when true, positions are exact, the order by access time holds and no staging block is in the heap |
| `DiskCache.TotalWithout` | pkg/chunk/disk_cache.go:816-841 | the sum of size + 4096 over cached blocks does not depend on the order |
| `DiskCache.DiskCache.Add` | pkg/chunk/disk_cache.go:816-841 | used stays the sum over the indexed blocks, through the in-place change; a block is stuck in the heap afterwards exactly if it was cached or stuck and is staged again |
| `DiskCache.DiskCache.Take` | pkg/chunk/disk_cache.go:824-833 | between get and add the old size is off the books and only one entry of the heap is out of place |
| `DiskCache.DiskCache.Remove` | pkg/chunk/disk_cache.go:697-709 | used stays the sum when a block is removed, kept or given up |
| `DiskCache.DiskCache.Discard` | pkg/chunk/disk_cache.go:745-750 | used stays the sum when a load finds no file, though the sign of the size is not looked at |
| `DiskCache.DiskCache.Known` | pkg/chunk/disk_cache.go:505-512 | the test before a block is cached marks a known block used now, also during a scan; nothing else changes |
| `DiskCache.DiskCache.Lookup` | pkg/chunk/disk_cache.go:723-733 | a known block is marked used now; nothing else changes |
| `DiskCache.DiskCache.StartScan` | pkg/chunk/disk_cache.go:1016-1022 | index and books start over together |
| `DiskCache.DiskCache.EndScan` | pkg/chunk/disk_cache.go:1075-1078 | from now on a lookup consults the index; nothing else changes |
| `DiskCache.DiskCache.Expire` | pkg/chunk/disk_cache.go:433-448 | removes exactly the cached blocks among the first thousand that are older than the cutoff, and keeps used right |
| `DiskCache.DiskCache.CleanupFull` | pkg/chunk/disk_cache.go:890-937 | evicts in order of access time, nothing once both goals are met, and ends with both goals met or nothing left to evict |
| `DiskCache.GoalFrees` | pkg/chunk/disk_cache.go:895-910 | meeting the goal in bytes leaves at most 95% of the capacity and frees the space asked for |
| `DiskCache.NumFrees` | pkg/chunk/disk_cache.go:896-917 | meeting the goal in blocks frees the inodes asked for, and allows more blocks than the limit exactly if inodes are asked for and 99% of the blocks then left exceed it |
| `DiskCache.LimitForgotten` | pkg/chunk/disk_cache.go:911-917 | an input for which it does |
| `DiskCache.EvictMore` | pkg/chunk/disk_cache.go:926-937 | evicting a least block keeps the order of eviction and leaves only younger blocks |
| `DiskCache.Run` | pkg/chunk/disk_cache.go:816-841 | after any run of critical sections, blocks staged again included, used is the sum over the indexed blocks, and each section had its stated effect |
| `DiskCache.RunAndVerify` | pkg/chunk/cache_eviction.go:335-377 | after any run verifyHeap is true unless some section of the run staged a cached block again |
| `DiskCache.StagedAgain` | pkg/chunk/cache_eviction.go:335-377 | a run after which it is false: a block is cached and then added as staging |
| `BlockFile.Checksum` | pkg/chunk/disk_cache_file.go:140-152 | one checksum for every 32 KiB at its place, and one of zeros for no data |
| `BlockFile.Verify` | pkg/chunk/disk_cache_file.go:244-264 | succeeds exactly if all stored checksums of the blocks read are there and match |
| `BlockFile.Widen` | pkg/chunk/disk_cache_file.go:201-211 | the widened range is the blocks that overlap the request |
| `BlockFile.Trim` | pkg/chunk/disk_cache_file.go:227-243 | the trimmed range is the blocks fully inside the request |
| `BlockFile.ReadAt` | pkg/chunk/disk_cache_file.go:191-265 | on any file, a read in range succeeds exactly if the blocks its level must check match, all that overlap for extend and all fully inside for shrink, and returns the bytes asked for |
| `BlockFile.OverlapIsShared` | pkg/chunk/disk_cache_file.go:201-211 | overlapping a request that is not empty is sharing a byte with it |
| `BlockFile.WrittenReads` | pkg/chunk/disk_cache_file.go:191-265 | on data followed by its checksums every read in range succeeds, except exactly the empty read at the end of whole blocks with nothing behind |
| `BlockFile.Marshal` | pkg/chunk/disk_cache_file.go:60-79 | the footer length is a multiple of four exactly with checksums, and the footer unpacks to its tier |
| `BlockFile.FlushPage` | pkg/chunk/disk_cache.go:595-622 | the file is data, checksums unless there are none, and a footer exactly for a tier |
| `BlockFile.StageAndOpen` | pkg/chunk/disk_cache_file.go:154-189 | a staged file is opened with the right level and footer offset and gives back its tier, except exactly when empty and without checksums |
| `BlockFile.StageAndRead` | pkg/chunk/disk_cache_file.go:191-265 | write, open and read at any levels gives back the data, but for the empty read above |
| `BlockFile.TierLost` | pkg/chunk/disk_cache_file.go:154-189 | an empty block staged without checksums comes back with tier 0 |
| `BlockFile.EmptyReadRefused` | pkg/chunk/disk_cache_file.go:191-265 | an empty read at the end of one whole block without a footer fails |
| `GcMerge.AnyOrder` | cmd/gc_external.go:277-343 | totals and leaked keys do not depend on the order of the objects |
| `GcMerge.SameClass` | cmd/gc.go:248-276 | nor what an object is on the order of the slices |
| `GcMerge.FirstDecides` | cmd/gc_external.go:238-243 | the first record of a slice in sorted order decides like used, then pending, then trash |
| `GcMerge.Lookup` | cmd/gc.go:324-353 | the map lookup gives used, then pending, then trash, then leaked |
| `GcMerge.InMemory` | cmd/gc.go:248-354 | the in-memory collection reports the expected counts, bytes and leaked keys |
| `GcMerge.Merge` | cmd/gc_external.go:277-343 | so does the merge of sorted records |
| `GcMerge.SameResult` | cmd/gc_external.go:277-343 | the expectation is the same for all orders of slices and objects |
| `GcMerge.BothWays` | cmd/gc_external.go:277-343 | on the same listings, sorted in any way that respects the comparators, the merge of what the sorter hands back and the lookup report the same, if index and block size of the objects fit 32 bits |
| `GcMerge.MetaRoundTrip` | cmd/gc_external.go:218-236 | slice records survive the sorter |
| `GcMerge.ObjectRoundTrip` | cmd/gc_external.go:253-275 | object records survive it exactly if their numbers fit 32 bits |
| `GcMerge.ObjectsSurvive` | cmd/gc_external.go:253-275 | the sorter hands back the same objects if and only if all their indexes and block sizes fit 32 bits |
| `GcMerge.SorterHidesLeak` | cmd/gc_external.go:253-275 | an object with index 2^32 that the lookup finds leaked and the merge valid |
| `SingleFlightSafety.PublishKeeps` | pkg/chunk/singleflight.go:54-61 | the leader takes one reference for each caller that waits for it, and for no other |
| `SingleFlightSafety.LastRelease` | pkg/chunk/page.go:83-97 | freeing a slice passes its reference to the parent on, so that counts stay right |
| `SingleFlightSafety.NextKeeps` | pkg/chunk/singleflight.go:39-77 | every step keeps conservation of references |
| `SingleFlightSafety.Conservation` | pkg/chunk/page.go:67-97 | in every run the count of a page is the number of references to it, and it is freed at most once, exactly when there are none |
| `SingleFlightSafety.NeverFreedInUse` | pkg/chunk/page.go:67-97 | a page a caller holds is not freed, nor is the page it is a slice of |
| `SingleFlightSafety.OneLeader` | pkg/chunk/singleflight.go:39-64 | at most one fn runs per key |
| `SingleFlightSafety.JoinerGetsResult` | pkg/chunk/singleflight.go:39-77 | a caller that joined gets exactly one reference, to the page the leader's fn returned |
| `SingleFlightSafety.NoOrphans` | pkg/chunk/singleflight.go:39-64 | a waiting caller can go on, or its leader is still at work |
| `SingleFlightSafety.NothingLeft` | pkg/chunk/singleflight.go:39-64 | when all callers are gone, every page was freed exactly once and no request is left |
| `AclRule.SameRule` | pkg/acl/acl.go:153-160 | rules compare equal exactly if they are |
| `AclRule.Encode` | pkg/acl/acl.go:94-111 | the stored form of a rule |
| `AclRule.Decode` | pkg/acl/acl.go:113-132 | gives back the rule from its stored form |
| `AclRule.RoundTrip` | pkg/acl/acl.go:94-132 | decoding what was encoded is the identity |
| `AclCache.Cache.Put` | pkg/acl/cache.go:109-130 | the first rule of an id stays, and every rule is listed in the bucket of its checksum |
| `AclCache.Cache.Clear` | pkg/acl/cache.go:67-73 | nothing is left |
| `AclCache.Cache.GetId` | pkg/acl/cache.go:132-148 | an id whose rule equals the one asked for; if id 0 is not cached, none exactly if no cached rule does |
| `AclCache.CountedAll` | pkg/acl/cache.go:80-82 | the shortcut is right because a subset of 1..n with n elements is all of it |
| `AclCache.Cache.GetMissIds` | pkg/acl/cache.go:76-92 | exactly the gaps in 1..maxId in ascending order, if and only if id 0 does not fake a full count and the bound does not wrap before a gap |
| `AclCache.GapUnreported` | pkg/acl/cache.go:76-92 | with ids 0 and 2 cached, the missing id 1 is not reported |
| `BlockNames.GetCacheKey` | pkg/chunk/disk_cache.go:658-687 | reads back id, index and size of every name whose numbers fit their fields, from which getPathFromKey makes the name again |
| `BlockNames.ReadNumber` | pkg/chunk/disk_cache.go:664-685 | a digit loop yields the number written in decimal |
| `BlockNames.ObjectParses` | cmd/gc_external.go:183-205 | the collector reads back the name of every block |
| `BlockNames.NamesDiffer` | pkg/chunk/cached_store.go:90-95 | different blocks have different names |
| `BlockNames.PathIsKey` | pkg/chunk/disk_cache.go:689-695 | the path made from a key that was read is the name the writer gave |
| `BlockNames.FsckBlocks` | pkg/chunk/cached_store.go:191-211 | the indexes up to (length - 1) / B, which Remove and fsck go through, are exactly the blocks of the slice |
| `BlockNames.FsckNames` | cmd/fsck.go:186-198 | the objects fsck looks for are exactly those the writer named |
| `BlockNames.LeakedIsExact` | cmd/gc.go:633-638 | for sizes up to the block size, not leaked means a block of the slice, or a whole block with a negative index |
| `BlockIndexes.BlocksOf` | pkg/chunk/cached_store.go:1489-1512 | ascending and without duplicates; no parts select all blocks of the slice |
| `BlockIndexes.SelectedIff` | pkg/chunk/cached_store.go:1498-1510 | a block is selected exactly if the first part that reaches it does not start behind it |
| `BlockIndexes.SelectedOverlaps` | pkg/chunk/cached_store.go:1498-1510 | every selected block overlaps a part |
| `BlockIndexes.OverlapIsShared` | pkg/chunk/cached_store.go:1502-1505 | overlapping a part is sharing a byte with it |
| `BlockIndexes.SortedSelectsAll` | pkg/chunk/cached_store.go:1498-1510 | for parts in order of their offsets every overlapped block is selected |
| `BlockIndexes.UnsortedLoses` | pkg/chunk/cached_store.go:1498-1510 | parts out of order that lose a block |
| `DiskState.NextMoves` | pkg/chunk/disk_cache_state.go:282-303 | only normal to unstable, unstable to normal and unstable to down occur, and state objects keep their kind |
| `DiskState.Absorbing` | pkg/chunk/disk_cache_state.go:282-303 | down and unchanged are final in every run |
| `DiskState.NothingRunsWhenDown` | pkg/chunk/disk_cache.go:292-304 | an operation that starts after the disk went down never runs |
| `DiskState.CheckGate` | pkg/chunk/disk_cache_state.go:265-274 | the gate lets an operation in only below the limit |
| `DiskState.AtMostNine` | pkg/chunk/disk_cache_state.go:265-274 | in every run at most nine operations execute in one unstable state, and its counter is the number of operations between before and after |

## Left out

- Startup rescan of staged files and the disk-pressure uploader as sources of registrations: they register keys without the checks of the write path.
- A put that timed out, was reported as failed and lands later than its own step: it is recorded as a stray when it lands in its step, and not modelled beyond that.
- SliceStore.WSlice.WriteAt: not after FlushTo went past the length, where zero filling is refused and ignored and a short block has been named that a longer slice cannot find; both callers of FlushTo flush to the length or below (pkg/vfs/writer.go:152, pkg/vfs/compact.go:98).
- SliceRead.Do: skips such a flush, for the same reason.
- SliceRead.Store: as Do.
- SliceRead.RoundTrip: as Do.
- SliceDurability.WriteSyncRead: the store of the protocol holds names only, so that an object has the bytes that were handed over under its name is assumed; a barrier or Finish still waiting counts as not successful.
- GcMerge.InMemory: not for slices of size zero, which the maps of the lookup take for absent.
- GcMerge.Merge: as InMemory.
- BlockFile.ReadAt: only ranges within the data of the file; callers ask for ranges within the block.
- Compression, encryption, rate limits, retries, metrics and logging: no state the properties depend on.
- Clocks: access times, cutoffs and timeouts are arbitrary inputs.
- The map of pages waiting to be written to the cache disk, and removal of the cache files themselves: only index and accounting are modelled.
- The none and random eviction policies and the memory cache: smaller versions of what is modelled.
- 32-bit overflow of size + 4096 in the accounting and of access times: sizes and times are unbounded numbers.
- The sorter that puts records in order on disk: the merge is given any sequence that respects the comparators.
- Names that no writer makes, and slice ids of 2^63 and more, for which the two collectors parse the id differently.
- Permission checks and inheritance of access control rules: a single pass of branches.
- Unhealthy-disk thresholds other than the defaults, and the probe that feeds the counters.
- Metadata engines, the FUSE and gateway layers and the command line.
