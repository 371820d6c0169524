# Verified model of RocksDB's block caches and SuperVersion cache

A Dafny model of the concurrent and pointer-based core of the block caches, and of the
thread-local SuperVersion protocol, with proofs that hold for every input, every
number of threads and every interleaving of atomic steps. `dafny verify dfyconfig.toml`
checks all of it.

## What is modelled

**FixedHyperClockTable** (`ClockTable`, `ClockLedger`, `ClockAccounts`,
`ClockInvariant`, `ClockTheorems`, `ClockCapacity`, `ClockOverfull`, `ClockAssertions`,
`ClockRuns`, `ClockExamples`, `ClockUsage`, `ClockOccupancy`, `ClockCharging`,
`ClockOperations`, `MetaWord`, `Probing`). Each atomic operation on a slot's meta word, on `displacements`, `usage_` and `occupancy_` is one
step of a transition system with an explicit program counter per thread. One inductive
invariant accounts for every reference, every displacement and every byte of charge.
From it follow the read/write-lock behaviour of slots, the completeness of the
early-aborting Lookup, the strict capacity limit and the occupancy limit.
`ClockOperations` says what each call achieves between its start and its return. Where a promise is broken,
`ClockRuns` builds the run, step by step, for all parameters. `ClockEvict` is the eviction
loop run alone, tied to the same transition system.

**AutoHyperClockTable** (`ChainModel`, `ChainSplit`, `SplitForGrow`,
`LookupDuringSplit`, `LookupTrap`, `ChainPurge`, `LinearHashing`, `GrowMachine`,
`GrowTheorems`, `AutoProbe`). `SplitForGrow` and `PurgeImplLocked` are methods over the arrays of heads
and chain pointers. Before each access they are interrupted by an arbitrary batch of
steps of other threads, taken from a schedule that is an arbitrary input. A ghost log
records every intermediate state. Lookups are then run against such histories, reading
each pointer and each entry at any later moment. Grow, CatchUpLengthInfoNoWait and
DoInsert are a second transition system, over head shifts and the published length.

**SuperVersion** (`SuperVersions`, `SuperVersionProofs`, `SuperVersionTheorems`,
`SuperVersionOperations`).
Swap, compare-and-swap, per-slot Scrape, reference counting and Cleanup as steps of any
number of threads.

**LRU cache** (`LruList`, `HandleTable`, `LruShard`, `Scan`). The intrusive doubly
linked list with its three pools, the in-place chained hash table, the shard that
combines them under its mutex, and the resumable scan over shards.

**Reservation accounting** (`Reservation`) and **chunked values** (`Chunks`).

`Sums` holds the few facts about sums that the accounts need.

## Findings

- `AutoHyperClockTable::Lookup` can miss an entry that is live and linked throughout,
  while its chain is being split, contrary to the comment at
  cache/clock_cache.cc:3103-3105. `LookupTrap.ExampleMiss` is a concrete case.
  `LookupTrap.LookupMissesIffTrapped` is the exact condition, in every state of a split,
  and `LookupTrap.BusyMissesIffPoised` the one with other threads at work.
- `CacheWithSecondaryAdapter::SetCapacity` keeps the reservation law when all
  placeholders fit the new capacity. Below that it can break in three ways, see
  `Reservation.ShrinkExample`, `NotInflatedExample` and `OverReservedExample`;
  `Reservation.Adapter.SetCapacity` states exactly when.
- The strict limit of the clock cache holds for capacities that cover the table's own
  charge and are below 2^63. From there on `usage_ + total_charge` can wrap around:
  `ClockExamples.StrictLimitIff`.
- The usage assertion in `ReclaimEntryUsage` can fail once the settings change in strict
  mode, because a charging thread may cut `usage_` down to a capacity that it has read
  before. It takes no lowered capacity: raising it (`ClockUsage.RaisingRun`) or switching
  strict mode on (`ClockUsage.SwitchRun`) is enough. `ClockUsage.UsageAssertionIff` is the
  exact condition on the settings; `ClockUsage.UnderflowExample` is a concrete run.
- The correction against counter overflow keeps the reference count only if both top
  bits agree or its guard does not fire (`MetaWord.CorrectionKeepsRefcount`). The guard
  also fires in the state (high, medium), which cache/clock_cache.cc:191 says can happen
  while references are held, and then `MetaWord.CorrectionExample` loses count.
- The published length of `AutoHyperClockTable` can lag behind when all threads are done
  growing, because a catch-up stops at its own slot: `GrowTheorems.LagExample`, with the
  exact condition in `GrowTheorems.CatchUpAlone`. The comment at
  cache/clock_cache.cc:2231-2242 leaves the rest to later insertions
  (`GrowTheorems.ClimbsOneBit`).
- `ApplyToAllEntries` takes the minimum of `average_entries_per_lock` and 1, so each
  call visits one bucket, and a value of 0 makes no progress (`Scan.Range`).
- `LRUCacheShard::SetCapacity` changes the pool capacities without cutting the pools
  back. `LruShard.OverfullPoolExample` is a shard whose pool is over its bound
  afterwards, `LruShard.Shard.SetCapacity` says exactly when that happens, and
  `LruList.SettledBounded` and `LruShard.Shard.SetPoolRatios` when it ends.

## Model

| member | source | states |
|---|---|---|
| `ClockInvariant.InvStep` | cache/clock_cache.cc:794-1066 | Any atomic step of any thread (Lookup, Insert with strict or non-strict charging and eviction, Release, Ref, Erase, EraseUnRefEntries, capacity changes) keeps the whole invariant: references, ownership, displacements, usage and occupancy, for any number of threads. |
| `ClockInvariant.InitInv` | cache/clock_cache.cc:728-750 | A freshly built table satisfies the invariant. |
| `ClockInvariant.ProtocolStep` | cache/clock_cache.cc:88-162 | In every step: in a shareable slot acquire minus release is the number of references held by callers and by threads inside operations; a slot under construction has exactly one owner; stray increments on other slots change nothing. |
| `ClockInvariant.DisplacementsStep` | cache/clock_cache.cc:1068-1112 | In every step `displacements` of a slot stays the number of stored entries whose probe path passes it plus what unfinished probes and rollbacks are still charged with. |
| `ClockInvariant.AccountsStep` | cache/clock_cache.cc:447-501 | In every step `usage_`, modulo 2^64, stays metadata plus the charges of stored and standalone entries plus what threads in flight owe or are owed, and `occupancy_` stays the number of entries plus reserved places. |
| `ClockAccounts.SettleUsage` | cache/clock_cache.cc:447-560 | Settling an eviction run is exact in every branch, modulo 2^64: success leaves the thread exactly its entry's charge, failure gives back what was taken and freed. |
| `ClockTheorems.RunInv` | cache/clock_cache.cc:794-1169 | Every state of every interleaved run satisfies the invariant. |
| `ClockTheorems.SlotIsReadWriteLock` | cache/clock_cache.h:137-179 | Referenced if and only if shareable with a positive count; under construction means exactly one owner and no reference; otherwise no owner. |
| `ClockTheorems.ReferencedEntryIsStable` | cache/clock_cache.h:137-179 | While anybody holds a reference, no step of any thread changes the entry or takes the slot for (de)construction. |
| `ClockTheorems.InvisibleStep` | cache/clock_cache.cc:990-1047 | No step turns an invisible entry visible, or empties its slot without first taking it. |
| `ClockTheorems.ErasedStaysInvisible` | cache/clock_cache.cc:990-1047 | Along any run an erased entry stays invisible until its slot is taken for deconstruction. |
| `ClockTheorems.EntryKeepsPathOpen` | cache/clock_cache.cc:794-839 | A stored entry keeps `displacements` positive on its whole probe path. |
| `ClockOperations.LookupFindsStableEntry` | cache/clock_cache.cc:841-901 | In every interleaving a Lookup does not return a miss while some slot holds a visible entry for the key from the call to the return; it returns a referenced handle for the key. |
| `ClockOperations.LookupReturnsMatch` | cache/clock_cache.cc:841-901 | Whatever handle a Lookup returns is for its key, of an entry that was visible between the call and the return, referenced for the caller, and marked as hit if hits are tracked. |
| `ClockOperations.EraseHidesAll` | cache/clock_cache.cc:990-1047 | In every interleaving, when an Erase returns, no entry for the key has been visible from the call to the return. |
| `ClockOperations.InsertStores` | cache/clock_cache.cc:237-320 | In every interleaving, when an Insert returns, the entry is visible in the table with its key, charge, countdown and reference, unless charging turned it away, a visible entry for the key was met, or every slot was in use at some time meanwhile. |
| `ClockOperations.InsertReturnsHandle` | cache/clock_cache.cc:590-692 | A caller that wants a handle gets one, to the entry in the table or to a charged standalone one, unless the strict limit refused the entry. |
| `ClockOperations.SlotSearchStep` | cache/clock_cache.cc:237-320 | Each step of the search for a slot; an existing entry for the key at which it ends has had its countdown boosted. |
| `ClockOperations.InsertNotBehind` | cache/clock_cache.cc:794-839 | While an entry for its key stays visible, an Insert stores no second one behind it on the probe path. |
| `ClockOperations.UsersStep` | cache/clock_cache.h:137-179 | The references that callers hold change in exactly two ways: an operation returns a handle, or a caller releases one. |
| `ClockOperations.RefHolds` | cache/clock_cache.cc:694-702 | Ref adds one reference of the caller and one to the reference count of the same entry. |
| `ClockOperations.ReleaseCounts` | cache/clock_cache.cc:903-928 | A Release that was not useful restores the counters to what they were before the acquisition; a useful one counts as one more use. |
| `ClockOperations.ReleaseFreesLast` | cache/clock_cache.cc:930-975 | A Release of an invisible entry, or one that asks to erase, never leaves the entry behind unreferenced: meanwhile somebody else held a reference or the slot was taken. |
| `ClockOperations.SweepTakes` | cache/clock_cache.cc:1049-1066 | EraseUnRefEntries passes over no unreferenced entry whose meta word stays the same meanwhile. |
| `ClockOccupancy.WithinLimitStep` | cache/clock_cache.cc:590-692 | Every step keeps the places taken within the limit, apart from those that their threads still have to evict for or give back. |
| `ClockOccupancy.EntriesWithinLimit` | cache/clock_cache.cc:590-692 | In every state of every run the table holds at most `occupancy_limit_` entries. |
| `ClockCharging.LaxRequest` | cache/clock_cache.cc:503-545 | What a non-strict insertion asks to evict: nothing if it fits or is larger than all that is charged, else its charge, and above the capacity more than that. |
| `ClockCharging.LaxCharge` | cache/clock_cache.cc:503-560 | A non-strict insertion that nobody disturbs is accepted unless an eviction was due for occupancy and none was possible; `usage_`, occupancy and the table change by exactly what was charged and evicted. |
| `ClockCharging.LaxLeaves` | cache/clock_cache.cc:503-560 | If it evicted what it asked for, `usage_` stays within the capacity when it was, and goes down when it was above. |
| `ClockCharging.StrictCharge` | cache/clock_cache.cc:447-501 | A strict insertion that nobody disturbs evicts for what does not fit, and is accepted if and only if `usage_` is then within the capacity and the occupancy requirement is met; otherwise only the evictions remain. |
| `ClockCharging.TooLarge` | cache/clock_cache.cc:447-460 | An entry larger than the capacity is refused at once. |
| `ClockTheorems.QuietSlot` | cache/clock_cache.cc:752-786 | With no operation in flight no slot is under construction and `displacements` is exactly what the stored entries account for. |
| `ClockTheorems.QuietTable` | cache/clock_cache.cc:752-786 | With no operation in flight usage and occupancy are exactly what is stored; an empty table is back in its initial state, as the destructor asserts. |
| `ClockCapacity.NewUsageExact` | cache/clock_cache.cc:447-501 | The strict charge never exceeds the capacity, and takes what fits if and only if usage plus charge does not wrap around; then exactly the rest is still to be evicted. |
| `ClockCapacity.StrictInvStep` | cache/clock_cache.cc:447-501 | Under the strict limit every step keeps usage equal to the exact total of all charges and within the capacity. |
| `ClockCapacity.StrictCapacityHolds` | cache/clock_cache.cc:590-692 | With the strict limit on and a fixed capacity below 2^63, `usage_` is the exact total of all charges and never exceeds the capacity, in any state of any interleaving, including standalone entries. |
| `ClockAssertions.NoAssertionFails` | cache/clock_cache.cc:65-95 | In every state of every run, whichever thread steps next: the assertions of MarkEmpty, Unref, FinishSlotInsert, Ref, Release, Erase, the charging functions and the occupancy assertion of ReclaimEntryUsage hold. |
| `ClockAssertions.UsageIsTotal` | cache/clock_cache.cc:547-557 | As long as the total of all accounts fits a word, `usage_` is that total, so a bound asserted of one is a bound on the other. |
| `ClockExamples.StrictLimitIff` | cache/clock_cache.cc:447-501 | For every metadata charge and capacity: `usage_` stays within the capacity in every strict run at that capacity if and only if the capacity covers the metadata charge and is below 2^63 or is 2^64 - 1. |
| `ClockExamples.WrapRun` | cache/clock_cache.cc:412-501 | The run that breaks it for every other capacity that covers the metadata charge. |
| `ClockOverfull.OverInvStep` | cache/clock_cache.cc:447-501 | With a strict capacity below the metadata charge every step keeps `usage_` the exact total and every charge in the table at zero. |
| `ClockOverfull.NothingFits` | cache/clock_cache.cc:447-501 | At such a capacity no entry with a charge is ever accepted, in any interleaving. |
| `ClockAssertions.NoDebtNoUnderflow` | cache/clock_cache.cc:1114-1123 | In a state in which no charging CAS has cut `usage_`, it covers every charge that is being given back. |
| `ClockUsage.NoSwitchCovered` | cache/clock_cache.cc:1114-1123 | With settings of which no allowed call changes a strict one or makes one, the usage assertion of ReclaimEntryUsage holds in every state of every run. |
| `ClockUsage.RaisingRun` | cache/clock_cache.cc:1114-1123 | For any two strict capacities: a run that only ever raises the capacity from one to the other, after which the assertion fails. |
| `ClockUsage.SwitchRun` | cache/clock_cache.cc:1114-1123 | For any capacity: a run that switches strict mode on, after which the assertion fails. |
| `ClockUsage.UsageAssertionIff` | cache/clock_cache.cc:1114-1123 | Over all runs of any number of threads whose settings (mode and capacity) come from a given set: the usage assertion holds in every state whose total charge is a word if and only if no single call of SetCapacity or SetStrictCapacityLimit within the set leads to or from a strict setting. |
| `ClockUsage.UnderflowExample` | cache/clock_cache.cc:1114-1123 | A concrete run with a lowered capacity in which it fails. |
| `Probing.ProbesDistinct` | cache/clock_cache.cc:1068-1102 | With the odd stride no slot is probed twice within one cycle. |
| `Probing.ProbesCover` | cache/clock_cache.cc:1068-1102 | A cycle probes every slot. |
| `Probing.CycleCloses` | cache/clock_cache.cc:1084-1100 | The probe loop is back at its first slot after table-size steps and not before. |
| `Probing.ProbeFollows` | cache/clock_cache.cc:1080-1100 | The closed form is the loop: it starts at the base and adds the odd increment modulo the table size. |
| `Probing.PosOf` | cache/clock_cache.cc:1104-1112 | The position at which Rollback stops exists and is unique. |
| `MetaWord.FieldsOfPack` | cache/clock_cache.h:312-368 | Every field comes back out of the packed 64-bit word. |
| `MetaWord.PackInjective` | cache/clock_cache.h:312-368 | Equal words if and only if equal fields, so a CAS on the word is a CAS on all fields. |
| `MetaWord.RefcountOfPack` | cache/clock_cache.cc:41-45 | The subtract-and-mask expression on the word is the reference count. |
| `MetaWord.CounterUpdates` | cache/clock_cache.cc:88-95 | Adding or subtracting multiples of one counter's increment changes that counter and nothing else while it stays in its field. |
| `MetaWord.StateUpdates` | cache/clock_cache.cc:237-286 | The optimistic bit operations change exactly the states they are meant for. |
| `MetaWord.CorrectionKeepsRefcount` | cache/clock_cache.cc:218-235 | CorrectNearOverflow keeps the reference count if and only if its guard does not fire on the word seen before or the two top bits agree, and is a no-op if and only if the guard does not fire or both counters are below 2^29. |
| `MetaWord.CorrectionExample` | cache/clock_cache.cc:185-235 | A word with two references on which a release and the correction that follows leave 2^29 + 1 references instead of one. |
| `MetaWord.CorrectionLowers` | cache/clock_cache.cc:218-235 | On a word whose release counter is in its upper half the guard fires, and both counters come back below 2^29. |
| `MetaWord.AcquireCarries` | cache/clock_cache.cc:164-235 | Without that correction an overflowing acquire counter would carry into the release counter. |
| `ClockEvict.ThreeUpdates` | cache/clock_cache.cc:97-162 | Three clock updates evict an unreferenced entry if and only if it is invisible or its countdown is at most 2; pinned entries are left alone. |
| `ClockEvict.RoundPasses` | cache/clock_cache.cc:1125-1169 | One round of the clock pointer passes every slot. |
| `ClockEvict.UpdateRuns` | cache/clock_cache.cc:97-162 | Some number of steps of the transition system, from looking at a slot to leaving it, is exactly one such update of slot and counters; no other entry changes. |
| `ClockEvict.Visit` | cache/clock_cache.cc:97-162 | One position of the pointer: the slot is updated, and charge, count and pinned entries are added to the report. |
| `ClockEvict.PassedConserves` | cache/clock_cache.cc:1125-1169 | However far the pointer goes, what is reported as freed, in charge and in number, is exactly what left the table. |
| `ClockEvict.PassedSwept` | cache/clock_cache.cc:1125-1169 | Each slot has then been updated exactly as often as the pointer passed it. |
| `ClockEvict.Evict` | cache/clock_cache.cc:1125-1169 | An undisturbed run ends at the first batch that gives a reason to, within ceil(3n/4)+1 batches, with the slots and the report of that many positions; each exit reason implies its condition. |
| `ClockEvict.EvictRunsAlone` | cache/clock_cache.cc:1125-1169 | An undisturbed run of the transition system, from start to end, takes the batches that Evict takes, leaves the slots that Evict leaves and ends with the counters that Evict reports. |
| `ClockEvict.StrictIgnoresEffort` | cache/clock_cache.cc:577-587 | Under the strict limit an eviction run stops only with enough freed or after its full rounds; otherwise the effort limit is the configured one. |
| `ClockEvict.CircledEvicts` | cache/clock_cache.cc:1125-1169 | If neither target nor effort cap stops the run, every unreferenced entry that was invisible or had a countdown of at most 2 is gone. |
| `ChainSplit.StoreGrowHead` | cache/clock_cache.cc:2504-2509 | The speculative store of the new head disturbs nothing. |
| `ChainSplit.BigStep` | cache/clock_cache.cc:2504-2533 | With the new head stored, redirecting the old head turns one chain into two complete ones in a single step. |
| `ChainSplit.AdvanceFrontier` | cache/clock_cache.cc:2546-2630 | Every later single pointer write keeps the described state and advances the earlier frontier to the next entry of its chain. |
| `ChainSplit.InsertBefore` | cache/clock_cache.cc:3060-3079 | An insertion at the old head before the big step keeps the chain. |
| `ChainSplit.InsertAfter` | cache/clock_cache.cc:3060-3079 | An insertion at either new head, at any time after the big step, keeps the described state. |
| `ChainSplit.WalkVisits` | cache/clock_cache.cc:2302-2630 | In every state of the split a walk from either head visits the new entries, its own entries up to the frontier, everything behind it, and ends at the right end marker. |
| `ChainSplit.WalkReachesAll` | cache/clock_cache.cc:2302-2630 | In every state of the split every original entry is on the walk from the head of its new chain. |
| `SplitForGrow.HomeBit` | cache/clock_cache.cc:1741-1753 | The next hash bit decides between the two new homes, in both directions. |
| `SplitForGrow.ActOk` | cache/clock_cache.cc:3060-3079 | Whatever step another thread takes between two accesses, the split stays as described, frontiers stay and rewrite locks survive. |
| `SplitForGrow.FinishedSplit` | cache/clock_cache.cc:2302-2630 | With both frontiers at the end there are two proper chains, all pointers at the new shift, each end marker naming its own home, each entry on the chain of its hash. |
| `SplitForGrow.Splitter.constructor` | cache/clock_cache.cc:2415-2436 | The described starting state. |
| `SplitForGrow.Splitter.Perform` | cache/clock_cache.cc:3060-3079 | One step of another thread, recorded as one more described state. |
| `SplitForGrow.Splitter.Acquire` | cache/clock_cache.cc:1929-1946 | Takes the rewrite lock of a non-empty chain; an empty chain is left as it is. |
| `SplitForGrow.Splitter.FindRepresentatives` | cache/clock_cache.cc:2444-2495 | Finds the first entry of each output chain although others keep inserting at the head. |
| `SplitForGrow.Splitter.TryMigrateHeads` | cache/clock_cache.cc:2436-2533 | One attempt at the big step: it succeeds, or an insertion got in between and nothing happened. |
| `SplitForGrow.Splitter.MigrateHeads` | cache/clock_cache.cc:2436-2533 | The big step ends with success after finitely many failed attempts. |
| `SplitForGrow.Splitter.UpgradeShifts` | cache/clock_cache.cc:1808-1838 | `UpgradeShiftsOnRange` advances the earlier frontier up to the other one, or finishes its chain. |
| `SplitForGrow.Splitter.SkipTo` | cache/clock_cache.cc:2584-2625 | One small step: the earlier frontier moves to the next entry of its chain, the other one follows as far as it may. |
| `SplitForGrow.Splitter.MigrateRest` | cache/clock_cache.cc:2562-2630 | The small steps end with both chains finished. |
| `SplitForGrow.Splitter.Release` | cache/clock_cache.cc:1881-1888 | Unlocking a head keeps its target. |
| `SplitForGrow.Splitter.Run` | cache/clock_cache.cc:2302-2630 | `SplitForGrow` over the arrays, with arbitrary insertions and retirements between its accesses: every moment is a described state, the result is exactly the order-preserving split behind the entries inserted meanwhile, nothing is lost, no lock is left. |
| `LookupDuringSplit.SafeStep` | cache/clock_cache.cc:3176-3317 | One iteration of the lookup loop, reading a pointer and later the entry while the split goes on, keeps the reader on a path to its target unless the trap is set. |
| `LookupDuringSplit.NeverMisses` | cache/clock_cache.cc:3176-3317 | In every history of a split with insertions, a lookup of a live linked entry never reports a miss as long as the trap is never set behind the position that the frontier of its chain had when it started. |
| `LookupDuringSplit.FoundMatches` | cache/clock_cache.cc:3256-3281 | In every history and whenever it reads, an entry that the lookup returns has the full key and was live when it was examined. |
| `LookupDuringSplit.KeepsReference` | cache/clock_cache.cc:3282-3306 | The lookup moves onto a live entry of its own chain only with a reference to it. |
| `LookupTrap.TrapSprings` | cache/clock_cache.cc:3176-3317 | In every state of a split, before or after the big step, in which the trap is set, the splitting thread alone can make a lookup miss an entry that is live and linked throughout; the execution is constructed. |
| `LookupTrap.NoTrapNoMiss` | cache/clock_cache.cc:3176-3317 | Without the trap no execution makes the lookup miss, whatever other threads insert or start to erase. |
| `LookupTrap.LookupMissesIffTrapped` | cache/clock_cache.cc:3083-3317 | In every state of a split: the split proceeding on its own can make a lookup that starts now miss a live linked entry if and only if, behind the frontier of its chain, a sibling entry separates it from an earlier entry of its own chain and the next sibling entry behind it is under (de)construction. |
| `LookupTrap.BusyMissesIffPoised` | cache/clock_cache.cc:3083-3317 | In every state after the big step: with other threads inserting and erasing meanwhile, the lookup can miss the entry if and only if such a separating entry and a next sibling entry exist. |
| `LookupTrap.ExampleMiss` | cache/clock_cache.cc:3083-3317 | A concrete chain of four entries, about to be split, of which one can be missed. |
| `ChainPurge.PushOk` | cache/clock_cache.cc:3060-3079 | An insertion at the locked head keeps a proper chain and removes nothing. |
| `ChainPurge.RetireOk` | cache/clock_cache.cc:3327-3374 | An entry going under construction stays linked and disturbs no pointer. |
| `ChainPurge.CutOk` | cache/clock_cache.cc:2705-2714 | Redirecting the last kept entry past doomed ones unlinks exactly those. |
| `ChainPurge.CutHeadOk` | cache/clock_cache.cc:2715-2717 | The same at the head. |
| `ChainPurge.Purger.Perform` | cache/clock_cache.cc:3060-3079 | One step of another thread during the purge. |
| `ChainPurge.Purger.Visit` | cache/clock_cache.cc:2679-2708 | An entry is unlinked if and only if it is under construction, possibly because the clock update has just taken it. |
| `ChainPurge.Purger.CutNext` | cache/clock_cache.cc:2705-2714 | The stitch behind a kept entry. |
| `ChainPurge.Purger.TryCutHead` | cache/clock_cache.cc:1898-1925 | The CAS on the head: it succeeds and unlinks, or fails because of an insertion, unlinks nothing, and the scan restarts. |
| `ChainPurge.Purger.Run` | cache/clock_cache.cc:2643-2765 | `PurgeImplLocked` with arbitrary insertions and retirements between its accesses: a proper chain at every moment; what remains is all that was ever linked, in order, without what was unlinked; only entries under construction are unlinked, and all that were at the start are; evicted entries are distinct and unlinked; it terminates despite failed CASes. |
| `LinearHashing.PackRoundTrip` | cache/clock_cache.cc:1696-1729 | Packing a used length into a length-info word and reading it back is exact for every length below 2^64. |
| `LinearHashing.HomeInUse` | cache/clock_cache.cc:1741-1753 | Every hash has its home among the slots in use. |
| `LinearHashing.GrowMovesOneHome` | cache/clock_cache.cc:1741-1753 | Growing from n to n+1 rehomes exactly the hashes whose home was n - 2^floor(log2 n) and whose next bit is set, and moves them to n. |
| `LinearHashing.NextBit` | cache/clock_cache.cc:1741-1753 | One more hash bit keeps the home or adds 2^shift. |
| `GrowMachine.WaitIsEnough` | cache/clock_cache.cc:2175-2251 | Waiting for the old old home is enough for the old home to have reached the shift to split at. |
| `GrowMachine.PublishedHome` | cache/clock_cache.cc:2866-2952 | The home computed from the published length carries at least the expected shift. |
| `GrowMachine.Climb` | cache/clock_cache.cc:3026-3058 | A head ahead of the inserter's shift: one more hash bit leads to a head with the next shift, which makes catching up with the length legitimate. |
| `GrowMachine.ClimbEnds` | cache/clock_cache.cc:3026-3058 | Climbing one shift at a time reaches a head whose shift matches. |
| `GrowMachine.InsertFindsHead` | cache/clock_cache.cc:3026-3058 | In every state of every run, for every hash, climbing from the published home ends at a matching head. |
| `GrowTheorems.InsertsAtHome` | cache/clock_cache.cc:3024-3080 | In every run an insertion is made at the head of the home of its hash, at the shift of that head. |
| `GrowTheorems.ClimbsOneBit` | cache/clock_cache.cc:3033-3053 | An inserter that meets a larger shift comes back with the next shift and the home of that shift, having tried to publish the slot that this bit leads to. |
| `GrowTheorems.GrowRaises` | cache/clock_cache.cc:2175-2250 | A Grow that returns has put the new shift on both heads of the slot that it took. |
| `GrowTheorems.FrontierBounded` | cache/clock_cache.cc:2175-2186 | `grow_frontier_` is ahead of the array by no more than the threads that are about to reset it. |
| `GrowTheorems.CatchUpPublishes` | cache/clock_cache.cc:2253-2300 | In every run a catch-up ends only when everything up to its slot is published or the next slot is not grown yet. |
| `GrowTheorems.CatchUpAlone` | cache/clock_cache.cc:2253-2300 | An undisturbed catch-up leaves the published length at the first slot that is not grown if and only if that slot is not beyond the one after its own. |
| `GrowTheorems.LagExample` | cache/clock_cache.cc:2218-2243 | A run after which nobody is growing or catching up and a grown slot is not published. |
| `GrowMachine.ClimbBounded` | cache/clock_cache.cc:3026-3058 | However heads move meanwhile, an inserter climbs at most once per bit of the array length. |
| `GrowMachine.InvStep` | cache/clock_cache.cc:2175-2300 | Every step of Grow, CatchUpLengthInfoNoWait and DoInsert, by any number of threads, keeps the invariant between head shifts, the grow frontier and the published length. |
| `GrowMachine.InitInv` | cache/clock_cache.cc:1986-2028 | It holds after construction, for every starting length. |
| `GrowMachine.RunInv` | cache/clock_cache.cc:2175-2300 | It holds in every state of every run. |
| `GrowMachine.NoAssertionFails` | cache/clock_cache.cc:3026-3058 | In no run does DoInsert meet a head that lags behind its shift, or a split find a used new head or a wrong shift. |
| `GrowMachine.PublishedIsReady` | cache/clock_cache.cc:2253-2300 | In every reachable state, for every hash, the published length leads to a head whose shift is at least the home shift. |
| `GrowMachine.GrowNeverStuck` | cache/clock_cache.cc:2175-2251 | In every reachable state with a grow in progress some thread in Grow is not waiting for the shift of an old old home: that wait cannot deadlock. |
| `GrowMachine.NotPublishedEarly` | cache/clock_cache.cc:2511-2513 | While a slot is being grown its number is not yet part of the published length, as SplitForGrow asserts. |
| `GrowMachine.NoDoubleGrow` | cache/clock_cache.cc:2175-2251 | No slot is ever grown by two threads. |
| `AutoProbe.StrideInRange` | cache/clock_cache.cc:2985-2995 | The golden-ratio stride is positive and below the used length. |
| `AutoProbe.CycleTimesStep` | cache/clock_cache.cc:2995-3023 | The length of a stride cycle times the smallest distance between its slots is at most the table length, whatever the gcd. |
| `AutoProbe.ClosesAt` | cache/clock_cache.cc:2995-3023 | A stride cycle comes back to its start after exactly its length, not before. |
| `AutoProbe.CyclesCover` | cache/clock_cache.cc:2995-3023 | Enough cycles, each shifted by one, visit every slot. |
| `AutoProbe.AllBusy` | cache/clock_cache.cc:2995-3023 | When the retry bound is reached every slot has been tried. |
| `AutoProbe.Jump` | cache/clock_cache.cc:2969-3023 | The search by strides returns a free slot, a slot with an equal key, or gives up with every slot taken. |
| `AutoProbe.FindSlot` | cache/clock_cache.cc:2908-3023 | Run alone, the whole search claims a free slot or stops at an equal key, and gives up if and only if the table is full. |
| `SuperVersionProofs.InvStep` | db/column_family.cc:1347-1479 | Any step of any thread (Get, Return, GetReferenced, thread exit, Install, each slot of a Scrape, Cleanup) keeps the invariant. |
| `SuperVersionProofs.CountedStep` | db/column_family.cc:505-532 | `refs` stays one if current, plus slots holding it, plus threads using it, plus outside references. |
| `SuperVersionProofs.CleanedStep` | db/column_family.cc:505-532 | Cleanups done plus cleanups due stay zero while referenced and one afterwards. |
| `SuperVersionProofs.FreshStep` | db/column_family.cc:1360-1441 | A cached or used SuperVersion stays current or about to be scraped. |
| `SuperVersionProofs.NotBroken` | db/column_family.cc:1463-1479 | No step drops a last reference where the code asserts that it is not the last. |
| `SuperVersionTheorems.InitInv` | db/column_family.cc:563-577 | The initial state, for any number of threads. |
| `SuperVersionTheorems.RunInv` | db/column_family.cc:1347-1479 | The invariant holds in every state of every run. |
| `SuperVersionTheorems.NoAssertionFails` | db/column_family.cc:1360-1479 | No assertion of these functions fails in any run. |
| `SuperVersionTheorems.ReachableHasRefs` | db/column_family.cc:505-515 | The count is positive if and only if somebody can reach the SuperVersion. |
| `SuperVersionTheorems.ReachableIsAlive` | db/column_family.cc:517-532 | A reachable SuperVersion is neither cleaned up nor about to be: no use after free. |
| `SuperVersionTheorems.UnreachableIsCleanedOnce` | db/column_family.cc:510-532 | An unreachable one is cleaned up exactly once: already, or as exactly one thread's duty. |
| `SuperVersionTheorems.CacheIsFresh` | db/column_family.cc:1360-1388 | A cached SuperVersion is the current one unless an installer still has to scrape this slot. |
| `SuperVersionTheorems.SettledCacheIsFresh` | db/column_family.cc:1422-1441 | When no installer is between publishing and the end of its scrape, every cached SuperVersion is the current one. |
| `SuperVersionTheorems.ReturnIsFresh` | db/column_family.cc:1390-1406 | What a successful return puts back is current, or will still be scraped. |
| `SuperVersionTheorems.ReturnedUnscraped` | db/column_family.cc:1390-1406 | A successful return means that the slot was not scraped since the thread's Swap. |
| `SuperVersionOperations.InstallPublishes` | db/column_family.cc:1408-1461 | When InstallSuperVersion returns, the current version is the installed one or a later one, and every thread-local slot was marked obsolete after it was published. |
| `SuperVersionOperations.ReadsSeeInstall` | db/column_family.cc:1360-1388 | A reader that starts after InstallSuperVersion has returned never gets an older version. |
| `SuperVersionOperations.ReturnedIsReused` | db/column_family.cc:1360-1406 | A thread that returned its SuperVersion and whose slot is not scraped gets it back without the mutex. |
| `SuperVersionOperations.ReferenceHandedOut` | db/column_family.cc:1347-1358 | When GetReferencedSuperVersion returns, its caller has one more reference to the version in use. |
| `SuperVersionOperations.DropUnreferences` | db/column_family.cc:1347-1358 | A reference that its holder drops is taken off the count. |
| `SuperVersionOperations.ExitEmptiesSlot` | db/column_family.cc:563-582 | A thread that has exited has left no SuperVersion in its slot, in every state of every run. |
| `LruList.SpillHighOk` | cache/lru_cache.cc:298-308 | Overflowing the high pool keeps the list order, restores its bound, and moves no entry more than needed. |
| `LruList.SpillLowOk` | cache/lru_cache.cc:309-321 | The same from the low to the bottom pool. |
| `LruList.MaintainOk` | cache/lru_cache.cc:298-321 | Both bounds hold afterwards, the order is kept, and within bounds nothing changes. |
| `LruList.SettledBounded` | cache/lru_cache.cc:256-296 | An insertion into the high or the low pool leaves both pools within their capacities, whatever they were before. |
| `LruList.List.constructor` | cache/lru_cache.cc:116-141 | The empty list. |
| `LruList.List.Remove` | cache/lru_cache.cc:232-254 | Removes the entry from its segment of the doubly linked list; boundary pointers and the three usage sums stay exact. |
| `LruList.SettledRanked` | cache/lru_cache.cc:256-320 | The new entry is the newest of the best pool that it is entitled to and fits into: high, else low, else bottom. |
| `LruList.List.Insert` | cache/lru_cache.cc:256-296 | Whole new list; with a high pool a high priority or a hit gets the entry to its newest end, with a low pool any priority or a hit to that of the low pool, if it fits; otherwise it goes to the bottom. |
| `LruList.List.Oldest` | cache/lru_cache.cc:323-327 | The oldest entry, or the dummy if and only if the list is empty. |
| `LruList.List.MaintainPoolSize` | cache/lru_cache.cc:298-321 | Terminates without reaching the dummy head and does what the specification of spilling says. |
| `HandleTable.Table.constructor` | cache/lru_cache.cc:26-32 | The empty map. |
| `HandleTable.Table.FindPointer` | cache/lru_cache.cc:75-81 | Stops at the handle of the map, or at the end of the bucket if and only if the key is absent. |
| `HandleTable.Table.Lookup` | cache/lru_cache.cc:45-47 | Map lookup. |
| `HandleTable.Table.Insert` | cache/lru_cache.cc:49-63 | Map update in place, returning the handle replaced; the average chain stays below one handle while the table can grow. |
| `HandleTable.Table.Remove` | cache/lru_cache.cc:65-73 | Map removal in place, returning the handle removed. |
| `HandleTable.Table.MoveChain` | cache/lru_cache.cc:97-110 | Moves one old bucket to the new list by rewiring. |
| `HandleTable.Table.ApplyToEntriesRange` | cache/lru_cache.h:219-230 | Visits exactly the handles of the map whose bucket is in the range, each once. |
| `HandleTable.Table.Resize` | cache/lru_cache.cc:83-114 | Doubles the list in place unless at its limit; the map is unchanged. |
| `LruShard.StatesTake` | cache/lru_cache.h:32-48 | Taking a first reference moves a handle from the list to the referenced state. |
| `LruShard.StatesGive` | cache/lru_cache.h:32-48 | Dropping the last reference of a cached handle puts it on the list. |
| `LruShard.StatesDrop` | cache/lru_cache.h:32-48 | Leaving the table keeps all other handles in their states. |
| `LruShard.StatesReplace` | cache/lru_cache.h:32-48 | A replaced handle leaves table and list; the new one takes its key. |
| `LruShard.PinnedUsage` | cache/lru_cache.cc:622-626 | `usage_` is the charge of the list plus the charge of all referenced handles. |
| `LruShard.Shard.constructor` | cache/lru_cache.cc:116-141 | The empty shard. |
| `LruShard.EvictionsExact` | cache/lru_cache.cc:323-336 | How many entries an eviction takes is a function of the state before it. |
| `LruShard.Shard.EvictFromLRU` | cache/lru_cache.cc:323-336 | Evicts the oldest entries, pool by pool, until the charge fits or the list is empty, no entry more than needed; usage drops by exactly their charges and nothing else leaves the table. |
| `LruShard.Shard.Lookup` | cache/lru_cache.cc:430-448 | Returns the handle of the map, references it, marks the hit and takes it off the list. |
| `LruShard.Shard.Ref` | cache/lru_cache.cc:450-456 | One more reference; nothing else changes. |
| `LruShard.Shard.Release` | cache/lru_cache.cc:472-518 | Whole new state in each case; the entry becomes the newest of the best pool that priority or hit entitles it to; a shard over capacity has an empty list, as the code asserts. |
| `LruShard.Shard.Use` | cache/lru_cache.cc:430-518 | An unreferenced entry that is looked up and released again, in a shard within its capacity, is the newest of the high pool, whatever its priority. |
| `LruShard.Shard.Erase` | cache/lru_cache.cc:591-615 | The key leaves the map; the handle is freed if and only if nobody references it. |
| `LruShard.Shard.Store` | cache/lru_cache.cc:396-412 | Overwriting: the old handle leaves the table, and the list and the usage if unreferenced. |
| `LruShard.Shard.Admit` | cache/lru_cache.cc:394-423 | The accepting branch: map, list, usage and all handle states afterwards. |
| `LruShard.Shard.InsertItem` | cache/lru_cache.cc:372-428 | Evicts just enough; rejects if and only if there still is no room and the limit is strict or no handle is wanted; the new state is determined in every case down to the pools; the strict limit is kept, and entering the high or low pool restores both pool bounds. |
| `LruShard.Shard.CreateStandalone` | cache/lru_cache.cc:559-589 | Evicts just enough; refused or uncharged if and only if strict and without room; never in table or list; the strict limit is kept. |
| `LruShard.Shard.SetCapacity` | cache/lru_cache.cc:354-365 | Establishes the invariant for the new capacity from any state, evicting just enough; afterwards both pools are within their new capacities if and only if what the evictions leave of them was. |
| `LruShard.OverfullPoolExample` | cache/lru_cache.cc:354-365 | A shard whose high pool is over its bound after SetCapacity. |
| `LruShard.Shard.SetPoolRatios` | cache/lru_cache.cc:458-470 | New pool bounds hold at once; nothing is evicted or reordered. |
| `LruShard.Shard.GetPinnedUsage` | cache/lru_cache.cc:622-626 | The subtraction yields the charge of the referenced handles. |
| `LruShard.Shard.EraseUnRefEntries` | cache/lru_cache.cc:145-165 | Exactly the unreferenced handles leave. |
| `Scan.VisitsInterval` | cache/lru_cache.cc:167-201 | A call visits exactly the hashes between its old and new state, whatever the table length. |
| `Scan.TimesCovered` | cache/lru_cache.h:219-230 | A walk over a range of buckets visits an id once if it is in the map and in the range, and otherwise not at all. |
| `Scan.Range` | cache/lru_cache.cc:167-201 | The buckets to visit and the next state, with progress if and only if average_entries_per_lock is positive. |
| `Scan.TrackedMore` | cache/lru_cache.cc:167-201 | Visiting those buckets extends by one piece what the scan has visited: nothing twice, nothing ahead, and everything behind that was always there. |
| `Scan.Turn` | cache/lru_cache.cc:167-201 | One call of ApplyToSomeEntries after arbitrary insertions and removals by others, on the real table, keeps that. |
| `Scan.ApplyToAll` | cache/sharded_cache.h:238-260 | The rotating scan over the tables of all shards, with insertions, removals and resizes between any two pieces, terminates with every shard scanned to the end. |
| `Scan.VisitedOnce` | cache/sharded_cache.h:238-260 | So an entry that is in its table throughout is visited exactly once. |
| `Reservation.Manager.Increase` | cache/cache_reservation_manager.cc:111-127 | On success the dummies, under distinct keys, are the least multiple of 256 KiB covering the memory; it fails if and only if the cache refuses an insertion, and then what was inserted stays. |
| `Reservation.Manager.Decrease` | cache/cache_reservation_manager.cc:129-147 | The least covering multiple, releasing the newest dummies. |
| `Reservation.Manager.Update` | cache/cache_reservation_manager.cc:57-85 | Both, and the delayed decrease down to 3/4. |
| `Reservation.Manager.Change` | cache/cache_reservation_manager.h:270-285 | Relative update with a decrease that saturates at zero. |
| `Reservation.ShareOfCapacity` | cache/secondary_cache_adapter.cc:94-110 | The computed ratio gives the secondary capacity back. |
| `Reservation.Adapter.constructor` | cache/secondary_cache_adapter.cc:94-110 | The conservation law holds at the start. |
| `Reservation.Adapter.Insert` | cache/secondary_cache_adapter.cc:251-277 | Inserting a placeholder keeps primary reservation + sec_reserved_ = secondary capacity, and reserves every whole chunk due. |
| `Reservation.Adapter.Release` | cache/secondary_cache_adapter.cc:317-347 | Releasing one keeps the law, gives whole chunks back as soon as they are not covered, and otherwise leaves the reservation as it is. |
| `Reservation.Adapter.SetCapacity` | cache/secondary_cache_adapter.cc:488-535 | The whole new state; the reservation law survives if and only if what stays reserved fits the new capacity and its share is what the secondary cache had given up, in terms of the state before; in particular whenever all placeholders fit. |
| `Reservation.CapacityLaw` | cache/secondary_cache_adapter.cc:488-535 | The wrapping, saturating arithmetic behind that condition. |
| `Reservation.ShrinkExample` | cache/secondary_cache_adapter.cc:488-535 | An adapter whose primary reservation is too small after shrinking. |
| `Reservation.NotInflatedExample` | cache/secondary_cache_adapter.cc:488-535 | One whose secondary cache is not told to inflate. |
| `Reservation.OverReservedExample` | cache/secondary_cache_adapter.cc:488-535 | One whose reserved usage exceeds the capacity. |
| `Chunks.Allocation` | cache/compressed_secondary_cache.cc:384-401 | Nothing is cut below the smallest and above the largest bin; between two bins the rest goes into the larger one if less than the smallest bin is wasted, else the smaller one is filled. |
| `Chunks.Split` | cache/compressed_secondary_cache.cc:371-415 | The linked chunks hold the value in order; none is empty; all but the last fill a bin exactly; the charge is value length plus header per chunk. |
| `Chunks.Merge` | cache/compressed_secondary_cache.cc:417-433 | Merging a chain yields its content, of the size counted first. |
| `Chunks.RoundTrip` | cache/compressed_secondary_cache.cc:371-433 | Splitting and merging gives every value back. |

## Left out

- Weak memory ordering: every atomic operation is one sequentially consistent step.
- Counters of 2^29 and more: runs are those in which both counters stay below, where the overflow correction is a no-op; `displacements` is not bounded to 32 bits.
- Standalone handles of the clock cache: only their charge is modelled, not their lifetime on the heap.
- ClockCapacity.StrictCapacityHolds: requires a capacity below 2^63 that covers the metadata charge; ClockExamples.StrictLimitIff shows that this is needed.
- ClockUsage.UsageAssertionIff: the metadata charge and the strict capacities are below 2^63, and the table has room for one entry; larger sizes, where sums of two wrap around, are only covered by ClockExamples.StrictLimitIff.
- ClockAssertions.NoAssertionFails: leaves out the assertion on small tables when a probe loops back (cache/clock_cache.cc:837) and, except through ClockAssertions.UsageIsTotal, the two that bound usage_ by half the word range (cache/clock_cache.cc:557 and 672).
- Eviction callbacks, memory allocation and the deletion of values.
- SplitForGrow.Splitter.Acquire: the spin loop on a lock held by another thread is not modelled; the method starts when the lock is free.
- SplitForGrow.Splitter.Run: other threads insert and retire entries; rewrites of a chain that was empty at the big step, which needs no lock, are not among their steps.
- LookupDuringSplit.NeverMisses: covers the full lookup loop; the short first pass before it (cache/clock_cache.cc:3136-3173) is left out, and so is the reuse of a freed slot for another entry while a lookup is under way.
- LookupTrap.LookupMissesIffTrapped: requires a positive shift, which every head has because the table starts with at least two slots.
- LookupTrap.BusyMissesIffPoised: starts after the big step; before it, insertions still change the chain that is to be split.
- ClockOperations.InsertStores: the Standalone handle that a caller gets when the entry does not get into the table is modelled by its charge only.
- ClockCharging.LaxCharge: nobody else is at work, the charges in the table are part of usage_, and usage_ plus the charge fits a word.
- ClockEvict.EvictRunsAlone: the charges in the table add up to less than 2^64, so that the counter of freed charge does not wrap around.
- ChainPurge.Purger.Run: the outcome of each clock update is an input, since the clock algorithm itself is in ClockEvict.
- GrowMachine.InvStep: chains and rewrite locks are abstracted to head shifts; the split itself is SplitForGrow.
- GrowMachine.GrowNeverStuck: is about waiting for a shift; waiting for a rewrite lock held by another thread is not modelled.
- AutoProbe.FindSlot: run alone on a fixed used length, so the length is not read again during the search.
- SuperVersionProofs.InvStep: starts with one installed SuperVersion; write-stall conditions and the destruction of the column family are left out.
- HandleTable.Table.Insert: key, hash and charge of a handle are fixed when it is created; the hash width is a parameter, 32 in the code.
- LruShard.Shard.SetCapacity: takes the pool capacities as arguments instead of computing them from the ratios.
- Scan.ApplyToAll: scan states count hashes of the table's hash width, with 2^width in place of SIZE_MAX; it requires average_entries_per_lock to be positive, as the code asserts.
- Reservation.Adapter.Insert: the ratio is an exact real number, Inflate and Deflate always succeed, and only placeholders with a handle that are erased on release are covered.
- `UpdateCacheReservationRatio`, secondary-cache lookups and promotion, tiered caches, cache keys, compression, statistics and option handling.
- The Auto table's Erase, Release, Evict driver and ReportProblems, which would repeat the slot protocol of the Fixed table.
- The storage engine above the caches: compaction, flush, iterators and file formats.
