# A Dafny model of the Garnet and Bf-Tree storage layers of DiskANN

DiskANN keeps a graph of vectors in a store it does not own. This project models the part that
hands out internal IDs, keeps the store consistent while inserts, deletes and quantization run
concurrently, and writes adjacency lists, and it proves what that part promises over whole runs.

## What is modelled

**The free space map** (`Bits`, `Blocks`, `Allocator`, `FreeSpaceMap`, `FsmRuns`). One bit per ID in
blocks of 65536 IDs, with three in-memory aids: a list of at most 1024 free IDs, a flag that says
whether anything may be free, and a count. `Allocator` is the specification: a set of used IDs, the
next new ID, and whether reuse is on. The class `FreeSpaceMap` is the code, method by method, and
each method is proved to take a step of that specification.

**The same map under concurrency** (`ConcurrentFsm`, `RefillWindows`, `FlagRace`, `FlagLost`, `MintCauses`,
`SoloCalls`, `SoloReturns`, `RunsDry`). Each call of `next_id` and `mark_free` is cut into its atomic steps,
any of whose reads and writes may fail. Runs start from any state the sequential map gets into, a reopened one
included. Every interleaving is shown to be a run of `Allocator`; what a refill that reads block by block may
conclude is stated in terms of what was freed and taken since it began, and what makes a call mint in terms of
what it saw on the way. A call that nobody disturbs, in whatever state others have left the map, hands out
exactly the ID that the sequential map would.

**The provider** (`Provider`, `ProviderProofs`, `MissedSteps`, `Backfill`, `TrainingBlocked`). A new index, or
one opened over what is stored already. Inserts and deletes as sequences of single-key store operations,
each of which may fail; the training visit, which reads used IDs block by block until it has enough
vectors or cannot read one; the write barrier at which inserts start to write codes; the parallel
backfill of older vectors; the switch to quantized search. It uses the steps of `Allocator`, which the
previous part justifies.

**What the provider can get into** (`Schedules`, `Calls`, `Settling`, `TrainingVisits`, `BackfillRuns`,
`TowardsReuse`, `HandOver`, `MissedCode`, `UnsafeDeletes`, `WithoutReuse`). Schedules put together step by
step: when IDs can come to be reused and the index to be quantized, and what goes wrong when codes cannot be
written or deletes overlap or are repeated.

**Adjacency lists** (`Adjacency`, `GarnetNeighbors`, `Bytes`, `BfTreeNeighbors`, `StripedLocks`,
`LockedWrites`). One specification, `AppendUnique`, for the append of both providers: the Garnet one
edits the record in place and keeps a cached copy of the start point's list, the Bf-Tree one copies
the list out and back through a scratch buffer, under a lock chosen by hashing the ID.

**Around them** (`IndexReady`, `StartPoint`, `SearchResults`, `RandomMembers`, `Recall`). One-time
initialisation by compare-and-exchange, attempts to set the start point, the output buffers, random sampling of members, and k-nearest-neighbour recall.

`Collections` holds a few facts about sets and sequences.

## Properties that do not hold as they stand

Each is stated with a counterexample and with the condition under which it holds.

- The flag that says whether IDs may be free can be down although one is free and listed
  (`FlagLost.FlagDownIdFree`). It is truthful throughout a run if and only if, for every refill that finds
  nothing, whatever comes to be free between its reading the bounds and its lowering the flag, or is out
  of its reach, is taken before that, or some free has still to raise the flag; and every mint that is
  lost to a failing write is lost while the flag is up or about to go up (`FlagRace.HonestRunIff`). Only
  reuse is delayed by this; no ID is handed out twice.
- A call of `next_id` can mint although an ID is free. One that nobody disturbs does not, if and only if every
  ID is used, or reuse is on, the flag is up and some free ID is in a block that exists (`SoloCalls.AloneTightIff`).
- No ID may be left to hand out although none is in use (`RunsDry.NothingUsedNothingLeft`): minting takes the next
  number before it creates the block for it, and once it is a block ahead no new ID is handed out again
  (`RunsDry.DryForever`). An undisturbed call can return an ID if and only if minting is not that far ahead, or it
  searches and finds a free one (`SoloReturns.AloneReturnsIff`).
- After the hand-over to quantized search a vector can be without its code (`MissedCode.CodeLost`): a
  backfill task passes over an ID it cannot read, compress or write. A vector has its code if and only
  if the backfill did not miss its ID (`ProviderProofs.QuantizedTheorem`), that is, unless it failed there
  at some step and no code has been written since (`MissedSteps.CodeMissingIff`).
- An index that needs training may never be trained, and then never reuses an ID
  (`TowardsReuse.LeakBars`): a delete that cannot free its ID leaves a used ID without a vector, at which
  every training visit ends. Reuse can come if and only if storing a trained quantizer has not failed, and
  training has read enough vectors, or the visit under way can still find enough, or a new one can: no such
  ID has too few vectors below it, and the IDs left are not too few (`TowardsReuse.ReuseIff`). Otherwise it
  never does, whatever calls are made (`TrainingBlocked.BarredForever`). An ID that a stale mapping still
  leads to is freed by repeating its delete, so it counts only for callers that do not.
- A trained index may never operate on quantized vectors: if the flag that says so cannot be stored, nobody
  tries again (`HandOver.FinalForever`). Otherwise it can come to do so if and only if its quantizer is
  trained or can still be (`HandOver.HandOverIff`).
- An external ID that was deleted can still be found, and then leads to another one's vector, if the
  store failed to remove its mapping (`UnsafeDeletes.FailedUnmapAliases`). A lookup finds something if
  and only if the ID has a vector or such a stale mapping (`ProviderProofs.MappingTheorem`); as long as no
  removal failed, exactly if it has a vector (`ProviderProofs.FoundIfPresent`).
- Repeating a delete that returned an error for that reason can wipe out another one's vector
  (`UnsafeDeletes.RepeatedDeleteLosesVector`), and so can two overlapping deletes of one external ID
  (`UnsafeDeletes.OverlapLosesVector`), from every reachable state from which reuse can come. As long as
  no ID is reused, neither can (`WithoutReuse.NothingLostWithoutReuse`), unless the index was opened with a
  stale mapping to a vector, or to an ID still to be handed out because opening cut the ID space
  (`WithoutReuse.StaleAboveAfterOpening`); then a repeated delete can (`WithoutReuse.LostIffStaleHarms`). The provider's runs therefore have careful callers:
  no delete starts on a stale mapping or between another one's lookup of the same mapping and its removal.
- The start point may never be set (`StartPoint.FailedWriteIsFinal`): an attempt that fails on a write keeps
  ID 0. It can still be set if and only if all its records are stored, or ID 0 can be had
  (`StartPoint.CanSucceedIff`).
- Backfill tasks can share IDs (`Backfill.WrapHappens`). They are disjoint if and only if the last start
  fits in 32 bits (`Backfill.DisjointIff`); they cover every ID in any case (`Backfill.Covered`).
- The cached list of the start point can lag behind the stored one (`GarnetNeighbors.CacheGoesStale`). An
  append keeps it exact if and only if it does not stop early, or the list was full before
  (`GarnetNeighbors.CacheStaysExact`). For lists within the maximum degree it is always a prefix.
- A list of one ID more than the maximum degree does not panic: its length overwrites the last ID and is
  read back as one (`GarnetNeighbors.LengthReadAsNeighbor`). The stored list is the given one if and only
  if that is within the maximum degree; longer ones than this panic
  (`GarnetNeighbors.NeighborLists.SetNeighbors`).

## Where comments and code differ

The code is followed. The header of `fsm.rs` speaks of three statuses and of a `mark_deleted`; the code
keeps one bit and calls it `mark_free`. A comment in the backfill divides the range up to, but not
including, the highest ID; the code includes it. A comment says that all vectors have codes once every
task is done; the code counts a task that passed over IDs as done.

## Model

| member | source | states |
|---|---|---|
| Bits.UpdateStatusBits | diskann-garnet/src/fsm.rs:555-567 | updating a bit writes that one, keeps the other seven, and reports a change exactly when it was different |
| Bits.MaskTable | diskann-garnet/src/fsm.rs:555-567 | bit 0 of a status byte is the most significant one, and so on down |
| Blocks.IdsInExact | diskann-garnet/src/fsm.rs:494-530 | an ascending scan lists exactly the IDs of the wanted status below the bound, once each, in order |
| Blocks.IdsDownExact | diskann-garnet/src/fsm.rs:160-213 | a descending scan does the same in descending order |
| Blocks.SkipByte | diskann-garnet/src/fsm.rs:433-436 | skipping a byte of eight used (or eight free) IDs loses none of the IDs looked for |
| Blocks.SetBitCount | diskann-garnet/src/fsm.rs:232-262 | one bit write adds or removes that ID alone, and changes the number of used IDs by the matching amount |
| Allocator.NoDoubleAllocation | diskann-garnet/src/fsm.rs:316-362 | in every run of the specification, two allocations of one ID have a free of it between them |
| Allocator.NextIdIsPeak | diskann-garnet/src/fsm.rs:316-362 | with reuse on from the start, the next new ID equals the largest number of IDs ever in use at once |
| FreeSpaceMaps.HighestFree | diskann-garnet/src/fsm.rs:160-213 | the list that recovery builds holds distinct free IDs below the next new one, and is empty only if every ID is used |
| FreeSpaceMaps.VisitedStops | diskann-garnet/src/fsm.rs:494-530 | a visit with early exit sees a prefix of the IDs and stops at the first false answer and only there |
| FreeSpaceMaps.LoadEnd | diskann-garnet/src/fsm.rs:160-213 | a finished recovery scan has the highest used ID, the exact count and the highest free IDs below it |
| FreeSpaceMaps.FreeSpaceMap.constructor | diskann-garnet/src/fsm.rs:110-157 | opening over any stored blocks gives exactly the stored used IDs, with list, flag and count in agreement |
| FreeSpaceMaps.FreeSpaceMap.LoadState | diskann-garnet/src/fsm.rs:160-213 | recovery restores used IDs, count, highest ID and free list from the blocks alone |
| FreeSpaceMaps.FreeSpaceMap.MarkIdUnchecked | diskann-garnet/src/fsm.rs:232-262 | writes one bit; count, list and flag follow the change and nothing else |
| FreeSpaceMaps.FreeSpaceMap.MarkId | diskann-garnet/src/fsm.rs:267-276 | refuses exactly the IDs never handed out, and otherwise reports whether the status changed |
| FreeSpaceMaps.FreeSpaceMap.MarkFree | diskann-garnet/src/fsm.rs:216-219 | frees the ID or does nothing if it is free already, as a step of the specification, and keeps the aids in agreement |
| FreeSpaceMaps.FreeSpaceMap.IsFree | diskann-garnet/src/fsm.rs:279-308 | answers by membership in the used set; an error exactly for IDs never handed out |
| FreeSpaceMaps.FreeSpaceMap.VectorIidExists | diskann-garnet/src/provider.rs:482-484 | true exactly for used IDs, errors included |
| FreeSpaceMaps.FreeSpaceMap.ExpandTo | diskann-garnet/src/fsm.rs:464-491 | creates the block of an ID if it is the next one, fails beyond it, and changes no status |
| FreeSpaceMaps.FreeSpaceMap.RefillFastFreeList | diskann-garnet/src/fsm.rs:396-461 | an empty list becomes the lowest 1024 free IDs; a full scan leaves list and flag in agreement with the bits |
| FreeSpaceMaps.FreeSpaceMap.TakeFree | diskann-garnet/src/fsm.rs:321-352 | returns an ID that was free, skipping stale entries; returns none only if nothing is free |
| FreeSpaceMaps.FreeSpaceMap.NextId | diskann-garnet/src/fsm.rs:316-362 | hands out an ID nobody holds; with reuse on and the aids in agreement it mints only if nothing is free, and takes the oldest listed or else the lowest free ID |
| FreeSpaceMaps.FreeSpaceMap.VisitUsed | diskann-garnet/src/fsm.rs:494-530 | visits the used IDs in increasing order up to the first false answer |
| FreeSpaceMaps.FreeSpaceMap.EnableQuantization | diskann-garnet/src/fsm.rs:533-541 | the recorded end of the backfill is the highest ID handed out so far, or 0, so that every used ID is at most that |
| FreeSpaceMaps.FreeSpaceMap.EnableReuse | diskann-garnet/src/fsm.rs:544-546 | the reuse step of the specification, after which the aids still agree |
| FsmRuns.RunFresh | diskann-garnet/src/fsm.rs:316-362 | any run of allocations and frees on a fresh map is a tight run, so the ID space equals the peak demand |
| FsmRuns.Restart | diskann-garnet/src/fsm.rs:160-213 | a map reopened over another one's blocks has the same used IDs and count, and an ID space cut to the highest used one |
| FsmRuns.TrainedAgrees | diskann-garnet/src/fsm.rs:533-541 | the map and the provider's runs record the same end of the backfill |
| FsmRuns.SharedIsInit | diskann-garnet/src/fsm.rs:110-213 | every fresh, used or reopened sequential map is a state concurrent runs start from, with a truthful flag |
| ConcurrentFsm.RunKeepsInv | diskann-garnet/src/fsm.rs:216-491 | every state of every interleaving has consistent threads, list, blocks and count |
| ConcurrentFsm.StepRefines | diskann-garnet/src/fsm.rs:216-491 | every atomic step is a step of the allocator specification |
| ConcurrentFsm.RunRefines | diskann-garnet/src/fsm.rs:216-491 | every interleaving is a run of the allocator specification |
| ConcurrentFsm.NoDoubleAllocation | diskann-garnet/src/fsm.rs:316-362 | whatever the interleaving, stale entries and failing writes: no ID is returned twice without a free in between |
| ConcurrentFsm.TotalWhenSettled | diskann-garnet/src/fsm.rs:232-262 | whenever no thread is between its bit write and its count, the count is the number of used IDs |
| ConcurrentFsm.RefillsExclusive | diskann-garnet/src/fsm.rs:396-461 | a refill is under way if and only if it has the refill lock, failed reads included, so that refills never overlap; the list holds at most 1024 IDs, all handed out before |
| ConcurrentFsm.MarksInRange | diskann-garnet/src/fsm.rs:264-276 | in every interleaving a bit is set or cleared only of an ID that was handed out before |
| SoloCalls.AloneAnswers | diskann-garnet/src/fsm.rs:316-461 | a call of `next_id` during which no other thread moves, from any reachable state, returns the first listed ID that is free, else the lowest free one, else a new one; it leaves exactly that ID used, and the list, flag and count that go with it |
| SoloCalls.AloneTightIff | diskann-garnet/src/fsm.rs:316-461 | such a call mints only if it has to, if and only if every ID is used, or it searches and some ID within reach is free |
| SoloReturns.AloneReturnsIff | diskann-garnet/src/fsm.rs:316-491 | with the refill lock free such a call can return an ID if and only if the next block can be created, or it searches and some ID within reach is free |
| SoloCalls.AloneFrees | diskann-garnet/src/fsm.rs:216-276 | a `mark_free` during which no other thread moves frees, counts and lists the ID and raises the flag, or changes nothing; the latter if the ID was not in use |
| SoloReturns.AloneCanFree | diskann-garnet/src/fsm.rs:216-276 | of a used ID it can do the former, with a full list too |
| SoloReturns.AloneMayFail | diskann-garnet/src/fsm.rs:316-461 | each read and write of the store can fail; the call then leaves the bits and the count as they were and the lock free |
| SoloReturns.NewBlockMayStay | diskann-garnet/src/fsm.rs:355-359 | a mint can fail after it has created the block for its ID |
| SoloReturns.FreeMayFail | diskann-garnet/src/fsm.rs:232-244 | freeing a used ID can fail, and changes nothing then |
| MintCauses.MintsForCause | diskann-garnet/src/fsm.rs:316-362 | in every interleaving a call mints only if, during it, reuse was off, the flag was down, its own refill found nothing, or the list was empty after a refill |
| MintCauses.OneRefillPerPop | diskann-garnet/src/fsm.rs:321-352 | in every interleaving a call that has begun a refill does not begin another, or look at the list afresh, until it has taken an ID off the list |
| MintCauses.RefillRaisesFlag | diskann-garnet/src/fsm.rs:444-449 | in every interleaving the flag is up while a refill that found a free ID goes on |
| RunsDry.DryForever | diskann-garnet/src/fsm.rs:355-358 | once minting is a block ahead of the blocks there are, every ID that is handed out was handed out before |
| RunsDry.NothingUsedNothingLeft | diskann-garnet/src/fsm.rs:464-491 | failing writes can lead there with no ID in use and no call running |
| RefillWindows.AllUsedIff | diskann-garnet/src/fsm.rs:396-461 | when a refill that found nothing comes to lower the flag, every ID is used if and only if whatever was freed or lost since it read the bounds, and whatever lies in a block that could not be created, was handed out |
| FlagRace.HonestKept | diskann-garnet/src/fsm.rs:216-461 | every step that neither loses a mint nor lowers the flag keeps it truthful |
| FlagRace.LoweredHonestIff | diskann-garnet/src/fsm.rs:396-461 | lowering the flag leaves it truthful if and only if all that was taken or some free is still to raise the flag |
| FlagRace.HonestRunIff | diskann-garnet/src/fsm.rs:216-461 | the flag is truthful in every state of a run if and only if this holds of every refill in it that finds nothing, and every lost mint finds the flag up or about to go up |
| FlagRace.LoweredMeansUsed | diskann-garnet/src/fsm.rs:316-362 | with no call running, a lowered flag then means that every ID is used |
| FlagLost.FlagDownIdFree | diskann-garnet/src/fsm.rs:396-461 | a state with no call running, the flag down and a free ID in the list is reachable |
| Backfill.Covered | diskann-garnet/src/provider.rs:632-636 | every ID up to the highest is in the range of some task, for every number of tasks that run |
| BackfillRuns.LaunchedIff | diskann-garnet/src/provider.rs:622-630 | of the tasks asked for, those and only those run whose index is at most the highest ID |
| BackfillRuns.LaunchedCover | diskann-garnet/src/provider.rs:622-636 | however many are asked for, those that run cover every ID up to the highest |
| Backfill.WorkIsLeast | diskann-garnet/src/provider.rs:634-634 | the share of a task is the smallest with which the tasks reach every ID |
| Backfill.TaskExact | diskann-garnet/src/provider.rs:634-636 | a task whose start fits in 32 bits has exactly the IDs of its share, counted off from 0 |
| Backfill.DisjointIff | diskann-garnet/src/provider.rs:612-636 | the ranges are pairwise disjoint if and only if the last start fits in 32 bits |
| Backfill.WrapHappens | diskann-garnet/src/provider.rs:612-636 | a number of tasks for which they are not |
| BackfillRuns.Launches | diskann-garnet/src/provider.rs:595-712 | from a trained quantizer, with any number of tasks asked for, a schedule to the end of the backfill and the reuse of IDs |
| Calls.Inserts | diskann-garnet/src/provider.rs:1008-1068 | an insert without failures leaves its vector, its code if codes are written, and both mappings, under the ID it got, and nothing else changed |
| Calls.Deletes | diskann-garnet/src/provider.rs:1073-1116 | a delete without failures leaves none of them, frees the ID, and changes nothing else |
| Calls.InsertThenDelete | diskann-garnet/src/provider.rs:1008-1116 | inserting and deleting again leaves everything as it was but for the ID space |
| Calls.IdSpaceLost | diskann-garnet/src/provider.rs:1014-1014 | inserts that lose their new ID can use up the ID space from every state, with nothing else changed |
| ProviderProofs.RunInv | diskann-garnet/src/provider.rs:1008-1116 | ownership of IDs, stored data and codes are consistent in every state of every interleaving |
| ProviderProofs.MappingTheorem | diskann-garnet/src/provider.rs:1008-1116 | the stored mapping has exactly the external IDs with a vector and the stale ones; for the former the ID is used, nobody else's, holds the vector inserted and maps back |
| ProviderProofs.FoundIfPresent | diskann-garnet/src/provider.rs:1073-1116 | an external ID whose removal never failed is found exactly if it has a vector |
| ProviderProofs.HolderIsAlone | diskann-garnet/src/provider.rs:1073-1116 | the ID a running insert or delete works on is no other call's and nobody's mapping but the one being removed |
| ProviderProofs.QuantizedTheorem | diskann-garnet/src/provider.rs:595-715 | once the index goes quantized, a vector has its own code if and only if the backfill did not miss it, and otherwise none; likewise the start point |
| ProviderProofs.AllCodedWithoutFailure | diskann-garnet/src/provider.rs:595-715 | opened with no code missing and with no failing backfill operation, every vector and the start point have their own code, whatever was inserted, deleted and reused meanwhile |
| MissedSteps.CodeMissingIff | diskann-garnet/src/provider.rs:595-715 | a vector has no code if and only if the backfill failed on its ID at some step, or the index was opened so, and none was written since; a code it has is its own |
| ProviderProofs.NoEarlyReuse | diskann-garnet/src/provider.rs:664-712 | no ID is reused and no search goes quantized while a backfill task is running |
| ProviderProofs.OneTaskFinishes | diskann-garnet/src/provider.rs:664-669 | in any finishing order at most one task sees that it was the last, and once all are done one has |
| TrainingBlocked.BarredForever | diskann-garnet/src/provider.rs:497-549 | once storing the trained quantizer failed, or a leaked ID has too few vectors below it or too few IDs are left, and no visit under way can still find enough, the index is never quantized and never reuses an ID, in every continuation, of careful callers and of others |
| TrainingBlocked.ReopenedBarred | diskann-garnet/src/provider.rs:497-549 | a leaked ID with too few vectors below it bars the index opened again as well |
| Settling.RestedVisitable | diskann-garnet/src/provider.rs:513-543 | once running calls are at rest and stranded deletes repeated, every used ID without a vector has enough readable ones below it, if no leaked one has too few |
| Settling.AllRest | diskann-garnet/src/provider.rs:1008-1116 | running calls can be brought there without losing a vector or a mapping in force; only stale mappings are dropped, with the IDs they led to, and only if callers repeat deletes |
| TrainingVisits.VisitSucceeds | diskann-garnet/src/provider.rs:508-548 | a visit of an index at rest reads enough, from wherever it is, if it will before it comes to an ID without a vector and before its end |
| MissedCode.CodesLost | diskann-garnet/src/provider.rs:641-712 | from every reachable state that has no codes yet and can come to be quantized, a schedule after which it is and none of its vectors has a code |
| MissedCode.CodeLost | diskann-garnet/src/provider.rs:641-712 | for every index that needs training, for any number of vectors that there are IDs for, and every vector, a run after which the index is quantized and the vector has no code |
| TowardsReuse.ReuseComes | diskann-garnet/src/provider.rs:497-715 | a schedule to the reuse of IDs, if they are reused, or the quantizer is trained, or training can still succeed; it keeps every mapping in force, vector and code and every delete that has not unmapped |
| TowardsReuse.ReuseIff | diskann-garnet/src/provider.rs:497-715 | from every reachable state, with careful callers or any, reuse can come if and only if it is on, the quantizer is trained, or training can still succeed: it was not in vain, and has read enough, or the visit under way or a new one can |
| TowardsReuse.LeakBars | diskann-garnet/src/provider.rs:1106-1109 | one insert and one delete that cannot free its ID bar training for good, whatever callers do |
| TowardsReuse.RunVisitFits | diskann-garnet/src/provider.rs:508-543 | in every state of every run a training visit has no more vectors than training has room for, and the bits of one block only |
| TowardsReuse.UnstoredBars | diskann-garnet/src/provider.rs:564-582 | from every reachable state in which training can succeed, it can also do so in vain, and bar the index for good |
| HandOver.FlagNeverStored | diskann-garnet/src/provider.rs:695-708 | from every reachable state in which quantized operation can come, it can also be lost for good, with the backfill done and IDs reused |
| HandOver.FinalForever | diskann-garnet/src/provider.rs:695-708 | once the flag could not be stored, or without a quantizer, the index never operates on quantized vectors while it is open |
| HandOver.HandOverIff | diskann-garnet/src/provider.rs:497-715 | from every reachable state, with careful callers or any, quantized operation can come if and only if it has, or the quantizer is trained or can still be and the flag has not failed to be stored |
| UnsafeDeletes.OverlapLosesVector | diskann-garnet/src/provider.rs:1073-1116 | from every reachable state from which reuse can come, two deletes that both look up one ID can lose any other ID's vector |
| UnsafeDeletes.FailedUnmapAliases | diskann-garnet/src/provider.rs:1083-1087 | from every such state, a delete that cannot remove its mapping can leave it pointing at any other ID's vector |
| UnsafeDeletes.RepeatedDeleteLosesVector | diskann-garnet/src/provider.rs:1073-1116 | and repeating that delete can then lose that vector |
| WithoutReuse.NothingLostWithoutReuse | diskann-garnet/src/provider.rs:1073-1116 | in an index opened with harmless stale mappings or none, as long as no ID is reused, whatever deletes look up and whenever, every external ID with a vector is mapped to an ID of its own that holds it |
| WithoutReuse.LostIffStaleHarms | diskann-garnet/src/provider.rs:1073-1116 | if callers repeat deletes, an opened index can lose a vector before IDs are reused if and only if some stale mapping leads to the ID of a vector or to one still to be handed out |
| WithoutReuse.StaleAboveAfterOpening | diskann-garnet/src/fsm.rs:160-213 | a delete that cannot remove its mapping and frees the highest ID leaves, once the index is opened again, a stale mapping to an ID still to be handed out |
| Adjacency.AppendExtends | diskann-garnet/src/provider.rs:907-947 | an append keeps the old list as a prefix, adds new IDs in their order, within the degree and without repetitions |
| Adjacency.AppendUnion | diskann-bftree/src/neighbors.rs:248-273 | the result is exactly the union if that fits, and otherwise a list of maximum degree |
| Adjacency.AppendTwice | diskann-bftree/src/neighbors.rs:248-273 | appending in two goes equals appending once |
| GarnetNeighbors.AppendInPlace | diskann-garnet/src/provider.rs:907-947 | the in-place edit of the record is the append of the list it encodes, it stops early exactly if the list fills up with IDs left over, and it leaves an overlong record alone |
| GarnetNeighbors.AppendCoherent | diskann-garnet/src/provider.rs:907-947 | an append keeps the cached list a prefix of the stored one, and equal to it while that is not full |
| GarnetNeighbors.CacheStaysExact | diskann-garnet/src/provider.rs:907-947 | an exact cache stays exact if and only if the append does not stop early or the list was full |
| GarnetNeighbors.CacheGoesStale | diskann-garnet/src/provider.rs:907-947 | an append after which it is not |
| GarnetNeighbors.LengthReadAsNeighbor | diskann-garnet/src/provider.rs:876-885 | a list one ID too long that is read otherwise than it was set |
| GarnetNeighbors.NeighborLists.SetStartPoint | diskann-garnet/src/provider.rs:324-419 | creates or loads the start point's list and makes the cache equal to what a read gives; fails exactly if the vector is there and the list is not |
| GarnetNeighbors.NeighborLists.SetNeighbors | diskann-garnet/src/provider.rs:876-905 | for lists of every length: panics exactly above one more than the degree; the stored list is the given one if and only if it is within the degree, whatever the scratch buffer held, and what is read otherwise; other vertices keep theirs; the cache follows |
| GarnetNeighbors.NeighborLists.AppendVector | diskann-garnet/src/provider.rs:907-947 | the stored list becomes the append of the old one; other vertices keep theirs; the cache stays coherent |
| GarnetNeighbors.NeighborLists.GetNeighbors | diskann-garnet/src/provider.rs:846-874 | returns the stored list, or for the cached start point a prefix of it that is all of it while it is not full; what it returns for an overlong record |
| Bytes.BytesWeigh | diskann-bftree/src/neighbors.rs:363-368 | the four bytes of a length weigh 1, 256, 65536 and 16777216 |
| BfTreeNeighbors.LenRoundTrip | diskann-bftree/src/neighbors.rs:363-378 | a length survives the round trip through a cell of any width, whose other bytes are zero |
| BfTreeNeighbors.AppendTo | diskann-bftree/src/neighbors.rs:248-273 | the append loop computes the common append, and reports growth exactly when the list changed |
| BfTreeNeighbors.ReadExact | diskann-bftree/src/neighbors.rs:94-173 | a read gives a list if and only if the entry is absent, empty or a record that starts with that list and ends with its length |
| BfTreeNeighbors.NeighborProvider.GetNeighbors | diskann-bftree/src/neighbors.rs:94-173 | the same of the provider's tree; deleted and malformed entries are errors |
| BfTreeNeighbors.NeighborProvider.SetNeighborsInternal | diskann-bftree/src/neighbors.rs:192-215 | a later read gives exactly the list that was written, whatever the buffer held; fails on a short buffer and then changes nothing |
| BfTreeNeighbors.NeighborProvider.SetNeighbors | diskann-bftree/src/neighbors.rs:229-237 | the same, and refuses lists above the maximum degree |
| BfTreeNeighbors.NeighborProvider.AppendVector | diskann-bftree/src/neighbors.rs:248-273 | a later read gives the common append of the old list; other vertices keep theirs |
| BfTreeNeighbors.NeighborProvider.DeleteVector | diskann-bftree/src/neighbors.rs:275-279 | reads of the vertex fail afterwards; other vertices keep their lists |
| BfTreeNeighbors.RunAll | diskann-bftree/src/neighbors.rs:281-310 | after any sequence of writes, appends and deletes through one accessor and its dirty buffer, each vertex reads as replaying the sequence on plain lists gives |
| StripedLocks.NewTable | diskann-bftree/src/locks.rs:28-42 | the smallest power of two of at least 64 stripes and four per core, with the matching shift |
| StripedLocks.StripeInBounds | diskann-bftree/src/locks.rs:45-55 | every ID's stripe is in the table, for every table that can be built |
| StripedLocks.EveryStripeUsed | diskann-bftree/src/locks.rs:45-47 | every stripe of every table is some ID's |
| StripedLocks.NeighboursApart | diskann-bftree/src/locks.rs:45-47 | consecutive IDs never share a stripe |
| LockedWrites.WriteForgets | diskann-bftree/src/neighbors.rs:229-237 | an accepted write makes the list what it says, whatever came before |
| LockedWrites.RefusedWrite | diskann-bftree/src/neighbors.rs:229-237 | a write above the maximum degree might as well not have been asked for |
| LockedWrites.OwnedIff | diskann-bftree/src/locks.rs:49-55 | a stripe is taken if and only if some thread is past its lock, and then by that thread |
| LockedWrites.CanFinish | diskann-bftree/src/locks.rs:49-55 | from every reachable state an operation that waits for its lock can come to be done, next in the lock order |
| LockedWrites.Serializable | diskann-bftree/src/neighbors.rs:229-273 | whenever nobody is between lock and write, a vertex's list is what its operations give one after the other in lock order, refused writes included |
| LockedWrites.Exclusive | diskann-bftree/src/locks.rs:45-55 | no two threads are inside the same stripe |
| LockedWrites.NoEdgeLost | diskann-bftree/src/neighbors.rs:248-273 | concurrent appends lose no edge: the list holds exactly the distinct IDs brought if they fit, and is full otherwise |
| IndexReady.InitExclusive | diskann-garnet/src/lib.rs:552-589 | no two threads run the initialiser at once |
| IndexReady.SucceedsOnce | diskann-garnet/src/lib.rs:552-589 | initialisation succeeds at most once, and none is started after that |
| IndexReady.WordTells | diskann-garnet/src/lib.rs:552-589 | the state word says that the start point is being set if and only if some thread is in charge of it, however many have failed |
| IndexReady.CanInitialise | diskann-garnet/src/lib.rs:552-589 | while none has succeeded and nobody is in charge, any caller can come to start an initialisation and be let through, however many failed before |
| IndexReady.CanPass | diskann-garnet/src/lib.rs:552-589 | from every reachable state any caller can come to be let through, whoever is in charge |
| IndexReady.ErrorIsOwn | diskann-garnet/src/lib.rs:570-578 | a caller gets an error only if its own initialiser failed |
| IndexReady.LetThroughWhenReady | diskann-garnet/src/lib.rs:552-589 | a caller is let through only when the index is ready, which it stays, and some initialisation succeeded before |
| StartPoint.CanSucceedIff | diskann-garnet/src/provider.rs:324-419 | some sequence of attempts sets the start point if and only if all its records are stored, or ID 0 can be had; a stored vector may fail to be read |
| StartPoint.RestartIff | diskann-garnet/src/fsm.rs:160-213 | opening the index again makes it possible if no ID is used, and changes nothing else |
| StartPoint.FailedWriteIsFinal | diskann-garnet/src/provider.rs:366-405 | an attempt on a new index that fails on a write after it got ID 0 leaves no later one a chance, opened again or not |
| StartPoint.AnyWriteMayFail | diskann-garnet/src/provider.rs:366-405 | each write of an attempt can fail, and leaves ID 0 used with what was written before |
| StartPoint.AnotherGivenBack | diskann-garnet/src/provider.rs:365-370 | an attempt that gets another ID gives it back, or leaves it used if that fails |
| SearchResults.EntryAt | diskann-garnet/src/lib.rs:165-173 | every result is written right behind those before it: the length of its ID in four bytes, least first, then the ID |
| SearchResults.ParseRoundTrip | diskann-garnet/src/ffi_recall_tests.rs:124-144 | a client reads back exactly the IDs written, in order |
| SearchResults.Buffers.Push | diskann-garnet/src/lib.rs:156-180 | a result is written whole or not at all, exactly if it fits both buffers, and nothing behind it is touched |
| SearchResults.Buffers.Extend | diskann-garnet/src/lib.rs:186-199 | the results written are the longest prefix that fits |
| RandomMembers.RandomMembers | diskann-garnet/src/provider.rs:717-764 | returns distinct IDs that have an external one, as many as asked for, or as are used, or as there are, whichever is fewest, unless one left over does not fit the buffers; they are the first that come up in the samples |
| RandomMembers.FirstBatchScales | diskann-garnet/src/provider.rs:730-735 | the first sample is the smallest that holds enough IDs at the density of live ones, between one ID and all |
| RandomMembers.DrawnWithin | diskann-garnet/src/provider.rs:737-761 | since samples double, all of them together are at most three times the ID space |
| Recall.RowOverlap | diskann-benchmark-core/src/recall.rs:218-268 | one query's hits: the IDs among its first `n` results that are among its first `k` neighbours or tied with the last of them, but no more than count |
| Recall.HitsOneMore | diskann-benchmark-core/src/recall.rs:253-261 | no result is no hit; one more result is one more hit if and only if it is wanted, new, and not all that count were hit |
| Recall.MeanOneMore | diskann-benchmark-core/src/recall.rs:270-293 | every query with true neighbours weighs the same in the average, and one without changes nothing |
| Recall.Knn | diskann-benchmark-core/src/recall.rs:146-301 | the grouped sums over all rows give the mean of the rows' recalls; which error is returned, and when |
| Recall.RecallInUnit | diskann-benchmark-core/src/recall.rs:283-293 | the recall is between zero and one |
| Recall.RecallMonotone | diskann-benchmark-core/src/recall.rs:218-268 | counting ties or looking at more results never lowers the recall |

## Left out

- The foreign function interface, its raw memory, the callbacks' key layout and logging.
- What training computes, compression, distances and vector conversion: compression is a function the model is given.
- Graph search, pruning and insertion of edges by the index, and the filtered and paged searches.
- The tree behind the Bf-Tree provider, its snapshots and its vector and quantized tables.
- The in-memory epoch-based providers, the disk index and the benchmark plumbing around recall.
- Attributes, which are one more term written and deleted beside the others.
- A restart between training and the end of the backfill, and what is stored to recognise it.
- What follows for a provider whose start point could not be set; its runs begin with the start point in place, and StartPoint says when that can be had.
- The check of `remove` that the ID it found is in use, made before the delete looks it up again; every delete of the schedules here would pass it.
- Failing memory allocations.
- Weak memory orderings: every atomic operation takes effect at once for all threads.
- FreeSpaceMaps.FreeSpaceMap.NextId: in the sequential class the store's reads and writes succeed and IDs stay below 2^32 - 1, where the code's counter would overflow; failing writes are in ConcurrentFsm.
- FreeSpaceMaps.FreeSpaceMap.VisitUsed: the visitor is a function of the IDs visited so far, not a closure with state of its own.
- FreeSpaceMaps.FreeSpaceMap.constructor: the stored blocks have no gap and no used ID 2^32 - 1, as the map itself writes them.
- FsmRuns.RunFresh: fewer than 2^32 - 1 operations, so that no ID overflows.
- SoloReturns.AloneReturnsIff: for states in which nobody holds the refill lock; while someone does, a call that comes to need it waits.
- ConcurrentFsm.RunRefines: bits are a set of IDs, the read-modify-write of one block is one step as Garnet makes it, and minting under its lock is one step.
- ProviderProofs.MappingTheorem: no delete starts on a stale mapping, or on a mapping that another delete has looked up and not yet removed; internal IDs stay within 32 bits.
- ProviderProofs.QuantizedTheorem: inserts and deletes of the edges of a vector are not part of this state machine; a task's failed read of a present vector counts as a miss.
- GarnetNeighbors.NeighborLists.SetNeighbors: for a store whose read-modify-write succeeds; a failing one changes nothing and returns an error.
- GarnetNeighbors.NeighborLists.AppendVector: for a store whose read-modify-write succeeds; a failing one changes nothing and returns an error.
- BfTreeNeighbors.NeighborProvider.GetNeighbors: keys the tree itself calls invalid are not modelled.
- GarnetNeighbors.NeighborLists.SetStartPoint: the adjacency list only, run by one thread as IndexReady.InitExclusive shows.
- SearchResults.EntryAt: on machines that store the least byte first, whose order the code takes.
- SearchResults.Buffers.Push: for IDs shorter than 2^32 bytes.
- RandomMembers.RandomMembers: the sampler returns distinct indices in range and the IDs with an external one do not change meanwhile; an external ID it returns may be one that a failed insert left behind, without a vector.
- Recall.Knn: distances and results are reals and counts, without floating-point rounding or NaN; of the metrics only the average is returned.
