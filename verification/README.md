# Verification of the hierarchical-heap runtime

A Dafny model of the hard parts of the runtime of a parallel ML (`runtime/gc`),
with proofs. `dafny verify dfyconfig.toml` checks everything. Lock-free code is
modelled as a machine whose steps are the single shared reads, writes and
compare-and-swaps, sequentially consistent, interleaved arbitrarily; the
guarantees hold for every run. Code that updates objects in place is a class
whose methods are tied to the machine or to a specification function.

## The parts

**Entanglement detector** (`PathWords`, `ForkJoin`, `DecheckIds`, `Decheck`,
`DecheckRun`). `ForkJoin` is the fork/join calling protocol on plain paths, with
a history that is the series-parallel dag: fork, steal (the sync depths are
copied for the right child's thread entry by entry, in any order, while the
forking thread runs on), set-tid, join with the right child's thread, and join
with a right child that never started. It proves that the test
on a thread-local array decides reachability in the dag, and that the array
always agrees with the global table of sync depths. `DecheckIds` does the same on
the packed 32-bit ids (path bits with junk above the tree depth; tree depth in
five bits, dag depth in twenty-seven), `Decheck` is the thread record with the
C functions as methods, and `DecheckRun` runs the protocol on packed ids and
carries the theorems over. A fork needs tree depth below 30, as the scheduler
guards it, and dag depth below 2^27 - 1.

**Epoch-based reclamation** (`Ebr`, `EbrShared`, `EbrProgress`). Announcements may
be arbitrarily stale, since the epoch is read long before it is announced. The proof
goes through "during the scan of an epoch every processor was observed quiescent
or announcing that epoch", and three limbo bags. `EbrProgress` is the other half:
one processor alone raises the epoch and frees what it has retired, however long
the others stay quiescent.

**Work-stealing deque and the collector's claim** (`AbpDeque`, `DequeBook`,
`DequeCalls`). The log holds sequential deque operations, each entered where it
takes effect; every run of the machine replays as a run of a sequential deque.
`DequeBook` follows each pushed task by the position of its push. `DequeCalls` is
the deque object with the C functions as methods, other processors acting
between any two accesses, and the collector's claim loop, forwarding of the
claimed slice and release on top. The index in the packed top has six bits: it
survives packing exactly up to 63 (`PackIsExact`).

**Union-find of heaps** (`Dependants`, `LevelHeads`, `Zip`). Linked heaps and
union-find nodes as objects: the pointer-inverting traversal that releases all
dependants, lookup with and without path compression, and the zip of two heap
chains.

**Sub-heaps under concurrent collection** (`CcChains`, `CcPending`, `CcLinks`, `CcMemory`,
`CcZip`).
`CcChains` is their bookkeeping on values, over whole runs; `CcPending` follows the
sub-heaps whose collection is outstanding through them. `CcLinks` has the
operations on the records that point at each other, with the cursor of the
merging loop. `CcMemory` is all heaps in memory, with every step of such a run as a
method: whatever is called, in whatever order, is a run of `CcChains` on linked
records. `CcZip` is the part of the zip
that links the chains of two heaps at one depth.

**Concurrent collector** (`ObjectFields`, `CcWorkList`, `CcTrace`,
`ConcurrentCollection`). Where the pointer fields of an object are; the
cursor worklist with its chunks, against the plain field enumeration; marking
from the roots, which moves chunks to the list of kept ones; the second trace,
which erases the marks; what is freed. What is reached is a least closed set in
the proofs, and the end of a path from a root in the result.

**Local copying collector** (`LocalCopy`, `LocalCollection`, `ToSpace`). The non-concurrent
phase: forwarding the roots, then one sweep from the deepest level to the
shallowest, over a heap in which pinned objects and those traced before stay in
place and single-object chunks move without copying. The heap that is left may be
collected again. `ToSpace` is a level's list as
it lies in memory: where a new chunk begins, objects behind one another in linked
chunks, and the scan that follows them.

**Block allocator** (`SuperBlocks`, `BlockAllocator`, `SuperBlockLists`). One
processor's superblocks with their free lists and tails, filed by size class and
fullness, and the lock-free stack of blocks that other processors have freed;
then the doubly linked lists in memory, whose operations implement the machine's.

**Header word and lock** (`Pinning`, `Dekker`). Pinning, unpinning and
relocation racing on one header word, with what was asked for kept through all
forwarding, and each of the three done when nobody interferes; the two-sided lock,
with what it excludes, who may be overtaken, and that somebody goes in.

## Where the code does less than its texts say

- Setting the depth of a deque computes the tag in 32 bits, so it is cut to 26
  bits. The tag goes up exactly while tag + 1 < 2^26 (`DepthTagGoesUp`); a run
  from the start goes past that, and then a thief that slept through takes a task
  from an empty deque (`DepthTagWraps`). The machine's set-depth step has that
  bound as its guard.
- The lock is fair to a side that has its flag up and the turn exactly if it has
  not decided to lower its flag, or the other side is itself blocked, lowering its
  flag or waiting; otherwise it can be overtaken any number of times
  (`OvertakingExactly`), and both kinds are reached (`YieldingIsOvertaken`,
  `HeldIsReached`).
- The fullness groups of superblocks are described by the part in use, but the
  code compares the free part. With a fraction e below one half it files a partly
  used superblock as described exactly if its free part is strictly between e and
  1 - e, otherwise exactly if it is between 1 - e and e (`FullnessAsDocumented`,
  `NearlyFullIsMostlyFree`). The search is right all the same
  (`SearchFindsRoom`, `SearchFindsAll`).
- A thief that fails may have met a non-empty deque. It turns back from one
  exactly if its top is current and the owner has lowered the bottom to the one
  task left and not yet decided, or the tag has changed and the bottom is not
  above the old index (`TurnsBackExactly`; runs in `TurnsBackFromUndecided` and
  `TurnsBackFromOldTop`); it loses its swap exactly if the tag has changed or the
  element has been taken (`LosesSwapExactly`).

## Model

| member | source | states |
|---|---|---|
| ForkJoin.OrderedIsReachability | runtime/gc/decheck.c:292-316 | In every run of the protocol, for every thread that runs and every vertex executed so far, the order test answers true if and only if that vertex equals or precedes the thread's current vertex in the dag |
| ForkJoin.SyncDepthsAreGlobal | runtime/gc/decheck.c:143-156 | In every run, entry i of a running thread's sync depths is the global sync depth of the length-i prefix of its path, for all i up to its tree depth, although each entry was copied at a moment of its own |
| ForkJoin.CopyEntryOk | runtime/gc/decheck.c:611-635 | Whenever it is copied, and however far the forking thread has run below its left child, an entry for an ancestor of the stolen task is the one the stolen task needs |
| ForkJoin.RunKeepsInv | runtime/gc/decheck.c:96-206 | Every run of fork, steal, copying, set-tid and both joins keeps the invariant that ties histories, the global table, thread-local arrays and unfinished copies |
| DecheckIds.ForkView | runtime/gc/decheck.c:96-116 | The packed ids computed by a fork stand for the two child paths, one longer, with dag depth one more, whatever junk the parent's path word holds |
| DecheckIds.ForkNorm | runtime/gc/decheck.c:112-116 | The runtime's own assertion: the normalised words of both children differ in exactly the bit of the fork |
| DecheckIds.JoinView | runtime/gc/decheck.c:180-196 | The packed id computed by a join stands for the common parent path with dag depth one more than the deeper child's |
| DecheckIds.NormPathIsPath | runtime/gc/decheck.c:70-73 | Two ids have the same normalised path word if and only if they stand for the same path |
| DecheckIds.LcaIsCommonPrefix | runtime/gc/decheck.c:293-312 | The lowest set bit of the masked difference sits at the length of the longest common prefix of the two paths, equal paths and prefixes included |
| DecheckIds.LcaHeapDepthIsCommonPrefix | runtime/gc/decheck.c:271-289 | The heap depth of the lowest common ancestor is one more than the length of the longest common prefix |
| DecheckIds.IsOrderedView | runtime/gc/decheck.c:293-316 | The bit-level order test agrees with the order test on paths |
| Decheck.LcaLen | runtime/gc/decheck.c:230-241 | The bit-by-bit loop answers the length of the longest common prefix of the two normalised words, computed by recursion on their bits |
| Decheck.MsbPosition | runtime/gc/decheck.c:220-228 | The loop answers the position of the highest set bit |
| Decheck.LcaLenIsBitIndex | runtime/gc/decheck.c:309-310 | The runtime's own assertion: the bit trick and the bit-by-bit loop agree |
| Decheck.GCThread.DecheckFork | runtime/gc/decheck.c:96-123 | Answers the two child ids and leaves the thread alone |
| Decheck.GCThread.DecheckSetTid | runtime/gc/decheck.c:143-156 | Sets the thread's id and the entry of its sync depths at the id's tree depth, nothing else |
| Decheck.GCThread.DecheckJoin | runtime/gc/decheck.c:180-206 | Sets the joined id and the entry at its tree depth, nothing else |
| Decheck.GCThread.CopySyncDepthsFrom | runtime/gc/decheck.c:611-635 | Copies all entries of the other thread, or none and reports failure if and only if the steal depth is out of range |
| Decheck.GCThread.DecheckIsOrdered | runtime/gc/decheck.c:293-316 | Answers the bit-level order test for the thread's id and sync depths |
| DecheckRun.RunSim | runtime/gc/decheck.c:96-206 | Every run on packed ids is a run on paths, state by state |
| DecheckRun.DetectorIsExact | runtime/gc/decheck.c:292-316 | In every run on packed ids, for every thread that runs, the detector answers true for the id of an executed vertex if and only if that vertex equals or precedes the thread's current one in the dag |
| DecheckRun.SyncDepthsMatchTable | runtime/gc/decheck.c:143-156 | In every run on packed ids the thread's entry for an ancestor's path equals the global table's, the assertion made at every set-tid, join and order test |
| Ebr.GracePeriod | runtime/gc/ebr.c:45-78 | In every interleaving whatever is freed was retired earlier by the same processor, and every processor that was in an operation at that retirement has since entered quiescence or read the epoch again |
| Ebr.EachFreedOnce | runtime/gc/ebr.c:136-168 | In every interleaving the pointers a processor retired are exactly those it freed and those in its limbo bags, each once |
| Ebr.RunKeepsInv | runtime/gc/ebr.c:103-134 | Every interleaving keeps the invariant: epochs are never ahead, scans have observed whom they count, bags hold what their age allows, the grace period of every retirement is over two epochs later |
| EbrProgress.EpochRises | runtime/gc/ebr.c:122-131 | From any reachable state: when a processor has made as many calls as there are processors and one more, while all others were quiescent or announced the epoch, the epoch has risen, and after one call more it has announced a later one |
| EbrProgress.RetiredIsFreed | runtime/gc/ebr.c:103-134 | Whatever a processor has retired is freed when three such stretches are over, whatever happens before and between them |
| EbrProgress.AloneMakesStretch | runtime/gc/ebr.c:103-134 | From any reachable state in which all others are quiescent a processor alone makes such a stretch of any number of calls, in at most five steps a call |
| EbrCalls.EbrShared.LeaveQuiescentState | runtime/gc/ebr.c:103-134 | Whatever the others do meanwhile, the call performs one load of the epoch, one rotation step, one observation, at most one attempt to advance and one announcement of the epoch it read; it attempts exactly if the processor it looked at was quiescent or announced that epoch at that moment and all have been seen, the counter starting over in a new epoch; after an attempt the global epoch has passed the one read |
| EbrCalls.EbrShared.EnterQuiescentState | runtime/gc/ebr.c:45-49 | Sets the quiescent bit of the own announcement and nothing else |
| EbrCalls.EbrShared.RotateAndReclaim | runtime/gc/ebr.c:51-78 | Moves to the next bag, frees its pointers in order, each once, and empties it |
| EbrCalls.EbrShared.Retire | runtime/gc/ebr.c:136-168 | The retired pointer joins the current limbo bag and nothing else changes |
| EbrCalls.EbrShared.Legal | runtime/gc/ebr.c:108-111 | The runtime's own assertion: announced and read epochs are never ahead of the global one |
| EbrCalls.ScanCounterBounded | runtime/gc/ebr.c:122-131 | In every interleaving the scan counter never exceeds the number of processors, so its 32 bits do not wrap |
| AbpDeque.RefinesDeque | runtime/gc/abp-deque.c:8-142 | In every interleaving of one owner and any thieves the operations in the order they take effect are a run of the sequential deque ending in the current contents, and neither sanity abort is reached |
| AbpDeque.DoKeepsInv | runtime/gc/abp-deque.c:41-142 | Every single access of owner, thief or collector keeps the invariant: thieves' tops are never ahead, one whose top is current aims at a live element, lost pops leave an empty deque |
| AbpDeque.TurnsBackExactly | runtime/gc/abp-deque.c:121-129 | A thief turns back from a deque that is not empty exactly if its top is current and the owner is undecided about the one item left, or the tag has changed and the bottom is not above the old index |
| AbpDeque.LosesSwapExactly | runtime/gc/abp-deque.c:131-140 | A thief loses its swap exactly if the owner has changed the tag since or its element has been taken, and with something left exactly if top has moved and is below the bottom |
| AbpDeque.ThiefTurnsBack | runtime/gc/abp-deque.c:121-129 | Between operations of the owner and without a change of tag a thief turns back only on an empty deque, and with a current top exactly then |
| AbpDeque.TurnsBackFromUndecided | runtime/gc/abp-deque.c:57-64 | A run from the start in which a thief turns back from one task while the owner has lowered the bottom and not yet read top |
| AbpDeque.TurnsBackFromOldTop | runtime/gc/abp-deque.c:121-129 | A run from the start in which a thief that read top before the depth was set back turns back from a task |
| AbpDeque.DepthTagGoesUp | runtime/gc/abp-deque.c:158-160 | The 32-bit tag of set-depth goes up if and only if tag + 1 < 2^26 |
| AbpDeque.DepthTagWraps | runtime/gc/abp-deque.c:158-160 | There is a run from the start, setting the depth to and fro, after which setting it once more lets a thief that slept through take from the empty deque an element popped long before |
| DequeBook.DequeConserves | runtime/gc/abp-deque.c:8-142 | In every interleaving every pushed task is waiting, claimed or taken, exactly one of these and once, and the deque holds them in the order of their pushes |
| DequeBook.EveryRunTakesInOrder | runtime/gc/abp-deque.c:41-142 | In every run a thief takes the oldest task there is, the owner the youngest unclaimed one, each with the element now in the deque; a pop fails only on an empty deque |
| DequeBook.ClaimThenRelease | runtime/gc/hierarchical-heap-collection.c:254-264 | For every run between claim and release: the bottom is back where it was and the deque holds exactly the tasks it held before the claim, in order, less those stolen meanwhile |
| DequeBook.ClaimedAreNotStolen | runtime/gc/hierarchical-heap-collection.c:254-264 | For every run between claim and release, whatever a thief then takes is the oldest task below the claimed levels, none of the claimed ones, and those stay claimed |
| TopWords.PackUnpack | runtime/gc/local-scope.h:12-16 | Tag and index survive packing for indices up to 63, with the wrap-around of the 64-bit and of the 32-bit packing |
| TopWords.ShiftIsTimes | runtime/gc/local-scope.h:14-16 | On machine words the shift-and-or packing is the arithmetic one and unpacks to its parts |
| DequeCalls.AbpQueue.PushBot | runtime/gc/abp-deque.c:8-28 | Whatever thieves do meanwhile: refused if and only if the bottom is at the end, otherwise one push of the element |
| DequeCalls.AbpQueue.TryPopBot | runtime/gc/abp-deque.c:41-107 | Whatever thieves do meanwhile: one pop of the returned element, or one pop of an empty deque and the fail value, with the bottom back in place; the assertions about a corrupted top and an invalid pop hold |
| DequeCalls.AbpQueue.TryPopTop | runtime/gc/abp-deque.c:110-142 | Whatever owner and other thieves do meanwhile: one theft of the returned element, or none and the fail value; it fails exactly if in its last step it turned back or lost its swap |
| DequeCalls.AbpQueue.SetDepth | runtime/gc/abp-deque.c:145-188 | Dies if and only if the deque is not empty, otherwise leaves it empty at the desired depth, never showing an element between its two stores |
| DequeCalls.AbpQueue.ClaimScope | runtime/gc/hierarchical-heap-collection.c:254-264 | At every turn of the claim loop and after it the bottom equals the minimum depth, exactly the tasks from there up have been claimed, one pop each, and the loop stops short of its goal only by a pop that fails, with the top index where the claim ended |
| DequeCalls.AbpQueue.TryClaimLocalScope | runtime/gc/local-scope.c:7-16 | Claims by popping: the bottom goes down by one if and only if it succeeds |
| DequeCalls.AbpQueue.ForwardSlice | runtime/gc/hierarchical-heap-collection.c:593-599 | Every claimed task is replaced by its forwarded self, once, while thieves go on below |
| DequeCalls.AbpQueue.ReleaseLocalScope | runtime/gc/local-scope.c:18-21 | One store gives the claimed tasks back behind those still there |
| DequeCalls.AbpQueue.CollectLocal | runtime/gc/hierarchical-heap-collection.c:231-286 | With the bottom at the current depth it claims each task from the answered minimum depth up, has a failed pop exactly if that is short of the goal, forwards those claimed exactly if the goal is not beyond the bottom and level 0 was not claimed, and releases; otherwise it does nothing; in particular it collects whenever the goal is between 1 and the bottom; the bottom is what it was and nothing else changes |
| Dependants.FreeAllDependants | runtime/gc/hierarchical-heap.c:1281-1361 | Terminates, releases every dependant exactly once, numDependants of them, never the heap's own node, and leaves the heap without dependants; no node is used after its release, which may overwrite it |
| Dependants.LinkInto | runtime/gc/hierarchical-heap.c:1370-1396 | The right node with both trees below it becomes the left heap's tree of dependants, and numDependants and heightDependants are exactly its size and height |
| Dependants.SizeIsCount | runtime/gc/hierarchical-heap.h:21-47 | A tree of distinct dependants has as many nodes as its size says |
| LevelHeads.GetLevelHead | runtime/gc/chunk.c:506-516 | Following representatives from a chunk ends at its root's heap |
| LevelHeads.GetLevelHeadPathCompress | runtime/gc/chunk.c:518-552 | The same answer; no node's root changes, the chunk and every node on its path point straight at the root, and no other node changes |
| Zipping.Zip | runtime/gc/hierarchical-heap.c:201-308 | Zipping two strictly sorted chains of heaps gives one strictly sorted chain; at each depth it has the first heap's chunks and then the second's, their sizes added, their dependants added plus one if both were there; no chunk is lost or doubled, the total size is kept, and every chunk leads to the heap whose list it is on |
| Zipping.ZipIsUnion | runtime/gc/hierarchical-heap.c:223-261 | The united levels are strictly sorted, and at each depth are the first chain's level with the second's behind it: chunk lists in that order, sizes added, dependants added plus one |
| Zipping.ZipKeepsChunks | runtime/gc/hierarchical-heap.c:223-261 | Zipping keeps every chunk as often as it was there, and the total size |
| Zipping.MergeLevel | runtime/gc/hierarchical-heap.c:229-249 | Uniting two heaps at one depth gives the first the second's chunks behind its own, both sizes and all dependants and one more, and keeps the forest of representatives, every other heap, and the lookup of every chunk |
| Zipping.FindHeap | runtime/gc/chunk.c:506-516 | After a zip, looking up a chunk gives the heap whose list it is on |
| Zipping.FindHeapCompressing | runtime/gc/chunk.c:518-552 | After a zip, looking a chunk up with path compression gives its heap and keeps all heaps as they stand |
| CcChains.RunKeepsWorld | runtime/gc/hierarchical-heap.c:41-77 | In every run of split, start, finish, merge, promote and join the chains of every primary are as asserted, every sub-heap is on exactly one chain once at its primary's depth, and no chunk is lost or doubled |
| CcPending.OnlyCollectionsFinish | runtime/gc/hierarchical-heap.c:702-833 | In every run the outstanding sub-heaps, with their chunks and states, are changed by splitting, starting and finishing a collection only, each in the one record it is about; merging, promoting and joining leave all of them as they are |
| CcPending.MergePending | runtime/gc/hierarchical-heap.c:740-833 | Merging takes exactly the finished sub-heaps off the chain of outstanding ones |
| CcMemory.HeapTable.AlwaysWellFormed | runtime/gc/hierarchical-heap.c:41-77 | Whatever operations have been called on the heaps in memory, all chains of all heaps are ended, as asserted and apart from each other, no record is on two of them, and no chunk is lost or doubled |
| CcMemory.HeapTable.SplitHeap | runtime/gc/hierarchical-heap.c:702-737 | Called on any heap in memory it is the split step of the run, on the linked records, and every other heap stands as it did |
| CcMemory.HeapTable.PromoteOneInto | runtime/gc/hierarchical-heap.c:364-476 | Called on any two heaps in memory at neighbouring depths it is the promotion step of the run, and every other heap stands as it did |
| CcZip.ZipChains | runtime/gc/hierarchical-heap.c:201-308 | On the linked records, zipping two lists of heaps joins the sub-heap chains of heaps at one depth, with their chunks, and leaves every chain ended, well formed and apart from the others (deepest heaps first, `ZipDescends`) |
| CcZip.ZipKeeps | runtime/gc/hierarchical-heap.c:223-261 | Zipping keeps every chunk of both lists, and every record but those of the heaps joined into another |
| CcChains.MergeCompletedKeeps | runtime/gc/hierarchical-heap.c:740-833 | Merging keeps every chunk and record; the chains are folded into the primary if and only if every sub-heap is done |
| CcLinks.MergeCompletedCCs | runtime/gc/hierarchical-heap.c:740-833 | On the linked records, removing under the cursor and folding compute the merge specified; chains stay ended, apart and without a record twice |
| CcLinks.MoveToCompleted | runtime/gc/hierarchical-heap.c:770-781 | The record under the cursor leaves the one chain, wherever it stands in it, and heads the other; all other links are kept |
| CcLinks.LinkCCChains | runtime/gc/hierarchical-heap.c:120-198 | On the linked records, in each of the three cases, the chains of the second heap end up in front of those of the first, at its depth, and the second has none |
| CcLinks.JoinHeaps | runtime/gc/hierarchical-heap.c:229-249 | On the linked records, uniting two heaps at one depth puts the second's sub-heap chains in front of the first's, at its depth, and its chunks behind |
| CcLinks.SplitHeapForCC | runtime/gc/hierarchical-heap.c:702-737 | On the linked records, the heap and its chain become the chain of a new primary, with a completed sub-heap made if there is none |
| CcLinks.PromoteChunksInto | runtime/gc/hierarchical-heap.c:364-476 | On the linked records, promotion merges, links and then either folds into the parent or takes its chain over and makes it the first completed sub-heap |
| CcChains.LinkKeeps | runtime/gc/hierarchical-heap.c:120-198 | Linking moves both chains of the second heap to the first one's depth, loses nothing and leaves the second without chains |
| CcChains.SplitKeeps | runtime/gc/hierarchical-heap.c:702-737 | Splitting puts the heap on the new primary's chain, hanging on to a completed sub-heap |
| CcChains.PromoteIntoKeeps | runtime/gc/hierarchical-heap.c:364-476 | Promotion into the heap above keeps all chains, records and chunks, with and without outstanding collections |
| ObjectFields.ForeachObjptrInObject | runtime/gc/foreach.c:117-263 | Visits the field offsets of a normal, sequence or stack object in the specified order, dense sequences as one run |
| ObjectFields.FieldsOfStack | runtime/gc/foreach.c:212-253 | The fields of a stack are those of its frames, from the used size down by each frame's size to the bottom, where the walk ends, at the frame's offsets, in this order and no others |
| ObjectFields.FieldOfSequence | runtime/gc/foreach.c:164-211 | Field j of cell c is at c times the cell's size plus the bytes without pointers plus 8 j, and there are length times numObjptrs fields |
| ObjectFields.FieldsFit | runtime/gc/foreach.c:139-253 | If the pointers in each frame lie in it side by side, no field of any object is enumerated twice or overlaps another, and all lie within the object |
| CcWorkList.WorkList.Push | runtime/gc/cc-work-list.c:122-160 | The object's fields, exactly those of the plain enumeration in that order, come before all that was pending |
| CcWorkList.WorkList.Pop | runtime/gc/cc-work-list.c:279-331 | Answers nothing if and only if nothing is pending, otherwise the next pending field; at most one spare chunk is kept |
| CcWorkList.WorkList.IsEmpty | runtime/gc/cc-work-list.c:28-45 | The test on chunks and frontiers is true if and only if nothing is pending |
| CcWorkList.AdvanceOneField | runtime/gc/cc-work-list.c:168-276 | Yields the first remaining field and leaves the rest, skipping frames without pointers, done exactly at the last one |
| CcWorkList.MakeInitialElem | runtime/gc/cc-work-list.c:68-119 | No element if and only if the object has no fields, otherwise one that yields them all |
| CcWorkList.FindStackNonEmptyFrameTop | runtime/gc/cc-work-list.c:48-64 | Finds the uppermost frame with pointers without passing over a field |
| ConcurrentCollection.Collector.MarkLoop | runtime/gc/concurrent-collection.c:357-370 | Terminates with nothing pending and the tracing invariant kept |
| ConcurrentCollection.Collector.MarkRoots | runtime/gc/concurrent-collection.c:1005-1043 | Marks exactly what the roots reach, forced roots scanned even out of scope, and keeps exactly the chunks of what is marked |
| ConcurrentCollection.Collector.UnmarkRoots | runtime/gc/concurrent-collection.c:1066-1081 | The second trace from the same roots leaves no mark |
| ConcurrentCollection.Collector.CollectWithRoots | runtime/gc/concurrent-collection.c:1005-1204 | The heap keeps exactly the chunks with an object that a path from the roots leads to but for the stacks' own, every other chunk is freed, each once, and all marks and list tags are gone |
| ConcurrentCollection.Collector.SaveNoForward | runtime/gc/concurrent-collection.c:209-241 | Answers whether the object is in scope, and then its chunk is on the kept list |
| ConcurrentCollection.Collector.ForceForward | runtime/gc/concurrent-collection.c:530-553 | Marks a forced root if in scope, scans it in any case, and traces to the end |
| ConcurrentCollection.AllErased | runtime/gc/concurrent-collection.c:372-385 | A second trace that is finished has met everything the first one marked |
| CcTrace.ReachedIsPaths | runtime/gc/concurrent-collection.c:357-370 | What is reached is exactly what some path leads to, field by field from a root, within the chunks in scope but for a forced root |
| LocalCollection.LocalCollector.CollectLocal | runtime/gc/hierarchical-heap-collection.c:472-658 | Forwarding the roots and one sweep copy exactly what the roots reach, each once, isomorphically; every slot and field leads where it led and to nothing that goes away; the to-space lists hold exactly the new objects, each once at its depth; old objects that do not move stay as they were, and what the concurrent phase traced before stays whole with all its fields; a new object has a plain header: no forwarding, no pin, no mark; and if the heap was in order before, what is left is in order for the next collection |
| LocalCollection.LocalCollector.Sweep | runtime/gc/hierarchical-heap-collection.c:619-658 | One pass from the deepest level to the shallowest leaves nothing unscanned |
| LocalCollection.LocalCollector.ForwardHHObjptr | runtime/gc/hierarchical-heap-collection.c:1671-1851 | The slot gets exactly: itself if out of scope, in to-space, traced in place or pinned from a shallower depth; the forwarding pointer if there is one; otherwise a new object with the same depth and fields and a plain header, an expired pin being dropped first |
| LocalCollection.LocalCollector.RelocateObject | runtime/gc/hierarchical-heap-collection.c:1048-1154 | A single-object chunk moves, anything else is copied and forwarded; the new object has the old fields and a plain header, the forwarding pointer is in the old one only, and the object joins its level's list |
| LocalCollection.LocalCollector.ScanLevel | runtime/gc/chunk.c:319-362 | Scans a level's list to its end while it grows, and terminates |
| ToSpace.EnsureSpaceInTargetHeap | runtime/gc/hierarchical-heap-collection.c:1854-1899 | A new chunk is appended exactly if there is none, or the last one has an only object, too little room, or is filled beyond its first block; the chunk answered has room for an object that can be found again |
| ToSpace.AppendChunk | runtime/gc/chunk.c:73-84 | On the doubly linked chunks, the chunk comes behind all others with its objects, and the used size is the total size of the objects |
| ToSpace.CopyObject | runtime/gc/hierarchical-heap-collection.c:1902-1922 | The copy comes behind all objects of the level, in the last chunk or a new one, and nothing there before changes |
| ToSpace.ForwardInChunkList | runtime/gc/chunk.c:319-362 | The scan over the linked chunks visits every object there is and every one that is put behind meanwhile, once and in order, and ends |
| ToSpace.ObjectsAreFound | runtime/gc/chunk.h:131-143 | The block of any object of a level is the start of the chunk that it is in, and the object is before that chunk's limit, as asserted by the lookup |
| LocalCopy.SweepCopies | runtime/gc/hierarchical-heap-collection.c:619-658 | When the sweep is over the new objects stand one to one for the least set of movable objects that the roots reach, with every field leading where the old one led |
| LocalCopy.CopiedIsPaths | runtime/gc/hierarchical-heap-collection.c:472-658 | What is moved or copied is exactly what a path from the roots leads to through objects in scope that are neither forwarded, traced in place nor pinned from a shallower depth |
| LocalCopy.ReadyForNext | runtime/gc/hierarchical-heap-collection.c:695-840 | When from-space is freed and to-space has taken its place, every pointer leads to an object, nothing carries a forwarding header, and each target of a down-pointer is pinned for it, if that was so before |
| LocalCopy.RelocateKeeps | runtime/gc/hierarchical-heap-collection.c:1048-1154 | Relocating one object keeps all parts of the invariant, provided its level is not done yet |
| BlockAllocator.BlocksArePartitioned | runtime/gc/block-allocator.c:379-422 | In every interleaving of allocations, local frees and remote frees each group of each superblock is exactly one of: in a user's hands, being freed by somebody, on the stack, taken back, on the free list, in the tail; each list holds its groups once, numBlocksFree counts free list and tail, and every superblock is on the one list where it belongs |
| BlockAllocator.RunKeepsInv | runtime/gc/block-allocator.c:669-675 | Every interleaving keeps the invariant, so take-all of the lock-free push list loses or repeats no block |
| BlockAllocator.ClearOutFreesAll | runtime/gc/block-allocator.c:393-422 | From every state of the invariant with blocks on the stack, taking all and going down them without interference frees exactly what was on the stack and leaves it empty |
| BlockAllocator.RemotePushLands | runtime/gc/block-allocator.c:669-675 | A remote free that nobody interferes with puts its block on the stack in three steps |
| BlockAllocator.HandedOutWasFree | runtime/gc/block-allocator.c:266-309 | What an allocation hands out was nowhere else, and lies within its superblock |
| BlockAllocator.AllocatesExactly | runtime/gc/block-allocator.c:266-376 | An allocation hands out one group of the class asked for from a superblock that has that many blocks less afterwards, and none exactly if no superblock can serve it; nothing else changes |
| BlockAllocator.FreesExactly | runtime/gc/block-allocator.c:312-390 | A local free takes exactly its group out of use and gives its superblock the blocks back |
| BlockAllocator.SearchFindsRoom | runtime/gc/block-allocator.c:334-376 | A superblock found by the search always has room for the request |
| BlockAllocator.SearchFindsAll | runtime/gc/block-allocator.c:334-376 | The search finds a superblock whenever one has room |
| BlockAllocator.SearchTakesFullest | runtime/gc/block-allocator.c:334-376 | The search takes the first group, from nearly full to completely empty, that has a superblock |
| BlockAllocator.RefileKeeps | runtime/gc/block-allocator.c:379-390 | Unlinking a changed superblock and prepending it where it belongs now leaves every superblock on exactly one list, once |
| SuperBlockLists.UnlinkSuperBlock | runtime/gc/block-allocator.c:192-208 | From a well-formed doubly linked list, first element or not, last or not, exactly this superblock is gone and its links are null; only the list head, it and its two neighbours are written |
| SuperBlockLists.PrependSuperBlock | runtime/gc/block-allocator.c:211-222 | A well-formed doubly linked list with this superblock in front; only the list head, it and the former first are written |
| SuperBlockLists.ListIsUnique | runtime/gc/block-allocator.c:98-114 | The pointers determine what is on a list, and in which order |
| SuperBlockLists.LocalBlockAllocator.TryAllocateAndAdjustSuperBlocks | runtime/gc/block-allocator.c:334-376 | On the linked lists, the search through the fullness groups, allocation and relinking are the machine's allocation, all lists doubly linked before and after; it answers nothing exactly if no superblock can serve the request |
| SuperBlockLists.LocalBlockAllocator.LocalFreeBlocks | runtime/gc/block-allocator.c:379-390 | On the linked lists, unlinking, freeing and prepending are the machine's freeing, all lists doubly linked before and after |
| SuperBlockLists.LocalBlockAllocator.MmapNewSuperBlocks | runtime/gc/block-allocator.c:234-263 | Each new superblock heads the list of completely empty ones, as in that many steps of the machine |
| SuperBlockLists.LocalBlockAllocator.AssertSuperBlockListOkay | runtime/gc/block-allocator.c:98-114 | The runtime's own walk through a list ends and finds every back pointer, fullness and size class right |
| SuperBlocks.GroupsFit | runtime/gc/block-allocator.c:67-71 | Groups are aligned to their size, lie within the superblock behind its header, and do not overlap |
| SuperBlocks.EmptyAndFull | runtime/gc/block-allocator.c:31-38 | A superblock whose blocks are all free has no group in use, so it may change its size class; it is completely full if and only if no group is free |
| SuperBlocks.SuperBlockRecord.AllocateInSuperBlock | runtime/gc/block-allocator.c:266-309 | Hands out a group not in use and keeps the partition into used, free list and tail, in the size class asked for |
| SuperBlocks.SuperBlockRecord.DeallocateInSuperBlock | runtime/gc/block-allocator.c:312-331 | Puts a group in use on the free list and keeps the partition |
| SuperBlocks.ComputeSizeClass | runtime/gc/block-allocator.c:183-189 | The least size class with enough blocks |
| SuperBlocks.FullnessAsDocumented | runtime/gc/block-allocator.c:31-48 | Exactly when the group computed from the free part is the one described by the part in use, for every fraction and every partly used superblock |
| SuperBlocks.NearlyGroupsAreMisfiled | runtime/gc/block-allocator.h:148-153 | With a fraction below one half whatever is nearly full or nearly empty, as computed or as described, is filed differently from its description |
| Pinning.UnpinDepthIsLeast | runtime/gc/pin.c:57-136 | In every interleaving an object in place is pinned if and only if it was asked to since it was last unpinned, for the least depth asked for, and of type any if and only if that was asked for once the depth was down to that; a forwarded object has no request outstanding |
| Pinning.PinnedStays | runtime/gc/hierarchical-heap-collection.c:1128-1147 | Only an unpinned object is relocated, the published copy has its header, and forwarding is for ever |
| Pinning.PinsLand | runtime/gc/pin.c:82-133 | In every interleaving a pin lands on the one object in place at which the forwarding of the object asked for ends, and holds it at its depth |
| Pinning.GrantsAnswerCalls | runtime/gc/pin.c:57-136 | In every interleaving the pins granted to a processor are those it asked for, object, depth and type, in order, but for at most one still under way |
| Pinning.PinIsGranted | runtime/gc/pin.c:82-133 | A pin that nobody interferes with is granted at the end of the forwarding, in two steps more than there are hops |
| Pinning.UnpinSucceedsExactly | runtime/gc/pin.c:169-184 | In every reachable state an attempt to unpin that nobody interferes with succeeds if and only if there are requests and none is for a shallower depth; otherwise nothing changes |
| Pinning.RelocationSucceedsExactly | runtime/gc/hierarchical-heap-collection.c:1048-1154 | In every reachable state a relocation that nobody interferes with succeeds if and only if nobody has asked for a pin; otherwise nothing changes |
| Pinning.RestIsKept | runtime/gc/pin.c:101-109 | In every interleaving the forwarding of each object ends at exactly one object in place, which has the valid bit and type index the object had at first |
| Pinning.UnpinRespects | runtime/gc/pin.c:169-184 | Unpinning for a depth drops only requests for that depth or deeper |
| Pinning.PinWordIsPinnedHeader | runtime/gc/pin.c:93-109 | On the header word the new header has the depth and pin type of the model, and valid bit, type index and mark bit survive |
| Pinning.ClearedWordIsClear | runtime/gc/pin.c:138-184 | On the header word unpinning clears depth and pin as in the model, and everything else survives |
| Dekker.MutualExclusion | runtime/gc/parallel.c:65-129 | In every interleaving at most one side is inside, and no compare-and-swap fails |
| Dekker.NoOvertaking | runtime/gc/parallel.c:88-108 | A side with its flag up and the turn that has not decided to lower its flag is not overtaken |
| Dekker.OvertakingExactly | runtime/gc/parallel.c:88-108 | For every state of the invariant and every side with flag and turn outside: the other side can go in n times first for every n if this side is lowering its flag and the other is out, raising, inside or leaving; otherwise not once |
| Dekker.YieldingIsOvertaken | runtime/gc/parallel.c:92-105 | For every n, a run from the start reaches a side with flag and turn that is then overtaken n times |
| Dekker.HeldIsReached | runtime/gc/parallel.c:92-105 | A run from the start reaches a side with flag and turn that is lowering its flag and yet cannot be overtaken |
| Dekker.SomebodyGoesIn | runtime/gc/parallel.c:88-108 | From every state of the invariant, when both sides have been running for thirty rounds, in any order and as often as they like in each, somebody has gone in |
| Dekker.AloneGoesIn | runtime/gc/parallel.c:88-108 | While the other side stays out, a side goes in within four steps of its own, or else it waits for a turn that nobody gives and never does |
| Dekker.OutIsNoObstacle | runtime/gc/parallel.c:65-129 | The latter never happens: in every run, a side whose rival is out goes in within four steps of its own |

## Left out

- Memory order weaker than sequential consistency: every access is one step in one order.
- EbrCalls.EbrShared.LeaveQuiescentState: the epoch is unbounded, not 63 bits.
- EbrCalls.EbrShared.Retire: a limbo bag is a sequence; its chunks, and whether the last one has room, are not modelled.
- Dekker.MutualExclusion: the spin loops of the lock are steps of the machine, not loops, since they need not end; the polling for termination inside them is not modelled.
- CcChains.RunKeepsWorld: remembered sets, suspects, root stacks and byte counts of sub-heaps are not modelled, nor are the links between a heap and its ancestor.
- CcLinks.MergeCompletedCCs: a chunk list is a sequence of chunk numbers, the linking of folded records as dependants is in Dependants, remembered sets are left out and ancestors are not followed.
- CcLinks.SplitHeapForCC: the ancestor link and the suspects of the new primary are left out.
- CcLinks.PromoteChunksInto: ancestor links, suspects and remembered sets are left out.
- Zipping.Zip: chunk lists are sequences, and remembered sets and suspects are not part of it; the sub-heap chains are linked in CcZip, a second loop over the same two lists.
- Zipping.MergeLevel: as Zipping.Zip.
- CcZip.ZipChains: the two lists of heaps are sequences of records; their links and the dependants are in Zipping.
- LocalCollection.LocalCollector.CollectLocal: a level's list is the sequence of its objects (ToSpace has its chunks, by themselves); how object sizes are computed is not modelled; the concurrent phase before it, entanglement suspects and the bookkeeping of freed chunks after it are left out, and what that phase traced or pinned is given.
- ToSpace.ForwardInChunkList: what forwarding an object copies is any number of objects of any sizes, up to a total for all, instead of those it reaches; chunks that move here are new ones, so unlinking them from their old list is not part of it.
- ConcurrentCollection.Collector.CollectWithRoots: the graph is fixed during a collection, roots are a fixed list instead of a stack that is closed, and large chunks are not listed apart before being freed.
- ObjectFields.ForeachObjptrInObject: weak objects, which the worklist aborts on, are left out; so are weak skipping and the predicate that skips an object.
- Pinning.UnpinDepthIsLeast: mark and suspect bits do not change in the machine, and one collector acts at a time.
- LocalCopy.ReadyForNext: from-space is freed object by object, so dead objects in chunks that stay are dropped too; that the concurrent phase has traced whatever stays is given.
- Dependants.FreeAllDependants: retiring instead of freeing is one abstract release.
- BlockAllocator.BlocksArePartitioned: purposes, the counters of allocated and freed blocks and the debugging mode that keeps freed blocks are left out.
- SuperBlockLists.LocalBlockAllocator.MmapNewSuperBlocks: how many superblocks the operating system gives is a parameter.
- AbpDeque.RefinesDeque: the two steps that compute a new tag need room for it, below 2^58 for a pop and 2^26 for set-depth; no other step does.
- Fixed-size allocator, megablocks and memory mapping.
- The closing protocol of the concurrent stack, concurrent lists and the public part of remembered sets.
- Management of entangled objects during mutation and local collection, beyond the header word.
- Option parsing, logging, tracing, statistics, profiling, timers and signals.
