# ep-engine: checkpoints, lock-free pieces and small algorithms

This project models the parts of the ep-engine bucket engine whose correctness is hardest to see from the code, and proves
what they promise.

- **The checkpoint manager** (`src/checkpoint.cc`, `src/checkpoint.h`). A vbucket's mutations are queued into an ordered list of
  checkpoints, all closed but usually the last. Each checkpoint is a deduplicated log: a dummy item, checkpoint_start, the
  mutations, and checkpoint_end once closed. Named cursors walk the list while it is queued to, rolled over, removed from and
  merged.
  - `Log.dfy`, `LastWrites.dfy`, `Checkpoints.dfy`: items, logs, last-write maps, and the manager as a value (`View`), with
    every operation as a function on it.
  - `CheckpointLaws.dfy`, `CollapseLaws.dfy`: what each operation keeps and what it does to the mutations ahead of a cursor.
    `Effects.dfy`: what it does to every item ahead, and to the checkpoints, said without the function that computes it.
  - `Runs.dfy`, `SafeRemoval.dfy`, `Snapshots.dfy`: laws over every run. `SafeCollapses.dfy`: exactly when a collapse keeps the
    removal of checkpoints safe. `Counterexamples.dfy`: two runs from a new manager in which a collapse does not.
  - `ManagerState.dfy`, `ManagerFacts.dfy`, `Counting.dfy`, `Registration.dfy`, `Removal.dfy`, `Merging.dfy`, `Collapsing.dfy`: the
    concrete state, with the key indexes, counters, name sets and cursor offsets that the code keeps beside the lists, and the
    proofs that each update keeps them in agreement.
  - `CheckpointManager.dfy`: the manager as an object whose methods loop over and update those fields in place. Its ghost field
    `view` is the value; `Valid()` says that everything concrete agrees with it, and each method states the new view.
  - `Operations.dfy`, `Clients.dfy`: each call of the manager is a run of the elementary actions, and any sequence of calls on a
    new manager has a run that ends in its state, queues what the calls took and gives each cursor what the manager's answers
    handed it, so that the laws over runs hold of the object; draining agrees with stepping; what the result of queueing tells.
- **Concurrent pieces**, as step systems in which each access to a shared word is one step of one thread and a run is any
  interleaving: the queue of per-thread queues (`AtomicQueue.dfy`, `AtomicQueueItems.dfy`, `AtomicQueueFifo.dfy`,
  `AtomicQueueGetAll.dfy`), the reference-counted pointer (`RefCount.dfy`, `RefCountEffects.dfy`), and the flag, snooze and wake protocol of the background fetcher and the
  connection notifier (`Notifier.dfy`).
- **Algorithms**: the table-driven CRC-32 (`Crc32.dfy`), conflict resolution (`ConflictResolution.dfy`) and the Bloom filter
  (`BloomFilter.dfy`).

Iterators into lists are modelled as indexes, so erasing or inserting a node renumbers the iterators after it. Assumptions on
the callers, as the code relies on them: keys are not empty, sequence numbers supplied from outside exceed the last one,
checkpoint ids are positive, the persistence cursor stays registered, at most `MAX_THREADS` threads use one atomic queue, a
pointer is destroyed only when no operation refers to it. Policy decisions (whether to open a checkpoint now, whether memory is
low), the vbucket state, the configuration and the hash function are parameters.

Four promises turn out to hold only under a condition, and are stated with it:

- A collapse preserves what a cursor has ahead except in one case (`LosesNext`), in which the cursor skips its next mutation:
  the cursor rests on a checkpoint_start, its next mutation carries that same sequence number and survives the merge, and so
  does some mutation behind the cursor. What a cursor was given and has ahead then means what it was owed on every key but
  those whose last write it skipped.
- Only persisted mutations are removed with their checkpoints, whatever happens after a full collapse, exactly when the
  collapse uses an id above the last one reported persisted and does not put the persistence cursor in that case; for a
  collapse of the closed checkpoints the second condition alone decides.
- An active vbucket does not refuse the sequence numbers it generates itself, as long as it turned active from being a replica,
  which resets the open checkpoint's range. From pending or dead it turns active without the reset, and then the promise
  holds exactly if the range starts at most one above the last number.
- The Bloom filter's key count is at most its number of set bits exactly until the filter is disabled with keys in it: that
  clears the bits and keeps the count.

In addition replicas converge, whatever their conflict resolution modes, exactly when one mutation replaces every other and is
replaced by none. Under one mode that is the one that ranks above all others; a deletion that shares its revision and cas with
another mutation can prevent it.

## Model

| member | source | states |
|---|---|---|
| `Log.KeepLastReplay` | src/checkpoint.cc:211-270 | a log and its compaction to the last entry of each key replay to the same map, from any starting map |
| `LastWrites.ReplaysAgree` | src/checkpoint.cc:211-270 | two logs replay to the same value of a key from every starting map if and only if their last writes of it agree |
| `LastWrites.AgreesAfterAppend` | src/checkpoint.cc:125-187 | after a mutation is queued and the entry it supersedes dropped, what was given followed by what is ahead still disagrees with what was owed on exactly the keys whose last write was missed |
| `LastWrites.AgreesAfterSkip` | src/checkpoint.cc:1515-1516 | skipping one mutation adds exactly its key to those, and only if it was that key's last write |
| `CheckpointLaws.EnqueueInv` | src/checkpoint.cc:116-209 | queueing keeps one entry per key, increasing sequence numbers within and across checkpoints, and every cursor in range |
| `CheckpointLaws.EnqueueAhead` | src/checkpoint.cc:133-171 | for every cursor, queueing puts the mutation last among those ahead and takes away at most the entry it supersedes |
| `CheckpointLaws.RollInv` | src/checkpoint.cc:357-425 | rollover keeps the invariant |
| `CheckpointLaws.RollAhead` | src/checkpoint.cc:396-422 | rollover, with the cursors it moves on, leaves the mutations ahead of every cursor as they were |
| `CheckpointLaws.StepAhead` | src/checkpoint.cc:1100-1109 | advancing gives exactly the first item ahead and leaves the rest; there is none to give exactly at the end of the last checkpoint |
| `CheckpointLaws.AheadMutations` | src/checkpoint.cc:1034-1063 | of the items ahead of a cursor, the mutations are those counted as ahead, across all checkpoints |
| `CollapseLaws.MergedIsCompaction` | src/checkpoint.cc:211-270 | merging any number of checkpoints, newest first, yields the compaction of all their mutations in order, under the oldest one's leading items |
| `CollapseLaws.MergedReplay` | src/checkpoint.cc:880-904 | the merged list replays, on any starting map, to the same map as the originals in order |
| `CollapseLaws.ReplacedAhead` | src/checkpoint.cc:1502-1556 | a re-placed cursor has ahead exactly the compaction of what it had, less its first entry in exactly the missed tie-break case |
| `CollapseLaws.CollapseAllAhead` | src/checkpoint.cc:1448-1500 | collapsing everything is sound for a cursor if and only if it is not in the missed case; a from-beginning cursor is given everything again |
| `CollapseLaws.CollapseClosedSlow` | src/checkpoint.cc:880-904 | the same for a cursor in an older closed checkpoint when the closed ones are collapsed, with the open checkpoint still to come |
| `CollapseLaws.CollapseClosedKept` | src/checkpoint.cc:867-879 | a cursor past the guard in the newest closed checkpoint, or in the open one, keeps exactly what it had ahead: none of the merged-in older items |
| `CollapseLaws.CollapseClosedInv` | src/checkpoint.cc:850-925 | collapsing the closed checkpoints keeps the invariant |
| `CollapseLaws.CollapseAllInv` | src/checkpoint.cc:1448-1500 | collapsing all checkpoints keeps the invariant and leaves the one merged open checkpoint |
| `Runs.NoLostUpdate` | src/checkpoint.cc:116-209 | no lost update: after any run, for every cursor and key, what the cursor was given overlaid with what it has ahead replays, from every map, to what all it was owed since it registered replays to, if and only if no collapse made the cursor skip the last write of that key |
| `Runs.UnskippedGetsAll` | src/checkpoint.cc:116-209 | a cursor that no collapse made skip ends with exactly the map of all it was owed |
| `Runs.GivenInOrder` | src/checkpoint.cc:997-1002 | after any run, all a cursor was given and has ahead carries strictly increasing sequence numbers |
| `Runs.StepFair` | src/checkpoint.cc:116-209 | each single action keeps that for every cursor at once |
| `SafeRemoval.OnlyPersistedRemoved` | src/checkpoint.cc:763-797 | after any run, whatever prefix may be removed leaves the open checkpoint, is closed and without cursors; each mutation in it was given to the persistence cursor if and only if no collapse made that cursor skip it, and unless the last full collapse reused a persisted id and nothing was reported persisted since, it was given before the last itemsPersisted if and only if so |
| `SafeRemoval.RegistrationFinds` | src/checkpoint.cc:579-598 | after any run, unless its last full collapse reused a persisted id and nothing was reported persisted since, registering a cursor finds the named checkpoint or one not known to be persisted |
| `SafeCollapses.CollapseAllKeepsSafe` | src/checkpoint.cc:1448-1500 | a full collapse leaves every held mutation given, ahead or missed if and only if the cursor does not lose its next mutation, and everything up to pCursorPreCheckpointId marked if and only if the new id lies above it |
| `SafeCollapses.CollapseClosedKeepsSafe` | src/checkpoint.cc:850-925 | the same for the collapse of the closed checkpoints, which keeps the marks and keeps everything covered if and only if it does not re-place the cursor where it loses its next mutation |
| `SafeCollapses.StaysSafeExactly` | src/checkpoint.cc:763-797 | from any reached state: whatever happens up to the next collapse, only persisted mutations and missed ones are removed, if and only if the checkpoints up to pCursorPreCheckpointId hold no others now and the next mutation cannot get such an id |
| `SafeCollapses.CollapseAllStaysSafe` | src/checkpoint.cc:1448-1500 | from any reached state: after the collapse and whatever happens up to the next one, only persisted mutations and ones missed before are removed, if and only if the new id lies above pCursorPreCheckpointId and the persistence cursor does not lose its next mutation |
| `SafeCollapses.CollapseClosedStaysSafe` | src/checkpoint.cc:850-925 | from any reached state in which removal is safe: collapsing the closed checkpoints keeps it so if and only if the persistence cursor is not re-placed where it loses its next mutation |
| `Counterexamples.CollapseCanLoseMutation` | src/checkpoint.cc:1515-1516 | a run from a new manager in which a full collapse takes from the persistence cursor, resting on the second checkpoint_start, its one mutation ahead; that mutation then may be removed and was never handed over, though no id was reused |
| `Counterexamples.RemovalCanPrecedePersistence` | src/checkpoint.cc:1448-1500 | a run in which a collapse to a persisted id makes a checkpoint removable whose mutation was handed over but never reported persisted |
| `Snapshots.GeneratedAccepted` | src/checkpoint.cc:1004-1014 | a generated sequence number passes the range check if and only if a checkpoint was opened for it or the open one's range starts at most one above the last |
| `Snapshots.AlwaysAcceptsExactly` | src/checkpoint.cc:1004-1014 | an active life, whatever it does, has no generated sequence number refused if and only if the open checkpoint's range starts at most one above the last number when it begins |
| `Snapshots.LivesKeepRange` | src/ep.cc:1388-1412 | over any sequence of active, replica, pending and dead lives: no active life could refuse a generated number if and only if the range starts in time whenever a pending or dead vbucket turns active, which resets nothing |
| `Snapshots.PromotionKeepsRange` | src/checkpoint.cc:1297-1342 | in any alternation of lives in which only a replica turns active, with its snapshot markers, collapses and checkpoint messages before and the range reset at each promotion, no active life could refuse a generated number |
| `Snapshots.PendingRefuses` | src/ep.cc:1405-1412 | a new vbucket, pending, is sent a snapshot that starts ahead and turns active: it refuses the first generated number, which as a replica, with the reset, it would accept |
| `Effects.CloseItems` | src/checkpoint.cc:427-448 | closing adds one checkpoint_end, numbered like the last mutation, to what every cursor has ahead, and nothing else |
| `Effects.RollItems` | src/checkpoint.cc:396-422 | after rollover every cursor has ahead what it had, the checkpoint_end if the last checkpoint was open and the new checkpoint_start; a checkpoint_end at the front is skipped exactly by a cursor that need not send it |
| `Effects.EnqueueItems` | src/checkpoint.cc:133-187 | queueing puts the mutation last among all items ahead of every cursor and takes away at most the entry it supersedes |
| `Effects.QueuesItemEffect` | src/checkpoint.cc:957-1032 | what queueDirty leaves: when it opens a checkpoint, when it refuses, the number it takes, the range, and the caller's own item under its number behind all of other keys; the same for every cursor |
| `Effects.SnapshotTakes` | src/checkpoint.cc:1297-1319 | after a snapshot marker a vbucket that is not active takes exactly the sequence numbers from its start to its end |
| `Effects.CollapseClosedEffect` | src/checkpoint.cc:850-925 | when the closed checkpoints are merged and when not, every field of the merged one, and that cursors in it or in the last keep every item ahead |
| `Effects.CollapseAllEffect` | src/checkpoint.cc:1448-1500 | every field of the one checkpoint that a full collapse leaves |
| `Effects.RemovesOldestEffect` | src/checkpoint.cc:763-797 | which checkpoints go: closed, persisted, without cursors, as many as can or as the configured number demands; no cursor loses an item |
| `Counting.CountersAgree` | src/checkpoint.cc:485-526 | in every valid state numItems is the sum of list lengths less the dummies, each cursor's offset is the sum of numItems + 2 over earlier checkpoints plus its index, and each checkpoint's numItems is the size of its key index |
| `Counting.BehindOrAhead` | src/checkpoint.cc:1226-1234 | the manager's item count is a cursor's offset plus the items ahead of it, for every cursor position |
| `Counting.RemainingIsMutsAhead` | src/checkpoint.cc:1226-1267 | item count less offset less meta items ahead equals the number of mutations after the cursor, and does not go below zero |
| `Registration.SeparatedAhead` | src/checkpoint.cc:489-526 | a cursor at a place that separates the sequence numbers has ahead exactly the mutations above the given one |
| `Registration.AheadFromStart` | src/checkpoint.cc:605-636 | a cursor at the beginning of a checkpoint has ahead all its items and all later ones |
| `Registration.RegisteredFor` | src/checkpoint.cc:579-646 | where registration puts a cursor: the named checkpoint or the first not known to be persisted, with every item from its beginning on ahead, or what it had ahead if it may stay; with the flags it was registered with |
| `Registration.SeparatedItems` | src/checkpoint.cc:489-526 | a cursor registered by sequence number has ahead every item above that number, checkpoint_starts included, and besides those only checkpoint_ends |
| `Removal.KeptIs` | src/checkpoint.cc:788-795 | every remaining cursor's offset covers the items removed, so the subtraction does not clamp, and is right afterwards |
| `Removal.RemoveModels` | src/checkpoint.cc:763-797 | item count, name sets, offsets and lists agree again after a prefix is spliced out |
| `Merging.MergePrevCheckpoint` | src/checkpoint.cc:211-270 | the insertion loop leaves indexes, count, sequence numbers and list of exactly the merged checkpoint, and returns how many items it carried over |
| `Merging.MutationIdIsSeqno` | src/checkpoint.cc:272-284 | looking any item's key up in its index gives that item's own sequence number |
| `Collapsing.MergeIntoLast` | src/checkpoint.cc:880-886 | merging a whole list, newest first, ends with the merge of all, and counts duplicated and meta items so that nothing is missing |
| `Collapsing.SettledIs` | src/checkpoint.cc:905-921 | after a collapse each slow cursor's offset is its position and each fast one's subtraction is exact |
| `Collapsing.CollapsedTotal` | src/checkpoint.cc:907-909 | what the collapse subtracts from the item count is exactly what the merge did away with |
| `ManagerState.IndexSize` | src/checkpoint.cc:173-187 | a checkpoint's item count equals the size of its key index |
| `ManagerState.IdsOrderPositions` | src/checkpoint.cc:133-157 | comparing mutation ids finds exactly the cursors at or after the entry about to be superseded |
| `ManagerState.PushedAgainRepresents` | src/checkpoint.cc:166-187 | pushing back and erasing the superseded node leaves the index mapping exactly the keys to their positions and sequence numbers |
| `ManagerState.SetCursorModels` | src/checkpoint.cc:1166-1186 | moving a cursor with its name keeps every counter, name set and offset in agreement |
| `CheckpointManagers.CheckpointManager.constructor` | src/checkpoint.h:443-457 | a new manager is valid: one open checkpoint with its dummy and checkpoint_start, the persistence cursor at its beginning |
| `CheckpointManagers.CheckpointManager.NudgeCursors` | src/checkpoint.cc:133-160 | the cursor loop changes exactly the cursors at or after the superseded entry, and tells whether the persistence cursor was one |
| `CheckpointManagers.CheckpointManager.QueueIntoOpen` | src/checkpoint.cc:116-209 | queueing into the open checkpoint is the queueing of the model, with all indexes and offsets following, and returns new, existing or persist again as the persistence cursor's place demands |
| `CheckpointManagers.CheckpointManager.QueueDirty` | src/checkpoint.cc:957-1032 | the whole call: rollover, sequence number, range check with its two errors and the state each leaves, and the result; when it is done, the last of the open checkpoint is the caller's item under its number |
| `CheckpointManagers.CheckpointManager.CloseOpenCheckpoint` | src/checkpoint.cc:427-448 | only the last checkpoint is closed, at the last number, and every cursor has its checkpoint_end to come; a closed one is left alone |
| `CheckpointManagers.CheckpointManager.AddNewCheckpoint` | src/checkpoint.cc:357-425 | the last checkpoint is closed and an empty one opened with the given id and range; every cursor has all it had ahead, the checkpoint_end and the new checkpoint_start to come, less a checkpoint_end at the front that it need not send |
| `CheckpointManagers.CheckpointManager.CreateNewCheckpoint` | src/checkpoint.cc:1604-1611 | likewise with the next id, unless the last checkpoint is empty; returns the id of the last |
| `CheckpointManagers.CheckpointManager.UpdateCurrentSnapshotEnd` | src/checkpoint.h:664-667 | sets the end of the last checkpoint's range and nothing else |
| `CheckpointManagers.CheckpointManager.MoveCursorToNextCheckpoint` | src/checkpoint.cc:1166-1186 | a cursor at its checkpoint's end enters the next if there is one, with its name, and otherwise stays |
| `CheckpointManagers.CheckpointManager.IncrCursor` | src/checkpoint.cc:1100-1109 | advancing is the step of the model and tells whether there was a next item |
| `CheckpointManagers.CheckpointManager.NextItem` | src/checkpoint.cc:1066-1098 | returns the first item ahead and leaves the rest, tells whether no mutation is left in its checkpoint, and returns an empty item when there is nothing or no such cursor |
| `CheckpointManagers.CheckpointManager.GetAllItemsForCursor` | src/checkpoint.cc:1034-1063 | terminates, returns exactly everything ahead in order, leaves nothing ahead, and reports the range from the cursor's checkpoint to the last |
| `CheckpointManagers.CheckpointManager.HasNext` | src/checkpoint.cc:1558-1573 | true exactly when there is an item ahead of a registered cursor |
| `CheckpointManagers.CheckpointManager.GetNumOfMetaItemsFromCursor` | src/checkpoint.cc:1236-1267 | counts exactly the items ahead that are not mutations |
| `CheckpointManagers.CheckpointManager.GetNumItemsForCursor` | src/checkpoint.cc:1226-1234 | the arithmetic answer is the number of mutations ahead, and zero for an unknown cursor |
| `CheckpointManagers.CheckpointManager.RegisterCursor` | src/checkpoint.cc:544-646 | fails exactly when the checkpoint is not there and all are known to be persisted, with the name already taken out; otherwise places the cursor at the named checkpoint or at the first not known to be persisted, with every item from its beginning on ahead, or what it had if it is there and may stay, and tells whether the checkpoint was found |
| `CheckpointManagers.CheckpointManager.RegisterCursorBySeqno` | src/checkpoint.cc:465-542 | refuses exactly a number above everything queued, changing nothing; otherwise the cursor has ahead every item above it and exactly the mutations above it, and the announced number is that of its next item and leaves no gap |
| `CheckpointManagers.CheckpointManager.RemoveCursor` | src/checkpoint.cc:653-678 | removes the cursor and its name everywhere and tells whether it was there; the manager stays valid exactly if it was not the persistence cursor |
| `CheckpointManagers.CheckpointManager.ItemsPersisted` | src/checkpoint.cc:1618-1623 | the persisted id becomes the one before the persistence cursor's checkpoint, nothing else changes |
| `CheckpointManagers.CheckpointManager.RemoveInvalidCursorsOnCheckpoint` | src/checkpoint.cc:831-848 | the sweep finds nothing to remove, since name sets and cursors always agree |
| `CheckpointManagers.CheckpointManager.CountUnneeded` | src/checkpoint.cc:763-787 | finds exactly the prefix to remove and counts its mutations and meta items |
| `CheckpointManagers.CheckpointManager.RemoveUnneeded` | src/checkpoint.cc:763-797 | removes exactly the oldest checkpoints that are persisted and without cursors, fewer only where closed ones are kept, takes no item from a cursor and returns the number of mutations gone |
| `CheckpointManagers.CheckpointManager.RemoveClosedUnrefCheckpoints` | src/checkpoint.cc:728-829 | the whole clean-up: exactly when it opens a checkpoint, which it removes, and when it merges those left |
| `CheckpointManagers.CheckpointManager.PutCursorsInCollapsedChk` | src/checkpoint.cc:1502-1556 | the nested loops put each marked cursor just before the first item that stops it, or at the last item, or at the first if it restarts |
| `CheckpointManagers.CheckpointManager.CollapseClosedCheckpoints` | src/checkpoint.cc:850-925 | does nothing exactly with at most one closed checkpoint or a cursor in the newest that has not passed its checkpoint_start; otherwise the merge of the model, with indexes, item count, name sets and all cursor offsets |
| `CheckpointManagers.CheckpointManager.CollapseCheckpoints` | src/checkpoint.cc:1448-1500 | leaves one open checkpoint with the given id and the compaction of all, with indexes, counts, name sets and cursor offsets |
| `CheckpointManagers.CheckpointManager.CreateSnapshot` | src/checkpoint.cc:1297-1319 | the last checkpoint is open, empty and has the given start and end: the one there was if it was so before, otherwise a new one |
| `CheckpointManagers.CheckpointManager.ResetSnapshotRange` | src/checkpoint.cc:1321-1342 | an empty open checkpoint starts and ends one above the last number; any other keeps its start and ends at the last number |
| `Operations.QueueIsRun` | src/checkpoint.cc:957-1032 | each call of queueDirty, accepted or refused, is a run of elementary actions |
| `Operations.CleanUpIsRun` | src/checkpoint.cc:728-829 | each call of removeClosedUnrefCheckpoints is one too |
| `Operations.SnapshotIsRun` | src/checkpoint.cc:1297-1319 | each call of createSnapshot is one too |
| `Operations.ResetIsRun` | src/checkpoint.cc:1321-1342 | each call of resetSnapshotRange is one too |
| `Operations.PlaysHasHistory` | src/checkpoint.cc:957-1032 | any such sequence of actions has a history to which the laws over runs apply |
| `Clients.DoQueue` | src/checkpoint.cc:957-1032 | each call of queueDirty is a run that queues the caller's item under its number if the call is accepted, and nothing otherwise |
| `Clients.Do` | src/checkpoint.cc:957-1109 | each call of the manager, whichever it is, is a run of elementary actions that queues what the call takes, and what it hands out is what that run gives the cursor |
| `Clients.Serve` | src/checkpoint.cc:957-1109 | for every sequence of calls on a new manager there is a run, to which all laws over runs apply, that ends in the manager's state and queues exactly the items of the accepted calls, in order; what each cursor was given since it registered is the last part of what the manager's answers handed out under its name |
| `Operations.OwedGrows` | src/checkpoint.cc:957-1032 | as long as a cursor stays registered it is owed what it was owed at first and all that is queued from then on |
| `Operations.PersistenceOwed` | src/checkpoint.cc:957-1032 | in any run the persistence cursor is owed exactly what was queued |
| `Operations.QueuedCount` | src/checkpoint.cc:1016-1031 | queueDirty returns true exactly when the persistence cursor has one more mutation to come than before |
| `Operations.DrainIsStepping` | src/checkpoint.cc:1034-1109 | draining gives the same sequence as repeated stepping, leaves the cursor in the same place, and the count is then zero |
| `AtomicQueue.StepInv` | src/atomicqueue.h:88-164 | every step of every thread keeps each queue object in its place and each slot empty exactly while its owner is at work |
| `AtomicQueue.OnePlace` | src/atomicqueue.h:88-164 | after any run, a queue object is in at most one slot or hand, and in one of them once its thread has begun |
| `AtomicQueue.SlotsAsExpected` | src/atomicqueue.h:158-164 | after any run, the put-back exchange finds its slot empty, the taking exchange finds a queue, an idle thread's slot is not empty, and no thread runs out of indexes |
| `AtomicQueueItems.ExactlyOnce` | src/atomicqueue.h:88-131 | after any run, a pushed item is exactly once in all queues and outputs together, and an item not pushed is nowhere |
| `AtomicQueueItems.CounterTellsTruth` | src/atomicqueue.h:88-145 | after any run, the counter is not negative, no subtraction takes it below zero, and zero means every queue in a slot is empty |
| `AtomicQueueItems.CounterAtRest` | src/atomicqueue.h:88-145 | after any run that leaves every thread idle, the counter is the number of items in the queues |
| `AtomicQueueGetAll.PushAdds` | src/atomicqueue.h:88-93 | in any run a push adds exactly one item of its thread, and getAll none |
| `AtomicQueueGetAll.DrainTakes` | src/atomicqueue.h:101-131 | in any run, an item in a slot when getAll begins is in an output when it ends, or on its way to another reader's, unless the slot's owner was at work meanwhile |
| `AtomicQueueGetAll.DrainsAll` | src/atomicqueue.h:101-131 | a getAll that no other thread disturbs leaves every queue empty and the counter at zero, and what was there, and nothing else, is new in its output |
| `AtomicQueueFifo.OutputInPushOrder` | src/atomicqueue.h:101-131 | after any run with one reader, its output holds a prefix of each producer's items in push order |
| `RefCount.StepInv` | src/atomic.h:153-249 | every step keeps counts, locks and in-flight references consistent |
| `RefCount.CountIsRefs` | src/atomic.h:153-249 | after any run an object's count is the pointers holding it plus the references in flight; one without any is new, about to be deleted by exactly one thread, or deleted |
| `RefCount.NoUseAfterFree` | src/atomic.h:230-246 | after any run no thread is about to count, delete or hold a deleted object, and no pointer holds it |
| `RefCount.DeletedOnce` | src/atomic.h:238-246 | in any run an object is deleted at most once |
| `RefCountEffects.TakesEffect` | src/atomic.h:153-249 | in any run an operation stores at one of its own steps what it is meant to: nothing, the object it created, or what its source held meanwhile, into a new pointer or the one it is for |
| `Notifier.NoStrandedRequest` | src/bgfetcher.cc:46-147 | after any run, if the worker is asleep while a request is pending, its requester has yet to raise the flag or some requester has raised it and has its wake to issue |
| `Notifier.NotifiedIsWoken` | src/connmap.cc:75-101 | after any run, a notified request with the worker asleep has a requester that won the flag and has its wake to issue |
| `Notifier.PassFetches` | src/bgfetcher.cc:46-147 | in any run a pass of the worker leaves no request outstanding that was pending when it began, unless its file was missing or it was asked for again |
| `Crc32.TableIsShifts` | src/crc32.c:67-111 | each of the 256 table entries is eight shift and feedback steps of its index |
| `Crc32.UpdateIsFeed` | src/crc32.c:113-113 | the table step equals feeding the byte's eight bits to the shift register |
| `Crc32.Crc32Buf` | src/crc32.c:115-125 | for every buffer the byte loop equals the bit-at-a-time definition |
| `Crc32.CheckValue` | src/crc32.c:67-125 | the CRC of the digits 1 to 9 is the standard check value |
| `Crc32.BurstDetected` | src/crc32.c:67-125 | two buffers whose bits differ only within 32 consecutive places have different CRCs |
| `Crc32.BytesDetected` | src/crc32.c:67-125 | two buffers that differ only within four consecutive bytes have different CRCs |
| `ConflictResolution.ResolveIsAbove` | src/conflict_resolution.cc:44-121 | under one mode the nested comparisons decide by the rank of the two mutations |
| `ConflictResolution.ConvergesExactly` | src/conflict_resolution.cc:44-121 | whatever the modes, replicas converge to a mutation, in every order and with any repetitions, if and only if it was sent, replaces every other and is replaced by none |
| `ConflictResolution.AgreeExactly` | src/conflict_resolution.cc:44-121 | all replicas that receive the same mutations agree if and only if there is such a mutation |
| `ConflictResolution.ConvergesToTop` | src/conflict_resolution.cc:44-96 | under one mode it is the mutation that ranks above every other |
| `ConflictResolution.ReplicasAgree` | src/conflict_resolution.cc:44-96 | replicas that receive the same sets, and deletions sharing revision and cas with no other mutation, agree on the top one |
| `ConflictResolution.DeletionTieDiverges` | src/conflict_resolution.cc:84-92 | a deletion and a set that tie: the first to arrive stays |
| `ConflictResolution.MixedModesDiverge` | src/conflict_resolution.cc:98-121 | three mutations under both modes whose outcome depends on the order |
| `BloomFilters.BloomFilter.AddKey` | src/bloomfilter.cc:106-122 | while compacting or enabled, sets exactly the bits of the key's hashes, counts the key exactly if one of them was new, and keeps the count at most the number of set bits; otherwise does nothing |
| `BloomFilters.BloomFilter.MaybeKeyExists` | src/bloomfilter.cc:124-138 | true exactly if the filter does not answer or every hash of the key finds its bit set; never denies a key added since the filter was last disabled |
| `BloomFilters.BloomFilter.SetStatus` | src/bloomfilter.cc:54-86 | follows the status machine; disabling clears the bits and keeps the key count, and says exactly when the count is still at most the set bits |
| `BloomFilters.StatusMachine` | src/bloomfilter.cc:54-86 | a filter leaves the disabled state only to become pending, is enabled only after compacting, and can be disabled from every state |
| `BloomFilters.FilledAnswers` | src/bloomfilter.cc:106-138 | adding a key sets all its bits and clears none of another key's |
| `BloomFilters.FilledCount` | src/bloomfilter.cc:112-121 | a key adds at least one bit unless all of its bits were set |
| `BloomFilters.DisabledKeepsCount` | src/bloomfilter.cc:74-86 | one key added and the filter disabled: the count is one and no bit is set |

## Left out

- The checkpoint as an object of its own: it is a record in the manager's list, so aliasing between the two is not modelled; iterators are indexes.
- CheckpointManagers.CheckpointManager.constructor: requires a positive id; id 0 stands for the backfill phase.
- CheckpointManagers.CheckpointManager.NextItem: says nothing about the last-mutation flag of an unknown cursor, which the code leaves unset.
- BloomFilters.BloomFilter.AddKey: requires that a filter in use was not disabled before, since the code then indexes an empty bit array; what replaces a disabled filter is elsewhere.
- BloomFilters.BloomFilter.MaybeKeyExists: requires the same.
- Decrementing a cursor from checkpoint_end (src/checkpoint.cc:1269-1277) and repositioning cursors of an emptied open checkpoint (src/checkpoint.cc:1417-1428): they move a cursor without its offset.
- checkAndAddNewCheckpoint (src/checkpoint.cc:1373-1446) as one call: its rollover and its collapse are modelled, its repositioning branch is not.
- Removing or re-registering the persistence cursor: calls of the manager, but not actions of the runs.
- Queued operations other than sets, deletes and the checkpoint's own meta items.
- The backfill phase with checkpoint id 0, clear, setBackfillPhase, resetCursors and arbitrary setting of sequence numbers or ids.
- Memory accounting, statistics, notifications to the flusher, logging and the queries built on them.
- The policy for opening a checkpoint (src/checkpoint.cc:711-726, src/checkpoint.cc:1196-1219): an arbitrary choice here.
- 32- and 64-bit wrap-around of counters and sequence numbers: integers are unbounded.
- The Windows variant of the atomic queue, the queue's destructor, and the overflow of its thread limit, which cannot happen for at most MAX_THREADS threads.
- The single-threaded reference-counted pointer, and raw pointers passed to reset that another pointer already holds.
- The executor behind wake and snooze: they only make the worker due or not; stop and shutdown.
- Estimates of the Bloom filter's size and number of hashes, which are floating point, and the hash function itself.
- What the stored value does with a winning mutation beyond keeping its metadata.
- The rest of the engine: flushing, rollback, background fetch completion, protocol handling, configuration, defragmenter, access scanner, compression and executor threads.
