# A model of the jimcached cache and its proofs

jimcached keeps its data in a lock-free open hash table, frees memory by deferred reclamation, and
resizes the table with a migrating collector that runs beside its clients. This project models that
core in Dafny and proves what it is for: linearizability, reclamation safety, freshness across
resizing, ownership and byte accounting; then the contents of entries (ropes and counters), the hash
functions and the framing of commands.

| files | what they model |
|---|---|
| `Basics.dfy` | options, byte strings, powers of two, sequences without repetition |
| `Linearization.dfy` | histories of calls, commits and returns; linearizability in its textbook form |
| `Probing.dfy`, `ProbeSum.dfy` | the probe sequence, as the loop computes it and in closed form |
| `TableMachine.dfy`, `TableProofs.dfy` | the table under concurrency, one step per load, compare-and-swap, exchange or counter update |
| `TableAlone.dfy`, `TableSolo.dfy` | what each operation of the table does to the buckets, and that a call of the concurrent table that is not interrupted does it |
| `OpenTable.dfy` | the table as an object over an array of buckets, used by one thread |
| `Rehash.dfy` | the collector's copying loop over buckets: which live entries find a place in the new table |
| `GcMachine.dfy`, `GcSafety.dfy`, `GcRace.dfy` | reclamation as a machine of atomic steps, its safety, the runs that break it, and exactly when there are such runs |
| `GcCollector.dfy`, `GcRefinement.dfy` | the reclamation code as methods on one object, draining, and its agreement with the machine |
| `GcFlush.dfy` | the flush barrier |
| `Reclaim.dfy` | table and reclamation together |
| `VersionChain.dfy`, `ChainSolo.dfy` | version chains, as written and as intended, and a thread on one that is not interrupted |
| `CacheModel.dfy`, `CacheProofs.dfy`, `CacheLaws.dfy`, `CacheObject.dfy` | the cache with its collector: steps on values, proofs over all runs, the law of each step, and the cache as an object |
| `Rope.dfy`, `RopeProofs.dfy`, `RopeCalls.dfy`, `ConstRope.dfy` | an entry's rope under concurrent append, prepend and read; what the calls and their arguments make of it; reading a snapshot |
| `Words.dfy`, `Murmur.dfy`, `Murmur32.dfy`, `Unhash.dfy` | machine words, the hash functions, and their undoing |
| `Counters.dfy` | decimal counters in a rope |
| `Framing.dfy` | command lines out of an input buffer |

Concurrent parts are transition systems: a state, an action for each atomic step of each thread, and
runs that start in the initial state and follow enabled actions. Main results hold of the last state of
every run, hence of every reachable state. Memory is sequentially consistent. Where the source changes
objects in place for one thread, the model is a class whose methods are proved against functions on its
value.

## Findings

- A live entry can be dropped by a collection into a table that is no smaller. A probe sequence need not
  visit every bucket, and the entries are inserted again in the order of the old buckets, so a key that had
  a bucket in the old table may find none in the new one; `collect` ignores the refusal, and the entry is
  released. `Rehash.LiveEntryDropped` does this with two tables of two buckets. An entry is dropped exactly
  when it is not live or every probe for its key ends at another key (`Rehash.ShareAll`).
- What clients on active CPUs hold is safe in every run if and only if deleted objects are not allocated
  again, or no CPU registers between another CPU's test of the mask and its cut
  (`GcRace.SafeExactlyWhen`). The code allows both: a CPU that registers in that window can mark an object
  that is then deleted and allocated again, so that the new object carries a mark made before it was freed
  (`GcRace.HeldWhileCut` is such a run).
- `observe` itself can write to a deleted object. An active CPU does so if and only if registrations may fall
  into that window, with no re-allocation needed (`GcRace.ActiveMarksExactlyWhen`). And the checkpoint that
  `gc_exit` runs after `cpu_exit` does so even with orderly registration (`GcRace.ExitMarksDeleted`): over all
  CPUs, marks are safe if and only if registrations are orderly and no CPU checkpoints after leaving the mask
  (`GcRace.AllMarksExactlyWhen`).
- The chain code compares flagged pointers as whole words. A deleted last version is a null pointer with
  its flag set, which is not equal to `nullptr`, and the code then follows it. `VersionChain` proves the
  exact condition (`CrashesExactlyWhen`), a run of four steps (`WrittenCrashes`), and that comparing
  pointers never does this (`IntentNeverCrashes`). Linearizability holds under either comparison.
- After a collection, a key deleted while the collection was building can keep a slot whose chain ends
  in a delete. A get then misses, and yet add is refused, and replace and delete succeed. Replies agree
  with gets exactly when the slot is not stale (`CacheProofs.RepliesAgreeExactly`), and stale slots are
  reachable (`CacheProofs.StaleReachable`).
- `buffer::notify_write` checks room that includes what lies before `head`. An accepted write stays within
  the buffer if and only if there is room for it after `tail`, and `Framing.WriteWithoutCompact` is one that
  does not. The session is safe because each read follows a compaction (`Framing.Session.AwaitCommand` keeps
  `head == 0`).

## Model

| member | source | states |
|---|---|---|
| `Linearization.LinearizationPoints` | src/table.h:350-439 | a well-formed history whose effects, in the order of their commits, are legal for a sequential specification is linearizable: some legal order of all completed calls respects real-time order |
| `ProbeSum.ProbeIsSum` | src/table.h:355-376 | for tables of every size, probe `j` is the sum modulo the number of buckets of the first `j + 1` digits, in that base, of the hashes of the key with seeds 0, 1, 2 and so on, as many whole digits from each as 128 bits hold |
| `TableMachine.KeysUnique` | src/table.h:350-393 | when keys are placed on their own probe sequences, no two buckets hold equal keys |
| `TableMachine.NullProvesAbsence` | src/table.h:270-286 | a null, or the end of the probe sequence, behind other keys proves that a key is nowhere in the table |
| `TableMachine.StepKeepsStruct` | src/table.h:355-439 | every atomic step of any thread keeps the placement of keys and every thread's local assertion, and never empties or changes a key slot |
| `TableProofs.StepKeepsHistory` | src/table.h:350-439 | every step keeps the buckets equal to the map that the commits so far produce, and every commit legal for that map |
| `TableProofs.RunExtends` | src/table.h:288-348 | any enabled step extends any run, so the theorems range over all interleavings |
| `TableProofs.TableLinearizable` | src/table.h:288-439 | find, set, add, replace and remove are linearizable to a partial map under every interleaving of any number of threads; set and add may fail as full only for a key that is absent, without effect, and `TableSolo.FullMeansTaken` says exactly where |
| `TableProofs.ReachableTable` | src/table.h:254-286 | in every reachable state keys are placed and unique, a null behind other keys proves absence, and `usage_count` and `value_count`, corrected by threads about to update them, count the buckets exactly |
| `TableSolo.FullMeansTaken` | src/table.h:254-268 | over every run, only set and add are ever refused as full, and only at a step at which every probe of the key ends at a bucket with another key |
| `TableSolo.EndsAlone` | src/table.h:288-439 | over every run, a call that is not interrupted from some moment on ends; if it had not taken effect, it leaves exactly the buckets, and returns the result, of the operation alone, so that a set or an add of an absent key whose probes are not all taken stores its value with its flag |
| `TableSolo.HistoryIsActions` | src/table.h:288-348 | the invocations in the history are exactly the operations that threads began, in order |
| `TableAlone.AllocatingMeans` | src/table.h:288-315 | alone, set and add are refused as full exactly when every probe ends at another key; what they store is the value with its flag in the bucket of the key, and no other bucket changes; otherwise none does |
| `TableAlone.FindingMeans` | src/table.h:317-348 | alone, replace puts the new value unshared, and remove null, in the bucket of the key, and no other bucket changes; otherwise none does |
| `OpenTable.Table.constructor` | src/table.h:175-182 | a new table is empty |
| `OpenTable.Table.IterateBuckets` | src/table.h:355-376 | the loop over `h`, `bits`, `i` and `seed` visits the probe sequence and stops at the first bucket that is free or holds the key |
| `OpenTable.Table.FindBucket` | src/table.h:270-286 | it returns the key's bucket, or nothing, and then the key is unknown |
| `OpenTable.Table.AllocateBucket` | src/table.h:254-268 | it finds or claims the key's bucket, counts a claim, changes no value, and fails exactly when every probe holds another key |
| `OpenTable.Table.SetValue` | src/table.h:395-410 | it writes one key of the map, keeps both counters exact, and releases the old value unless it was shared |
| `OpenTable.Table.AddValue` | src/table.h:425-439 | it writes only a key without a value, returns the value already there otherwise, and releases nothing |
| `OpenTable.Table.Find` | src/table.h:184-193 | the result is the map's, and that of the operation alone |
| `OpenTable.Table.Set` | src/table.h:288-299 | the result and the new map are those of the sequential specification; the buckets are those of the operation alone, with the value and its flag in the bucket of the key and every other bucket unchanged; full exactly when every probe holds another key; the displaced value is released unless it was shared, and nothing else |
| `OpenTable.Table.Add` | src/table.h:301-315 | likewise, with the existing key and value on refusal; nothing is released, and the buckets change only where the key is or belongs, to the value with its flag |
| `OpenTable.Table.Replace` | src/table.h:317-325 | it succeeds exactly on a key with a value, and then its bucket, and no other, holds the new value unshared, and the old value is released unless it was shared |
| `OpenTable.Table.Remove` | src/table.h:327-348 | it succeeds exactly on a key with a value, and then its bucket, and no other, has a null value, and the old value is released unless it was shared |
| `OpenTable.Table.Exclusive` | src/table.h:195-219 | the map does not change; a shared value found becomes owned, and otherwise the value, and a key object that is not the table's, are released |
| `Rehash.ShareAll` | src/cache.cc:294-302 | after the copying loop the new table, of any size, maps exactly the live keys whose probe sequence in it is not all taken by other keys, each to its old value; its buckets are those the insertions in bucket order give |
| `Rehash.LoopsAgree` | src/cache.cc:294-302 | the loop over buckets shares what the loop over the cache's map shares when a key has room exactly if its probe sequence is not all taken by other keys |
| `Rehash.StoredNotPassed` | src/table.h:254-268 | the probe sequence of a key that has a value is not all taken by other keys |
| `Rehash.RefusedOnlyWhenFull` | src/table.h:355-376 | a key whose probe sequence visits every bucket is refused only by a full table |
| `Rehash.OrderMatters` | src/table.h:355-376 | two keys that fit a table of two buckets in one order of insertion do not fit in the other |
| `Rehash.LiveEntryDropped` | src/cache.cc:297-302 | a live entry of a table is not in a new table of the same size after the copying loop |
| `GcSafety.StepInv` | src/gc.cc:122-192 | every atomic step of frees, checkpoints, registrations and exits keeps the reclamation invariant |
| `GcSafety.SafeRuns` | src/gc.cc:122-192 | under the side condition, no client on an active CPU ever holds an object that is deleted or about to be |
| `GcSafety.CutOnlyAfterAllQuiet` | src/gc.cc:122-138 | when `pop_ready` finds that the marks gathered cover the mask, every object from there on was freed before a checkpoint of every active CPU, although only list heads are marked |
| `GcSafety.MarksIntactObject` | src/gc.cc:175-182 | with orderly registration, the head an active CPU is about to mark is still pending on the list it was loaded from |
| `GcRace.HeldWhileCut` | src/gc.cc:173-182 | a reachable state, without the side condition, in which an active CPU holds an object cut for deletion |
| `GcRace.SafeExactlyWhen` | src/cpu.cc:43-51 | what clients on active CPUs hold is intact in all runs if and only if registration is orderly or objects are not allocated again |
| `GcRace.ActiveMarksDeleted` | src/gc.cc:167-182 | a reachable state, without orderly registration, in which an active CPU is about to mark a deleted object |
| `GcRace.ActiveMarksExactlyWhen` | src/gc.cc:175-182 | active CPUs mark only objects still on their lists, in all runs, if and only if registration is orderly |
| `GcRace.ExitMarksDeleted` | src/gc.cc:216-223 | a reachable state, even with orderly registration and no re-allocation, in which a CPU in its checkpoint after `cpu_exit` is about to mark a deleted object |
| `GcRace.AllMarksExactlyWhen` | src/gc.cc:216-223 | all CPUs mark only objects still on their lists, in all runs, if and only if registration is orderly and no CPU checkpoints after leaving the mask |
| `GcCollector.Collector.CpuInit` | src/cpu.cc:9-15 | the next identity enters the mask; the collector stays settled |
| `GcCollector.Collector.CpuExit` | src/cpu.cc:37-41 | the identity leaves the mask; the collector stays settled |
| `GcCollector.Collector.Free` | src/gc.cc:156-165 | the object goes to the front of its CPU's list; an object never observed keeps the collector settled |
| `GcCollector.Collector.Observe` | src/gc.cc:175-182 | it marks the head unless it was the one last observed, and remembers it |
| `GcCollector.MarksExactly` | src/gc.cc:175-192 | the observing loop marks exactly the heads that the CPU had not seen last at the head of their list, for that CPU only |
| `GcCollector.KnownAfterwards` | src/gc.cc:185-192 | after the loop the CPU has every head as last observed there, and nothing for empty lists; what other CPUs observed last is unchanged |
| `GcCollector.Collector.PopReady` | src/gc.cc:122-138 | it cuts the list where `CutAt` says and returns what it cut |
| `GcCollector.CutIsFirst` | src/gc.cc:122-138 | that is the first object by which every active CPU has marked something, and nowhere if there is none |
| `GcCollector.Collector.Service` | src/gc.cc:140-154 | it deletes what was cut, in order, and nothing else |
| `GcCollector.Collector.Checkpoint` | src/gc.cc:185-192 | it observes every list and then services its own |
| `GcCollector.CheckpointConserves` | src/gc.cc:140-192 | no object is lost or deleted twice: pending and deleted objects together stay the same |
| `GcCollector.Collector.Finish` | src/gc.cc:207-214 | from any settled state the two rounds empty every list and delete each pending object exactly once |
| `GcRefinement.CheckpointAlone` | src/gc.cc:185-192 | a checkpoint run without interruption takes the machine of atomic steps where the method takes the collector |
| `GcRefinement.ClientsAgree` | src/gc.cc:156-165 | registrations, exits and frees take the machine where the methods take the collector |
| `GcRefinement.HeldMeans` | src/gc.cc:185-192 | in the machine, what a client holds grows only by what it acquires and is dropped only when its CPU begins a checkpoint |
| `GcRefinement.QuietMeans` | src/gc.cc:185-192 | in the machine, a CPU counts as quiet since a free only by a later step of its own inside a checkpoint |
| `GcRefinement.ReachableSettled` | src/gc.cc:207-214 | every state reachable by the machine without re-allocation is settled, so draining starts from any reachable state |
| `GcRefinement.ReachableOnce` | src/gc.cc:140-154 | in every such state no object is on the lists twice, deleted twice, or both, so that draining deletes each pending object exactly once |
| `GcFlush.FlushIsBarrier` | src/gc.cc:43-102 | when a flush returns, every active CPU has run a checkpoint since the flush was enqueued or has registered since its last test of the mask, and none is still in an operation that began before, over every interleaving with checkpoints, registrations and exits |
| `GcFlush.NoLostWakeUp` | src/gc.cc:194-223 | a flusher asleep although it could go on has been notified, or a CPU inside a checkpoint or on its way out has yet to test the mask, and then notifies |
| `GcFlush.ClocksMean` | src/gc.cc:68-82 | the times the barrier speaks of are set exactly by the enqueueing of the waiter, by registrations and by the beginnings of operations |
| `GcFlush.MarksMean` | src/gc.cc:48-55 | and the times of marks exactly when CPUs mark the waiter |
| `GcFlush.CoveredReturns` | src/gc.cc:68-82 | a flush whose active CPUs have all marked its waiter returns and gives up the mutex, by its own two steps |
| `GcFlush.FlushCanReturn` | src/gc.cc:68-102 | from every reachable state with a flush in progress it can return, needing nothing but checkpoints of active CPUs: there is no deadlock |
| `Reclaim.RunExtends` | src/table.h:327-338 | any enabled step extends any run of table and reclamation together, with shared and unshared inserts and, where the rules allow it, re-allocation |
| `Reclaim.ReturnedStaysIntact` | src/table.h:184-193 | under every safe rule, a pointer to an unshared value that `find` or `add` has loaded for its caller is neither deleted nor cut before that thread's next checkpoint |
| `Reclaim.HandedStaysIntact` | src/table.h:184-193 | in every run under every safe rule, a pointer to an unshared value that a call loaded and handed to its caller stays intact as long as that thread enters no checkpoint |
| `Reclaim.HandedFromBucket` | src/table.h:184-193 | a result names a pointer only if the access to the bucket of the call's key found it there |
| `Reclaim.StoredInOnePlace` | src/table.h:395-423 | under every safe rule, each unshared value stored and not allocated again since is at all times in exactly one bucket, one thread's pending release, a reclamation list, or deleted |
| `Reclaim.ReleaseFrees` | src/table.h:327-348 | the step in which a call releases a value is the one in which that value goes to `gc_free` |
| `Reclaim.TableRun` | src/table.h:288-439 | seen at its table, every run of table and reclamation together is a run of the table |
| `Reclaim.LinearizableTogether` | src/table.h:288-439 | so the table stays linearizable while its values are freed and collected |
| `VersionChain.StepKeeps` | src/history.h:28-105 | every atomic step keeps the chain append-only with one tail and every thread standing on it |
| `VersionChain.RunExtends` | src/history.h:28-105 | a thread that has not crashed can always go on, so that runs range over all interleavings |
| `VersionChain.ChainLinearizable` | src/history.h:28-105 | mv_set, mv_add, mv_replace, mv_del and newest are linearizable: add succeeds exactly when the tail is deleted, replace and del exactly when it is live, newest returns the last write |
| `ChainSolo.EndsAlone` | src/history.h:28-105 | over every run, comparing pointers, an operation that is not interrupted from some moment on takes effect with the result the chain then demands |
| `ChainSolo.HistoryIsActions` | src/history.h:28-105 | the invocations in the history are exactly the operations that threads began, in order |
| `VersionChain.ComparisonsDiffer` | src/flagged_ptr.h:28-29 | comparing words and comparing pointers take different branches on exactly one word: null with the deleted flag |
| `VersionChain.CrashesExactlyWhen` | src/history.h:53-105 | a step follows a null pointer exactly when it compares words and fails on that word |
| `VersionChain.IntentNeverCrashes` | src/history.h:53-105 | comparing pointers, no run follows a null pointer |
| `VersionChain.WrittenCrashes` | src/history.h:53-62 | as written, a set after a delete does |
| `CacheProofs.StepKeeps` | src/cache.cc:65-316 | every client operation and collector step keeps references, chains, flags, ownership, bytes, key objects and freshness |
| `CacheProofs.GetIsFresh` | src/cache.cc:150-161 | over every interleaving of whole operations with collector steps, across any number of collections, a get returns the last write reported stored with no later reported delete, or misses; it misses such a write exactly for keys a switch of tables left behind |
| `CacheProofs.LostExactly` | src/cache.cc:294-303 | a switch leaves behind exactly the visible keys not shared into the new table |
| `CacheLaws.SwitchLoses` | src/cache.cc:284-303 | over every run, a switch takes a key from gets exactly if it was found and every attempt since the collection started to share it, by a set, an add or a copying turn that found it live, was refused for want of a bucket |
| `CacheLaws.SharedExactly` | src/cache.cc:65-128 | at any moment of a build the new table has a value for a key exactly if some such attempt since the start found a bucket |
| `CacheLaws.ValueStays` | src/cache.cc:284-303 | during a build no value in the table in use is lost or exchanged for another base |
| `CacheProofs.BuildingIsSubmap` | src/cache.cc:284-303 | while building, the new table is a submap of the old one in keys, key objects and values |
| `CacheProofs.StoredHeldOrReleased` | src/cache.cc:284-316 | every entry ever reported stored is held, and then a table owns its base, or has been released exactly once |
| `CacheProofs.HandOffComplete` | src/cache.cc:304-316 | between collections the table solely owns all its values, and what is held, entries and key objects, is exactly what the table reaches; every key object ever kept and no longer held has been released exactly once |
| `CacheProofs.BytesAccounted` | src/cache.cc:42-51 | `bytes_` is the total rope size of the entries stored and not released, every version on a chain included |
| `CacheProofs.RepliesAgreeExactly` | src/cache.cc:97-176 | add, replace and delete reply as a get would lead one to expect if and only if the slot is not stale |
| `CacheLaws.SetLaw` | src/cache.cc:65-95 | set replies stored exactly when its key is known or has room; then, and only then, the write is reported, gets of the key find the new entry with its size, and a table being built that has or finds a bucket for a new base has it too; gets of other keys never change |
| `CacheLaws.AddLaw` | src/cache.cc:97-128 | likewise for add, stored exactly when moreover the slot has no value, or during a build no value that gets find |
| `CacheLaws.ReplaceLaw` | src/cache.cc:130-148 | likewise for replace, stored exactly on a slot with a value, or during a build one that gets find |
| `CacheLaws.DelLaw` | src/cache.cc:163-176 | del replies deleted exactly on a slot with a value, or during a build one that gets find; then, and only then, the delete is reported, and gets of the key find nothing |
| `CacheLaws.GrowLaw` | src/cache.cc:178-198 | append grows the base entry, and prepend the newest version, by exactly the bytes given, and no other entry; gets find the same entries |
| `CacheLaws.CopyLaw` | src/cache.cc:294-302 | a copying turn shares the value exactly when it is live and the new table has or finds a bucket, and changes no get |
| `CacheLaws.SwitchLaw` | src/cache.cc:303-303 | after the switch gets find exactly what the new table shared |
| `CacheLaws.HandLaw` | src/cache.cc:304-316 | a hand-off turn takes one slot out of the old table, and changes no get, no report and no size |
| `CacheProofs.StaleReachable` | src/cache.cc:284-316 | a run reaches a stale slot |
| `CacheObject.Cache.EntryRelease` | src/cache.cc:42-51 | walking the chain, it takes the sizes of all versions off `bytes_` and releases them all |
| `CacheObject.Cache.Set` | src/cache.cc:65-95 | its new state and reply are the model's set, whose law is `CacheLaws.SetLaw`, and the invariant of all runs is kept |
| `CacheObject.Cache.Add` | src/cache.cc:97-128 | its new state and reply are the model's add, and the invariant of all runs is kept |
| `CacheObject.Cache.Replace` | src/cache.cc:130-148 | its new state and reply are the model's replace, and the invariant of all runs is kept |
| `CacheObject.Cache.Get` | src/cache.cc:150-161 | it returns the latest write clients were told of, or nothing if there is none or it was left behind |
| `CacheObject.Cache.Del` | src/cache.cc:163-176 | its new state and reply are the model's delete, whose law is `CacheLaws.DelLaw`, and the invariant of all runs is kept |
| `CacheObject.Cache.Append` | src/cache.cc:178-187 | the bytes are counted and go to the base entry |
| `CacheObject.Cache.Prepend` | src/cache.cc:189-198 | the bytes are counted and go to the newest version |
| `CacheObject.Cache.CopyAll` | src/cache.cc:294-302 | the copying loop shares exactly the live entries whose newest version is not deleted and for which the new table has a bucket |
| `CacheObject.Cache.HandOverAll` | src/cache.cc:306-314 | the hand-off loop empties the old table, keeps the invariant and changes no get |
| `CacheObject.Cache.Collect` | src/cache.cc:284-316 | with no client in between, a get finds after a collection exactly what it found before for live keys that have a bucket in the new table, and nothing for others; it runs through the collector's own steps |
| `Rope.LogicalShape` | src/entry.cc:22-40 | the rope that publications build is the prepends newest first, the original, and the appends in exchange order |
| `RopeProofs.StepKeeps` | src/entry.cc:22-40 | every atomic step of append, prepend and read keeps the rope's invariant and touches only allocated buffers |
| `RopeProofs.NothingLost` | src/entry.cc:22-40 | in every reachable state the published buffers, each once, run from head to tail by real or pending links in that order, no assertion has failed, and all links are real exactly when no append is in flight |
| `RopeCalls.OverMeansPublished` | src/entry.cc:22-40 | over every run, an append or prepend that is over has made exactly one publication, of its own kind and of buffers that hold its argument |
| `RopeCalls.CallsPublished` | src/entry.cc:22-40 | and the publications are exactly those: each belongs to one call begun, and a call that has not published is still on its way |
| `RopeCalls.PublishersGrow` | src/entry.cc:22-40 | publications are never taken back or reordered, so calls that follow one another publish in their order |
| `RopeCalls.ContentsAreCalls` | src/entry.cc:22-40 | in every reachable state the published buffers hold the arguments of the prepends newest first, the initial contents, and the arguments of the appends in order; with no append in flight that is what the links lead through |
| `RopeCalls.WriteAlone` | src/entry.cc:22-40 | an append or prepend that nothing interrupts ends after three steps with its argument behind, or in front of, what the entry held |
| `RopeCalls.ReadAlone` | src/entry.cc:149-156 | a read that nothing interrupts, with no append in flight, returns the whole rope |
| `RopeProofs.AssertionHolds` | src/entry.cc:26-26 | `old->next` is null whenever append is about to check it |
| `RopeProofs.SnapshotStable` | src/entry.cc:149-156 | what read returned is a contiguous piece of the logical rope that starts with the head the read loaded, and denotes the same buffers and bytes at every later moment |
| `RopeProofs.SnapshotCovers` | src/entry.cc:149-156 | a read that loads the head with no append in flight returns at least the whole rope of that moment, from its head |
| `ConstRope.Reader.Size` | src/const_rope.cc:7-13 | the number of bytes, though each load sees a later memory |
| `ConstRope.Reader.Hash` | src/const_rope.cc:15-24 | the fold of MurmurHash64A over the same buffers |
| `ConstRope.Reader.Pop` | src/const_rope.cc:26-36 | the first buffer comes off and the rest of the rope is left |
| `ConstRope.Reader.Drain` | src/const_rope.cc:26-36 | popping to the end yields the same bytes and null pointers |
| `ConstRope.MemTail` | src/mem.cc:7-23 | the last buffer reachable |
| `ConstRope.MemSize` | src/mem.cc:53-59 | the bytes up to the tail, or to the end when the tail is null |
| `ConstRope.SettledRope` | src/entry.cc:184-188 | with no append in flight, `mem_tail` of the head is the tail and the entry's size is that of the logical rope |
| `ConstRope.EntrySize` | src/cache.cc:178-198 | and that size is the original's plus that of every rope appended or prepended, which is what the cache adds to `bytes_` |
| `ConstRope.SnapshotReadable` | src/entry.cc:149-156 | a snapshot taken in a run may be read from any later memories of the run |
| `Murmur.MurmurHash64A` | src/murmur2.cc:96-137 | the loop computes the reference hash |
| `Murmur.NoCollisionInOneBlock` | src/murmur2.cc:96-137 | for a fixed seed and length, keys that differ only in one 8-byte block or only in the tail hash alike if and only if they are equal |
| `Murmur.TimesUndone` | src/murmur2.cc:98-115 | multiplying by the odd constant modulo 2^64 can be undone |
| `Unhash.SeedFromHash64` | src/murmur2.cc:96-137 | with the constants and shifts written out, the seed is got back from the hash of any key and that key |
| `Unhash.KeyFromHash64` | src/murmur2.cc:96-137 | and a key of at most one block from its hash and the seed |
| `Words.XorShiftInjective` | src/murmur2.cc:112-114 | xor with one's own high part is injective when the shift is at least half the width |
| `Words.XorDownIs` | src/murmur2.cc:121-131 | mixing in the last bytes one by one is mixing in the little-endian word they form |
| `Murmur32.MurmurHash2` | src/murmur2.cc:37-86 | the loop computes the reference hash over little-endian words |
| `Murmur32.MurmurHashNeutral2` | src/murmur2.cc:251-293 | reading bytes one by one gives the same hash, for every key and seed |
| `Murmur32.MurmurHashAligned2` | src/murmur2.cc:306-432 | reading aligned words only gives the same hash, for every key, seed and alignment |
| `Murmur32.MixAligned` | src/murmur2.cc:335-356 | the aligned loop mixes the same words and leaves the bytes not yet mixed in its temporary |
| `Unhash.SeedFromHash32` | src/murmur2.cc:37-86 | with the constants and shifts written out, the seed is got back from the hash of any key and that key |
| `Unhash.KeyFromHash32` | src/murmur2.cc:37-86 | and a key of at most one word from its hash and the seed |
| `Counters.ConsumeWhitespace` | src/entry.cc:42-64 | across buffers it stops where skipping white space in the concatenated bytes stops, and at the very end exactly when nothing is left |
| `Counters.AtoiFrom` | src/entry.cc:66-85 | it parses, or rejects, what is left as the concatenated bytes would be |
| `Counters.Atoi` | src/entry.cc:87-93 | parsing a rope is parsing its concatenated bytes, for every chunking |
| `Counters.ParseNumber` | src/entry.cc:66-93 | white space, digits and white space parse to the number denoted, modulo 2^64 |
| `Counters.ParsesExactly` | src/entry.cc:66-93 | exactly such texts are accepted |
| `Counters.PrintParse` | src/entry.cc:114-118 | the decimal text of a 64-bit value has at most 20 bytes and parses back to it |
| `Counters.DecimalCanonical` | src/entry.cc:117-117 | the text has no leading zero |
| `Counters.Entry.IncrDecr` | src/entry.cc:101-136 | the text becomes that of the wrapping sum or the saturating difference, which is returned; text that is no number is left alone |
| `Counters.Entry.Apply` | src/entry.cc:126-136 | a sequence of operations succeeds exactly when the first text is a number, and then leaves the canonical text of the fold |
| `Counters.Compute` | src/entry.cc:126-136 | the result of incr fits 64 bits and differs from the sum by a multiple of 2^64; that of decr is the difference, or 0 if there is too little |
| `Counters.IncrementsAddUp` | src/entry.cc:101-136 | any number of increments leave the sum modulo 2^64 |
| `Counters.DecrementsSaturate` | src/entry.cc:101-136 | any number of decrements leave the difference, or 0 |
| `Framing.FrameMeans` | src/session.cc:585-602 | lines and remainder make up the stream, each line is whole and fits the buffer, and the session hangs up exactly when 4096 bytes are left with no newline among them |
| `Framing.FrameExtends` | src/session.cc:604-611 | more input changes no line already found and takes back no hang-up |
| `Framing.Buffer.Compact` | src/buffer.h:114-118 | the contents move to the front unchanged |
| `Framing.Buffer.NotifyRead` | src/buffer.h:102-108 | it is refused exactly when there is not that much to read |
| `Framing.Buffer.NotifyWrite` | src/buffer.h:109-113 | it is refused exactly when there is not that much room before `head` and after `tail` together; when accepted, the indices stay within the buffer if and only if there is that much after `tail` |
| `Framing.WriteWithoutCompact` | src/buffer.h:102-113 | an accepted write that ends outside the buffer |
| `Framing.Buffer.Sub` | src/buffer.h:126-126 | it takes a prefix off the contents |
| `Framing.FindEndOfCommand` | src/utils.cc:75-80 | the length of the first line |
| `Framing.Session.CmdReady` | src/session.cc:585-602 | a whole line becomes the command; without one the session stops exactly when the buffer is full |
| `Framing.Session.AwaitCommand` | src/session.cc:604-611 | reads of any sizes end with the first line of the stream, a hang-up on overflow, or the end of input, with `0 <= head <= tail <= size` throughout |
| `Framing.Session.RecvCommand` | src/session.cc:570-583 | a line already buffered is taken first; otherwise the buffer is compacted before reading |
| `Framing.ServeNew` | src/session.cc:570-611 | for every stream and every fragmentation, a session yields the same lines and stops exactly on overflow |

## Left out

- Deviation: `CacheModel` compares chain pointers and ignores the flag (src/history.h:58-60, 69-71, 83-86, 97-100); `VersionChain` has both readings.
- Deviation: in `CacheModel` an entry whose newest version is deleted is not live; `entry_is_live` would follow a null pointer (src/cache.cc:272-273).
- Deviation: releasing a null value does nothing (src/table.h:199-207, src/cache.cc:42-51).
- Deviation: `add` into a full table while building returns `set_error`; the code would follow a null pointer (src/cache.cc:112-113).
- `is_building` reads two pointers separately, and operations that saw no new table can overlap ones that did before the first flush (src/cache.cc:291-293, 318-327): the cache is modelled with whole client operations between collector steps.
- CacheObject.Cache.Set: whether a bucket can be found for a new key is a parameter; `OpenTable.Table.AllocateBucket` says when it can.
- CacheObject.Cache.Collect: states the collector without clients in between; `CacheProofs` covers all interleavings. Liveness is an arbitrary predicate, and so is which keys find a bucket in the new table; `Rehash.ShareAll` says which do.
- CacheObject.Cache.Append: contents are not followed into entries, so that freshness speaks of which write a get returns and not of bytes appended to it (src/cache.cc:179-187).
- GcSafety.SafeRuns: requires orderly registration or objects not allocated again; `GcRace.SafeExactlyWhen` shows that this is exact.
- GcSafety.MarksIntactObject: only for CPUs in the mask and orderly registration; `GcRace.AllMarksExactlyWhen` shows that this is exact.
- GcRefinement.CheckpointAlone: for a CPU outside the mask only under the rule that such CPUs run checkpoints.
- GcCollector.Collector.Finish: needs that no object is allocated twice, as the comment on `observe` warns (src/gc.cc:173-174).
- The mask is a set of CPUs: `seen |= (1 << cpu)` sign-extends for CPU 31, which adds marks only for CPUs that do not exist (src/gc.cc:170).
- Several flushes at once: the code marks the removal of a waiter as unfinished (src/gc.cc:80-81).
- `cas` and the 128-bit swap of head and tail under concurrency; `incrdecr` is modelled for one thread, where the swap succeeds at once (src/entry.cc:95-124, 158-175).
- Appending or prepending an empty rope, which the code does not handle: ropes have at least one buffer.
- Lengths are unbounded: keys of 2^31 bytes and more, which the `int len` of the hash functions and the `int` loop counter of the table exclude, are not told apart.
- Real time, timestamps, statistics, sockets, replies, data blocks and the binary protocol are not modelled.
- Weak memory ordering: atomics are sequentially consistent.
- MurmurHash64B and MurmurHash2A: independent variants with no equivalence to state.
