# process-bandwidth: a verified model

process-bandwidth traces system calls with eBPF, accounts the bytes each process and each of its
connections sends and receives, and shows them as histories and plots. This project models the parts of it
that carry state or arithmetic, and proves what they are relied on for.

| files | what they model |
|---|---|
| `SyncMapMachine`, `SyncMapInvariant`, `SyncMapEffects`, `SyncMapRely`, `SyncMapSteps`, `SyncMapTheorems` | the concurrent map of `pkg/sync/map.go` as a step system: any number of threads, one atomic load, compare-and-swap, store, lock or in-lock action at a time, any schedule. The proof is by rely and guarantee: an invariant of the shared state by the phase the lock holder is in, a clause for every program point, and a history of the abstract map against which every answer is settled. |
| `SyncMapRange` | what a concurrent Range tells its callback, over schedules: every key and value it is given, and when it stops. |
| `SyncMapProgress` | progress in the step system: a bound on the steps a call has left, so that no call is stuck, and calls that have enough in read need no lock. |
| `SyncMapTimely`, `SyncMapCost` | the amortised cost in the step system, under every schedule: dirty is promoted no later than at the lookup past read that makes these as many as its keys, and the entries looked at in copying are paid for by misses, and by what Range promotes. |
| `SyncMap` | the same map run by one caller, as a class over heap-allocated entries: it refines a plain map, promotion and expunging are invisible, whatever the callbacks of a Range do, and every operation says what it adds to the account of copying. |
| `Ring` | the linked ring of `pkg/ring/ring.go`: a ring is the sequence of its elements, from the one a method is called on. |
| `Ringers` | the array ring and the linked ring behind one interface: both tell every client the same. |
| `Tallies`, `Counters` | the traffic counter of `engine/counter.go`: the laws of accounting over unbounded totals, and the class with 64-bit words and reused snapshot objects that obeys them. |
| `Engine`, `EngineWorker`, `EngineTheorems`, `EngineLedger`, `EngineLimits` | events and ticks of `engine/event.go` and `engine/worker.go` as steps over the tables of processes and connections; invariants over all runs; a ledger of where the bytes of a process are at a tick; and runs that show where two of the guarantees end. |
| `EngineEvents` | what each event and each tick does, said by the numbers in the event and the state before it. |
| `Tracepoints` | the kernel side of `tracepoint/tracepoint.c`: bounded maps that pair the entry of a call with its exit, and the events that come of it. |
| `Wire`, `WireLayout`, `Dispatch`, `Delivery` | the packed structs and their bytes at each offset, the decoding of samples into reused event objects, and the way of an event from the kernel to a worker. |
| `PlotScale`, `Plot` | rounding, extremes, interpolation, and the grid of `pkg/asciigraph`, over exact reals with a missing value (NaN) as `None`. |
| `PlotFit`, `PlotShape` | where exactly a fitted point lies, how levels follow the values, and which sides of a cell the characters of a plot reach. |
| `Options` | the shared optional value. |

Pure code is modelled by functions; code that changes things in place by methods over fields, maps and arrays,
each proved against a function of the state before it. What the source promises is then proved about these
functions, over every input and every run.

Three promises fail for some runs or inputs. Each has a run, or the arithmetic, that shows it, and the condition under which it holds:

* An evicted process takes no accountable connection with it that is not idle. After every run, and whatever its lookups
  did, this is broken if and only if the process has an accountable connection that was made within the timeout
  (`EvictionTakesLive`); no other connection can be newer than its process, as its update times show (`EvictedExactly`). This
  happens when a connection is opened as local, which leaves the process alone, and a lookup for another connection rewrites the
  shared `ConnectionInfo` in place (`refreshFromInet`, engine/connection.go:175-189); `ShownConnection` is such a run. It never
  happens in a run in which no lookup turns a connection of the table from local to not local (`EvictedIsIdle`).
* What a tick records for the connections of a process stays within what it records for the process. After every run, and whatever
  its lookups did, this is so at a tick at which the process got fewer than 2^64 bytes if and only if the bytes that the recorded connections got
  too early, before the last snapshot of the process, are no more than those that are left out: of connections the tick does not record, of
  connections that have gone since, and what the 64-bit words of the connections drop (`EngineLedger.TickExactly`). If ticks are apart nothing is too early for a
  connection last snapshotted together with its process (`InStepNotEarly`), so the promise holds at every tick that finds all that it records for in
  step (`TickInStepWithin`), and in every run in which no lookup turns a connection of the table from not local to
  local (`TickWithinProcess`). `HiddenBytes` and `WrappedBytes` are runs in which a connection is out of step, and in
  which the process got 2^64 bytes or more: each breaks the promise.
* A plot has exactly the height asked for unless the scaled minimum is a half below a whole number and zero lies
  strictly between minimum and maximum; then, and only then, it has one row more (`RowsExact`). It never is so for a minimum of 0 or more;
  values from -1/2 to 1/2 on one row are such a case (`ExtraRow`).

Where code and comment differ the code is followed: `Unlink` says that the ring remains unchanged and returns the removed
subring, and with `n % Len == 0` the code returns `r.Next()` (pkg/ring/ring.go:107-116); a width of 1 makes
`interpolateArray` return two points (pkg/asciigraph/utils.go:54-70).

## Model

| member | source | states |
|---|---|---|
| `SyncMapTheorems.Linearizable` | pkg/sync/map.go:113-363 | Under every schedule of any number of threads the abstract contents change only at recorded effects, each the change a sequential map makes for the operation behind it, and every finished Load, Store, LoadOrStore and LoadAndDelete has the answer an atomic map gives at one instant between its start and its end; a finished Range reports only mappings that held during it and, if it was not stopped, misses only keys absent at some instant of it (when it stops: `SyncMapRange.RangeStops`) |
| `SyncMapRange.RangeStops` | pkg/sync/map.go:354-362 | Under every schedule the turns of a finished Range gave its callback exactly the mappings that the call visited, each key once with the value it visited; the callback asked to go on at each but perhaps the last, and the Range saw all exactly if it did so there too |
| `SyncMapRange.StoppedOnce` | pkg/sync/map.go:354-362 | A finished Range that did not see all has a turn of its own, between its start and its end, at which the schedule has the callback stop, with a key it visited, and no turn after it tells the callback anything |
| `SyncMapRange.StopEnds` | pkg/sync/map.go:354-362 | Conversely a turn that tells a key to a callback that asks to stop is the last to tell it anything: the call ends with that key visited and not all seen |
| `SyncMapRange.RangeMoves` | pkg/sync/map.go:354-362 | Each action of a Range adds to what it has visited exactly the mapping that its callback is given, if it is given one, and stops exactly if that callback asks to |
| `SyncMapProgress.EndsAlone` | pkg/sync/map.go:113-398 | A thread that does not have to wait for the lock ends its call by turns of its own, wherever it stands, in no more steps than Rank counts: none of the retry loops goes on by itself for ever. No other thread is moved, one call of that operation and start is added to the finished ones, and the lock is left to whoever else had it |
| `SyncMapProgress.Finishes` | pkg/sync/map.go:113-398 | Such turns exist in every state that a schedule leads to: a fresh address and a key still to be seen can always be chosen |
| `SyncMapProgress.NeverStuck` | pkg/sync/map.go:113-398 | Whatever the schedule so far, each call under way can still be ended, by turns of its own thread after those of the holder of the lock, if there is one; no other call is needed |
| `SyncMapProgress.LockFree` | pkg/sync/map.go:113-150 | A Load, Store, LoadOrStore or LoadAndDelete that has enough in the read it loaded (the key, with an entry that is not expunged if it stores; or, for a Load or LoadAndDelete, a read said to be complete) is done in five steps without the lock, even while another thread holds it (also lines 210-218, 281-302) |
| `SyncMapProgress.LockFreeWhole` | pkg/sync/map.go:113-150 | From its first action such a call takes six steps (also lines 210-218, 281-302) |
| `SyncMapProgress.RankFalls` | pkg/sync/map.go:113-398 | Every action of a thread that does not have to wait, at each program point, brings its call nearer to the end, given a key still to be seen and a fresh address |
| `SyncMapTimely.PromotedInTime` | pkg/sync/map.go:365-373 | Under every schedule, whenever mu is free: misses is the number of locked lookups that went past read since dirty was given up last (every Load or LoadAndDelete of a key that read lacks while amended, every LoadOrStore that finds its key in dirty), and these are fewer than the keys of dirty, or there is no dirty and there were none |
| `SyncMapTimely.StepCounts` | pkg/sync/map.go:113-136 | Every step of any thread keeps misses at the number of those lookups, and gives it up with dirty (also lines 227-230, 281-296, 365-373) |
| `SyncMapTimely.StepTimely` | pkg/sync/map.go:365-373 | No step of any thread leaves dirty waiting for its promotion longer than that (also lines 153-173, 375-387) |
| `SyncMapTheorems.Reachable` | pkg/sync/map.go:37-103 | The whole invariant (shared state by phase of the lock holder, one clause per program point, history, finished calls) holds after every schedule |
| `SyncMapTheorems.StepKeepsInvariant` | pkg/sync/map.go:113-398 | No step of any thread, with whatever choice of operation, value, address or iteration order, breaks the invariant |
| `SyncMapTheorems.FreeShape` | pkg/sync/map.go:50-103 | Whenever mu is free: amended iff dirty exists; an entry of read is absent from an existing dirty exactly when it is expunged; keys in both have one entry; without dirty nothing in read is expunged; no dirty entry is expunged |
| `SyncMapTheorems.LockedWritesAreSafe` | pkg/sync/map.go:153-173 | No run reaches a write to a nil dirty map, and under the lock neither storeLocked nor tryLoadOrStore finds an expunged entry (also lines 220-241) |
| `SyncMapTheorems.PublishedNeverChanges` | pkg/sync/map.go:72-76 | A table that was published as read.m keeps its keys and entries for the rest of every run |
| `SyncMapTheorems.StepKeepsPublished` | pkg/sync/map.go:338-351 | No single step changes a published table, although promotion publishes the very table the lock holder wrote (also lines 365-373) |
| `SyncMapTheorems.OneCallPerEffect` | pkg/sync/map.go:180-190 | Every change of the map belongs to a running or finished call, no two calls to the same change (also lines 251-277, 309-319) |
| `SyncMapTheorems.ValueStays` | pkg/sync/map.go:251-277 | While a key only sees LoadOrStore, a value once there is never replaced or removed |
| `SyncMapTheorems.WinnerExists` | pkg/sync/map.go:251-277 | If such a key has a value, some LoadOrStore put exactly that value there, at a moment no later |
| `SyncMapTheorems.OneWinner` | pkg/sync/map.go:251-277 | Only one LoadOrStore ever stores under such a key |
| `SyncMapTheorems.RaceAnswer` | pkg/sync/map.go:210-244 | A finished LoadOrStore of the race was given the winner's value, with loaded=false exactly if its own change is the winning one |
| `SyncMapTheorems.LoadOrStoreRace` | pkg/sync/map.go:210-277 | Any number of threads racing LoadOrStore on a key that nothing stores to or deletes: all get one value, and at most one finished call is told loaded=false, namely the call, still running or finished, whose store it was |
| `SyncMapTheorems.ActionOk` | pkg/sync/map.go:113-398 | Every action at every program point keeps the shared invariant for the phase it leads to, keeps its promises to the other threads, and justifies the point it moves to |
| `SyncMapTheorems.OthersStay` | pkg/sync/map.go:82-103 | A step that keeps its promises disturbs no clause of any other thread, in or out of the lock |
| `SyncMapRely.OutsideStays` | pkg/sync/map.go:114-149 | A thread without the lock, however stale its snapshot, keeps what it knows through any step of another: in particular an expunged entry dropped by promotion never comes to life again (also lines 210-218, 281-284) |
| `SyncMapRely.HolderStays` | pkg/sync/map.go:153-173 | The lock holder keeps what it knows through any compare-and-swap of threads without the lock (also lines 220-241, 286-296) |
| `SyncMapEffects.WriteLinked` | pkg/sync/map.go:180-190 | A store, delete or insertion through an entry that the map leads to keeps every invariant and every promise (also lines 203-205, 266-268, 309-318) |
| `SyncMapEffects.ClearOwned` | pkg/sync/map.go:298-300 | The deleter that took an entry out of dirty clears it without changing the map: nobody else can (also lines 309-318) |
| `SyncMapEffects.ClearExpunged` | pkg/sync/map.go:196-198 | unexpungeLocked changes no mapping and leaves the shared state with exactly one key to be put into dirty |
| `SyncMapEffects.MarkExpunged` | pkg/sync/map.go:389-398 | tryExpungeLocked changes no mapping; the entry is missing from the dirty map being filled |
| `SyncMapEffects.PutDirty` | pkg/sync/map.go:156-160 | m.dirty[key] = e after unexpunging restores the stable invariant (also lines 223-225) |
| `SyncMapEffects.NewDirty` | pkg/sync/map.go:380-381 | Making dirty starts the filling phase and changes no mapping |
| `SyncMapEffects.InsertDirty` | pkg/sync/map.go:171 | A new entry in dirty adds exactly that key with that value (also lines 237-239) |
| `SyncMapEffects.RemoveDirty` | pkg/sync/map.go:289-290 | Taking an entry out of dirty removes exactly that key, and the entry, still holding its value, is linked nowhere afterwards |
| `SyncMapEffects.PublishDirty` | pkg/sync/map.go:346-347 | Publishing dirty as read changes no mapping; entries that drop out of read are expunged (also lines 370) |
| `SyncMapEffects.RetireDirty` | pkg/sync/map.go:348-349 | Forgetting dirty after that restores the stable invariant and changes no mapping (also lines 371-372) |
| `SyncMapEffects.Amend` | pkg/sync/map.go:169 | Marking read as amended ends the filling phase once dirty has every live entry (also lines 235) |
| `SyncMapSteps.FastReadStep` | pkg/sync/map.go:114 | The first atomic load of read is a snapshot any operation may go on from (also lines 148, 212, 282, 337) |
| `SyncMapSteps.FastLookupStep` | pkg/sync/map.go:115-117 | The lookup in a snapshot that may be stale leads to an answer, an entry or the lock, each justified (also lines 149-153, 213-220, 283-285, 338-343) |
| `SyncMapSteps.SlowLookupStep` | pkg/sync/map.go:121-128 | The lookup under the lock, in read and then in dirty, for each operation (also lines 154-170, 221-236, 286-295, 344-350) |
| `SyncMapSteps.MissStep` | pkg/sync/map.go:365-369 | A recorded miss promotes once misses reach the size of dirty, and not before |
| `SyncMapSteps.LoadSlotStep` | pkg/sync/map.go:138-144 | The load of an entry answers as the map does at some instant of the call, even if the entry has since left the map |
| `SyncMapSteps.DeleteCasStep` | pkg/sync/map.go:309-318 | A successful swap to nil is the deletion, or clears the entry this thread alone took out of dirty; a failed one tries again |
| `SyncMapSteps.StoreCasStep` | pkg/sync/map.go:180-189 | A successful swap in tryStore is the store of that value; a failed one tries again |
| `SyncMapSteps.UnexpungeStep` | pkg/sync/map.go:156 | Under the lock an expunged entry loses its mark, any other entry is left alone (also lines 196-198, 223) |
| `SyncMapSteps.StoreLockedStep` | pkg/sync/map.go:161-163 | storeLocked is the store (also lines 203-205) |
| `SyncMapSteps.PutStep` | pkg/sync/map.go:251-277 | Each point of tryLoadOrStore, with and without the lock: a lost swap is re-read, a value found is the answer, a swap won is the store |
| `SyncMapSteps.ExpungeLoadStep` | pkg/sync/map.go:382-384 | dirtyLocked copies live and skips expunged entries (also lines 390-391) |
| `SyncMapSteps.ExpungeCasStep` | pkg/sync/map.go:391-397 | dirtyLocked expunges a deleted entry, or looks again if a store came first |
| `SyncMapSteps.InsertNewStep` | pkg/sync/map.go:171 | The insertion of a key in neither table is the effect of its Store or LoadOrStore (also lines 237-239) |
| `SyncMapSteps.RangeIterStep` | pkg/sync/map.go:354-362 | Each turn of Range's loop reports a mapping that held during the call, or skips a key absent at that instant (what the callback is told by the turn: `SyncMapRange.RangeMoves`) |
| `SyncMapCost.CopyingIsPaidFor` | pkg/sync/map.go:365-387 | Under every schedule of any number of threads, the entries that dirtyLocked has taken up are never more than the misses recorded, and the entries of the dirty maps that Range promoted |
| `SyncMapCost.StepAffords` | pkg/sync/map.go:338-387 | Every step of any thread keeps the account: what is copied now is paid for by misses or promotions before it |
| `SyncMapCost.HolderAffords` | pkg/sync/map.go:365-387 | So does every step of the lock holder, at each point between making dirty and publishing it |
| `SyncMapCost.ExpungeAffords` | pkg/sync/map.go:382-386 | Taking up one entry more of read costs one, and there remains enough for the others |
| `SyncMap.Map.Load` | pkg/sync/map.go:113-136 | Answers as the plain map it stands for, which it leaves as it is whether or not the miss promotes dirty; a miss is counted exactly if read lacks the key and is amended, and promotes dirty exactly if it makes as many as dirty has keys |
| `SyncMap.Map.Store` | pkg/sync/map.go:147-174 | The plain map has the new mapping and no other change, whichever of the four paths is taken; no miss is recorded |
| `SyncMap.Map.LoadOrStore` | pkg/sync/map.go:210-244 | loaded iff the key was there; the value there, or the one valueFn makes, which is then stored; the caller's function object is called once more if nothing was loaded, otherwise not at all; a miss exactly if only dirty has the key |
| `SyncMap.Map.TryLoadOrStore` | pkg/sync/map.go:251-277 | The same through the entry a lookup finds, which is not expunged: the object is called exactly if nothing is loaded |
| `SyncMap.Map.LoadOrStoreNew` | pkg/sync/map.go:231-240 | For a key that neither table has the function is called once and its value stored, whether or not dirty must be made first |
| `SyncMap.Maker.Call` | pkg/sync/map.go:263 | One call of valueFn counts as one, and may give another value than the call before (also line 237) |
| `SyncMap.Map.LoadAndDelete` | pkg/sync/map.go:281-302 | Answers with the mapping it removes from the plain map; a miss exactly if read lacks the key and is amended, counted against dirty without the key; nothing is copied |
| `SyncMap.Map.Delete` | pkg/sync/map.go:305-307 | Removes one key from the plain map, with the same miss; nothing is copied |
| `SyncMap.Map.Range` | pkg/sync/map.go:332-363 | With callbacks that each perform any list of map operations: each key at most once, with the value it has at that moment; every key of the start, unless a callback stopped or one deleted the key first; the plain map changes as the callbacks say and only so; what was promoted is what dirty held, and misses grow by no more than the operations |
| `SyncMap.Map.VisitKey` | pkg/sync/map.go:354-362 | One turn of the loop: a key whose entry has a value is reported with the value the map has now, one without is no longer live; afterwards the table still leads to every live key that the callback did not delete, also if it promoted dirty |
| `SyncMap.Map.PromoteForRange` | pkg/sync/map.go:337-351 | Leaves the plain map alone, leaves read complete and not amended, and charges Range with exactly the size of the dirty map it promotes |
| `SyncMap.Map.DirtyMade` | pkg/sync/map.go:64-70 | dirty never has more keys than the map has made entries, of which each operation makes one at most |
| `SyncMap.Map.Perform` | pkg/sync/map.go:113-307 | One call on the object and one on a plain map give one answer and one new map; at most one miss, and no charge to Range |
| `SyncMap.Map.PerformEach` | pkg/sync/map.go:113-307 | So for any list of operations, with no more misses than operations |
| `SyncMap.Map.MissLocked` | pkg/sync/map.go:365-373 | Counts one miss; with fewer misses than keys in dirty nothing else changes, otherwise dirty becomes read and misses 0; the plain map is the same and the cost account balances |
| `SyncMap.Map.DirtyLocked` | pkg/sync/map.go:375-387 | Copies the live entries, expunges the deleted ones, and costs as many entries as read has; the plain map is the same |
| `SyncMap.Map.CopyLive` | pkg/sync/map.go:382-386 | Its loop: exactly the entries with a value are copied, exactly the others are expunged afterwards |
| `SyncMap.Map.Unexpunge` | pkg/sync/map.go:156-160 | An expunged entry becomes nil and joins dirty, any other is left alone (also lines 196-198) |
| `SyncMap.Map.constructor` | pkg/sync/map.go:37-70 | The zero value is a valid empty map, with nothing looked at, missed or promoted yet |
| `SyncMap.Entry.TryExpungeLocked` | pkg/sync/map.go:389-398 | Expunged afterwards iff it held no value |
| `SyncMap.MakeAll` | pkg/sync/map.go:113-363 | Any sequence of operations and Ranges on a new map, with any callbacks, is answered as a plain map may answer it, and the map that is returned holds what the plain map then does. In all of it dirtyLocked looked at no more entries than there were operations, those of callbacks included, and entries that Range promoted; these are no more than the Ranges times the operations; without a Range it looked at no more entries than there were operations |
| `SyncMap.Make` | pkg/sync/map.go:113-363 | One operation or one Range: the answer of a plain map, and what it adds to misses and to what Range promoted |
| `SyncMap.VisitOne` | pkg/sync/map.go:354-362 | What Range has visited stays sound when the callback sees one more key, whatever it does, and stops or not |
| `Ring.Ring.Init` | pkg/ring/ring.go:19-23 | A zero element becomes a ring of one |
| `Ring.Ring.Next` | pkg/ring/ring.go:26-31 | The element one place on; a zero element is initialised first |
| `Ring.Ring.Prev` | pkg/ring/ring.go:34-39 | The element one place back |
| `Ring.Ring.Move` | pkg/ring/ring.go:44-59 | For every signed n the element n modulo Len places on |
| `Ring.NewRing` | pkg/ring/ring.go:62-75 | n distinct new elements, linked in a circle both ways; nothing for n <= 0 |
| `Ring.Ring.Link` | pkg/ring/ring.go:93-105 | Of two rings it makes one, the elements of s right after r in order; within one ring it makes two, the one cut out being exactly the elements strictly between r and s; values are untouched and the old Next is returned |
| `Ring.Ring.Relink` | pkg/ring/ring.go:99-102 | The same four writes join or split, whatever of the four elements coincide |
| `Ring.Ring.Unlink` | pkg/ring/ring.go:111-116 | For n > 0 exactly the n modulo Len elements after r are cut out as a ring of their own, none if that is 0; for n <= 0 nothing happens |
| `Ring.Ring.Len` | pkg/ring/ring.go:121-130 | Ends, and counts the elements; 0 for a null ring |
| `Ring.Ring.Do` | pkg/ring/ring.go:134-141 | Ends, and gives the callback every value once, in order; none for a null ring |
| `Ring.Joined` | pkg/ring/ring.go:88-91 | Two chains tied at four places are one ring |
| `Ring.CutOut` | pkg/ring/ring.go:81-86 | One ring re-tied at two places is two rings |
| `Ring.ModStep` | pkg/ring/ring.go:41-59 | One more step than n modulo Len is one more place, or back to the start (also lines 111-116) |
| `Ring.StepAt` | pkg/ring/ring.go:48-57 | In a linked ring next and prev lead to the neighbouring place, around the end too |
| `Ring.TurnLinked` | pkg/ring/ring.go:8-12 | A ring seen from another of its elements is the same ring, with the same elements |
| `Ringers.ArrayRing.Next` | pkg/ring/array_ring.go:15-25 | A new header one slot on, over the same array |
| `Ringers.ArrayRing.Prev` | pkg/ring/array_ring.go:27-37 | A new header one slot back, over the same array |
| `Ringers.ArrayRing.SetValue` | pkg/ring/array_ring.go:39-42 | Exactly one slot of the shared array is set |
| `Ringers.ArrayRing.Do` | pkg/ring/array_ring.go:48-66 | Ends after one round, gives the callback the values of the set slots in order from the current one, and leaves the position where it was |
| `Ringers.LinkRing.Next` | pkg/ring/link_ring.go:10-15 | A new header at the next element of the same ring |
| `Ringers.LinkRing.Prev` | pkg/ring/link_ring.go:17-22 | A new header at the previous element of the same ring |
| `Ringers.LinkRing.SetValue` | pkg/ring/link_ring.go:24-26 | Exactly one value of the ring changes |
| `Ringers.LinkRing.Do` | pkg/ring/link_ring.go:32-34 | Gives the callback all values in order from the current one |
| `Ringers.FullWalk` | pkg/ring/array_ring.go:48-66 | Once every slot is set the walk of the array is the walk of all values |
| `Ringers.ValuedAll` | pkg/ring/array_ring.go:50-56 | No set slot is skipped, none is visited twice |
| `Ringers.RunBoth` | pkg/ring/array_ring.go:15-84 | Any client of both implementations, making headers with Next and Prev and setting values through any of them, is told the same by both: every GetValue, and every Do once all slots are set |
| `Tallies.Conservation` | engine/counter.go:44-85 | Over any run of a counter: bytes before the first snapshot, all records ever made, and the rest not yet recorded add up to the bytes added, modulo 2^64, in each direction |
| `Tallies.RunRises` | engine/counter.go:34-42 | The totals are the bytes that the run added, in each direction, and only grow |
| `Tallies.RecordedBytes` | engine/counter.go:54-55 | The records fall short of the growth of a total by whole multiples of 2^64 |
| `Tallies.RecordExact` | engine/counter.go:54-55 | A record is the true number of bytes exactly when fewer than 2^64 arrived in its window |
| `Tallies.WordsAdd` | engine/counter.go:38-40 | Wrapped sums and wrapped differences of wrapped totals are those of the totals (also lines 51-55) |
| `Tallies.WindowsTile` | engine/counter.go:59-60 | At minus Duration of every record is the time of the snapshot before it, and the durations add up to the time from the first snapshot to the last (also lines 80-82) |
| `Tallies.SnapRecords` | engine/counter.go:44-85 | One snapshot adds one record, of the growth since the last, except the first, which adds none |
| `Counters.Counter.Init` | engine/counter.go:87-96 | Only the first call sets the times, makes the ring and runs the caller's function |
| `Counters.Counter.AddByRWEvent` | engine/counter.go:34-42 | The size goes to the total of its direction and to no other, modulo 2^64; an unknown direction only touches LastUpdateAt |
| `Counters.Counter.TakeSnapshot` | engine/counter.go:44-85 | Nothing without a ring; otherwise the tally gains one snapshot, the ring still holds the newest records one object each, and the record made is returned, null the first time |
| `Counters.Counter.WriteRecord` | engine/counter.go:62-77 | The oldest slot gets the new record, in the object it holds if it holds one, and no other record changes |
| `Counters.WriteSlot` | engine/counter.go:63-76 | The object held by the current slot is overwritten, or a new one is put there if there is none; the records of all other slots stay, and no object gets into two slots |
| `Counters.Counter.IsIdle` | engine/counter.go:30-32 | Idle iff updated at all and longer ago than the timeout |
| `Counters.Counter.LastSnapshot` | engine/counter.go:98-107 | The last of the histories, or the zero record |
| `Counters.Counter.Histories` | engine/counter.go:109-118 | Copies of the last min(k-1, N) records of k snapshots, oldest first |
| `Counters.Drive` | engine/counter.go:34-118 | Whatever is done with a counter, its histories are the newest records of that run that fit, and LastSnapshot is their last |
| `Counters.OldestFirst` | engine/counter.go:113-116 | From the slot after the newest, Do meets the records kept, oldest first, and no null |
| `Counters.ValuedTail` | pkg/ring/array_ring.go:48-66 | A walk over unset slots and then set ones meets just the set ones, in order |
| `Counters.WordsSnap` | engine/counter.go:51-82 | The wrapped differences computed from the 64-bit fields are the records of the tally, and the fields afterwards are its words |
| `EngineWorker.Worker.TakeIn` | engine/event.go:187-217 | The branch of an event for a known process: a new connection, its one lookup, the skip test, and both counters, as the specification says (which bytes count, in numbers: `EngineEvents.TakesInExactly`) |
| `EngineWorker.Worker.HandleReadWrite` | engine/event.go:155-217 | LoadOrStore of the process, its one lookup, and the rest only if it was found (after every run, in numbers: `EngineEvents.EventExactly`) |
| `EngineEvents.EventExactly` | engine/event.go:155-217 | After every run: an event does nothing for a process that was not found when first seen; a process not seen before is entered, found exactly if alive; a found one takes the event as TakesInExactly says, and no other process changes |
| `EngineEvents.TakesInExactly` | engine/event.go:187-217 | For a descriptor that has a connection the size is added, for connection and process alike, exactly if that is of type 1 with known and not local information, and nothing is looked up; for one that has none, type 0 or 1 is looked up once, what the lookup finds local is local from then on, and the size is added exactly if it found a connection that is not local, which is of type 1 then. Direction 0 adds to what was sent, 1 to what was received; the time of the event is noted |
| `EngineWorker.Worker.HandleClose` | engine/event.go:76-86 | Exactly the connection of that descriptor leaves the table of that process (what is left: `EngineEvents.CloseDoes`) |
| `EngineWorker.Worker.HandleExit` | engine/event.go:104-109 | Only the exit of the main thread removes the process (what is left: `EngineEvents.ExitDoes`) |
| `EngineEvents.CloseDoes` | engine/event.go:76-86 | A close takes the connection of that descriptor from that process and nothing else from any, and the bytes of the process stay counted |
| `EngineEvents.ExitDoes` | engine/event.go:104-109 | Exactly the process with that pid goes, and only if pid and tid are the same number; every other is as it was |
| `EngineEvents.TickDoes` | engine/worker.go:44-75 | After every run: a tick takes a process away exactly if it was last updated longer ago than the timeout, and turns each of the others as ProcessTurned says |
| `EngineEvents.ProcessTurned` | engine/worker.go:50-74 | A connection goes exactly if it was last updated longer ago than the timeout; one that stays is marked with its totals of the moment exactly if it is of type 1 with known and not local information; the process is marked exactly if such a connection stays |
| `EngineWorker.Worker.TickProcess` | engine/worker.go:50-74 | In whatever order the connections come: idle ones go, skipped ones stay, the others are snapshotted, and the process is exactly if there was one |
| `EngineWorker.Worker.HandleTick` | engine/worker.go:44-75 | In whatever order the processes come: idle ones go, each of the others is ticked once; deleting by the pid of the object deletes the entry visited |
| `EngineWorker.Work` | engine/worker.go:38-75 | A worker that handles the steps of a run ends in the state the run leads to |
| `EngineTheorems.TickWithinProcess` | engine/worker.go:44-75 | In every run in which no lookup makes a connection of the table local, every tick finds all that it records for in step, and so whenever it records anything for connections of a process it records for the process too, no less than for all of them, in each direction, if the process got fewer than 2^64 bytes since its last snapshot |
| `EngineTheorems.TickInStepWithin` | engine/worker.go:44-75 | Whatever the lookups did: a tick that finds all connections it records for in step with their process, a comparison of the times of their last snapshots, records no less for the process than for all of them, if the process got fewer than 2^64 bytes; `EngineLedger.TickExactly` has the exact condition |
| `EngineTheorems.InStepWithinProcess` | engine/worker.go:44-75 | After every run with ticks apart, without condition on lookups: what a tick records for the connections in step is together at most what the process got since its last snapshot, and that is what is recorded for the process if and only if it is less than 2^64 |
| `EngineLedger.TickExactly` | engine/worker.go:44-75 | After every run, without condition on lookups or ticks: a tick keeps what it records for the connections of a process within what it records for the process if and only if, unless the process got 2^64 bytes or more, the bytes its recorded connections got before the last snapshot of the process are no more than those got since by connections it does not record or that have gone, and those the words of its records drop |
| `EngineLedger.DuesBalance` | engine/worker.go:50-74 | What is due for the connections a tick records, with what others and those gone got since, is what is due for the process and what came too early, to the byte |
| `EngineLedger.RunBalances` | engine/event.go:155-217 | After every run each byte a process got since its last snapshot is one that a connection of it got since, or one that has gone since did (also engine/worker.go:44-75) |
| `EngineLedger.StepBalances` | engine/event.go:76-86 | Events, closes, exits and ticks each keep that balance (also engine/event.go:155-217, engine/worker.go:50-74) |
| `EngineLedger.InStepNotEarly` | engine/worker.go:50-74 | If ticks are apart, a connection last snapshotted with its process got nothing too early |
| `EngineTheorems.ProcessWithin` | engine/worker.go:50-74 | The same for one process in any state in which the invariant holds |
| `EngineTheorems.EvictedIsIdle` | engine/worker.go:45-58 | In every run in which no lookup makes a connection of the table cease to be local, a process evicted as idle has no connection that is accounted for and not idle |
| `EngineTheorems.EvictionTakesLive` | engine/worker.go:45-58 | After every run: an evicted process takes an accountable connection with it that is not idle if and only if it has an accountable connection that was made within the timeout |
| `EngineTheorems.EvictedExactly` | engine/worker.go:45-58 | The same for each connection by itself: not idle if and only if made within the timeout; and a connection was updated after its process exactly if it was made after the last update of the process |
| `EngineTheorems.EngineConserves` | engine/counter.go:34-85 | In every run of the engine each process and each connection conserves its bytes in the sense of `Tallies.Conservation` |
| `EngineTheorems.EventAddsOnce` | engine/event.go:187-217 | An event adds its size, in its direction only, to one connection and to the process alike if that connection is accounted for, and nothing to either otherwise; no other connection changes |
| `EngineTheorems.ConnectionsWithinProcess` | engine/event.go:155-217 | In every run, without condition, the live connections of a process have together got no more than the process, in each direction |
| `EngineTheorems.RunPlayed` | engine/event.go:155-217 | Every counter of the engine is in a state that a run of a counter leads to |
| `EngineTheorems.RunOk` | engine/worker.go:38-75 | The invariants behind these hold after every run with a clock that never runs backwards, among them: a connection was never updated after its process, unless it was not updated since it was made |
| `EngineTheorems.GainsDues` | engine/event.go:211-217 | An event adds to what the connections in step are still to record no more than to what the process is |
| `EngineTheorems.TakesInGains` | engine/event.go:187-217 | An event adds to one connection, if it was there before, just what it adds to the process, and takes no snapshot |
| `EngineTheorems.TakesInCovers` | engine/event.go:187-217 | An event keeps the bound between a process and its connections in step, whatever its lookup rewrites |
| `EngineTheorems.TickedCovers` | engine/worker.go:50-74 | A tick keeps that bound if it is later than the last snapshots, or skips no connection snapshotted just now |
| `EngineTheorems.ClosedCovers` | engine/event.go:76-86 | Closing a connection keeps the bound |
| `EngineTheorems.StepCovers` | engine/event.go:155-217 | No step breaks the bound, whatever its lookup rewrites |
| `EngineTheorems.RunCovers` | engine/worker.go:38-75 | So it holds after every run whose ticks are apart |
| `EngineTheorems.StepMarked` | engine/event.go:187-217 | Connections with a snapshot stay in step with their process as long as no lookup hides one |
| `EngineTheorems.StepNewer` | engine/event.go:187-217 | No step makes an accountable connection newer than its process unless a lookup shows one |
| `EngineTheorems.TotalPick` | engine/worker.go:50-68 | The sum over connections does not depend on the order in which they are visited |
| `EngineTheorems.TotalLe` | engine/worker.go:50-68 | Fewer connections with smaller amounts have a smaller sum |
| `EngineLimits.HiddenBytes` | engine/connection.go:175-189 | A run of events and of ticks a second apart in which a connection becomes local for one tick and is then accounted for again: the next tick records 7 bytes for it and none for its process, whose last snapshot is a second younger |
| `EngineLimits.WrappedBytes` | engine/counter.go:54-55 | A run of events of positive sizes below 2^63, all connections in step, in which a process gets 2^64 + 1 bytes in one window: 2^64 - 2 are recorded for a connection and 1 for the process |
| `EngineLimits.ShownConnection` | engine/connection.go:175-189 | A run in which a connection opened as local ceases to be local: its process is evicted while the connection is accounted for and not idle |
| `Tracepoints.ExitGives` | tracepoint/tracepoint.c:105-167 | An exit emits exactly the event that the earlier steps of its thread call for: none unless the latest entry was noted and not yet answered, the descriptor is above 2, the result positive and the noted type not file; never one of another thread or call (whole output, with pid and tid as numbers: `Tracepoints.StepGives`) |
| `Tracepoints.EventsExplained` | tracepoint/tracepoint.c:65-167 | Every read or write event of every run has a descriptor above 2, a positive size, a type that is not file, and stems from an exit with that result and direction whose thread entered with that descriptor and neither entered nor left another call in between; its type is what the thread last noted for the descriptor and has not closed since, 0 if nothing |
| `Tracepoints.RunGives` | tracepoint/tracepoint.c:65-188 | The events of every run are, one after the other, exactly what its steps give by the numbers they are told: none is missing and none is added (also lines 442-475) |
| `Tracepoints.StepGives` | tracepoint/tracepoint.c:105-188 | The whole output after one more step of any run: the read or write event of a sent exit from a noted call above descriptor 2 with a positive result and a type that is not 2, the close event, the exit event, each with current / 2^32 as pid and current % 2^32 as tid, or nothing (also lines 442-475) |
| `Tracepoints.StepNotes` | tracepoint/tracepoint.c:65-188 | What each handler does to both maps and to the output, in any state, by the numbers it is told: the low 32 bits are the thread, the high 32 the process; arguments and results are cut to 32 bits where the source does (also lines 442-475) |
| `Tracepoints.EventSources` | tracepoint/tracepoint.c:65-188 | The events of every run stem from steps of their own, in the order of these steps, each with the fields of its step: read and write events at different places in the output stem from different exits and from different entries |
| `Tracepoints.EntriesDiffer` | tracepoint/tracepoint.c:115-127 | Two exits never answer one entry |
| `Tracepoints.OneEventPerEntry` | tracepoint/tracepoint.c:65-167 | A thread gives no more events than it has noted entries, not counting the call it is in: a failed insert gives none |
| `Tracepoints.RunSays` | tracepoint/tracepoint.c:18-34 | In every run the two maps hold what the steps of the threads say, and never more than 65536 entries, although updates fail |
| `Tracepoints.StepSays` | tracepoint/tracepoint.c:65-167 | Each handler keeps the maps in step with the history (also lines 442-460) |
| `Tracepoints.InCallEntry` | tracepoint/tracepoint.c:65-78 | The descriptor noted for a thread is that of its latest entry, with no entry or exit of the thread since |
| `Tracepoints.EventsFit` | tracepoint/tracepoint.c:36-57 | Every field of every event of a run is within the type the packed struct gives it |
| `Tracepoints.EventsArrive` | tracepoint/tracepoint.c:36-57 | The sample made of any event of any run, with any padding and in either byte order, means that event to the engine |
| `Tracepoints.Kernel.SaveFdWithPid` | tracepoint/tracepoint.c:65-78 | Notes the low 32 bits of the argument under the thread, if the update succeeds |
| `Tracepoints.Kernel.SaveFdTypeWithPfid` | tracepoint/tracepoint.c:81-103 | Notes the type under thread and new descriptor, unless the 32-bit result is negative or the update fails |
| `Tracepoints.Kernel.GenRWEvent` | tracepoint/tracepoint.c:105-167 | Forgets the entry in every case, and emits only past the four tests (in numbers: `Tracepoints.StepNotes`) |
| `Tracepoints.Kernel.EnterCloseCall` | tracepoint/tracepoint.c:442-475 | Forgets the type of exactly that thread and descriptor and emits a close event (in numbers: `Tracepoints.StepNotes`) |
| `Tracepoints.Kernel.GenExitEvent` | tracepoint/tracepoint.c:169-188 | Emits an exit event with both ids (in numbers: `Tracepoints.StepNotes`) |
| `Wire.RoundTrip` | tracepoint/tracepoint.c:36-57 | Packing an event and decoding the bytes in the same byte order gives the event back, whatever padding follows |
| `Wire.MeaningExact` | engine/event.go:62-153 | A sample means an event exactly when it begins with the packed struct of that event, so a truncated struct means nothing |
| `Wire.NumberOfBytes` | engine/event.go:62-153 | Reading the bytes of a number that fits its width gives the number, in either byte order (which byte is which digit: `WireLayout.Digits`) |
| `Wire.BytesOfNumber` | engine/event.go:62-153 | Every run of bytes is the encoding of the number read from it |
| `WireLayout.Digits` | engine/event.go:62-153 | In the little order the byte k from the left is the digit k, to the base of 256, of the number read; in the big order the byte k from the right is |
| `WireLayout.SpanNumbers` | engine/event.go:111-117 | The powers of 256 that these digits are counted by, as numbers |
| `WireLayout.FourBytes` | engine/event.go:132-141 | What a field of four bytes is read as, in either order, byte by byte |
| `WireLayout.EightBytes` | engine/event.go:148-150 | A field of eight bytes is two of four, the first the low half in the little order and the high half in the big one |
| `WireLayout.RWLayout` | engine/event.go:132-153 | A sample of type 0 means nothing below 23 bytes, and otherwise the event whose six fields are read at the offsets 1, 5, 9, 13, 14 and 15 |
| `WireLayout.CloseLayout` | engine/event.go:62-74 | A sample of type 1 means nothing below 13 bytes, and otherwise the close event with fields at 1, 5 and 9 |
| `WireLayout.ExitLayout` | engine/event.go:93-102 | A sample of type 2 means nothing below nine bytes, and otherwise the exit event with fields at 1 and 5 |
| `WireLayout.RWStruct` | tracepoint/tracepoint.c:49-57 | A packed read or write event has 23 bytes, the first of them 0, and pid, tid, descriptor, type, direction and size at these offsets |
| `WireLayout.CloseStruct` | tracepoint/tracepoint.c:42-47 | A packed close event has 13 bytes, the first of them 1 |
| `WireLayout.ExitStruct` | tracepoint/tracepoint.c:36-40 | A packed exit event has nine bytes, the first of them 2 |
| `Wire.UnpackedPacked` | engine/event.go:132-153 | Fields written one after the other are read back one after the other |
| `Wire.PackedUnpacked` | engine/event.go:132-153 | Fields read are in range, and their packing is what was read |
| `Dispatch.Buffer.Read` | engine/event.go:62-73 | A field is read, or there were too few bytes, which are then used up (the number read, byte by byte: `WireLayout.Digits`) |
| `Dispatch.RWEvent.Decode` | engine/event.go:132-153 | Succeeds iff all six fields are there, and then the object holds exactly them; in any case it holds afterwards the fields read before the first missing one, and from there on what it held before (fields and bytes: `WireLayout.RWLayout`) |
| `Dispatch.CloseEvent.Decode` | engine/event.go:62-74 | The same for the three fields of a close event |
| `Dispatch.ExitEvent.Decode` | engine/event.go:93-102 | The same for the two fields of an exit event |
| `Dispatch.DecodedAt` | engine/event.go:132-153 | A field of the object is overwritten, by the number in its own bytes, exactly if the sample reaches to the end of that field |
| `Dispatch.DecodedIs` | engine/event.go:132-153 | A decode that succeeds leaves nothing of what the object held |
| `Dispatch.Worker.HandleSample` | engine/worker.go:104-129 | What is processed is the event the sample stands for and depends on nothing the reused objects hold, also after a decode that failed midway; short samples and unknown types process nothing (bytes of each type: `WireLayout.RWLayout`, `CloseLayout`, `ExitLayout`) |
| `Dispatch.HandleAll` | engine/worker.go:93-131 | A worker processes the events its samples stand for, in order, and nothing else |
| `Delivery.Deliver` | engine/worker.go:93-131 | A worker given the samples of a run of the tracepoints, with any padding and in either byte order, processes exactly the events of the run, in order (also tracepoint/tracepoint.c:65-188) |
| `Delivery.SamplesMean` | tracepoint/tracepoint.c:36-57 | The samples of events that fit their structs mean these events, one by one |
| `PlotScale.RoundNearest` | pkg/asciigraph/utils.go:31-48 | round gives the nearest whole number and, of two equally near, the one away from zero, and nothing else does |
| `PlotScale.RoundOdd` | pkg/asciigraph/utils.go:35-47 | round is odd, so that a plot of negated values is the plot upside down |
| `PlotScale.RoundMonotone` | pkg/asciigraph/utils.go:31-48 | round is monotone |
| `PlotScale.RoundShift` | pkg/asciigraph/utils.go:31-48 | A shift by h rows shifts the rounded value by h, or by h + 1 exactly when a half below zero comes to lie above it |
| `PlotScale.MinMax` | pkg/asciigraph/utils.go:12-29 | The least and the greatest of the values that are there, infinite if none is |
| `PlotScale.SpringWithin` | pkg/asciigraph/utils.go:58-66 | Both indices of every interpolated point are within the data |
| `PlotScale.InterpolateArray` | pkg/asciigraph/utils.go:54-70 | Exactly the requested number of points for a width of 2 or more, with both endpoints kept (where each point lies: `PlotFit.FitExactly`) |
| `PlotFit.FitExactly` | pkg/asciigraph/utils.go:50-70 | With q and m the quotient and the remainder of i * (n - 1) by fit - 1, the point i times fit - 1 is data[q] * (fit - 1 - m) + data[q + 1] * m, without the second term for m = 0, and it is missing exactly if one of these is |
| `PlotFit.StraightLine` | pkg/asciigraph/utils.go:50-70 | Data on a straight line a + b * j are fitted to the same straight line |
| `PlotFit.PreparedExactly` | pkg/asciigraph/asciigraph.go:30-39 | The same for a series of a plot with a width of 2 or more: steps are counted through the series filled up to the longest |
| `PlotFit.PreparedShort` | pkg/asciigraph/asciigraph.go:30-39 | Without a width a series is plotted as it is, with a width of 1 its first value and the one at the end of the longest |
| `PlotFit.LongestExactly` | pkg/asciigraph/asciigraph.go:23-28 | The longest length is that of one of the series, and none is longer |
| `PlotScale.FitAround` | pkg/asciigraph/utils.go:50-70 | Every point lies between two equal or adjacent places of the data, and is missing iff one of them is, also for a width of 1 |
| `PlotScale.FitWithin` | pkg/asciigraph/utils.go:50-70 | Interpolation stays within the limits of the data |
| `PlotScale.FitSame` | pkg/asciigraph/utils.go:54-70 | Interpolation to its own length leaves data as it is |
| `PlotScale.LineBetween` | pkg/asciigraph/utils.go:50-52 | A point of a segment lies between its ends |
| `Plot.RowsExact` | pkg/asciigraph/asciigraph.go:65-77 | The number of rows: 0 for a constant, the height asked for, or one more exactly if the scaled minimum is a half below a whole number and zero lies strictly inside |
| `Plot.ExtraRow` | pkg/asciigraph/asciigraph.go:65-77 | Values from -1/2 to 1/2 on a plot of height 1 take two rows |
| `Plot.LevelsFit` | pkg/asciigraph/asciigraph.go:71-78 | Every value between the extremes has a level from 0 to rows (also lines 148-176) |
| `Plot.UpsideDown` | pkg/asciigraph/asciigraph.go:65-78 | Negated values give a plot of as many rows, on which every value has the level counted from the other end |
| `Plot.Prepare` | pkg/asciigraph/asciigraph.go:23-39 | Every series, in place, filled up to the longest with missing values and fitted to the width, if there is one; an empty series beside one that is not is filled up too |
| `Plot.PlottableIs` | pkg/asciigraph/asciigraph.go:23-42 | What is asked of the data: without a width no series is empty, with one not all are |
| `Plot.Extremes` | pkg/asciigraph/asciigraph.go:41-50 | The least and greatest value over all series, series without values notwithstanding |
| `Plot.DrawAxis` | pkg/asciigraph/asciigraph.go:119-135 | Axis and label of each row, in the grid, and nothing else |
| `Plot.DrawColumn` | pkg/asciigraph/asciigraph.go:153-194 | Writes only cells of the grid, in one column, and there exactly the glyphs from the level at which the line enters to that at which it leaves |
| `Plot.DrawSeries` | pkg/asciigraph/asciigraph.go:145-201 | The first mark and all columns of a series, every other cell as it was |
| `Plot.PlotMany` | pkg/asciigraph/asciigraph.go:16-202 | With a positive height, data that may be prepared and a value to plot: every write is within the grid of rows + 1 by width, the scale is that of the extremes, and every cell shows the last series that fills it, or the axis |
| `Plot.AnythingToPlot` | pkg/asciigraph/asciigraph.go:31-50 | There is a value to plot if and only if, for some series, one is there, or with a width: some point is drawn between two places that both hold values; so always if a series begins with a value |
| `Plot.PreparedHas` | pkg/asciigraph/asciigraph.go:31-39 | Which of its values a series loses when it is filled up and fitted |
| `Plot.LineConnected` | pkg/asciigraph/asciigraph.go:153-194 | Around a value that is there two neighbouring columns of the grid, whatever other series it shows, are filled in one and the same row: that of the value |
| `Plot.LineUnbroken` | pkg/asciigraph/asciigraph.go:153-194 | Between two values that are there the column is filled in every row from one to the other |
| `Plot.Shows` | pkg/asciigraph/asciigraph.go:137-201 | What a series puts in a cell may be covered by a later series, never erased |
| `Plot.OneSeries` | pkg/asciigraph/asciigraph.go:153-194 | In a plot of one series a cell right of the axis is filled exactly if the line of that column, or the end of a line beside a gap, passes its level: one contiguous vertical span |
| `PlotShape.LevelMonotone` | pkg/asciigraph/asciigraph.go:65-72 | A greater value is never drawn below a smaller one |
| `PlotShape.LevelShare` | pkg/asciigraph/asciigraph.go:65-77 | The level of a value is its share of the height asked for, to within one row |
| `PlotShape.LevelEnds` | pkg/asciigraph/asciigraph.go:65-78 | The least value is drawn on the bottom row and the greatest on the top one; an offset of 0 or less is 3, and the grid is wide enough for all points and the offset |
| `PlotShape.ColumnSides` | pkg/asciigraph/asciigraph.go:153-201 | In a column the line comes in from the left on the level of its first value, goes out to the right on that of its second, and runs up and down exactly between the two; a cell is filled iff its character reaches some side |
| `PlotShape.PictureSides` | pkg/asciigraph/asciigraph.go:153-201 | On a plot of one series every cell right of the axis shows the character with just these sides |
| `PlotShape.LastShows` | pkg/asciigraph/asciigraph.go:137-202 | Where several series fill a cell the last of them shows |
| `PlotShape.NoneShows` | pkg/asciigraph/asciigraph.go:118-135 | Where none does the axis shows, or nothing |
| `PlotShape.FirstMarks` | pkg/asciigraph/asciigraph.go:145-151 | The axis is marked on the rows of the first values of the series and on no other |
| `PlotShape.LabelAt` | pkg/asciigraph/asciigraph.go:118-135 | A label ends where the axis is, or begins in the first column if it is too long |

## Left out

- Go's memory model below atomic operations: the machine takes them as sequentially consistent, and locks as atomic.
- Addresses in the step system are chosen freely by the schedule, values and boxes alike, so also an address that was used before: every allocation of the program is among the schedules.
- `SyncMapProgress.NeverStuck`: says that calls can be ended, not that an unfair scheduler lets them; under contention a retry loop may lose every time, as in the source.
- Range in the step system and callbacks: the callback only decides to stop; other operations run beside it, on its own or on other threads, as any other thread's. `SyncMap.Map.Range` covers callbacks that perform any list of loads, stores, loads-or-stores and deletes; a callback that calls Range again is left out.
- The retry loops of tryStore, delete and tryLoadOrStore are in the step system; the sequential class takes their first, successful turn.
- `Ring.Ring.Move`: an index of 64 bits is taken as an unbounded integer, so n + 1 in Unlink does not overflow.
- Reset of both rings and the ring pool: the two differ after Reset by design, so they are outside the agreement.
- `Counters.Counter.Init`: a snapshot count of 0 is outside the model. The source accepts it, and every later use of that ring but the first snapshot indexes an empty array.
- `Counters.Counter.TakeSnapshot`: loads the two totals at one instant; adds between the two atomic loads are not modelled.
- `EngineWorker.Worker.HandleReadWrite`: processes, connections and their counters are values inside the tables here, where the source has objects; only the sharing of ConnectionInfo objects between connections is kept, by identity. A pointer kept by one worker while another deletes the entry is not modelled.
- `EngineTheorems.TickInStepWithin`: events and ticks are whole steps; an event that another worker handles between the snapshots of a connection and its process is not modelled. That ticks come at different times, as those of a ticker of a second do, is assumed here, where times of snapshots are compared. Its condition is sufficient; `EngineLedger.TickExactly` has the exact one.
- `EngineTheorems.EvictedIsIdle`: the condition is on the whole run, and sufficient only; `EngineTheorems.EvictionTakesLive` has the exact one.
- `EngineWorker.Worker.HandleClose` and `EngineWorker.Worker.TickProcess`: the removal of a connection from ConnectionsMap as well is not modelled, nor is how a lookup finds a connection (/proc, gopsutil): the answer of a lookup, and what it rewrites, are inputs of an event.
- `EngineWorker.Worker.TakeIn`: interface counters, which are for debugging in the source, and the names of processes and interfaces are left out.
- LastUpdateAt and snapshots read the clock several times in one event or tick; here the clock is read once.
- `Tracepoints.EventsExplained`: a thread is its tid, as in the maps of the source; a tid that is used again after a thread has ended counts as the same thread. Whether the results of sendmmsg and recvmmsg count bytes is not claimed; pread and pwrite handlers are written in the source but not attached, and would be the same steps. Tracepoints that the kernel misses need no assumption, as an entry overwrites the one before it.
- `Delivery.Deliver`: one worker is given the samples in the order in which the handlers made them; the buffers of several processors, their reader, the samples it loses and the sharing of samples among workers are not modelled.
- `Wire.MeaningExact`: the error value of a failed decode, and the counters of errors, are not modelled.
- `Plot.PlotMany`: an empty series without a width, or nothing but empty series with one, is left out, as the source panics. Data without any value to plot, of which `Plot.AnythingToPlot` tells exactly, are left out: the source then converts a NaN to an integer, whose value Go leaves to the implementation. The text of labels is given; heights of 0 or less (chosen by a logarithm), colours, caption and the joining of rows to a string, infinite inputs and the rounding of floating point are left out too.
- `PlotScale.InterpolateArray`: the scale factor of a width of 1 is a division by zero that the source computes and never uses.
- top/, web/, loading of eBPF programs, the perf reader, commands, logging, kernel versions, address parsing and the rate methods of snapshots: input and output, or straight-line code.
