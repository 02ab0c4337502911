# A verified model of a PL/I runtime and of two compile-time folders

The project models parts of a PL/I compiler and its runtime library, and proves
that they keep their promises.  `dafny verify dfyconfig.toml` checks everything.

**Tasks.** PL/I tasks are fibers on worker threads.

- `Scheduler` follows every fiber through waits, unparks, steals, switches and
  spawns, with run queues that are atomic bags.  `RunQueue` and `FiberPool` take the
  lock-free structures apart, one atomic access at a time; `QueueRaces` holds the
  runs in which the run queues fail.  `Workers` is the scheduler on those queues, and
  `WorkersRace` the run in which two workers run the same fiber.  `WorkerWake` is the
  sleep and wake handshake, `TimerHeap` the heap of pending timers.
- `HandoffLock` (with `LockSections`) is the hand-off lock; `Events` is EVENT and
  WAIT on top of it, and `CondQueue` the keyed wait queue as the linked list it is.
- `InputBroker` and `FileBroker` are the two reader threads.

In these modules a program is a set of steps, one for each atomic access or short
mutex section; memory is sequentially consistent; a run is any sequence of enabled
steps by any number of workers, fibers and threads.  The main results hold in every
state of every run.  `Scheduler` takes a run queue as an atomic bag, which the code's
queues are not; `Workers` says when its results hold of the code.  `Events` takes a
metadata section as one step, which `HandoffLock.SectionsAreAtomic` justifies.

**Files and storage.** `KeyedIndex` and `KeyedFile` are keyed record files with
their sidecar, `OnStack` the ON-unit stack, `Controlled` the CONTROLLED generation
stacks, `Area` the AREA regions.  Each is a class over the source's own fields,
tied to the simple object it stands for.

**Arithmetic.** `Wide128` (with `Powers`) is the portable 128-bit arithmetic,
`Decimal` the wide FIXED DECIMAL printer and reader on top of it.

**Compile time.** `CallGraph`, `Cycles` and `Effects` are the whole-program effect
analysis, `Sweeps` and `EffectCap` its bounded rounds; `ConstFold` is the constant
folder; `Picture`, `PictureCode` and `PictureValues` are the picture classifier and
folder against the run-time picture formatter.

## What the code does not do

Seven promises fail, and the model says exactly when.

- The run queue (runtime/rt_sched.c:216-287) can lose a fiber, and can hand the same
  fiber to two workers, with three or more workers while no priority is used.  The
  comment at the steal says that a head the owner has read cannot reappear, because
  the thief keeps it.  But the thief keeps the newer half and puts the older half back
  in front of the queue; if that older half is stolen again and split, the fiber the
  owner read comes back with another link, and the owner's compare-and-swap installs
  the one it read.  `QueueRaces.QueuesAreSafeExactlyWhen` says when no fiber is lost,
  `QueueRaces.HeldOnceExactlyWhen` when none is handed out twice, and
  `WorkersRace.SafeExactlyWhen` when the scheduler as a whole is safe: each time with
  at most two workers or the priority scan in force from the start, and not otherwise.
- The heap of timers (runtime/rt_sched.c:341-365) can have a later timer at its root:
  where both children are due before the timer that is sifted down, the right one goes
  up.  The root is the earliest timer in every run exactly if at most three timers are
  ever pending (`TimerHeap.EarliestFirstExactlyWhen`); no timer is lost, doubled or
  early in any case.
- The tagged pool is safe below 2^16 updates between a pop's load and its swap, and
  not from 2^16 on (`FiberPool.PoolIsSafeExactlyWhen`).
- A keyed file loses records at the next open when a key is longer than 1024 bytes:
  the loader stops there, the writer does not (`KeyedIndex.ReloadExactly`).
- The picture folder and the formatter differ on a Z right of the point unless it is
  harmless, and on a negative value without a place for its sign
  (`Picture.FoldsAlwaysExactlyWhen`).
- The picture formatter moves the digits of a value that has fewer digits than its
  scale to the left: 0.05 edited by 9V99 reads 050.  With a picture of 9s the digits
  are the value's exactly if it is zero or has a digit for each fraction position
  (`PictureValues.NinesReadBackExactlyWhen`).
- The cap of n + 2 effect rounds closes the facts of every program of n procedures
  exactly if n <= 4 (`EffectCap.CapSufficesExactlyWhen`).  Beyond, the translation of
  argument facts can be cut short (`Effects.CapCutsRings`); the facts that calls carry
  unchanged are closed whatever the program (`Effects.FinishedExactly`).

## Model

| member | source | states |
|---|---|---|
| `WorkersRace.SafeExactlyWhen` | runtime/rt_sched.c:216-460 | with the lock-free queues in place, for n workers: every run of waits, unparks, switches, spawns and single atomic queue accesses, in any interleaving, keeps every fiber current on at most one worker, and is safe in all that `Scheduler.EveryRunIsSafe` says, if and only if n <= 2 or the priority scan is in force from the start |
| `Workers.SafeRuns` | runtime/rt_sched.c:216-460 | the safe half: the scheduler's promises, and no fiber lost or on two queues, in every state of every run |
| `Workers.Keep` | runtime/rt_sched.c:216-460 | every step keeps the queues' invariant, the scheduler's invariant, and their agreement on where each fiber is: a push, a pop and a steal take effect at their swaps, half-done operations included |
| `WorkersRace.TwoRunOne` | runtime/rt_sched.c:227-287 | a run from the start of the program, for any n >= 3 workers and no priority, after which fiber 1 is current on worker 0 and on worker 2 |
| `Scheduler.EveryRunIsSafe` | runtime/rt_sched.c:738-830 | of run queues that are atomic bags (for the code's own queues see `WorkersRace.SafeExactlyWhen`): in every state of every run, with any number of workers and fibers, no fiber is current on two workers, none is switched to before its own switch-out has finished, a fiber on a ready list is at home there, every park is matched by exactly one unpark, the global queue stays empty |
| `Scheduler.Keep` | runtime/rt_sched.c:755-830 | with run queues that are atomic bags, every step of a wait, an unpark, the worker loop, a steal and a spawn, in any interleaving, keeps every fiber in exactly one place |
| `Scheduler.KeepWait` | runtime/rt_sync.c:99-107 | a fiber that records its home, publishes itself, and only then switches out stays in one place, with another thread free to unpark it at any moment |
| `Scheduler.KeepUnpark` | runtime/rt_sched.c:755-767 | an unpark, by any thread and at any moment of the park, takes the fiber to its home's ready list and nowhere else |
| `Scheduler.KeepSteal` | runtime/rt_sched.c:262-287 | a steal, as one move between bags, takes exactly the given fibers from the victim to the thief; its atomic accesses are the subject of `Workers.Keep` |
| `Scheduler.KeepCheck` | runtime/rt_sched.c:812-828 | back from a switch, a worker recycles only a fiber that has ended and is its own |
| `Scheduler.KeepFresh` | runtime/rt_sched.c:701-714 | a spawn takes a fiber that is in the pool or new, never one that is out, and makes room in runnext without losing the old one |
| `QueueRaces.QueuesAreSafeExactlyWhen` | runtime/rt_sched.c:216-287 | for n workers: no fiber is lost or duplicated in any run at single-atomic-step granularity if and only if n <= 2 or the priority scan is in force from the start |
| `QueueRaces.HeldOnceExactlyWhen` | runtime/rt_sched.c:216-287 | for n workers: every run hands each fiber to at most one worker at a time, under the same condition and no other |
| `RunQueue.SafeRuns` | runtime/rt_sched.c:216-425 | with at most two workers, or the priority scan from the start, no run loses or duplicates a fiber |
| `RunQueue.Keep` | runtime/rt_sched.c:216-425 | every atomic access keeps the invariant behind this: every fiber is in one place, and an owner between its read and its swap finds the link it read still there, or an empty queue under whatever comes back |
| `QueueRaces.LosingRun` | runtime/rt_sched.c:227-247 | a concrete run of three workers in which the owner's head reappears between its read and its swap, because the older half a thief puts back ends in front of what was pushed meanwhile |
| `QueueRaces.LostIsLost` | runtime/rt_sched.c:262-287 | after that run one fiber is in no queue, no detached list and no hand |
| `QueueRaces.DoublingRun` | runtime/rt_sched.c:227-287 | a concrete run of three workers after which two of them hold the same fiber: the owner reads the link of its head while a thief has linked it, in vain, to a fiber that is then stolen |
| `RunQueue.BestIndex` | runtime/rt_sched.c:403-414 | the priority scan picks a fiber of the highest priority, the newest among equals |
| `RunQueue.KeepBest` | runtime/rt_sched.c:395-425 | taking the best fiber out of the detached list and putting the others back keeps every fiber |
| `FiberPool.PoolIsSafeExactlyWhen` | runtime/rt_sched.c:644-679 | the pool hands out no fiber twice and loses none, in every interleaving of n threads in which at most `bound` head updates fall between a pop's load and its swap, if and only if n <= 1 or bound < 2^16 |
| `FiberPool.NoUpdateInBetween` | runtime/rt_sched.c:647-662 | equal tags at the swap mean that there was no update since the load, below 2^16 updates |
| `FiberPool.WrappingRun` | runtime/rt_sched.c:642-679 | with 2^16 updates the tag comes round and a fiber is handed out twice: the run, step by step |
| `FiberPool.Bump` | runtime/rt_sched.c:653-655 | the new head word carries the new address and the next tag modulo 2^16 |
| `WorkerWake.WakeupsAreNeverLost` | runtime/rt_sched.c:511-559 | whenever a worker is asleep and unsignalled although its ready list is not empty, or worker 0 although MAIN is done, some waker has published and has not finished rt_wake_one on it |
| `WorkerWake.Keep` | runtime/rt_sched.c:471-484 | every load, store, lock, signal and wait of parking and waking keeps the invariant that yields this |
| `TimerHeap.EarliestFirstExactlyWhen` | runtime/rt_sched.c:304-365 | for every k: in every run with at most k pending timers the root is the earliest one, if and only if k <= 3 |
| `TimerHeap.FourGoWrong` | runtime/rt_sched.c:349-364 | four timers, due at 1, 2, 3 and 9: after the first has gone off, the third is ahead of the second |
| `TimerHeap.Timers.Push` | runtime/rt_sched.c:317-325 | in place: adds the timer and keeps the others |
| `TimerHeap.Timers.Take` | runtime/rt_sched.c:345-365 | in place: gives the root if it is due, never a timer that is not, and removes that one only |
| `TimerHeap.TakeConserves` | runtime/rt_sched.c:345-365 | sifting down, whichever child it takes, loses no timer and doubles none |
| `HandoffLock.EveryRunIsSafe` | runtime/rt_sync.c:75-135 | in every run with every store a step: at most one holder, and it is the owner; with the metadata lock free a queue implies an owner and the depth counts the owner's unmatched acquires; no parked fiber is forgotten |
| `HandoffLock.ReturnerOwns` | runtime/rt_sync.c:75-108 | a fiber that returns from acquire is the owner, whether it took, deepened or was handed the lock, and nobody else holds it |
| `HandoffLock.SectionsAreAtomic` | runtime/rt_sync.c:46-52 | inside a metadata section no other fiber's step touches the lock, and the section's steps add up to one function of the lock's fields |
| `Events.EveryRunIsSafe` | runtime/rt_task.c:138-199 | outside a completer's critical section nobody sits on the condition's queue whose wait is over, and a parked fiber whose wait is over has been unparked |
| `Events.WaitReturnsSatisfied` | runtime/rt_task.c:161-199 | a WAIT returns only after its last pass found the event, or min(k, n) of the events, complete |
| `Events.LockedPassIsExact` | runtime/rt_task.c:187-199 | the pass under the lock succeeds exactly when enough events are complete at that moment, and no other fiber can change an event while the lock is held |
| `Events.KeepComplete` | runtime/rt_task.c:148-158 | storing an event keeps the invariant: whoever waits for it is still ahead of the walk |
| `Events.KeepWalkWake` | runtime/rt_sync.c:178-202 | waking one waiter of the walk removes it, and only it, from the queue |
| `CondQueue.Cond.SignalKey` | runtime/rt_sync.c:178-202 | in place, over the waiters' own links: wakes exactly the waiters with the key or no key, in order, leaves exactly the others, in order, and touches no other fiber's link |
| `CondQueue.Cond.Enlist` | runtime/rt_sync.c:149-153 | puts the waiter with its key in front of the queue |
| `CondQueue.SplitsQueue` | runtime/rt_sync.c:178-202 | a signal splits the queue: every waiter is woken or left, none both |
| `InputBroker.EveryRunIsSafe` | runtime/rt_input.c:51-167 | the bytes returned, queued, in flight and unread are the input in order; EOF comes only after all that was read; a waiting consumer has a request the reader will see, a read in flight or its wake-up on the way |
| `InputBroker.EofIsFinal` | runtime/rt_input.c:117-138 | after EOF no call returns a byte |
| `InputBroker.TakeKeepsOrder` | runtime/rt_input.c:121-131 | taking a byte off the front chunk, and freeing an empty chunk, keeps the order of the bytes |
| `FileBroker.EveryRunIsSafe` | runtime/rt_fbroker.c:39-107 | each call returns the count of one read made for it with its own file, buffer and size, in order; no parked caller is forgotten |
| `Effects.AnalyzeEffects` | src/irgen_decisions.cpp:1149-1301 | for every procedure: `willreturn` exactly if no unknown, stopping, raising or cyclic procedure is reachable; `nounwind` exactly if no unknown or unwinding procedure and no raiser of a handled condition is reachable; memory effect Unknown if an unknown, globally writing or handled-raising one is reachable |
| `Cycles.MarkCycles` | src/irgen_decisions.cpp:1174-1199 | one mark for each back edge: every procedure on a cycle reaches a marked one, and only procedures on a cycle are marked |
| `Cycles.Visit` | src/irgen_decisions.cpp:1185-1196 | the recursive visit finishes the procedure, leaves those under way alone, and orders finished procedures so that calls meet a mark or go down |
| `Cycles.OrderedCovers` | src/irgen_decisions.cpp:1176-1199 | that order of finishing times leaves no cycle without a mark |
| `Effects.FinishedExactly` | src/irgen_decisions.cpp:1216-1267 | whether the rounds stop by themselves or at the cap, a fact carried by calls holds of a procedure exactly if it can call its way to one that has it by itself |
| `Effects.RoundsCarry` | src/irgen_decisions.cpp:1216-1246 | after r in-place rounds a fact has travelled at least r calls |
| `CallGraph.Saturated` | src/irgen_decisions.cpp:1216-1216 | as many calls as there are procedures reach everything that can be reached, so the cap suffices |
| `Effects.StableIsClosed` | src/irgen_decisions.cpp:1218-1267 | when a round changes nothing, all facts, the argument facts translated by each call included, are closed under calls and handlers |
| `Effects.HandledUnwinds` | src/irgen_decisions.cpp:1247-1264 | whoever can reach a raiser of a handled condition may unwind and may write anything |
| `EffectCap.CapSufficesExactlyWhen` | src/irgen_decisions.cpp:1216-1267 | for every n: whatever n procedures call, know of themselves and handle, n + 2 in-place rounds close all their facts under calls and handlers, if and only if n <= 4 |
| `Sweeps.SmallIsStable` | src/irgen_decisions.cpp:1218-1246 | with n <= 4 procedures, nothing is left to sweep after n + 2 sweeps, although there are 2n facts to find |
| `Sweeps.ComesFrom` | src/irgen_decisions.cpp:1218-1246 | when a sweep and the next one add one fact each, the second stands at no later a procedure than the first, and goes at most once from an argument fact to the other kind |
| `EffectCap.FollowRounds` | src/irgen_decisions.cpp:1218-1264 | reads and writes go through the rounds like two such facts, but for the writes that handlers add |
| `Effects.CapCutsRings` | src/irgen_decisions.cpp:1216-1267 | the counterexample for n > 4: in a ring of n procedures the capped rounds close the argument-to-global writes exactly if n <= 4; beyond, a procedure is promised too much |
| `Effects.RoundInPlace` | src/irgen_decisions.cpp:1218-1264 | one round in place is the round function, and reports a change exactly if something changed |
| `KeyedFile.File.Write` | runtime/rt_file.c:817-829 | adds the record to the map, for keys of any length, the empty one included; refused, with nothing changed, on a file not open, an empty record, an existing key or a read-only file |
| `KeyedFile.File.Read` | runtime/rt_file.c:875-889 | gives the map's record, cut to the buffer; the errors of a closed file, an unknown key, an empty buffer |
| `KeyedFile.File.Rewrite` | runtime/rt_file.c:937-950 | replaces the record in the map in place; refused if its size differs |
| `KeyedFile.File.Delete` | runtime/rt_file.c:968-1002 | takes the key out of the map; the other records keep their bytes |
| `KeyedFile.File.CloseGap` | runtime/rt_file.c:977-996 | the chunked copy removes exactly the record's bytes, for files of any length |
| `KeyedFile.File.RemoveEntry` | runtime/rt_file.c:329-338 | the entry goes and the ones behind the gap are moved down by its size |
| `KeyedFile.File.Close` | runtime/rt_file.c:177-189 | closing keeps the map if and only if no key is longer than 1024 bytes; otherwise the records that survive are intact |
| `KeyedFile.File.Open` | runtime/rt_file.c:521-567 | OUTPUT starts with the empty map, INPUT and UPDATE with the one that was closed; on a file that is open already nothing is lost if its index has not changed, and otherwise the file is what the old sidecar makes of the new data |
| `KeyedFile.File.LoadEntries` | runtime/rt_file.c:366-394 | the loading loop reads entries up to the first that cannot be read |
| `KeyedFile.File.Save` | runtime/rt_file.c:398-425 | writes the entries in the order of their offsets |
| `KeyedIndex.ReloadExactly` | runtime/rt_file.c:351-425 | loading undoes saving if and only if no key is longer than 1024 bytes |
| `KeyedIndex.DecodeEncode` | runtime/rt_file.c:343-425 | what is loaded are the saved entries before the first long key |
| `KeyedIndex.WriteRefines` | runtime/rt_file.c:823-828 | appending a record keeps the intervals disjoint and adds it to the map |
| `KeyedIndex.RewriteRefines` | runtime/rt_file.c:943-949 | overwriting one record changes no other |
| `KeyedIndex.DeleteRefines` | runtime/rt_file.c:982-1002 | cutting a record out and re-basing the later entries removes it from the map and changes no other record |
| `OnStack.RunRefines` | runtime/rt_cond.c:59-146 | under any nesting of entries, ONs, REVERTs and exits the flat stack is a stack of one map per activation, and a lookup answers with the innermost activation's unit |
| `OnStack.TopIsInnermost` | runtime/rt_cond.c:177-187 | the topmost entry for a condition is the innermost activation's |
| `OnStack.EstablishRefines` | runtime/rt_cond.c:116-129 | ON sets the current activation's unit for the condition and nothing else |
| `OnStack.RevertRefines` | runtime/rt_cond.c:134-146 | REVERT drops the current activation's unit for the condition and nothing else |
| `OnStack.ExitRestores` | runtime/rt_cond.c:240-249 | an activation, whatever it does, leaves the caller's units exactly as they were |
| `OnStack.OnState.Push` | runtime/rt_cond.c:59-80 | adds on top, doubling the capacity when it is full |
| `OnStack.OnState.Establish` | runtime/rt_cond.c:116-129 | in place: removes the activation's older unit for the key, then adds the new one |
| `OnStack.OnState.Revert` | runtime/rt_cond.c:134-146 | in place: removes the topmost unit for the key at or above the base, and shrinks |
| `OnStack.OnState.ResetTo` | runtime/rt_cond.c:243-249 | cuts the stack to the saved depth |
| `OnStack.OnState.Shrink` | runtime/rt_cond.c:47-57 | halves the capacity, never below the depth |
| `OnStack.OnState.TopPair` | runtime/rt_cond.c:177-187 | the handler and context of the topmost unit, or none |
| `Wide128.Mul` | runtime/pli_wide128.h:161-195 | the product modulo 2^128 |
| `Wide128.Row` | runtime/pli_wide128.h:178-187 | one row of the schoolbook product: exact but for the limbs past the end, every word sum below 2^64 |
| `Wide128.DivMod` | runtime/pli_wide128.h:201-236 | n = q*d + r with r < d for every d > 0, those of 2^127 and more included |
| `Wide128.Restore` | runtime/pli_wide128.h:206-223 | the 129-bit shifted remainder, less d exactly if that is possible |
| `Wide128.SDiv` | runtime/pli_wide128.h:259-275 | the quotient truncated toward zero; 0 for a zero divisor; the least number divided by -1 stays itself |
| `Wide128.DivMod10` | runtime/pli_wide128.h:239-248 | quotient and remainder by ten |
| `Wide128.Add` | runtime/pli_wide128.h:116-125 | the sum modulo 2^128, from two word sums and a carry |
| `Wide128.Sub` | runtime/pli_wide128.h:127-136 | the difference modulo 2^128 |
| `Wide128.Neg` | runtime/pli_wide128.h:138-147 | the negation modulo 2^128 |
| `Wide128.Cmp` | runtime/pli_wide128.h:149-159 | the order of the values |
| `Wide128.Mag` | runtime/pli_wide128.h:255-257 | the magnitude, exact for the least number |
| `Decimal.RoundTrip` | runtime/rt_get.c:142-180 | what is printed at a scale is read back at that scale as the same value, for every 128-bit value and every scale |
| `Decimal.Format` | runtime/rt_stream.c:671-706 | sign, integer digits, point and exactly the scale's fraction digits, at most 41 characters, in any buffer that has room for them; in a smaller one, the last digits of the integer part and as much of the fraction as fits |
| `Decimal.Fmt128` | runtime/rt_stream.c:655-667 | the decimal digits without leading zeros; the last ones if there is not room for all |
| `Decimal.Read` | runtime/rt_get.c:142-180 | the token's sign, integer and fraction digits as a number modulo 2^128 |
| `Controlled.Storage.Alloc` | runtime/rt_storage.c:142-158 | pushes one generation on the key's stack and leaves every other stack alone; its buffer is the one kept in reserve, without asking the allocator, if key and size are the same, and newly obtained otherwise |
| `Controlled.Storage.AllocDims` | runtime/rt_storage.c:162-175 | the same with zeroed extents, always with a new buffer |
| `Controlled.Storage.SetDim` | runtime/rt_storage.c:180-195 | sets one extent of the key's top generation, growing its rank; nothing on an empty stack |
| `Controlled.Storage.FreeAddr` | runtime/rt_storage.c:228-259 | pops the key's top generation, answers with the new top; calls the allocator's free at most once, for this generation's buffer or for the one kept before, which is held by nobody afterwards; an error, and no call, on an empty stack |
| `Controlled.Storage.Find` | runtime/rt_storage.c:68-102 | the lookup cache and the linear search find the key's entry, or none, and change no stack |
| `Controlled.Storage.Grow` | runtime/rt_storage.c:105-126 | room for one generation more, with the stacks unchanged |
| `Controlled.Storage.Query` | runtime/rt_storage.c:199-205 | address, length, rank and depth of the key's top generation, zeros for an empty stack |
| `Controlled.Storage.Extent` | runtime/rt_storage.c:207-214 | one extent of the top generation, 0 when there is none |
| `Controlled.BuffersDistinct` | runtime/rt_storage.c:128-138 | no two live generations share a buffer, and none shares the one kept in reserve |
| `Controlled.FreedOnce` | runtime/rt_storage.c:228-259 | over any run, no address is given back twice without having been obtained in between |
| `Controlled.NothingLeaks` | runtime/rt_storage.c:128-158 | over any run, every buffer obtained has been given back, belongs to a live generation, or is the one kept in reserve |
| `Controlled.Storage.Dispose` | runtime/rt_storage.c:238-258 | the branches of a FREE: the buffer is kept after the older one is given back, or is given back itself, or doubles the kept shape and is given back |
| `Area.Region.Alloc` | runtime/rt_storage.c:358-379 | a block is refused exactly if payload and header do not fit what is left; what is used is what the live blocks cost |
| `Area.Region.Free` | runtime/rt_storage.c:404-426 | the block a pointer belongs to goes, in any order; any other pointer is refused and changes nothing |
| `Area.Region.Search` | runtime/rt_storage.c:417-419 | the walk along the links finds the block, its predecessor, or that there is none |
| `Area.Unlinked` | runtime/rt_storage.c:423-423 | unlinking any block leaves a chain of exactly the others |
| `Area.ChargedWithout` | runtime/rt_storage.c:424-424 | releasing a block lowers the charge by its payload and its header |
| `ConstFold.FoldIsExact` | src/constfold.cpp:135-166 | when the fold succeeds and nothing exceeds 128 bits, the literal is the tree's real value rounded at the wanted scale, halves away from zero, and fits the type, and so does every operand brought to that scale |
| `ConstFold.SmallFoldsExactly` | src/constfold.cpp:80-166 | a tree with at most 38 digits in all never exceeds 128 bits, so its fold is exact |
| `ConstFold.ExactMeans` | src/constfold.cpp:80-132 | evaluation with scales gives the real number the tree of +, - and * stands for |
| `ConstFold.RescaleMeans` | src/constfold.cpp:141-151 | adding half and truncating rounds halves away from zero |
| `ConstFold.Node.Fold` | src/constfold.cpp:135-176 | the node becomes the literal exactly if everything fits, and is untouched otherwise |
| `ConstFold.ConstNumOf` | src/constfold.cpp:80-132 | the recursive evaluation succeeds exactly on trees of literals with +, - and * |
| `ConstFold.MaxLeafMag` | src/constfold.cpp:34-58 | succeeds exactly on foldable trees, with the largest of the value it was given and the leaves' magnitudes at the wanted scale |
| `ConstFold.LargestLeaf` | src/constfold.cpp:34-58 | that result bounds every leaf and is reached by one of them or by the start value |
| `ConstFold.ConstDigits` | src/constfold.cpp:70-78 | the number of decimal digits of the magnitude |
| `ConstFold.DigitsMean` | src/constfold.cpp:70-78 | k digits are enough exactly for the magnitudes below 10^k |
| `Picture.FoldsAlwaysExactlyWhen` | src/irgen_decisions.cpp:1552-1650 | the folder gives the formatter's text for every value at every scale if and only if a Z right of the point is harmless (none, or the fraction begins with 9 and the integer part ends with 9) and a negative value has a place for its sign (a sign character, or 127 positions) |
| `Picture.FoldIsFormat` | src/irgen_decisions.cpp:1552-1650 | with a harmless fraction, every value that is not negative or has a place for its sign is folded to exactly the run-time text |
| `Picture.UnsafeFraction` | runtime/rt_edit.c:869-885 | otherwise zero is folded wrongly: the formatter suppresses a zero that the folder writes |
| `Picture.FormatFoldable` | runtime/rt_edit.c:754-998 | on a foldable picture the formatter writes one character for each position and a trailing '-' for a negative value without a place for its sign |
| `PictureValues.NinesReadBackExactlyWhen` | runtime/rt_edit.c:762-904 | read back, the digits of a picture of 9s around a V are the value at the picture's scale if and only if the value is zero or has at least as many digits as the scale |
| `PictureValues.NinesText` | runtime/rt_edit.c:762-904 | the text of such a picture for every value that fits it, the misplaced ones included |
| `PictureValues.FloatingSign` | runtime/rt_edit.c:790-985 | a floating currency picture with room for the sign gives blanks, the sign, and the value's digits without leading zeros beyond its 9s |
| `PictureValues.CurrencyLands` | runtime/rt_edit.c:968-982 | the currency pass changes at most one character, a blank into the sign, with only blanks before it, directly in front of the first other character or the end, or at the beginning of the run on a blank text |
| `PictureCode.PicFormat` | runtime/rt_edit.c:754-1001 | the passes over the buffer write exactly the text given by the walk, the currency, the exponent and the sign |
| `PictureCode.MainWalk` | runtime/rt_edit.c:841-967 | the first pass, over every picture character, within the buffer |
| `PictureCode.CurrencyPass` | runtime/rt_edit.c:968-982 | the third pass, in place, writes exactly the text of `Picture.Currency`, of which `PictureValues.CurrencyLands` says where the sign stands |
| `PictureCode.FoldPictureConversion` | src/irgen_decisions.cpp:1552-1650 | the folder's loop writes exactly the text of its walk, or declines |
| `PictureCode.ClassifyPicture` | src/irgen_decisions.cpp:1385-1550 | a picture is called foldable exactly if it is made of the foldable characters with a digit position and at most 127 characters, and then width, point and digit counts are right |
| `PictureCode.Expand` | src/irgen_decisions.cpp:1390-1464 | the repetition loop either expands the picture unchanged or has met something that is not foldable |

## Left out

- TimerHeap.Timers.Push: the heap's own doubling of its capacity and the scheduler's mutex around it; in `Scheduler` an expired timer is an unpark like any other.
- The global queue: its wake-ups and its atomic form are not modelled; it is proved to stay empty.
- RunQueue.KeepBest: the scan of a detached list is one step, since no other worker writes the links of a detached list.
- FiberPool.PoolIsSafeExactlyWhen: the address mask is 48 bits wide as in the code; addresses above it are counted as abandoned.
- Live priority changes of a recycled fiber (runtime/rt_task.c:356-360): a priority is one atomic word here.
- The legacy model, in which tasks are OS threads, and the OS mutex behind a lock used outside a fiber.
- Locks: a fiber releases only what it holds, and waits on a condition at depth one, as all callers do.
- Scheduler.KeepCheck: a worker that has run MAIN to its end returns, and worker 0 with it; here the workers go on, with MAIN's fiber recycled like any other, so every run of the code is a run here.
- Fairness and progress: the results are about every reachable state, not about what happens eventually.
- Weak memory: every atomic access is sequentially consistent.
- The context switch itself, in assembly, is one step that saves or restores a fiber.
- Allocation failure, aborts and full disks, apart from a data file that would exceed the range of its offsets; an allocation of zero bytes, for an empty key, succeeds like any other.
- Scheduler.EveryRunIsSafe: its run queues are bags; the statement about the code's queues is WorkersRace.SafeExactlyWhen.
- Workers.SafeRuns: the ready lists and the global queue stay collections here, which the worker empties with one exchange; the loads of the priority flag and of runnext are one step with the branch they decide.
- FIXED, FLOAT and BIT keyed records: the same index work on a fixed size; two of their READs compare a count with a size.
- KeyedIndex.ReloadExactly: the sort by offset is an insertion sort here; the offsets differ, so every sort gives the same order.
- Controlled.Storage.Alloc: the parallel arrays of a stack are one sequence of records, and the extents' own buffers are values.
- Area.Region.Alloc: one region; that regions do not share blocks is the allocator's promise.
- OnStack.OnState.Push: the inheritance of units by a new task and the source id of a unit are not modelled.
- Decimal.Format: the text is a sequence that grows, not a buffer written through a pointer, and the closing NUL is not part of it; a buffer of no characters is excluded; the token scanner that splits the input is not part of this model.
- Wide128.DivMod: an OR of disjoint bits is written as a sum and a shift as a product or quotient by a power of two.
- Effects.AnalyzeEffects: the walk of the procedure bodies that yields the calls and the first facts is a parameter, and the note that explains a verdict is left out.
- Effects.AnalyzeEffects: whether a memory effect other than Unknown is sound is not claimed: a call's reach does not see variables of enclosing procedures (src/irgen_decisions.cpp:395-403), and the cap can cut the argument facts short from five procedures on.
- ConstFold.FoldIsExact: nothing is claimed when an intermediate value exceeds 128 bits, which is undefined in the code.
- PictureCode.PicFormat: a negative scale is excluded, since the code then reads digits it has not set.
- PictureCode.ClassifyPicture: of sterling pictures only that they are never folded is stated; their formatter is not modelled.
- Code generation, linking, diagnostics, stream formatting of FLOAT values, and the parser.
