# Verified model of four C programs

This project models the concurrent cores of a collection of C programs and proves what
their design promises about every run: a parallel directory copier, the order pipeline of
a shop server with its linked queues, a parking lot with attendants, and the newline
framing of the shop's client. `dafny verify dfyconfig.toml` checks all of it.

## How the programs are modelled

The three multi-threaded programs are step relations. A state holds the shared variables,
every mutex, semaphore and condition variable, and one program counter per thread; a step
is one access to a shared variable, or one lock, wait, signal, post, barrier or system
call. The comments on the program counters give the line each stands for. A run is any
finite sequence of steps from the initial state, in any interleaving, and the numbers of
threads, the capacities and the inputs are parameters. Condition variables may wake up
spuriously, a signal may wake any sleeper, and a mutex unlocked by a thread that does not
own it is simply free. A thread that has not been created yet is one that has not been
scheduled yet, except in the parking lot, whose main thread takes part in the protocol.

What works in place in one thread is imperative: the directory list as linked cells, the
ring as an array with two indices, `fileCopy` and its chunks, the linked queues with their
nodes and their `free`, and the client's buffer with its overwriting and `memmove`. Each
method is proved against a function on sequences, and the step relations use the same
functions.

The modules, program by program:

- Copier (`threads_mutex_semaphore_barrier/210104004243_main.c`): `SourceTree` has source
  trees and paths; `Walk` and `WalkTasks` have the recursive walk that serves as the
  reference and the loop that splices the list it is iterating over, and `WalkOrder` the order; `DirList` has that
  loop on linked cells; `Ring` has the buffer; `FileCopy` has the chunk loop; `Copier` has
  the protocol. Each of `CopierLocks`, `CopierRing`, `CopierScript`, `CopierJobs`,
  `CopierFiles`, `CopierBarrier`, `CopierStats` and `CopierWake` proves a part of the
  invariant (with effect lemmas in `CopierFrames`), and `CopierRuns`, `CopierDirs`,
  `CopierStuck`, `CopierTermination` and `CopierStall` draw the conclusions.
- Shop (`socket_threads_semaphores_mutex/server.c`): `Shop` has the pipeline of manager,
  cooks, deliverers and the joining main thread. `ShopLocks`, `ShopOrders`, `ShopSteps`,
  `ShopStatus`, `ShopCounts` and `ShopWake` prove the invariant; `ShopRuns`, `ShopStuck`,
  `ShopHistory`, `ShopTermination` and `ShopStall` draw the conclusions.
- Parking lot (`shared_mem_and_threads/main.c`): `Parking`, `ParkingInv`, `ParkingRuns`,
  `ParkingEnds`, `ParkingCanEnd`.
- `Queues` has `queue.h` and `messageQueue.h`; `Framing` has the client's listener;
  `Counting` counts the threads that satisfy a predicate.

## What was found

- The copier can hang at shutdown. `active` is cleared and `not_empty` is broadcast without
  the mutex (lines 191-193), so a worker that has read `active` on line 209 and has not
  gone to sleep yet misses the broadcast. `CopierStall.ShutdownCanStrandAWorker` gives such
  a run for every tree, buffer size and number of workers. `CopierStuck.FinishesUnlessCaughtAtBroadcast` shows for all runs that this is the
  only way: one that has come to rest has finished if and only if each worker caught in
  this way has been helped by a spurious wake-up since. Even then everything has been
  copied, by `CopierStuck.StuckStates`.
- The copier unlocks its mutex twice on one path (lines 225 and 229) and may thereby
  release another worker's lock. That never matters: `CopierRuns.SecondUnlockIsHarmless`.
- The shop's last broadcast (line 520) goes to `cond_for_new_order`, on which no thread
  waits, and comes before `no_more_orders` is set. A deliverer asleep on `can_deliver` at
  that point is left there, so that main never sends "ALL ORDERS SERVED" although all
  orders have been delivered. `ShopStall.SessionCanStall` shows that any session may go on
  to this as long as `no_more_orders` has not been set, and `ShopStuck.ServedUnlessCaught`
  says for all sessions exactly when it happens.
- The parking program need not end. An attendant leaves only when its lot is full and one
  more vehicle comes, and main joins the attendants. `ParkingEnds.AlwaysEndsIff` has the
  exact condition under which every schedule ends: more vehicles of each kind are drawn
  than its lot holds, and each temporary area is larger than its lot. The program's areas
  are no larger than its lots, so that `ParkingEnds.ProgramMayNotEnd` gives a run that
  comes to a standstill and has not ended whatever the hundred owners draw. Whether any
  schedule ends is `ParkingCanEnd.SomeScheduleEndsIff`.
- The client's listener stops for good on input with a line that, with its newline, leaves no byte of
  its buffer free: `recv` is in the end asked for no bytes and returns 0, which the listener
  takes for the end of the connection. `Framing.WholeIffFits` has the exact condition and
  `Framing.LongLineStops` the point at which it happens. The messages of this server are
  far too short for it.

## Assumptions

- Copier: the source tree does not change during the run, is finite, and names are
  non-empty, free of slashes and unique in their directory; source and target do not
  overlap; no system call other than `opendir` fails; `mkdir` on an existing directory is
  harmless; paths fit into their buffers and the statistics into an `int`; at least one
  slot and one worker. `FileCopy.Copy` also has the ways in which opening, reading and writing fail.
- Shop: one session that is not cancelled; one order per read, no more than 100 in all,
  with distinct ids; at least one cook and one deliverer; the thread ids modulo 100 have
  been registered before deliveries start (they need not be distinct).
- Parking lot: the named semaphores and the shared memory are fresh.
- All three: memory is sequentially consistent. The programs read some shared variables
  without a lock, which C leaves undefined: the copier `active`, and `count` on line 204;
  the shop `order_counter_global` and `no_more_orders`.
- Framing: characters stand for bytes.

## Model

| member | source | states |
|---|---|---|
| SourceTree.RenderInjective | threads_mutex_semaphore_barrier/210104004243_main.c:141-142 | Joining names with "/" below one root is injective: two different relative paths of slash-free names never give the same path string. |
| SourceTree.LookupRender | threads_mutex_semaphore_barrier/210104004243_main.c:145-145 | Looking a path string up in the mounted tree finds exactly the node at the relative path it was built from. |
| SourceTree.LeadsResolve | threads_mutex_semaphore_barrier/210104004243_main.c:138-145 | A path through readable directories by the names of their entries, none of them "." or "..", is looked up to the node it leads to. |
| Walk.SpliceRefinesWalk | threads_mutex_semaphore_barrier/210104004243_main.c:122-188 | Each step of the loop over the list that grows behind its cursor performs the next action of the recursive walk (pre-order, files of a directory in reading order, then its subdirectories in reverse) and leaves the rest of it to be done. |
| Walk.VisitMakesFirst | threads_mutex_semaphore_barrier/210104004243_main.c:124-164 | In the walk, every target directory is made after its parent's and before anything below it is queued. |
| WalkTasks.VisitTasks | threads_mutex_semaphore_barrier/210104004243_main.c:137-164 | Every queued pair is a regular file that entries other than "." and ".." of readable directories lead to, and the same relative path below the target root; no two queued pairs have the same target string. |
| WalkTasks.VisitComplete | threads_mutex_semaphore_barrier/210104004243_main.c:127-164 | Every regular file that entries other than "." and ".." of readable directories lead to is queued. |
| WalkTasks.VisitMakesDirs | threads_mutex_semaphore_barrier/210104004243_main.c:122-180 | Every directory that such entries lead to is made in the target. |
| WalkTasks.VisitMakesOnlyDirs | threads_mutex_semaphore_barrier/210104004243_main.c:122-180 | Nothing else is made but the target root. |
| WalkOrder.VisitInOrder | threads_mutex_semaphore_barrier/210104004243_main.c:137-187 | Of two files of one directory the one read earlier is queued first, all files of a directory are queued before anything in its subdirectories, and of two subdirectories everything below the one read later comes first; at every level of the tree. |
| DirList.SpliceAfter | threads_mutex_semaphore_barrier/210104004243_main.c:167-176 | A fresh cell is linked in directly behind the current one; the list stays acyclic, without freed cells and otherwise as it was. |
| DirList.ReadDir | threads_mutex_semaphore_barrier/210104004243_main.c:137-179 | The readdir loop does what the walk does for the entries of this directory, whatever the list behind it, and uses up the measure. |
| DirList.Process | threads_mutex_semaphore_barrier/210104004243_main.c:122-188 | One round of the outer loop makes the directory, reads it if it opens and then frees its cell, passes over it and leaks its cell if not, goes on to the next cell, and uses up the measure on unvisited nodes. |
| DirList.Traverse | threads_mutex_semaphore_barrier/210104004243_main.c:109-188 | The in-place loop over linked cells ends, having performed exactly the actions of the recursive walk in its order; there has been one cell per directory made, in that order, and exactly the cells of the directories that opened have been freed. |
| Ring.PushMatches | threads_mutex_semaphore_barrier/210104004243_main.c:157-160 | A store at `in` and the step of `in` modulo the size append to the queue read circularly from `out`, across wrap-around. |
| Ring.PopMatches | threads_mutex_semaphore_barrier/210104004243_main.c:215-218 | The slot at `out` holds the oldest element, and the step of `out` removes just that one. |
| Ring.Buffer.constructor | threads_mutex_semaphore_barrier/210104004243_main.c:332-334 | A new buffer of any positive size holds the empty queue. |
| Ring.Buffer.Store | threads_mutex_semaphore_barrier/210104004243_main.c:157-160 | The manager's statements append the pair to the queue held by the array. |
| Ring.Buffer.Take | threads_mutex_semaphore_barrier/210104004243_main.c:215-218 | The worker's statements return the head of the queue and remove it. |
| FileCopy.Copy | threads_mutex_semaphore_barrier/210104004243_main.c:268-298 | For every list of what the reads and writes meet: without a failure the copy is complete and identical to the source; it gives up exactly at the first read that fails or write that gets less through than was read, and then the target holds what was copied up to there, a proper prefix of the source after a short write; a source or target that cannot be opened leaves it as it was. |
| CopierRuns.RunSafe | threads_mutex_semaphore_barrier/210104004243_main.c:94-264 | Every state of every run satisfies the conjunction of the nine parts of the invariant, under all interleavings of manager and workers. |
| CopierRuns.OneWriter | threads_mutex_semaphore_barrier/210104004243_main.c:149-229 | In every state of every run at most one thread is at a statement that writes `tasks`, `in`, `out` or `count`, and it holds the mutex, in spite of the doubled unlock. |
| CopierRuns.SecondUnlockIsHarmless | threads_mutex_semaphore_barrier/210104004243_main.c:209-229 | From the second unlock on, in any continuation, `active` is 0, the ring is empty and unchanged, and no thread reaches a statement that writes it. |
| CopierLocks.QuietForGood | threads_mutex_semaphore_barrier/210104004243_main.c:204-229 | Once `active` is 0 and `count` is 0, every step keeps both and leaves the ring alone. |
| CopierRuns.RingIsQueue | threads_mutex_semaphore_barrier/210104004243_main.c:149-220 | In every state of every run what has been taken, followed by the circular window from `out`, is what has been produced, in that order; `count` is within bounds and exact while nobody holds the mutex. |
| CopierRuns.BarrierSeparates | threads_mutex_semaphore_barrier/210104004243_main.c:201-262 | No worker gets past the first use of the barrier before all have arrived at it, nor past the second use before all have arrived a second time. |
| CopierRuns.ExactlyOnce | threads_mutex_semaphore_barrier/210104004243_main.c:204-262 | When a worker is back from the second barrier, the pairs queued are those of the walk in its order; the pairs read and written by the completed copies are, each at the position recorded for it, a permutation of them; `files_copied == file_counter ==` their number, `fifo_file_counter == 0` and `bytes_copied` is the sum of their sizes. |
| CopierRuns.TargetMirrorsSource | threads_mutex_semaphore_barrier/210104004243_main.c:122-298 | When a worker is back from the second barrier, every regular file that entries other than "." and ".." of readable directories lead to is at the same relative path below the target root, byte for byte. |
| CopierRuns.DirectoriesMirrored | threads_mutex_semaphore_barrier/210104004243_main.c:122-188 | So is every directory that such entries lead to. |
| CopierDirs.DirectoriesCounted | threads_mutex_semaphore_barrier/210104004243_main.c:124-126 | In every state of every run the target has its old directories and some of the walk, and `directories_copied` is the number of those added; when a worker is back from the second barrier, all of the walk are there and nothing else is new. |
| CopierDirs.TargetDirectories | threads_mutex_semaphore_barrier/210104004243_main.c:122-188 | When a worker is back from the second barrier the target has the directories it had before, its root, one for each directory that such entries lead to, and no others. |
| CopierRuns.OnlyTargetsWritten | threads_mutex_semaphore_barrier/210104004243_main.c:268-298 | In every state of every run a file that is not at the relative path of such a source file has the contents it had at the start. |
| CopierRuns.NoSharedTarget | threads_mutex_semaphore_barrier/210104004243_main.c:230-233 | No two workers are ever copying to the same target string at the same time. |
| CopierStuck.StuckStates | threads_mutex_semaphore_barrier/210104004243_main.c:149-229 | A reachable state without an enabled step is final, or the manager has finished, the ring is empty, every queued pair has an identical copy, and each worker sleeps on `not_empty` or waits at the second barrier, at least one asleep. |
| CopierStuck.NoDeadlockBeforeTheEnd | threads_mutex_semaphore_barrier/210104004243_main.c:122-193 | While the manager runs, some step other than a spurious wake-up is enabled. |
| CopierStuck.FinishesUnlessCaughtAtBroadcast | threads_mutex_semaphore_barrier/210104004243_main.c:191-210 | A run that has come to rest is final if and only if every worker that was between its reading of `active` on line 209 and falling asleep when the manager broadcast has woken up spuriously since. |
| CopierStuck.FinishesIfNobodyCaught | threads_mutex_semaphore_barrier/210104004243_main.c:191-210 | In particular a run at rest is final if no worker was caught, whatever wakes up spuriously; and only then, if no worker wakes up spuriously after the broadcast. |
| CopierStall.ShutdownCanStrandAWorker | threads_mutex_semaphore_barrier/210104004243_main.c:191-210 | For every source tree, buffer size, number of workers and initial target there is a run, without spurious wake-ups, that comes to rest in the shutdown stall: everything is copied and a worker sleeps for ever. |
| CopierTermination.StepDecreases | threads_mutex_semaphore_barrier/210104004243_main.c:94-264 | Every step uses up a measure of the work left; a spurious wake-up gives back a fixed amount. |
| CopierTermination.RunBounded | threads_mutex_semaphore_barrier/210104004243_main.c:94-264 | No run is longer than its first state allows plus a fixed number of steps per spurious wake-up. |
| CopierTermination.ComesToRest | threads_mutex_semaphore_barrier/210104004243_main.c:94-264 | Every run goes on, without further spurious wake-ups, to a state of rest, which is final or the shutdown stall, and final exactly when every worker caught at the broadcast has been woken. |
| CopierTermination.CanFinish | threads_mutex_semaphore_barrier/210104004243_main.c:191-264 | Every run can go on to one in which manager and workers have returned: spurious wake-ups free the workers that the broadcast has missed. |
| ParkingRuns.Tokens | shared_mem_and_threads/main.c:233-300 | For each kind, the temporary count is the value of the new-vehicle semaphore, plus one for an attendant that has taken a token and not parked yet, plus an owner about to post; accepted = temporary + parked; parked + free places = capacity; bounds on all of them. |
| ParkingRuns.TestNeverFails | shared_mem_and_threads/main.c:279-323 | `count > 0` holds whenever it is tested, and an attendant that has quit has filled its lot and was offered more. |
| ParkingRuns.TurnedAwayIffFull | shared_mem_and_threads/main.c:237-266 | In every state of every run an owner just turned away has found the temporary area full, and one about to be admitted has found room. |
| ParkingRuns.ChargeNeverBlocks | shared_mem_and_threads/main.c:281-291 | An attendant waiting for `sem_charge` can always go on. |
| ParkingRuns.Standstill | shared_mem_and_threads/main.c:184-323 | Where no step is enabled all owners have left; for each kind either more were accepted than the lot holds and it is exactly full and its attendant gone, or the attendant waits, there is no token, the temporary area is empty and all accepted are parked; main ends if and only if both lots overflow. |
| ParkingRuns.DoneMeansAllOver | shared_mem_and_threads/main.c:184-191 | main ends only when all owners have left and both attendants have quit. |
| ParkingRuns.RunBounded | shared_mem_and_threads/main.c:151-334 | Every step uses up a measure, so every run is finite, with a bound from its first state. |
| ParkingEnds.AcceptedBounds | shared_mem_and_threads/main.c:233-266 | Never more vehicles of a kind are accepted than are drawn; once all owners have left, all that were drawn have been accepted or at least as many as the temporary area holds. |
| ParkingEnds.RunHasDraws | shared_mem_and_threads/main.c:230-234 | Every run is one of some assignment of draws to the owners. |
| ParkingEnds.EndsByDraws | shared_mem_and_threads/main.c:184-189 | The program has ended only if more of each kind were drawn than its lot holds; where the temporary areas are larger than the lots, a standstill has ended if and only if that is so. |
| ParkingEnds.ComesToRest | shared_mem_and_threads/main.c:151-334 | Whatever the owners draw, every run goes on to a standstill. |
| ParkingEnds.MayNotEnd | shared_mem_and_threads/main.c:184-189 | If a temporary area is no larger than its lot, then for all draws there is a run to a standstill that has not ended. |
| ParkingEnds.AlwaysEndsIff | shared_mem_and_threads/main.c:184-189 | All schedules of given draws end if and only if more of each kind are drawn than its lot holds and each temporary area is larger than its lot. |
| ParkingCanEnd.SomeScheduleEndsIff | shared_mem_and_threads/main.c:184-323 | Some schedule of given draws ends if and only if more of each kind are drawn than its lot holds and both temporary areas have room for a vehicle. |
| ParkingEnds.ProgramMayNotEnd | shared_mem_and_threads/main.c:97-189 | With 100 owners, areas of 8 and 4 and lots of 8 and 4 there is, for all draws, a run to a standstill that has not ended. |
| Shop.FindOrder | socket_threads_semaphores_mutex/server.c:658-666 | The lookup returns the first index with this id and status, and None only if there is none. |
| ShopLocks.LockStep | socket_threads_semaphores_mutex/server.c:525-617 | Every step conserves, for each of twelve mutexes and semaphores, free units plus holders. |
| ShopRuns.NeverOverdrawn | socket_threads_semaphores_mutex/server.c:278-302 | In every state of every run no mutex or semaphore is overdrawn or above its capacity, and its free units plus its holders make up the capacity. |
| ShopSteps.OneClaims | socket_threads_semaphores_mutex/server.c:571-586 | At most one cook is between taking and releasing `_order_full_mutex`. |
| ShopSteps.LookupFinds | socket_threads_semaphores_mutex/server.c:658-666 | A deliverer's lookup finds its order, at the index where it was received, with status COOKED. |
| ShopSteps.SearchFinds | socket_threads_semaphores_mutex/server.c:536-554 | The manager's search finds the order it has dequeued, so none is dropped. |
| ShopStatus.OrderStep | socket_threads_semaphores_mutex/server.c:486-703 | Every step keeps the orders partitioned over the places of the pipeline, the table in the order of receipt, each `arr` filled exactly while its order is on the way, and each status in agreement with the place. |
| ShopRuns.StatusMovesOn | socket_threads_semaphores_mutex/server.c:595-662 | From each state of a run to the next an order keeps its id, and its status stays or moves to the next of WAITING, COOKING, COOKED, DELIVERING. |
| ShopCounts.CountStep | socket_threads_semaphores_mutex/server.c:479-549 | Every step keeps `next`, `counter`, `cook_counter` and the sum of the `p_count`s equal to the numbers of orders in the places they stand for. |
| ShopWake.WakeStep | socket_threads_semaphores_mutex/server.c:526-655 | Every step keeps what sleepers and waiters rely on: a sleeping manager means an empty ready queue or a signal on its way; a non-empty delivery queue means no deliverer asleep and none gone, or a broadcast on its way. |
| ShopRuns.RunSafe | socket_threads_semaphores_mutex/server.c:402-703 | Every state of every run satisfies the whole invariant. |
| ShopRuns.OnePlace | socket_threads_semaphores_mutex/server.c:486-703 | In every state of every run each order is either unclaimed or in exactly one of: a cook's hands, the ready queue, the manager's hands, the delivery queue, a deliverer's hands, delivered; and nothing else is in any of them. |
| ShopHistory.FirstCookedFirstTaken | socket_threads_semaphores_mutex/server.c:526-655 | In every state of every run orders have left both queues in the order they entered them: the orders put in the ready queue are, in order, those taken by deliverers, then the delivery queue, the one in the manager's hands, and the ready queue. |
| ShopHistory.DeliveryCalls | socket_threads_semaphores_mutex/server.c:541-653 | Each step changes the delivery queue as the calls of `queue.h` do: the manager's by `enqueue`, a deliverer's by `dequeue`, whose answer it goes on with; no other step touches it. |
| ShopHistory.ReadyCalls | socket_threads_semaphores_mutex/server.c:532-615 | So for the ready queue between the cooks and the manager. |
| ShopHistory.OwnOrders | socket_threads_semaphores_mutex/server.c:643-702 | In every state of every run each deliverer has delivered the orders it has taken, in that order, but for at most one on the way. |
| ShopHistory.CreditedToOwn | socket_threads_semaphores_mutex/server.c:687-692 | In every state of every run each `p_count` is the number of passages through the tally by deliverers with its thread id, or 0 if an earlier entry has that id; with distinct ids, by its own deliverer. |
| ShopRuns.StatusIsPlace | socket_threads_semaphores_mutex/server.c:498-666 | In every state of every run an order has a status if and only if it is in a place that goes with that status. |
| ShopRuns.StatusNeverGoesBack | socket_threads_semaphores_mutex/server.c:498-666 | Along any run an order stays in the table under its id and never gets an earlier status. |
| ShopRuns.NoFault | socket_threads_semaphores_mutex/server.c:530-701 | In every state of every run no dequeue finds its queue empty, no index leaves its array, both lookups find the order, and `arr` is empty at the loop head and indexed only at 0. |
| ShopRuns.NeverBlocks | socket_threads_semaphores_mutex/server.c:479-700 | The waits for `oven_cap`, `available_motorcycle`, `queue_lock` and `cook_counter` never block; `cook_counter == order_counter_global - counter` at each head of the forwarding loop; at most one cook is inside `return_result`. |
| ShopStuck.Quiescence | socket_threads_semaphores_mutex/server.c:518-655 | Where nothing but polling and spurious wake-ups is enabled, the delivered orders are a permutation of the received ones, both queues are empty, the manager and all cooks have returned, the deliverers sleep or have returned, and main has finished if and only if none sleeps; otherwise main is joining one that does. |
| ShopHistory.ServedIsHonest | socket_threads_semaphores_mutex/server.c:402-439 | When "ALL ORDERS SERVED" is about to be sent, every received order has been delivered exactly once, the `p_count`s add up to their number, and each is the number of deliveries made by the deliverers with its thread id, or 0 if an earlier entry has that id; with distinct ids it is its deliverer's own number. |
| ShopStuck.ServedUnlessCaught | socket_threads_semaphores_mutex/server.c:519-524 | A run at rest contains the step that set `no_more_orders`, and main has finished if and only if every deliverer that was then asleep on `can_deliver`, or about to be, has woken up spuriously since. |
| ShopStuck.ServedIfNobodyCaught | socket_threads_semaphores_mutex/server.c:519-524 | In particular main has finished if there was no such deliverer, whatever wakes up spuriously; and only then, if no deliverer wakes up spuriously afterwards. |
| ShopStall.SessionCanStall | socket_threads_semaphores_mutex/server.c:519-524 | Any session in which `no_more_orders` has not been set can go on, without further spurious wake-ups, to rest with every deliverer asleep and main joining one of them. |
| ShopStall.EveryShopCanStall | socket_threads_semaphores_mutex/server.c:519-524 | For all orders and numbers of cooks and deliverers there is a session, without any spurious wake-up, that ends like that. |
| ShopTermination.StepUses | socket_threads_semaphores_mutex/server.c:462-703 | Every step that is neither polling nor a spurious wake-up uses up a measure of the work left, polling does not raise it, and a wake-up gives back at most 7. |
| ShopTermination.BusyIsBounded | socket_threads_semaphores_mutex/server.c:462-703 | In any run the number of steps that are neither polling nor spurious is bounded by an explicit function of the numbers of orders, cooks, deliverers and spurious wake-ups. |
| ShopTermination.ComesToRest | socket_threads_semaphores_mutex/server.c:462-703 | Every run can go on, without spurious wake-ups, to one at rest in which all orders have been delivered. |
| ShopTermination.CanBeServed | socket_threads_semaphores_mutex/server.c:402-439 | Every run can go on to one in which "ALL ORDERS SERVED" has been sent: spurious wake-ups free the deliverers left asleep. |
| Queues.ChainIsWhatIsReached | socket_threads_semaphores_mutex/queue.h:34-69 | Following `next` from `front` meets exactly the nodes of the queue in order, without a cycle, ending at `rear`. |
| Queues.FirstInFirstOut | socket_threads_semaphores_mutex/queue.h:34-69 | For every sequence of calls on any contents, the values answered followed by what is left are the contents followed by the values put in; every dequeue has one answer. |
| Queues.Queue.Perform | socket_threads_semaphores_mutex/queue.h:34-69 | A queue on which any sequence of calls is made gives the answers, and ends with the contents, of the sequence it holds; an empty queue answers None. |
| Queues.Use | socket_threads_semaphores_mutex/queue.h:23-69 | On a new queue, for any sequence of calls, what comes out followed by what is still in is what went in. |
| Queues.Queue.constructor | socket_threads_semaphores_mutex/queue.h:23-32 | A new queue is empty. |
| Queues.Queue.IsEmpty | socket_threads_semaphores_mutex/queue.h:80-82 | `front` is null exactly when the queue is empty. |
| Queues.Queue.Enqueue | socket_threads_semaphores_mutex/queue.h:34-50 | The value is appended in a fresh node behind the old ones; `size`, `front` and `rear` agree with the contents. |
| Queues.Queue.Dequeue | socket_threads_semaphores_mutex/queue.h:52-69 | The head is removed, returned and its node freed; on an empty queue nothing changes and the program gives up. |
| Queues.Queue.Drain | socket_threads_semaphores_mutex/server.c:162-167 | The clean-up loop ends with an empty queue and every node freed, each once. |
| Queues.MessageQueue.Enqueue | socket_threads_semaphores_mutex/messageQueue.h:34-46 | A fresh copy of the message is appended in a fresh node and the mutex released. |
| Queues.MessageQueue.Dequeue | socket_threads_semaphores_mutex/messageQueue.h:48-63 | The oldest message is removed and handed over, not freed, and its node freed; or there is none; the mutex is released either way. |
| Queues.MessageQueue.Clear | socket_threads_semaphores_mutex/messageQueue.h:64-75 | The loop ends, every string and every node has been freed, each once and the node only after its link was read, and the queue is empty. |
| Framing.NothingLost | socket_threads_semaphores_mutex/client.c:144-185 | The lines each followed by a newline, then the rest, are the whole text. |
| Framing.PiecesArePlain | socket_threads_semaphores_mutex/client.c:145-180 | Neither a line nor the rest contains a newline. |
| Framing.OnlyOneCut | socket_threads_semaphores_mutex/client.c:145-180 | There is no other way to cut the text into newline-free pieces. |
| Framing.CutInChunks | socket_threads_semaphores_mutex/client.c:139-185 | Cutting a text and then the rest with a further chunk gives the lines and the rest of the whole. |
| Framing.WholeIffFits | socket_threads_semaphores_mutex/client.c:139-142 | A text is received whole if and only if every line with its newline, and the rest, leave a byte of the buffer free. |
| Framing.LongLineStops | socket_threads_semaphores_mutex/client.c:139-142 | After text that fits, a line that leaves no byte free stops the reception one byte short of the capacity into that line, whatever follows. |
| Framing.LongTextIsCutShort | socket_threads_semaphores_mutex/client.c:139-142 | For instance, of a text without newline that is as long as the buffer or longer, all but the last byte of the buffer is received and nothing more. |
| Framing.AllArrives | socket_threads_semaphores_mutex/client.c:138-142 | As long as no call fails, every `recv` makes progress until that point is reached, and none goes past it. |
| Framing.Listener.Receive | socket_threads_semaphores_mutex/client.c:139-142 | A chunk that fits is appended to the pending bytes, with `idx` inside the buffer and a NUL behind them. |
| Framing.Listener.Discard | socket_threads_semaphores_mutex/client.c:182-185 | The move to the front keeps exactly the bytes from `start` on. |
| Framing.Listener.Cut | socket_threads_semaphores_mutex/client.c:144-185 | The scan in place yields the lines of the pending bytes and leaves their rest. |
| Framing.Listener.Listen | socket_threads_semaphores_mutex/client.c:138-196 | For every list of what the calls of `recv` meet, failures or chunks of any size: it ends in failure exactly if one of the calls made fails; otherwise everything up to the first point at which an unfinished line fills the buffer is received, however it is chunked; the lines cut and the bytes left are those of the bytes received. |

## Left out

- Signal handlers, Ctrl-D threads and cancellation of all programs: they exit or reset global state in the middle of a step, and the properties are about runs that are not cancelled. The join of the Ctrl-D thread before the clean-up is left out with it.
- More than one session of the server: the clean-up frees `orders` and reallocates it into a parameter, so that main keeps the old pointer.
- The network: parsing of orders beyond one per read, the sender thread, random locations, distances and sleeping. A cook's and a deliverer's message to the sender is one step without effect on the pipeline; nothing is claimed about the order of messages.
- Queues.MessageQueue.Dequeue: the mutex is modelled as a flag that the methods take and release, not as contention between threads.
- Which lines the client reports: it compares the start of the buffer, not the line, with "OK", so reporting depends on the chunks; the model has the lines that are cut, and stops short of the branches that cancel the listener.
- Shop.FindOrder: a lookup is one step together with what its branch writes first. Nothing is lost by that: ids below `order_counter_global` never change, that counter only grows, and statuses change only under the mutex a deliverer holds.
- The decrements of the thread counter in the parking program: they change only a pointer.
- `matrix.h`, `signals_and_fifo/main.c` and `fifo/main.c`: numerical library calls, signals that are not distinguished, and file handling would add only easy members or properties that do not hold in all runs.
- Logging, clocks, printing and allocation failure.
