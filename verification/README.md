# Verified models of ps4sdk's kernel-header algorithms

Most of the SDK is declarations. A few headers carry real algorithms as inline functions
and macros; this project models those in Dafny 4.11 and proves what they are for.
`dafny verify dfyconfig.toml` checks everything.

| files | models |
|---|---|
| `RingArithmetic`, `BufRingProtocol`, `BufRingInvariant`, `BufRingTheorems`, `BufRingCalls`, `BufRingDrain`, `BufRingSerial`, `BufRingLap` | the lock-free ring of `include/sys/buf_ring.h` with any number of threads |
| `BufRing`, `Drbr` | the same ring as sequential code over its array, and the driver layer of `include/net/if_var.h` above it |
| `IfQueueSpec`, `IfQueue` | the two-stage interface output queue of `include/net/if_var.h`, as values and as linked mbufs |
| `IfnetLock` | the two-lock discipline `IFNET_*LOCK` |
| `SpinLock` | the swap-based spin lock of `common/generic/source/atomic.c` and the swap of `atomic.s` beside it |
| `TryFrames`, `TryFramesProofs` | try/catch/finally by goto, `include/ps4/exception.h` |
| `PageTable` | recursive page-table map and direct map, `include/machine/pmap.h`, `vmparam.h` |
| `Fenv` | the two-unit floating-point environment, `include/fenv.h` |
| `Options`, `Sequences` | shared helpers |

## The concurrent ring

A state is the shared struct, one program counter per thread, and a history. Every shared
load, compare-and-set, slot access, counter load, counter store and tail store is one step;
steps of any threads interleave freely; memory is sequentially consistent, so `wmb` and
`rmb` do nothing. Indices are the real masked ones. The history counts index advances
without wrapping (*tickets*) and is never read (`HistoryIsInvisible`).
`BufRingInvariant.At` annotates every program point, `Rely` says what others may change.

The header calls enqueue "multi-producer safe" and dequeue "multi-consumer safe". The code
is so under a condition, because heads are masked: a thread that sleeps between loading the
head and its compare-and-set while the head makes a whole lap can succeed with a stale
opposite tail. For every ring size, `SleepingProducerLosesBuffers` is a run in which a ring's
worth of accepted buffers becomes unreachable and `SleepingConsumerDuplicates` one in which a
buffer is handed out twice.

A compare-and-set *has room* if the full (empty) test repeated on the live fields would pass.
The condition "every successful compare-and-set has room" is exact in two ways:
`OrderedIffRoomy`, it holds of a run if and only if the indices stay in order throughout;
`RoomyIffFifo`, it holds if and only if at no point first in, first out is already lost,
that is, violable by a continuation that is never a lap late itself. (A run without room may
still happen to end in order, so the second equivalence speaks of continuations.) Fewer than
`size` head advances between load and compare-and-set is enough (`FreshIsRoomy`); with one
producer and the lock-protected dequeue nothing is needed (`SingleProducerSingleConsumer`).
For the same reason ENOBUFS, and NULL from the multi-consumer dequeue, can be spurious;
`NoBufsIffFull` and `McNullIffEmpty` say exactly when.

The main result is stated on what callers see: under that condition `FirstInFirstOut` says
that the buffers all consumers received, in the order `br_cons_tail` passed them, are a prefix
of the buffers all producers had accepted, in the order `br_prod_tail` passed them.
`CodesAreTrue` ties "accepted" and "received" to what the calls were given and returned, on
every run. `SerialRun` ties the concurrent model to the sequential one: calls made one at a
time answer as the bounded queue that specifies the sequential ring.

## The spin lock

`ps4AtomicSwap64` loads the shared word, executes `lock xchg` on the *caller's variable*, and
stores the result to the shared word (`atomic.s:5-9`; the other widths alike). The bus lock
covers private memory, so the word sees a load and a separate store, and the model makes
them separate steps. The name and the spin-lock code expect an atomic exchange; the model
follows the code. `GuardedIffProper` is the exact condition under which the lock works,
`AtomicSwapsWouldDo` says an atomic exchange would meet it, and `TwoGetIn` and `LockIsLost`
are runs of two well-behaved threads that do not.

## Try by goto

`Exec`/`RunFrame` is the structured meaning, `Compile`/`Code`/`Steps` the expansion to
labels and jumps on a machine with a call stack. Statements, conditions, handler effects and
handler arguments are arbitrary functions, loops and recursive calls included.
`GotoMeansStructured` is an equivalence in both directions, so also for programs that do not
terminate. Two things to know about the macros: `ps4ExceptionAssert` expands to
`ps4ExceptionThrowIf`, so despite its name it throws when its condition is *true*; and a
frame that runs off its end returns no value, which the model calls `NoValue`/`Stuck`.

## Model

| member | source | states |
|---|---|---|
| `RingArithmetic.MaskIsSlot` | include/sys/buf_ring.h:95 | `x & mask` is reduction modulo a power-of-two size, bit by bit |
| `RingArithmetic.NextIndexIsNextSlot` | include/sys/buf_ring.h:95 | the masked successor of a ticket's index is the next ticket's index |
| `RingArithmetic.FullTestIsExact` | include/sys/buf_ring.h:97 | with tickets in order the masked full test holds exactly one short of a lap |
| `RingArithmetic.CountOf` | include/sys/buf_ring.h:263-269 | the 32-bit masked difference is the number of tickets between the tails |
| `BufRingProtocol.HistoryIsInvisible` | include/sys/buf_ring.h:76-247 | enabledness and effect of every step on the real state do not depend on the history |
| `BufRingInvariant.InvIsKept` | include/sys/buf_ring.h:76-247 | the inductive invariant: every step of every operation by any thread keeps the index order, the field values, one thread per outstanding ticket, the stored and delivered buffers and the counters, given room at a successful compare-and-set |
| `BufRingInvariant.ECasKeepsInv` | include/sys/buf_ring.h:102-104 | a successful reservation with room keeps the invariant: the new ticket has one owner, recorded with its buffer |
| `BufRingInvariant.EWriteKeepsInv` | include/sys/buf_ring.h:109 | the slot write keeps the invariant, so no published buffer and no other reservation is overwritten |
| `BufRingInvariant.EWaitKeepsInv` | include/sys/buf_ring.h:117-118 | a round of the spin-wait keeps the invariant, so leaving it means owning the ticket of `br_prod_tail` |
| `BufRingInvariant.TurnIsUnique` | include/sys/buf_ring.h:117-121 | two threads are never inside the counter-update block together |
| `BufRingInvariant.ECountersKeepInv` | include/sys/buf_ring.h:119-120 | the separate stores of `br_prod_bufs` and `br_prod_bytes` keep the invariant: each holds the exact count modulo 2^64 |
| `BufRingInvariant.EPublishKeepsInv` | include/sys/buf_ring.h:121 | publishing keeps the invariant: the owner's ticket becomes a stored, published buffer |
| `BufRingInvariant.MCasKeepsInv` | include/sys/buf_ring.h:157-159 | a successful consumer reservation with room keeps the invariant: the ticket taken is a published one |
| `BufRingInvariant.SStoreKeepsInv` | include/sys/buf_ring.h:209 | the lock-holder's plain store of `br_cons_head` keeps the invariant with no hypothesis on the schedule |
| `BufRingInvariant.ReadKeepsInv` | include/sys/buf_ring.h:161-210 | the slot read keeps the invariant, so what is read is the buffer of the reader's ticket |
| `BufRingInvariant.PublisherOwnsTail` | include/sys/buf_ring.h:172-175 | a consumer that publishes owns the oldest consumer ticket |
| `BufRingInvariant.ReleaseKeepsInv` | include/sys/buf_ring.h:175-220 | the store of `br_cons_tail` keeps the invariant: the ticket counts as delivered with its own buffer |
| `BufRingTheorems.OrderedIffRoomy` | include/sys/buf_ring.h:91-104 | over any run: cons_tail <= cons_head <= prod_tail <= prod_head < cons_tail + size in every state iff each successful compare-and-set had room |
| `BufRingTheorems.NoRoomBreaksOrder` | include/sys/buf_ring.h:97-104 | a compare-and-set that succeeds without room breaks that order at once |
| `BufRingTheorems.FreshIsRoomy` | include/sys/buf_ring.h:91-104 | fewer than size head advances in every load-to-CAS window suffices |
| `BufRingTheorems.EveryReachableState` | include/sys/buf_ring.h:91-121 | in every state of a run whose compare-and-sets have room the tickets are in order, each field is its ticket modulo size, and no two in-flight operations own the same slot |
| `BufRingTheorems.SlotsAreDisjoint` | include/sys/buf_ring.h:109-161 | two in-flight operations, of either kind, hold different slots |
| `BufRingTheorems.FirstInFirstOut` | include/sys/buf_ring.h:76-222 | any threads, any interleaving whose compare-and-sets have room: what consumers got is a prefix of what was accepted, less than size apart; the counters are exact outside the update block |
| `BufRingCalls.CodesAreTrue` | include/sys/buf_ring.h:76-222 | on every run, with or without room: the arguments (buffer and bytes) of the enqueue calls that returned 0, in the order they did, are exactly what was published, and what the dequeue calls returned is exactly what was handed out |
| `BufRingCalls.CallsAreFifo` | include/sys/buf_ring.h:76-222 | so first in, first out and the counters, stated on call arguments and returned values alone |
| `BufRingCalls.RefusedLeavesNoTrace` | include/sys/buf_ring.h:91-100 | on every run an enqueue that ends in ENOBUFS has changed no shared field on its way |
| `BufRingDrain.RoomyIffFifo` | include/sys/buf_ring.h:91-104 | exact in the callers' terms, on every run from the initial state: all compare-and-sets have room iff after no prefix of the run can first in, first out or the size bound be violated by a continuation without a lap-late compare-and-set of its own |
| `BufRingDrain.RoomyStaysFifo` | include/sys/buf_ring.h:91-104 | one half: after a run with room every such continuation keeps them |
| `BufRingDrain.NoRoomBreaksFifo` | include/sys/buf_ring.h:91-104 | the other: after a compare-and-set without room some such continuation violates them |
| `BufRingDrain.NoRoomShows` | include/sys/buf_ring.h:97-121 | namely letting the outstanding reservations finish: a full lap of buffers accepted and not handed out (producer), or more handed out than accepted (consumer) |
| `BufRingTheorems.StepRefinesQueue` | include/sys/buf_ring.h:76-222 | each step is a push of the caller's buffer (tail store), a pop (head advance of a consumer) or invisible on the queue of published, untaken buffers |
| `BufRingTheorems.TakeBinds` | include/sys/buf_ring.h:157-161 | whoever advances the consumer head is bound to the front of the queue at that moment |
| `BufRingTheorems.BoundRun` | include/sys/buf_ring.h:161-178 | in such a run a thread bound to a buffer stays so until it returns exactly that buffer, whatever others do |
| `BufRingTheorems.ScNullIffEmpty` | include/sys/buf_ring.h:193-200 | the single-consumer dequeue decides NULL iff nothing is published at its load of `br_prod_tail` |
| `BufRingTheorems.ScDequeueIsAPop` | include/sys/buf_ring.h:186-222 | over any such continuation it returns NULL iff nothing was published at that load, else the buffer oldest then |
| `BufRingTheorems.ScFrontIsStable` | include/sys/buf_ring.h:224-247 | under the consumer's lock, other threads' steps only extend the queue behind its front |
| `BufRingTheorems.PeekedIsDequeued` | include/net/if_var.h:657-661 | the mbuf shown to the predicate is the oldest published one; over every continuation with room in which the predicate accepts it, whatever producers do, if the call returns it returns that mbuf |
| `BufRingTheorems.NoBufsIffFull` | include/sys/buf_ring.h:92-100 | when ENOBUFS is returned, the ring is full at the load of `br_cons_tail` iff `br_prod_head` still has the loaded value |
| `BufRingCalls.EnqueueDecides` | include/sys/buf_ring.h:92-104 | at the load of `br_cons_tail`: with a current head ENOBUFS iff the ring is full and else on to the compare-and-set; with a stale head a full ring is not noticed; nothing is changed |
| `BufRingCalls.McDecides` | include/sys/buf_ring.h:147-159 | the same for the multi-consumer dequeue and emptiness |
| `BufRingCalls.PeekDecides` | include/sys/buf_ring.h:243-246 | the peek returns NULL iff nothing is published at its load of `br_prod_tail` |
| `BufRingCalls.PeekLeavesTheRing` | include/net/if_var.h:657-659 | peeking and the predicate's verdict change neither fields nor queue, and a refused call returns NULL |
| `BufRingCalls.RefusalsAreDecided` | include/sys/buf_ring.h:97-155 | ENOBUFS and NULL are given at those tests and nowhere else |
| `BufRingCalls.FailureIsProgress` | include/sys/buf_ring.h:102-104 | a compare-and-set fails only when another thread has moved the head since the load, and the call starts over with its arguments |
| `BufRingTheorems.McNullIffEmpty` | include/sys/buf_ring.h:147-155 | when the multi-consumer dequeue returns NULL, the queue is empty at that load iff `br_cons_head` still has the loaded value |
| `BufRingDrain.OneProducer` | include/sys/buf_ring.h:112-122 | with unpublished reservations exactly one producer owns the tail ticket |
| `BufRingDrain.ProducerTurn` | include/sys/buf_ring.h:112-122 | it is enabled, and each own step brings it one closer to publishing or publishes |
| `BufRingDrain.OneConsumer` | include/sys/buf_ring.h:167-176 | the same uniqueness for consumers |
| `BufRingDrain.ConsumerTurn` | include/sys/buf_ring.h:167-176 | the same progress for consumers |
| `BufRingDrain.ProducerTurnIsKept` | include/sys/buf_ring.h:112-122 | no step of another thread takes the producer's turn away or sets its owner back |
| `BufRingDrain.ConsumerTurnIsKept` | include/sys/buf_ring.h:167-176 | nor the consumer's |
| `BufRingDrain.ProducerWaitEnds` | include/sys/buf_ring.h:112-122 | over every run with room, by the time the producer whose turn it is has taken its at most seven remaining steps, `br_prod_tail` has moved on |
| `BufRingDrain.ConsumerWaitEnds` | include/sys/buf_ring.h:167-176 | likewise `br_cons_tail`, after at most three |
| `BufRingDrain.Drain` | include/sys/buf_ring.h:112-122 | from every state that keeps the invariant some schedule of the threads already inside publishes all reservations |
| `BufRingTheorems.SoloIsFresh` | include/sys/buf_ring.h:181-185 | with one producer and lock-protected dequeues the window condition holds on every run |
| `BufRingTheorems.SingleProducerSingleConsumer` | include/sys/buf_ring.h:181-222 | there first-in-first-out and the index order hold with no hypothesis on the schedule |
| `BufRingLap.SleepingProducerLosesBuffers` | include/sys/buf_ring.h:91-104 | for every power-of-two size n >= 2 and any n + 1 buffers, a legal run from the initial state that has all of them accepted, one handed out, the next dequeue returning NULL, and the index order broken |
| `BufRingLap.SleepingConsumerDuplicates` | include/sys/buf_ring.h:146-159 | for every power-of-two size n >= 2 and any n buffers, a legal run from the initial state in which consumers get all of them and then the first again |
| `BufRingSerial.CallFinishes` | include/sys/buf_ring.h:76-222 | a thread that is alone inside finishes its call by its own steps, with the answer and effect fixed when it started |
| `BufRingSerial.SerialCall` | include/sys/buf_ring.h:76-222 | from every state with nothing in flight any thread may make any call, and it answers and acts as the bounded queue of capacity size - 1 |
| `BufRingSerial.SerialCond` | include/net/if_var.h:657-661 | drbr_dequeue_cond made alone: NULL and nothing changed iff the queue is empty or the predicate refuses its front, else that front, removed |
| `BufRingSerial.SerialRun` | include/sys/buf_ring.h:76-222 | every sequence of calls by whichever threads is a legal run of the concurrent model that answers as the bounded queue, the specification of the sequential ring |
| `BufRing.Ring.constructor` | include/sys/buf_ring.h:44-70 | an empty ring of power-of-two size with capacity size - 1 |
| `BufRing.Ring.Reserve` | include/sys/buf_ring.h:91-104 | the reservation loop fails exactly on a full ring, else advances the head one slot |
| `BufRing.Ring.Take` | include/sys/buf_ring.h:146-159 | the consumer's loop fails exactly on an empty ring, else advances the head one slot |
| `BufRing.Ring.EnqueueBytes` | include/sys/buf_ring.h:76-124 | serially: ENOBUFS iff size - 1 buffers are held, else append and count, modulo 2^64 |
| `BufRing.Ring.DequeueMc` | include/sys/buf_ring.h:137-179 | serially: NULL iff empty, else the front is removed and returned |
| `BufRing.Ring.DequeueSc` | include/sys/buf_ring.h:186-222 | the same |
| `BufRing.Ring.Peek` | include/sys/buf_ring.h:229-247 | the front without removing it, NULL iff empty |
| `BufRing.Ring.IsFull` | include/sys/buf_ring.h:249-254 | true iff size - 1 buffers are held |
| `BufRing.Ring.IsEmpty` | include/sys/buf_ring.h:256-261 | true iff none is held |
| `BufRing.Ring.Count` | include/sys/buf_ring.h:263-269 | the number held, through the 32-bit wrapping expression |
| `BufRing.Replay` | include/sys/buf_ring.h:76-269 | every sequence of calls on the array ring answers as a bounded FIFO of capacity size - 1 does |
| `BufRing.RunIsFifo` | include/sys/buf_ring.h:76-269 | over every call sequence: initial contents plus accepted = handed out plus remaining, in order, within capacity |
| `BufRing.AnswersTellHistory` | include/sys/buf_ring.h:76-269 | every answer, including peek and count, as determined by which buffers went in and came out before |
| `Drbr.DrbrEnqueue` | include/net/if_var.h:582-602 | accepted packets go in with bytes and multicasts counted; refused ones are freed and counted as drops |
| `Drbr.DrbrFlush` | include/net/if_var.h:604-615 | terminates, empties the ring and frees its packets once each, in order |
| `Drbr.DrbrDequeueCond` | include/net/if_var.h:639-662 | NULL iff the ring is empty or the predicate refuses the oldest packet; else that packet, and it alone is removed |
| `Drbr.FetchObeysPredicate` | include/net/if_var.h:639-662 | at every point of every call sequence a conditional fetch lets out nothing its predicate refuses, and nothing iff empty or refused |
| `Drbr.FetchAndFlush` | include/net/if_var.h:582-637 | likewise a fetch the oldest if any, a flush everything, an enqueue appends iff below capacity |
| `Drbr.PlayAccounted` | include/net/if_var.h:582-662 | over every call sequence: accepted = let out in order plus held; drops = refusals; if_obytes = br_prod_bytes = accepted octets, modulo 2^64 |
| `Drbr.Replay` | include/net/if_var.h:582-662 | every sequence of calls on the ring and the counters in place is such a run, so ends accounted for |
| `IfQueue.PktList.EmptyAgrees` | include/net/if_var.h:278-316 | head NULL iff tail NULL iff length zero iff the chain is empty |
| `IfQueue.PktList.Enqueue` | include/net/if_var.h:278-286 | appends, keeping the acyclic chain, its tail and its length |
| `IfQueue.PktList.Prepend` | include/net/if_var.h:294-300 | puts in front, keeping them |
| `IfQueue.PktList.Dequeue` | include/net/if_var.h:308-316 | removes the front and clears its link, NULL iff empty |
| `IfQueue.PktList.Drain` | include/net/if_var.h:327-335 | terminates and frees every mbuf of the chain exactly once, in order |
| `IfQueue.OutputQueue.Enqueue` | include/net/if_var.h:415-432 | accepted iff the main queue is shorter than its maximum, then appended; else freed and one drop counted, nothing else changed |
| `IfQueue.OutputQueue.MoveOne` | include/net/if_var.h:532-541 | one refill round moves the main front to the stage's end |
| `IfQueue.OutputQueue.FillStage` | include/net/if_var.h:530-542 | the bulk refill terminates and moves exactly min(waiting, limit) packets in order |
| `IfQueue.OutputQueue.TakeAndRefill` | include/net/if_var.h:527-544 | on an empty stage: the main front, and the refill behind it |
| `IfQueue.OutputQueue.DrvDequeue` | include/net/if_var.h:519-545 | both branches, against the value specification |
| `IfQueue.OutputQueue.DrvPrepend` | include/net/if_var.h:547-554 | puts the packet at the stage's front |
| `IfQueue.OutputQueue.DrvPurge` | include/net/if_var.h:559-569 | walks and drains both stages, freeing stage then main, once each |
| `IfQueue.Ifnet.HandOff` | include/net/if_var.h:499-514 | length and multicast counters iff accepted, if_start called iff accepted and the driver is not active |
| `IfQueue.PlayableIsReady` | include/net/if_var.h:278-300 | if the driver gives back only what it holds and each packet is handed in once, a packet given to a queue is in no queue: the linked macros never see one twice |
| `IfQueue.Replay` | include/net/if_var.h:415-569 | every such run on the linked queues ends in the state, with the takes and the frees, of the value specification |
| `IfQueueSpec.DrvDequeueTakesFront` | include/net/if_var.h:519-545 | for every stage limit the driver takes the front of stage ++ main |
| `IfQueueSpec.RunRefinesDeque` | include/net/if_var.h:415-569 | over every run and every stage limit the two stages hold and return what one deque does that refuses the same packets |
| `IfQueueSpec.RunConserves` | include/net/if_var.h:415-569 | over every run in which the driver gives back only what it holds: handed in = stage + main + held by the driver + freed, as multisets; ifq_drops = refusals; if_obytes and if_omcasts exact modulo 2^64 |
| `IfQueueSpec.ExactlyOnePlace` | include/net/if_var.h:415-569 | if no packet is handed in twice, each is in exactly one place, once |
| `IfQueueSpec.MainStaysBounded` | include/net/if_var.h:274-432 | over every run the main queue never exceeds its maximum |
| `IfQueueSpec.RefusedExactlyAtMaximum` | include/net/if_var.h:421-430 | at every point of every run a packet handed in is refused, freed and counted as dropped iff the main queue has its maximum length |
| `IfQueueSpec.StageStaysBounded` | include/net/if_var.h:530-553 | if only the last taken packet is given back, the stage never exceeds its limit by more than one |
| `IfQueueSpec.StageBoundIsMet` | include/net/if_var.h:530-553 | that bound is reached |
| `IfnetLock.RunNested` | include/net/if_var.h:783-807 | in every interleaving the rw lock is owned only on top of the sx lock, level by level, through recursion |
| `IfnetLock.HoldsAreCalls` | include/net/if_var.h:783-807 | from the start on, what each thread holds of each lock is its acquisitions minus its releases in the run |
| `IfnetLock.WriterExcludesAll` | include/net/if_var.h:783-807 | in call counts: while a thread has finished IFNET_WLOCK more often than it has begun IFNET_WUNLOCK, every reader of either kind has released all it acquired, and so has every other writer |
| `IfnetLock.ReaderEntersIff` | include/net/if_var.h:804-805 | a reader can acquire iff no thread has an unreleased exclusive acquisition of that lock; other readers do not matter |
| `IfnetLock.ReaderLeavesIff` | include/net/if_var.h:806-807 | and release iff it has acquired more often than released |
| `IfnetLock.WriterEntersIff` | include/net/if_var.h:783-786 | a writer can take the sx lock iff it has it already, or nobody holds it in any way |
| `IfnetLock.OwnersDoNotWait` | include/net/if_var.h:783-791 | a writer that another waits for never waits for a writer itself |
| `IfnetLock.WritersProgress` | include/net/if_var.h:783-791 | with no reader holding a lock, the owner (or, if free, anyone) can take its next writer step |
| `IfnetLock.OnlyReadersBlockTheSecondLock` | include/net/if_var.h:783-786 | a writer holding the sx lock can take the rw lock iff no non-sleepable reader holds it |
| `SpinLock.BalancedIffIntact` | common/generic/source/atomic.s:5-9 | over every run with any unlocks: the PS4_OK locks minus the PS4_OK unlocks stay equal to the word iff no swap is overtaken between its load and its store |
| `SpinLock.ProperStepGuarded` | common/generic/source/atomic.c:6-35 | a step that is not an overtaken lock swap or an unlock for another keeps mutual exclusion, the meaning of the word and the guarded counter |
| `SpinLock.ImproperStepUnguarded` | common/generic/source/atomic.c:6-35 | any other step breaks them at once |
| `SpinLock.GuardedIffProper` | common/generic/source/atomic.c:6-35 | so over every run the lock guards its data throughout iff no lock swap is overtaken and nobody unlocks while another is inside |
| `SpinLock.AtomicSwapsWouldDo` | common/generic/source/atomic.c:6-35 | if every lock swap ran uninterrupted and only holders unlocked, the lock would be right on every run |
| `SpinLock.OvertakenSwapAdmitsTwo` | common/generic/source/atomic.s:5-9 | from any state in which two threads have both loaded 0, their stores let both in |
| `SpinLock.TwoGetIn` | common/generic/source/atomic.s:5-9 | a run of two well-behaved threads from the initial state ends with both inside and an update of the guarded counter lost |
| `SpinLock.DeadStays` | common/generic/source/atomic.s:5-9 | once the word is 1 with nobody inside and every swapper has seen the 1, no lock call ever succeeds again, over every run in which holders unlock |
| `SpinLock.LockIsLost` | common/generic/source/atomic.s:5-9 | a run of two well-behaved threads from the initial state reaches such a state, with one of them spinning |
| `SpinLock.OutsiderLetsSecondIn` | common/generic/source/atomic.c:23-35 | a run whose swaps are all intact in which one unlock by a thread that is not inside, answered PS4_OK, lets a second thread in |
| `SpinLock.HoldersSucceed` | common/generic/source/atomic.c:23-35 | in a guarded state the unlock of a holder returns PS4_OK |
| `SpinLock.SomebodyMoves` | common/generic/source/atomic.c:13-18 | in a guarded state a spinning thread finds the word free, or the holder has a step of its own |
| `SpinLock.AtomicSwap` | common/generic/source/atomic.s:5-9 | undisturbed, the three instructions exchange the word and the local |
| `SpinLock.SpinUnlock` | common/generic/source/atomic.c:23-35 | undisturbed: NULL, not-held and held results, and the word left at 0 |
| `TryFramesProofs.GotoMeansStructured` | include/ps4/exception.h:11-200 | for every program, handlers, frame and memory the goto machine returns a code and world iff the structured meaning does, and is stuck iff that has no value |
| `TryFramesProofs.StmtSim` | include/ps4/exception.h:110-200 | any statement, compiled anywhere in any frame, takes the machine where its structured outcome says, and out-of-fuel means at least that many steps |
| `TryFramesProofs.GuardedGotoSim` | include/ps4/exception.h:110-200 | the throw, return and leave macros: fall through, or set the code and jump to their label |
| `TryFramesProofs.CloseSim` | include/ps4/exception.h:17-53 | from any exit the frame reaches its return with the code last set and the right handlers run |
| `TryFramesProofs.FrameSim` | include/ps4/exception.h:55-89 | a whole frame, under any callers |
| `TryFramesProofs.ReturnSim` | include/ps4/exception.h:47-53 | the returned code reaches the calling statement with the caller's own code and locals intact |
| `TryFramesProofs.StoppedSim` | include/ps4/exception.h:11-89 | if the machine has stopped by step n, the structured run with fuel n has the same answer |
| `TryFramesProofs.HandlersRunOnce` | include/ps4/exception.h:17-45 | on the machine: throw runs catch then finally once each, return finally only, leave neither; each handler gets the arguments of that moment and the variables the one before left, and the final variables and log are exactly theirs |
| `TryFramesProofs.ExitsTaken` | include/ps4/exception.h:110-200 | a frame that begins with a throw, return or leave macro whose condition holds stops with its number after exactly those handlers |
| `TryFramesProofs.ExitsNotTaken` | include/ps4/exception.h:110-200 | and goes on unchanged when it does not hold |
| `TryFramesProofs.ConditionalIsIf` | include/ps4/exception.h:110-200 | the conditional macros are the unconditional ones under an `if` |
| `TryFramesProofs.LogGrows` | include/ps4/exception.h:17-45 | running any statement only adds handler calls to the log |
| `TryFramesProofs.LoopEndsFalse` | include/ps4/exception.h:110-200 | a loop in a body that ends without one of the macros ends with its condition false |
| `TryFramesProofs.RethrowPropagates` | include/ps4/exception.h:133-144 | call-and-rethrow, on the machine: a nonzero callee code is returned as is, and the log grows by the callee's handler calls for its exit and then the caller's for a throw |
| `TryFramesProofs.RethrowGoesOn` | include/ps4/exception.h:133-144 | with a zero callee code the frame ends, on the machine too, exactly as the rest of its body does from there, and the rethrow calls no handler |
| `PageTable.LevelsShift` | include/machine/pmap.h:103-176 | the entry address of any address has indices (256, l4, l3, l2) and offset 8 * l1 |
| `PageTable.PteOfPage` | include/machine/pmap.h:103-108 | for all kernel indices, the entry of KVADDR(l4,l3,l2,l1) is at KVADDR(256,l4,l3,l2) + 8 * l1 |
| `PageTable.UserIndices` | include/machine/pmap.h:110-114 | UVADDR of any user indices has those indices, offset 0, and lies below the user maximum |
| `PageTable.KernelIndices` | include/machine/pmap.h:103-108 | KVADDR of any upper-half indices has those indices and is sign-extended |
| `PageTable.MapsIterate` | include/machine/pmap.h:173-177 | from PTmap: PDmap, PDPmap, PML4map, and the fixed point PML4pml4e |
| `PageTable.PteAddrTranslates` | include/machine/pmap.h:187-193 | on any memory whose root maps itself at slot 256, walking the entry address of `va` arrives at the physical page-table entry of `va` |
| `PageTable.PteAddrRecurses` | include/machine/pmap.h:187-193 | repeating it arrives at the directory entry, the pointer-table entry and the root entry of `va` |
| `PageTable.WalkNeedsPresent` | include/machine/pmap.h:53-60 | a walk arrives only through a present root entry that is not a large page |
| `PageTable.FrameIsThePage` | include/machine/pmap.h:73 | an entry's frame is the page of its 52-bit physical address |
| `PageTable.DirectMapBounds` | include/machine/vmparam.h:168-169 | the bounds as macros and as literal addresses |
| `PageTable.RegionLiterals` | include/machine/vmparam.h:152-158 | the user maximum, the recursive slot, its root and the kernel map at their documented addresses |
| `PageTable.DirectMapRoundTrip` | include/machine/vmparam.h:184-185 | a physical address lands in the direct map and comes back iff it is below 1 TB |
| `PageTable.DirectMapInverse` | include/machine/vmparam.h:184-185 | every direct-map address is the image of its physical address |
| `PageTable.RegionsByTopIndex` | include/machine/vmparam.h:152-176 | the direct map, the recursive slot and the kernel map are exactly the upper-half addresses with top index 508 to 509, 256 and 511; user addresses are below them with index under 256 |
| `Fenv.Unit.FeClearExcept` | include/fenv.h:92-108 | both branches, the x87 control word restored |
| `Fenv.SetRoundRejects` | include/fenv.h:157-158 | rejection iff the mode is invalid, and then nothing changes |
| `Fenv.FourModes` | include/fenv.h:157-158 | exactly the four rounding modes are accepted |
| `Fenv.SetRoundInstallsX87` | include/fenv.h:160-163 | a valid mode is the x87 mode afterwards, with the other control bits and the status word unchanged |
| `Fenv.SetRoundInstallsSse` | include/fenv.h:165-168 | and the SSE mode, with the SSE flags unchanged |
| `Fenv.SetRoundKeepsFlags` | include/fenv.h:125-171 | fetestexcept sees the same flags before and after, for any mode |
| `Fenv.TestSeesEitherUnit` | include/fenv.h:125-134 | a flag is reported iff asked for and raised in either unit |
| `Fenv.SetRoundKeepsSse` | include/fenv.h:164-168 | no other bit of the SSE register changes |
| `Fenv.ClearRemovesExactly` | include/fenv.h:92-134 | for a valid mask exactly the requested flags go from both units, fetestexcept sees that, and control word and SSE rounding stay |
| `Fenv.ClearExceptKeepsSse` | include/fenv.h:104-106 | for any mask the bits of the SSE register outside it stay |
| `Fenv.ClearExceptKeepsStatus` | include/fenv.h:99-103 | for any other mask than the full one the bits of the x87 status word outside it stay |
| `Fenv.FnclexKeepsStatus` | include/fenv.h:97-98 | for the full mask the stack pointer and the condition codes stay |
| `Fenv.ClearKeepsAgreementIff` | include/fenv.h:92-108 | for any mask, units that agree on rounding still agree iff it names no set SSE rounding bit |
| `Fenv.RoundModesAgree` | include/fenv.h:136-171 | over every run from agreeing units with valid masks, with flags raised at any time, x87-only fegetround is the SSE mode and the mode last set (sections 7.6.3.1 and 7.6.3.2 of ISO/IEC 9899:1999) |

## Left out

- Weak memory: sequential consistency is assumed, fences are no-ops.
- DEBUG_BUFRING checks, prefetching, padding, critical sections and cpu_spinwait: they do not change the protocol.
- buf_ring_alloc and buf_ring_free are only declared; a power-of-two size with mask = size - 1, alike for both sides, is assumed. Enqueued pointers are not NULL.
- Drbr.DrbrEnqueue: `br_drops++` stands outside the turn-taking block, so the drop count is stated for calls that do not overlap.
- BufRing.Ring.EnqueueBytes: calls that do not overlap; the spin-wait is then over at once, which is asserted. The overlapping case is the transition system.
- drbr_empty, drbr_needs_enqueue, drbr_inuse, drbr_dequeue and drbr_free only forward to functions modelled or named here.
- ALTQ and token-bucket paths: they call function pointers whose bodies are not part of the repository.
- IfQueue.OutputQueue.Enqueue: the mutex around the queue is not modelled; each operation is one step. Queue lengths, drop counts and the sum `len + adj` are unbounded integers, not 32-bit ones.
- IfQueue.Ifnet.HandOff: if_start is a declared function; the model says when it is called, not what it does.
- IfQueue.PktList stands for the head/tail/length triples of both stages, which the macros spell out twice.
- The internals of mtx, sx and rw locks and of m_freem: used through their contracts; `freed` lists the m_freem calls.
- IfnetLock.WritersProgress: stated for states without readers; that readers release their locks is up to the callers.
- SpinLock.GuardedIffProper: the guarded data is a counter with separate load and store; the four word widths share one model because only 0 and 1 are stored.
- ps4AtomicSpinLock as a method: alone on a held word it does not end, so it is modelled by the transition system only; its NULL-argument return is not modelled.
- TryFramesProofs.GotoMeansStructured: expressions are side-effect free, so that ps4ExceptionRethrow evaluates its argument twice cannot be seen; handlers terminate; plain `return` inside a body is not modelled. The log of handler calls is the model's own, so statements cannot write it.
- PageTable.PteAddrTranslates: vtopte is only declared; the address formula is the one its comment and the map addresses determine. Large pages on the path of `va` are excluded by the hypothesis.
- Fenv.ClearRemovesExactly: hardware recomputation of the x87 summary bit and the SSE register's reserved-bit trap are not modelled. fesetenv, fegetexceptflag and fegetexcept are not modelled.
- stdio fast paths, ctype lookups, constants, struct layouts, prototypes, stubs, and the kernel and payload sources elsewhere in the repository.
