# ltask in Dafny

A model of the three stateful cores of ltask and proofs about them: the
hierarchical timing wheel (`src/timer.c`), the serializer for Lua values
(`src/lua-seri.c`), and the n:m scheduler with the structures it stands on
(`src/ltask.c`, `src/worker.h`, `src/cond.h`, `src/service.c`, `src/queue.c`).
`dafny verify dfyconfig.toml` checks everything.

## The timer

`TimerSpec` is what a timer means: a bag of requests on an unbounded clock,
fired when `expire == now`, in order of addition. `TimerWheel.Timer` is the
wheel: 256 near slots, four levels of 64, a wrapping 32-bit clock, cascades,
and the loop that drops the lock around the callbacks. Its invariant says that
every list in the wheel is, in order, exactly the pending timers of the bag
that `add_node` would put there now; the bag is the run of a list of events
that each method extends. `TimerPlacement` holds the arithmetic: where a timer
sits, and that one increment of the clock moves the timers of one slot only.
Other threads' `timer_add` calls while the lock is dropped are an input of the
methods, one batch per unlocked window.

## The serializer

`SeriPack` says what is written for a list of Lua values over a heap of tables
with sharing and cycles: a sequence of tokens (scalars, table heads numbered in
preorder, references to an open table by depth, references to any earlier
table by number) and the bytes they become once it is known which tables are
referred to by number. `SeriUnpack` reads bytes back with an explicit Lua
stack, `SeriTokens` is the same reader with the decoding left out; `SeriFormat`
fixes the bytes of each scalar, `SeriSafe` is about streams of any origin.
`SeriReach` says which tables are written. The reader remembers open tables by
stack slots that a hash key can disturb: `SeriStraight` says, on the writer's
side, which references by depth are safe; `SeriFrame` and `SeriSync` that an
unsafe one leaves the reader in step or some table wrong for good;
`SeriContext`, `SeriContent` and `SeriExact` that a value is read right just
when its references are safe; and `SeriTheorem` concludes that the graph comes
back isomorphic just when all references are. `SeriCases` applies this.
`SeriBlocks`, `SeriWriter` and `SeriPacker` are the code as it runs: 128-byte
blocks, tags patched in place (`SeriPatch` says why one byte is enough), the
record of seen tables that changes its representation after 32 tables.
`SeriReader` is the reader with its cursor and stack updated in place.

## The scheduler

`SchedModel` gives every worker a program counter and lets the owner of the
scheduler go through its phases; `Step(s, i, e)` is the next atomic step of
worker `i`, where `e` decides what the step leaves open: whether a
compare-and-swap fails spuriously, what a plain field or a mailbox held, what
the running service does. A failed assertion leads to the state `Broken`, the
one at `src/ltask.c:506` to `Aborted`. `SchedOwner` and `SchedDispatch` prove
that each id is in one place, `SchedBudget` and `SchedUnbound` the counting of
steps 3 to 6, `SchedBound`, `SchedWake` and `SchedStrand` the other invariants,
`SchedStray` and `SchedDrain` what becomes of a service whose death root was
not told; `SchedTheorem` and `SchedLost` state them over all runs. `SchedQuit`
is the end of all workers once root has quit, `SchedOrder` the order of the
queues, `SchedHome` the binding of services to workers, `SchedBlocked` the flag
that keeps workers up. `SchedRound` and `SchedChoice` say what one round
achieves and whom it serves; `SchedRuns` and `SchedAbort` are concrete runs.
`Mail`, `MailTheorem` and `MailOrder` follow messages and receipts; `SchedMail`
runs both models together and proves that they agree in every state. `Ring` is
the single-producer single-consumer queue step by step, `SchedSlots` the
binding queue and the service pool.

## Findings

- A compare-and-swap that fails spuriously in every worker's first round lets
  all workers sleep before anybody has owned the scheduler; what bootstrap
  scheduled then never runs (`SchedTheorem.StartCanStrand`). After the first
  acquisition nothing is ever stranded, and that is the exact condition
  (`SchedTheorem.StrandedIffNeverAcquired`).
- The assertion `free_slot >= job_n` always holds while no service is bound;
  with bound services, and workers that keep still, it holds if and only if at
  least as many workers have neither a job nor a binding queue as jobs were
  stolen (`SchedTheorem.AbortsIffTooFewSlots`). It can fail: three workers and
  seven services reach the failure from the start, with no spurious
  compare-and-swap failure and `busy` read exactly (`SchedAbort.AbortsAtLast`).
- Step 5 counts a bound service against the free slots although it takes none,
  and twice when it takes one, so a round can leave a service in the queue and a
  worker free (`SchedRound.BoundServiceCostsTwo`); without bound services, or
  with the queue emptied, it does not (`SchedRound.SlotsAccounted`).
- When root's mailbox is full, a death signal is taken out of its slot and then
  dropped; the service comes round again without it and the assertion at
  `src/ltask.c:238` fails. A run can end there if and only if some report of a
  death has found root's mailbox full (`SchedLost.BreaksIffDropped`,
  `SchedLost.ReportBreaksIffBlocked`; `SchedLost.SomeRunBreaks` is such a run).
- The reader leaves a table's depth before it reads the hash keys, the writer
  does not. What was packed comes back if and only if every reference by depth
  is safe: inside a hash key no reference to the table of the key or to a table
  opened for the key, and no reference to the table after a key that is
  itself a new table (`SeriTheorem.UnpackAfterPack`). Graphs without cycles and
  graphs without tables as keys always come back. `t = {[t] = true}` packs and
  never unpacks (`SeriCases.SelfKeyedTableIsRejected`); `t = {[{}] = t}` comes
  back without an error as `t = {[u] = u}` (`SeriCases.KeyTakesThePlace`).
- `service_new` never gives out the slot whose turn falls on id 0
  (`SchedSlots.FailsIffFull`).

## Model

| member | source | states |
|---|---|---|
| TimerSpec.FiresExactlyOnTime | src/timer.c:195-217 | over every run of adds, fires and ticks, the k-th timer accepted fires exactly once, at its acceptance clock plus its delay, never early, late or twice, with its own payload |
| TimerSpec.FiringOrderIsStable | src/timer.c:132-137 | over every run, firings come in order of expiry and, for equal expiry, in order of addition |
| TimerSpec.RunKeepsInv | src/timer.c:330-376 | every run keeps: each accepted timer is either pending or fired, never both, and pending timers lie within 2^31 ticks of the clock |
| TimerSpec.FireDrains | src/timer.c:330-353 | after a drain nothing is due at the current clock |
| TimerPlacement.OrTestIsBlockTest | src/timer.c:148-160 | comparing (a \| mask-1) with (b \| mask-1) is comparing a and b above the mask, for the four masks of the source |
| TimerPlacement.PlaceAfterTick | src/timer.c:243-292 | one increment of the wrapping clock moves a pending timer only if it sits in the one cascaded slot; it then sits where add_node would put it |
| TimerPlacement.DueSlot | src/timer.c:330-335 | a pending timer is due now if and only if it sits in the current near slot |
| TimerWheel.NodesAfterTick | src/timer.c:243-292 | every list after a tick is the old list, or the old list with the cascaded timers that belong there appended, in order of addition |
| TimerWheel.Timer.AddNode | src/timer.c:143-186 | the node is appended to exactly one list, the one its expiry and the clock determine |
| TimerWheel.Timer.Add | src/timer.c:196-217 | the wheel goes on standing for the bag with the request added, across the 32-bit wrap |
| TimerWheel.Timer.MoveList | src/timer.c:224-236 | the moved list is emptied and each other list gets its members appended in their old order |
| TimerWheel.Timer.Cascade | src/timer.c:248-292 | exactly the slot due for cascading is redistributed, and the search for it ends by level 3 |
| TimerWheel.Timer.Shift | src/timer.c:243-292 | the wheel stands for the same bag one tick later |
| TimerWheel.Timer.TakeDue | src/timer.c:330-345 | the detached list holds exactly the timers due now, in order of addition |
| TimerWheel.Timer.Execute | src/timer.c:330-353 | whatever is added while the lock is dropped, the loop ends with nothing due, the clock unchanged and all callbacks made in the bag's order |
| TimerWheel.Timer.UpdateTick | src/timer.c:359-376 | one tick: drain, move the clock by one, drain again, with everything added in between |
| TimerWheel.Timer.Update | src/timer.c:471-498 | the clock advances by the difference of the time points, 0 when the system clock went back; the callbacks made are the bag's firings in order, and when it returns every timer that is due and was not added in the very last unlocked window has fired |
| TimerSpec.DrainedHasFired | src/timer.c:330-376 | over every run, once a drain is done each timer accepted before it and due by its clock has fired exactly once |
| SeriFormat.IntRoundTrip | src/lua-seri.c:196-227 | every 64-bit integer is read back from whichever of the five widths it was written in |
| SeriFormat.StringRoundTrip | src/lua-seri.c:244-267 | every string below 2^31 bytes is read back, with any bytes behind it |
| SeriFormat.ScalarRoundTrip | src/lua-seri.c:680-751 | every scalar is read back and exactly its bytes are consumed |
| SeriFormat.ReadsExactly | src/lua-seri.c:680-751 | for any bytes, a scalar is read from them if and only if they denote it |
| SeriFormat.Narrowest | src/lua-seri.c:196-267 | no bytes that are read as a scalar are shorter than those written for it: an integer, a string and every other scalar is written in the narrowest form that holds it |
| SeriTokens.HeadNarrowest | src/lua-seri.c:271-290 | so is the head of a table with the size of its array part |
| SeriSafe.MessageIsSound | src/lua-seri.c:626-677 | whatever the bytes are, a table that unpacking hands out, stores or uses as a key is one it has created |
| SeriSafe.NumberedReference | src/lua-seri.c:665-672 | whatever the bytes are, a reference by number is read if and only if they spell, in any width, the number of a table met with the marked tag, and that table is what is read |
| SeriPack.HashInOrder | src/lua-seri.c:293-310 | the hash part holds the pairs outside the array part, each once and in the order of lua_next |
| SeriTokens.AllAgree | src/lua-seri.c:784-808 | reading the bytes of a list of tokens fails, or leaves stack, tables and ancestor slots, exactly as reading the tokens does |
| SeriFrame.FrameOne | src/lua-seri.c:626-662 | whatever the stream holds, reading a value puts one value on the stack and changes no table that existed before |
| SeriSync.SyncObject | src/lua-seri.c:665-677 | a reference by number finds the table that was written under this number |
| SeriSync.SyncValue | src/lua-seri.c:626-677 | whatever a reference by depth resolves to, and even when a key is read as nil, a value read has used up the writer's stretch of the stream and created the writer's number of tables, or a table that nothing will change again is wrong |
| SeriContext.SafeMeant | src/lua-seri.c:665-677 | a safe reference by depth is below the reader's depth and resolves to the writer's open table |
| SeriContext.UnsafeMeant | src/lua-seri.c:665-677 | an unsafe one never resolves to the table meant, nor to another table that is lost and was opened before it |
| SeriContext.OpenContext | src/lua-seri.c:639-641 | which places are safe inside a table met for the first time |
| SeriContext.ValueContext | src/lua-seri.c:646-658 | which are safe in a value: a key that opens a table takes the place of the table it is a key of, all others stand |
| SeriContent.RightIsImage | src/lua-seri.c:271-310 | array part and hash part together rebuild the table, whatever border lua_rawlen reported, when every key, element and value is read right |
| SeriContent.ImageIsRight | src/lua-seri.c:642-661 | and only then: two misread keys cannot make up for each other |
| SeriExact.ExactTable | src/lua-seri.c:626-662 | a table record, with all records inside it, is read right if and only if every reference by depth in it is safe |
| SeriExact.ExactValue | src/lua-seri.c:626-677 | the same for every value, at any depth and inside any nesting of keys |
| SeriReach.TablesAreReachable | src/lua-seri.c:336-381 | the tables written are exactly those reachable from the values, each once |
| SeriReach.RefusesExactlyOthers | src/lua-seri.c:457-512 | packing fails if and only if a value it cannot write is among the values or in a reachable table |
| SeriReach.StreamInOrder | src/lua-seri.c:336-366 | heads are numbered 1, 2, 3 in stream order with the border of their table, and every reference by number is to an earlier head |
| SeriTheorem.RoundTrip | src/lua-seri.c:784-808 | unpacking the packed bytes yields every value and table renamed by preorder number if and only if every reference by depth in the stream is safe |
| SeriTheorem.UnpackAfterPack | src/lua-seri.c:784-808 | the graph unpacked is isomorphic to the graph packed, table by table in the order written, with keys, values and arguments corresponding, if and only if every reference by depth is safe; at any depth, for any keys |
| SeriTheorem.MessageRoundTrip | src/lua-seri.c:843-861 | the same for the message with its 4-byte length |
| SeriTheorem.ShortStreamFits | src/lua-seri.c:403-454 | in the stream of any values, if a C int can measure it, every number fits its field, and a table's tag is the marked one if and only if the stream refers to it by number |
| SeriCases.AcyclicComesBack | src/lua-seri.c:784-808 | a graph without cycles comes back whatever its hash keys are |
| SeriCases.ScalarKeysComeBack | src/lua-seri.c:784-808 | a graph without tables as hash keys comes back, cycles and all |
| SeriCases.LeafKeyComesBack | src/lua-seri.c:645-661 | `t = {[{}] = true}` has a table for a key and comes back |
| SeriCases.KeyTakesThePlace | src/lua-seri.c:639-661 | `t = {[{}] = t}` packs, and unpacks without an error to a table that holds its key for a value |
| SeriCases.SelfKeyedTableIsRejected | src/lua-seri.c:642-661 | any table with an empty array part that is its own first hash key packs to a stream that unpacking rejects |
| SeriCases.SelfKeyedTablePacks | src/lua-seri.c:293-310 | such a table exists and packs |
| SeriBlocks.BlockChain.Push | src/lua-seri.c:101-120 | whatever the sizes, pushing appends the bytes to the flat contents; all blocks but the last stay full |
| SeriBlocks.BlockChain.NextAddress | src/lua-seri.c:123-129 | the address is where the next byte pushed will be |
| SeriBlocks.BlockChain.ChangeMark | src/lua-seri.c:403-406 | exactly the addressed byte changes, from a table tag to the marked tag with the same cookie |
| SeriBlocks.BlockChain.Flatten | src/lua-seri.c:764-781 | the message is the length in 4 bytes and then the flat contents |
| SeriPatch.PatchRender | src/lua-seri.c:403-440 | changing the one tag byte of a table turns the stream without the reference into the stream with it, and that byte holds the tag change_mark asserts |
| SeriWriter.References.Record | src/lua-seri.c:336-366 | the new table gets the next preorder number and its tag's address, before and after the switch to Lua tables at 32 |
| SeriWriter.References.Lookup | src/lua-seri.c:409-440 | a seen table is found under its preorder number in either representation; the first reference marks its tag, later ones change nothing |
| SeriWriter.WriteInteger | src/lua-seri.c:196-227 | the bytes appended are the encoding of the integer, which is the narrowest of the five (`SeriFormat.Narrowest`) |
| SeriPacker.TagsFound | src/lua-seri.c:403-406 | every address on record points to a tag that is still unmarked, so the assertion of change_mark holds |
| SeriPacker.Packer.RefAncestor | src/lua-seri.c:384-400 | writes a reference by depth exactly at depth 1 to 30 and for an open table |
| SeriPacker.Packer.PackOne | src/lua-seri.c:457-512 | the blocks hold exactly the stream specified for the value, ids and open tables as specified; it terminates on cyclic graphs |
| SeriPacker.Packer.PackTable | src/lua-seri.c:369-381 | the same for a table and all its children |
| SeriPacker.Packer.PackHash | src/lua-seri.c:293-310 | the pairs outside the array part in lua_next order, then a nil |
| SeriPacker.PackMessage | src/lua-seri.c:843-861 | the message is the length and the specified stream, and fails exactly when the specification refuses |
| SeriUnpack.MessageBody | src/lua-seri.c:784-790 | reading a message is reading the stream behind its length |
| SeriReader.Reader.ReadOne | src/lua-seri.c:753-761 | the in-place reader fails, advances and leaves the stack, tables and ancestor slots as specified |
| SeriReader.Reader.ReadTable | src/lua-seri.c:626-662 | the same for a table with its two loops |
| SeriReader.Reader.ReadRef | src/lua-seri.c:665-677 | the same for both kinds of references |
| SeriReader.Reader.ReadAll | src/lua-seri.c:784-808 | the same for the whole message |
| Ring.MaskWraps | src/queue.c:61-63 | masking a position up to the size by size - 1 wraps exactly at the size |
| Ring.BoundedFifo | src/queue.c:66-116 | over every interleaving of one producer and one consumer step by step, the values popped are a prefix of those pushed, and at most size - 1 wait |
| Ring.EveryStepIsRight | src/queue.c:66-116 | no assertion fails; a store of tail appends one value, a store of head removes the oldest, full and empty are true when they are decided, all other steps leave the contents alone |
| Ring.RunKeepsInv | src/queue.c:66-116 | no unread cell is ever overwritten and the value read is the oldest, over all runs |
| Ring.LengthCounts | src/queue.c:141-147 | head and tail loaded at two moments of a run: for the producer the length is the number of values waiting when head was loaded, for the consumer when tail was, whatever the other side did in between |
| Ring.IntQueue.Push | src/queue.c:96-105 | appends, or reports full exactly when size - 1 values wait |
| Ring.IntQueue.Pop | src/queue.c:108-116 | removes the oldest value, or returns 0 exactly when none waits |
| SchedOwner.WorkerKeeps | src/ltask.c:676-757 | every step of a worker keeps each service in the one place its status names, and SCHEDULE is what a taken job is found in |
| SchedOwner.CheckOwned | src/ltask.c:689-695 | the assertion before a service runs holds |
| SchedBudget.SchedulerBudget | src/ltask.c:473-516 | every step of the scheduler keeps each service in the one place its status names and the books of its slots, but the failure at line 506 and the report of a service that lost its signal |
| SchedDispatch.Room | src/ltask.c:137-142 | schedule_back always finds room |
| SchedDispatch.SettleKeeps | src/ltask.c:258-287 | the assertion that a finished service is DONE holds, and it ends idle or queued exactly once |
| SchedBudget.PrepareBudget | src/ltask.c:327-354 | step 5 never prepares more services than workers that can still take one, also with bound services and workers emptying slots |
| SchedBudget.AssignBudget | src/ltask.c:384-418 | step 6 never trips its assertion: in its last sweep an empty slot is still ahead for every service left |
| SchedUnbound.CountUnbound | src/ltask.c:298-324 | without bound services step 4 counts at least the slots step 3 emptied |
| SchedBound.SchedulerBound | src/ltask.c:327-436 | no step of the scheduler hands a bound service to another worker, be it through the queues, an assignment or a theft |
| SchedWake.WorkerAwake | src/worker.h:99-132 | the sleeping handshake is kept by every step of a worker |
| SchedWake.SchedulerAwake | src/worker.h:118-125 | and by every step of the scheduler, whose stores of a job are followed by a wake-up |
| SchedStrand.SchedulerStrand | src/ltask.c:298-418 | when a round ends with work left in a queue, some worker has a job ready, in hand or done |
| SchedLost.NeverBroken | src/ltask.c:137-754 | in a run that never finds root's mailbox full with a death to report, no assertion ever fails but the one at line 506 |
| SchedLost.StrayIffDropped | src/ltask.c:249-252 | in a reached state some service is marked as having lost its signal if and only if a report found root's mailbox full |
| SchedLost.BreaksIffDropped | src/ltask.c:235-252 | from a reached state, with root running and nothing stolen in hand, some continuation without another full mailbox fails the assertion at line 238 if and only if a report has found root's mailbox full |
| SchedLost.ReportBreaksIffBlocked | src/ltask.c:240-252 | in any run without such a report so far, the next report leads to the failure if and only if it finds root's mailbox full |
| SchedLost.SomeRunBreaks | src/ltask.c:235-252 | a run from the start, of two services and one worker, ends in the failed assertion |
| SchedTheorem.OnePlace | src/ltask.c:217-436 | in every reachable state a service is in at most one queue, slot, worker's hands or local array, and of the kind its status says |
| SchedTheorem.OneOwner | src/ltask.c:557-579 | no two workers ever hold or run the same service |
| SchedTheorem.BoundServicesStayPut | src/ltask.c:327-354 | what a worker is about to run is unbound or bound to it, and its binding queue holds at most 16 services, all bound to it |
| SchedTheorem.NextRunIsAtHome | src/worker.h:193-209 | over every continuation of every run, the first worker to run a waiting bound service is the one it is bound to |
| SchedTheorem.BindingStays | src/worker.h:193-209 | a service that waits keeps its binding until it runs |
| SchedHome.BindingIsAsTold | src/ltask.c:1378-1391 | a step changes the binding of a service only if the service binds itself or root sets it up, and then to the worker named |
| SchedHome.RunsWhereTold | src/worker.h:193-209 | a service that binds itself to a worker, or is set up there, is the next time run by that worker, over every continuation in which it is not bound again or deleted |
| SchedHome.WorkerNotesBinding | src/ltask.c:713-735 | over every run, from the end of a job until it is published the worker has the service down as its own if it is bound to it, and no longer if it has died |
| SchedOrder.FirstComeFirstServed | src/ltask.c:326-354 | over every continuation, as long as a service waits in the schedule queue, or in a binding queue, who is behind it stays behind it and nobody gets in front of it; the first also holds on the way through the scheduler's hands to a worker; only a service whose own worker's queue is full goes to the back |
| SchedTheorem.NoLostWakeup | src/worker.h:99-132 | a worker blocked with a job in its slot is just about to be woken, the wake-up lets it go, and it never sleeps on an uncollected done slot |
| SchedQuit.RootsExitIsHeard | src/ltask.c:695-711 | over every run from a start with a root service, root is dead if and only if some worker is on its round setting term_signal and waking the others, or every worker has been told and can no longer block |
| SchedQuit.QuitWakesAll | src/ltask.c:582-595 | from root's exit on, while nobody holds a worker's lock, its worker needs 2n + 3 steps of its own until all n workers are told and awake, and it has left |
| SchedQuit.QuitterMoves | src/ltask.c:582-595 | each of its steps brings it nearer to that, but waiting for the lock of the worker it is about to wake, whatever the others do |
| SchedQuit.NobodyLeavesBefore | src/ltask.c:676-711 | no worker is told to leave, or has left, while root lives |
| SchedQuit.ToldWorkerLeaves | src/worker.h:99-125 | a worker told and woken while asleep or on its way to sleep is gone after at most three steps of its own |
| SchedTheorem.StaysAwake | src/ltask.c:701-711 | a worker told to leave and woken never blocks again, over every continuation |
| SchedTheorem.NoStrandedWork | src/ltask.c:725-757 | when the scheduler is free and every worker is blocked, and it was ever acquired, no queue, slot or hand holds a job |
| SchedTheorem.StrandedIffNeverAcquired | src/atomic.h:35-38 | in such a state nothing waits in the schedule queue if and only if the scheduler was acquired once or nothing waited at the start |
| SchedTheorem.StartCanStrand | src/ltask.c:725-757 | from every start there is a run after which all workers sleep, nobody ever owned the scheduler, and the queue is as bootstrap left it |
| SchedTheorem.UnboundNeverAborts | src/ltask.c:504-506 | as long as no service is bound the assertion free_slot >= job_n holds in every round of every run |
| SchedTheorem.AbortsIffTooFewSlots | src/ltask.c:298-324 | when the workers keep still, the assertion fails if and only if fewer workers have neither job nor queue than jobs were stolen |
| SchedTheorem.AssignEnds | src/ltask.c:384-418 | each step of step 6 uses up part of three sweeps, whatever the workers do in between |
| SchedRound.RoundEnds | src/ltask.c:473-516 | each step of the owner, but waiting for a lock, brings the round nearer to its end, whatever the workers do in between |
| SchedOrder.OwnQueueFirst | src/worker.h:153-171 | over every run, a worker in whose binding queue a service waits is given no other: its next job is the head of that queue |
| SchedBlocked.BlockedIff | src/ltask.c:292-381 | a step leaves blocked_service set if and only if it gives a worker a service bound to it in step 4 or 5, or it was set and step 7 does not find all of these begun |
| SchedBlocked.NobodySleepsOnIt | src/ltask.c:740-757 | over every run, blocked_service is not set when every worker is asleep |
| SchedChoice.CollectsAll | src/ltask.c:217-230 | step 1 empties every done slot and collects the services in the order of the workers |
| SchedChoice.RobsTheBusy | src/ltask.c:421-436 | with the workers keeping still, step 3 takes the waiting job of each busy worker unless it is bound there, and robs nobody else |
| SchedChoice.BestWorkersFirst | src/ltask.c:384-418 | with the workers keeping still, step 6 gives all it has in hand away, and serves a worker only when all better ones have a job: idle before busy, nothing bound before something bound, lower number first |
| SchedChoice.OwnerFindsAJob | src/ltask.c:545-579 | after a round the owner has a job if and only if it was given one, or it has nothing bound and a job can be stolen, which it takes from the first such worker; it is told to sleep just when it has none |
| SchedRound.SlotsAccounted | src/ltask.c:298-354 | with the workers keeping still from step 4 to 6, and services left in the schedule queue, the workers that end without a job are as many as the slots counted off for bound services; so each has one if and only if there were none |
| SchedRound.BoundServiceCostsTwo | src/ltask.c:339-350 | with two free workers, a bound service and an unbound one waiting, step 5 takes only the first, and the other worker stays free |
| SchedAbort.AbortsAtLast | src/ltask.c:298-324 | a run from the start, without spurious failures and with exact reads of busy, ends in the failed assertion at line 506 |
| SchedMail.ViewsAgree | src/ltask.c:186-289 | in every state of a joint run of scheduler and mailboxes both models give every service the same status, a death to report is in its outgoing slot, and the sender in hand is the same |
| SchedMail.NextMove | src/ltask.c:186-289 | in every state where the two models agree, each worker has a next step that both can take together, but for root deleting a service that still lives |
| SchedMail.NothingUnread | src/ltask.c:725-757 | when every worker sleeps and the scheduler was ever acquired, no living service has a message, a receipt or a post waiting, and no death waits to be reported |
| MailTheorem.MessagesAreConserved | src/ltask.c:194-289 | every message posted is in exactly one of: a mailbox, an out slot, a bounce slot, the scheduler's hands, the Lua side, or freed; only death signals can be lost |
| MailOrder.MailboxIsFifo | src/service.c:571-582 | over every run, what a service has taken out of its mailbox, followed by what is in it, is the sequence of messages delivered to it, until it is freed |
| MailOrder.TakenIsLogged | src/service.c:542-582 | what Lua was given is exactly what was popped, bounced back or read with a receipt |
| MailTheorem.NeverIdleWithMail | src/service.c:585-593 | no service is idle with a message or a receipt pending, but between a delivery and its check_message_to |
| MailTheorem.ResumedWithReceipt | src/service.c:542-569 | a service that posted finds its out slot empty and a receipt when it is resumed |
| MailTheorem.ReceiptsAreRead | src/service.c:542-555 | when each receipt is read before the next post, no receipt is ever replaced unread |
| MailTheorem.LostIffUnheard | src/ltask.c:240-258 | over every run, a message is lost exactly as often as a report of it found root's mailbox full or no living root |
| MailTheorem.ReceiptTellsOutcome | src/ltask.c:145-214 | for every receipt a service has, at any moment of any run, an earlier delivery gave it: DONE one that appended the message to a mailbox with room, BLOCK and ERROR one that gave it back for a full mailbox or a missing recipient; for a message to the scheduler RESPONSE one that made a service for root, DONE one that deleted one, ERROR one that gave the wish back and did neither |
| MailTheorem.BouncedIsNowhereElse | src/ltask.c:194-214 | a message that came back is in no mailbox, out slot or hand, and was neither given to Lua nor freed |
| Mail.PushKeeps | src/ltask.c:145-214 | every outcome of a delivery, of a schedule message and of a death report keeps the books |
| SchedSlots.BindingQueue.Push | src/worker.h:141-150 | appends, or reports full exactly when 16 services wait |
| SchedSlots.BindingQueue.Pop | src/worker.h:153-165 | removes the oldest service, across the reset of the indices |
| SchedSlots.ServicePool.New | src/service.c:215-252 | without a wish the id is the first one from the counter on that is not 0 and has a free slot, and the counter moves behind it; the service gets that slot, the id finds it, and no other slot changes |
| SchedSlots.NoEarlyRepeat | src/service.c:222-232 | over the history of the pool, an id given out without a wish is not given out so again before the counter has gone round its 2^32 values |
| SchedSlots.ServicePool.Get | src/service.c:255-260 | over the history of creations and deletions, an id finds a service if and only if it was created last and not deleted since |
| SchedSlots.FailsIffFull | src/service.c:222-230 | without a wish for an id, creation fails if and only if every slot is taken but for slot 0 when its turn falls on id 0 |

## Left out

- SeriTheorem.RoundTrip: streams of 2^31 bytes and more; the source measures them with a C int.
- SeriTheorem.UnpackAfterPack: tables are paired in the order in which both sides number them; that a misread graph is isomorphic to the packed one by no other pairing either is not claimed.
- A stack index above the top reads as nil, as Lua's manual has it for acceptable indices; the space of the stack is taken to be there.
- Packing through the `__pairs` metamethod and errors raised inside Lua calls.
- SeriSafe.MessageIsSound: what else a stream that packing did not produce is read as, and the unwinding of the Lua stack after an error.
- Doubles, pointers and C functions are opaque 8-byte words; integers are little-endian, as on the platforms the source copies them on.
- While packing, the Lua stack slot of an open table is taken to hold that table (`src/lua-seri.c:501-505`).
- TimerWheel.Timer.Update: differences of the time point above 2^31, where the loop counter of the source would overflow; the conversion of system time to ticks.
- The timer's linked lists with tail pointers are sequences in array cells; allocation and freeing of nodes is not modelled, and arguments are integers.
- The external message queue, whose blocked path returns early (`src/ltask.c:471-475`).
- SchedLost.BreaksIffDropped: once root has quit, and while the scheduler holds stolen jobs; every report of a death is made outside of both (`SchedLost.ReportBreaksIffBlocked`).
- The scheduler has room for its services: fewer than `max_service` exist, root creates no more, and deletes or closes only what nobody can run.
- `running`, `waiting` and the sockevents only decide `blocked_service` and whom to poke; their effect on it is left open, and so is what a racy read of `busy` returns.
- SchedMail.ViewsAgree: delivery, receipt and check_message_to of one message are one step of the scheduler there; `Mail` lets services run in between.
- SchedChoice.BestWorkersFirst, SchedChoice.RobsTheBusy and SchedChoice.CollectsAll: what workers do to their slots meanwhile; the statements about all interleavings are those of `SchedBudget`, `SchedOrder` and `SchedStrand`.
- Messages sent to a service before it is initialised, for which the source has no mailbox yet (`src/service.c:494-503`).
- Liveness: that a worker which can take a step eventually does.
- Weak memory: all atomics are sequentially consistent, and plain shared fields are read and written in single steps.
- The retry queues of the Lua services, the coroutine layer, the logger, sockets, signals, crash logs, memory accounting and configuration.
