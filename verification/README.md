# A verified model of Braid's core

Braid is a C library of cooperative threads ("cords"). This project models its
core in Dafny and proves what the library is for: argument binders generated at
run time enter the bound function with the right arguments, on aarch64 always
and on x86-64 if and only if the moves among the arguments have no cycle; the
scheduler's sets of cords are ordered maps; no cord is lost, destroyed twice or
destroyed while it executes; channels deliver values in order; and the visor, as
long as it lives, gets to run while a cord waits for a file descriptor.

`dafny verify dfyconfig.toml` checks everything.

## What is modelled

**The stub generator (`src/lambda.h`).**

- `ParallelMove.dfy`: `move_one`, recursive and on the arrays `src` and
  `status`, appending to a sequence of moves. The proof keeps an invariant over
  the recursion: the moves being made form a chain, what each register holds is
  known by its origin, a register is overwritten only after its readers, and
  each redirected move belongs to a cycle of its own. Any number of moves, any
  sources, pairwise distinct destinations, `TMP` outside both. The states the
  compiler comes to are also exported, as a run of starts, saves and finishes.
- `Stub.dfy`: arguments as in `lambda_vbind`, and the meaning of moves followed
  by loads, for any bound on the arguments and any scratch register outside
  them.
- `Arm64.dfy`: the 32-bit words of MOV, LDR (literal) and BR as in section C6.2
  of the Arm Architecture Reference Manual (DDI 0487), a decoder, a machine
  that runs the words, and the generator that writes them into an array.
  Proved from the words written to the register file at the jump.
- `X86Moves.dfy` and `X86.dfy`: the bytes of MOV, MOVABS and JMP as in chapter 2
  of volume 2 of the Intel 64 and IA-32 Architectures Software Developer's
  Manual, for the six argument registers of section 3.2.3 of the System V AMD64
  psABI; a decoder, a machine that runs the bytes, and the generator that writes
  them. What the bytes of a move do is not always the move, so the run of the
  compiler is followed again with what they do.
- `CordStubs.dfy`: the stubs of a cord in the chunks of the pool.

**The hash table (`src/uthash.h`).** `HashTable.dfy` has the insertion-order
list and the bucket chains over the same handles, with bucket doubling on line,
under an arbitrary hash function. `Sorting.dfy` has `HASH_SRT`, in place on the
list. `Bits.dfy` has the mask and shift arithmetic.

**The chunk pool (`src/pool.h`).** `Pool.dfy`: free list threaded through the
chunks, wilderness that shrinks.

**The scheduler (`src/braid.c`).** `Sched.dfy` is a state machine with one step
for each call of the interface; a step ends where the next context runs.
`ctxswap` is a control transfer: a resumed cord goes on in `schedule`, where it
destroys the zombies; a fresh one starts at its entry point and does not.
`SchedRuns.dfy` has the theorems about whole runs. `CordSets.dfy` and
`Braid.dfy` are the imperative code over three hash tables and the pool; every
method equals its step of the state machine.

**Channels (`src/io/ch.c`).** `Channels.dfy` is a state machine of one channel,
known by its address, and of everything the cords do besides. `ChannelRuns.dfy` and
`ChannelDelivery.dfy` have the theorems about whole runs. `ChannelCode.dfy` is
the imperative code, with elements linked by addresses; freed elements leave
memory, so that a use after a free could not be written.

**The visor (`src/io/poll/visor.c`, `src/io/poll/fd.c`).** `Visors.dfy` is a
state machine in which `poll` answers as it likes. The arrays belong to the
cord in whose arena they were allocated; the process can end, and memory can be
used that went with its cord or is another's. `VisorRuns.dfy` has the theorems about whole runs
and the runs in which a wait goes wrong. `VisorCode.dfy` is the imperative code
over the arrays `cords` and `pfds`.

**All of them together.** `Sharing.dfy` is a state machine of any number of
channels and a visor over one scheduler: what one of them does is, for each of
the others, a sequence of steps of other cords, so that each has a run of its
own to which its theorems apply. `SharingCode.dfy` does the same with the
objects: after an operation of one, the others are valid again.

A predicate `P` of which there is also a `PFacts` is that conjunction, passed on
as one fact.

## Assumptions

- One thread; `braidstart` is called once; fewer than 2^64 cords are created.
- Calls come from the executing cord; before `braidstart`, cords may be added,
  woken and halted. A channel is not used after it was freed.
- Allocation succeeds, except that the chunk pool may be full: `braidvadd` then
  ends the process.
- No cord calls `braidunblock` on one that waits on a channel or in `fdwait`;
  that the channels and the visor wake only their own waiters is proved
  (`Sharing.CallConfined`, `Sharing.ActConfined`). Other wake-ups and all halts
  are free.
- The visor's cord runs `iovisor` and nothing else. A channel is opened at an
  address where there was none before.

## Code and documentation

- `src/lambda.h:59-63` calls `LAMBDA_BIND_MAX_SIZE(n)` the maximum required size.
  On aarch64 it is enough if and only if some argument is moved
  (`Arm64.MaxSizeIffMove`); for constants alone the stub is eight bytes longer
  (`Arm64.ConstantsOverrun`). On x86-64 the condition compares what the
  constants and the moves take (`X86.MaxSizeIff`). In the exact size, moves of a
  register to itself are not counted: `move_one` emits none.
- `src/lambda.h:106` tests `s` where the destination is meant. So a move into
  `TMP` writes `r8`, and one from `TMP` reaches the first four argument
  registers only (`X86.MovIsRight`). Binding `MOV(1), MOV(0)`, a swap, gives the
  first argument what `rax` held (`X86.SwapFails`); in general the stub is right
  if and only if the moves have no cycle (`X86.Bind`).
- The chunks of `src/braid.c:122` hold a stub for one argument fewer than
  `LAMBDA_BIND_MAX_ARGS`, which `braidvadd` does not check: the stubs of a cord
  stay in its chunks if and only if its function has fewer
  (`CordStubs.StayIffFewer`).
- `src/io/poll/visor.c:31-32` allocates from `ctx->cord`, which is 0 until the
  visor first runs, and the arena goes with its cord (`src/braid.c:76`). Four
  kinds of run go wrong. If the visor was halted and there is no room, a wait
  ends the process (`VisorRuns.HaltedVisorEndsProcess`). If the visor was
  destroyed, a wait uses arrays that went with it
  (`VisorRuns.DestroyedVisorDangles`). If the first wait came before the visor
  ran, the arrays are cord 0's: when that is destroyed, the visor uses them in
  its next look at them (`VisorRuns.EarlyWaitDangles`); when they are full once
  the visor has run, a wait reallocates them through the visor's arena
  (`VisorRuns.EarlyArraysMix`), which `src/arena.h:87-91` does not undo if a
  block was its arena's first and moved. Exactly when none of this happens, in
  any run: `VisorRuns.GoesOnIffFound`; for runs in which the visor ran first,
  `VisorRuns.LiveIffServed`.
- `cordhalt` of the executing cord does nothing; of any other it is final
  (`SchedRuns.HaltedNeverRuns`).
- `src/braid.c:160` probes the runnable cords for the next id although an id
  could be held by a cord elsewhere; the probe never finds one, since ids are
  handed out in order (`Sched.NextIdIsCount`).
- A `poll` that is interrupted is treated like one that reported something, with
  the events of the call before; none of these is ready
  (`Visors.InterruptedWakesNone`). A `poll` that times out is followed by two
  yields (`src/io/poll/visor.c:64,74`), which the model keeps.

## Model

| member | source | states |
|---|---|---|
| ParallelMove.MoveOne | src/lambda.h:118-133 | every call, at any depth, keeps the invariant of the moves made so far, ends with its own move made unless it is a self-move, terminates by the number of moves still to make, and breaks at most one cycle |
| ParallelMove.SaveKeeps | src/lambda.h:125-128 | when the innermost move finds its reader being moved, that reader is the outermost move of the chain, the chain is a cycle broken by no save before, and saving the register keeps the invariant |
| ParallelMove.FinishKeeps | src/lambda.h:130-131 | a finished move leaves its destination with the initial content of its source, and destroys no register that a later move reads |
| ParallelMove.Compile | src/lambda.h:170-171 | the moves emitted put the initial content of each source into its destination and change nothing else but `TMP`; their number is that of the non-self moves plus that of the disjoint cycles, with one save per cycle |
| ParallelMove.TwoForACycle | src/lambda.h:59-63 | cycles are disjoint and have two moves or more, none to itself, so that there are at least twice as many proper moves as cycles |
| ParallelMove.RealizesRuns | src/lambda.h:118-133 | run from any register file over any values, such moves leave each destination with its source's value and every register that is neither a destination nor `TMP` unchanged |
| ParallelMove.CycleBroken | src/lambda.h:59-63 | every disjoint cycle of two or more moves was broken by a save |
| ParallelMove.CompleteSize | src/lambda.h:59-63 | the number of moves emitted is that of the moves with different source and destination plus that of the disjoint cycles, which is also counted by the saves |
| Stub.SplitFacts | src/lambda.h:154-164 | the split of the arguments sends each to exactly one of moves and loads, under its own index |
| Stub.StubEnters | src/lambda.h:144-193 | if the moves are executed as compiled, and then the loads: each argument is its constant, or the caller's original argument at the named index, and no other register but `TMP` has changed |
| Arm64.DecodeMov | src/lambda.h:97 | the word emitted decodes to the move intended |
| Arm64.DecodeLdr | src/lambda.h:98 | the word emitted decodes to the literal load intended, its offset in words, in the 19 bits there are |
| Arm64.DecodeBr | src/lambda.h:99 | the word emitted decodes to the branch intended |
| Arm64.KnownWords | src/lambda.h:97-99 | the words of a MOV, an LDR and a BR, and what they decode to, as numbers |
| Arm64.EmitLoads | src/lambda.h:173-190 | each literal load addresses its own literal, the literals lie behind the branch, and no word elsewhere is written |
| Arm64.StubRuns | src/lambda.h:173-192 | the machine that runs the words executes moves, loads and branch, and jumps to `f` |
| Arm64.Bind | src/lambda.h:144-203 | from any register file, a call of the words written enters `f` with every argument in place; code and literals take exactly `LAMBDA_BIND_SIZE` bytes and no other word changes |
| Arm64.BindLdr | src/lambda.h:214-259 | the same for constants bound from an index on: exactly these registers change, and `TMP` |
| Arm64.MaxSizeIffMove | src/lambda.h:44-45 | the documented maximum size is enough for the stub if and only if at least one argument is moved |
| Arm64.ConstantsOverrun | src/lambda.h:44-45 | the failing inputs: a stub of constants alone is eight bytes longer than the documented maximum |
| X86.DecodeMov | src/lambda.h:105-108 | the bytes of a move decode to a move of the registers that `Effect` names |
| X86.MovIsRight | src/lambda.h:105-108 | the bytes decode to the move intended if and only if it is not into `TMP`, and is from `TMP` to one of the first four argument registers at most |
| X86.KnownBytes | src/lambda.h:105-110 | the bytes of three instructions, two of them given with their meaning in `src/lambda.h:289-291`, and what they decode to, as numbers |
| X86.StubRuns | src/lambda.h:100-110 | the machine that runs the bytes executes what the moves' bytes say, then the loads, and jumps to `f` |
| X86Moves.SaveReal | src/lambda.h:125-128 | a save, whose bytes write the fifth argument register, keeps what is known of where the wrong contents go |
| X86Moves.FinishReal | src/lambda.h:130-131 | so does a finished move |
| X86Moves.MovesIffNoCycle | src/lambda.h:118-133 | the bytes of the compiled moves put every source into its destination if and only if there is no cycle |
| X86.LaidBinds | src/lambda.h:144-199 | for all register files at once: the stub's bytes enter `f` with every argument in place and no other register but `rax` changed, if and only if the moves have no cycle |
| X86.Bind | src/lambda.h:144-203 | the same of the bytes that the generator writes, which are exactly `LAMBDA_BIND_SIZE`; no other byte changes |
| X86.BindLdr | src/lambda.h:214-259 | constants bound from an index on are right always: exactly these registers change, and `rax` |
| X86.SwapCompiled | src/lambda.h:118-133 | the compiler's code for the swap of two arguments: save, move, move |
| X86.SwapFails | src/lambda.h:105-108 | the failing input: the bytes of just this code give the first argument what `rax` held and overwrite the fifth |
| X86.SwapHasCycle | src/lambda.h:59-63 | the swap is a cycle |
| X86.MaxSizeIff | src/lambda.h:48-49 | the documented maximum size is enough if and only if four bytes a constant and three a proper move and a cycle are no more than six a move; never for constants alone, always for three constants to eight moves |
| CordStubs.StayIffFewer | src/braid.c:122-153 | the three stubs of a cord stay in its own chunks, apart from all other live ones, if and only if its function has fewer arguments than can be bound; otherwise the third runs out of its chunk |
| Bits.AndMask | src/uthash.h:430-433 | masking with a power of two minus one is the remainder |
| HashTables.ToBktInRange | src/uthash.h:430-433 | the bucket of a hash is its remainder by the number of buckets |
| HashTables.HashTable.Add | src/uthash.h:396-415 | a fresh key is appended to the insertion order; links, tail, count, chains and bucket counts stay right under any hash, with or without doubling |
| HashTables.HashTable.AppendList | src/uthash.h:278-284 | the list links mirror each other and tail is the last element after an append |
| HashTables.HashTable.Delete | src/uthash.h:450-477 | exactly the element is taken out of the order, and the whole table stays valid; the table goes if and only if the element was the only one |
| HashTables.HashTable.Find | src/uthash.h:153-163 | finds the element with the key, and null exactly when no element has it |
| HashTables.HashTable.FindInBkt | src/uthash.h:745-765 | the walk of one chain decides whether the key is in the whole table |
| HashTables.HashTable.AddToBkt | src/uthash.h:767-787 | the element goes to the front of the chain its hash selects; the buckets double if and only if its count reaches ten times one more than its multiplier and doubling is not inhibited; otherwise no other chain and no multiplier changes |
| HashTables.HashTable.DelInBkt | src/uthash.h:789-802 | the element leaves its own chain, the rest of which keeps its order; every other chain, and every multiplier, is as it was |
| HashTables.HashTable.ExpandBuckets | src/uthash.h:833-883 | after doubling, each handle is in exactly the chain its hash selects among twice as many, counts are chain lengths, `nonideal_items` and every multiplier are right, and doubling is inhibited once two in a row left more than half the items beyond the ideal |
| HashTables.IdealIsCeiling | src/uthash.h:846-848 | the shift and mask formula is the ceiling of items over new buckets |
| HashTables.ExcessIs | src/uthash.h:856-857 | `nonideal_items` is the number of elements at chain positions behind the ideal length |
| HashTables.MultiplierIs | src/uthash.h:856-861 | the multiplier of a bucket is 0 up to the ideal length, and then the smaller of the elements beyond it and of the ideal lengths they all take, rounded up |
| Sorting.SortIsStable | src/uthash.h:890-972 | the result is a sorted permutation in which equal elements keep their order |
| Sorting.MergeSorted | src/uthash.h:917-945 | merging two sorted runs keeps equal elements of the first before those of the second |
| Sorting.PassRuns | src/uthash.h:900-968 | a pass turns sorted runs of n elements into sorted runs of 2n |
| Sorting.SortPermutes | src/uthash.h:890-972 | a permutation even if the comparison is no order |
| Sorting.MergeRuns | src/uthash.h:916-966 | in place: the two runs are merged behind the new list, whose links mirror each other, and the runs behind them are untouched |
| Sorting.Sort | src/uthash.h:890-972 | in place and terminating: head, tail, prev and next are those of the sorted list, and the buckets still hold the elements |
| Pools.Pool.Alloc | src/pool.h:62-82 | fails exactly when floor((len - 24) / chunk_sz) chunks are live; otherwise the chunk freed last becomes live, or, if none is free, the one at the wilderness, and nothing else changes |
| Pools.Pool.Free | src/pool.h:84-103 | exactly the chunk is not live any more: the wilderness shrinks if and only if it is the highest, and otherwise it is the first of the free list |
| Pools.Pool.LiveChunks | src/pool.h:53-103 | live chunks lie inside the region, behind the header, and do not overlap |
| Pools.Pool.LiveCount | src/pool.h:62-103 | live and free chunks are all the slots below the wilderness, each once, no more than fit |
| Pools.Pool.FitsIffBelow | src/pool.h:74 | the test for the next chunk holds exactly while fewer chunks than fit were carved |
| Pools.Pool.AddrIs | src/pool.h:44-59 | the chunks lie one after the other behind the 24 bytes of the header |
| Sched.StepKeeps | src/braid.c:62-335 | every step keeps the census: each cord created is in exactly one of executing, runnable, blocked, zombies, destroyed |
| Sched.NextIdIsCount | src/braid.c:160-161 | ids are new although only the runnable cords are probed |
| Sched.OnlyThere | src/braid.c:62-72 | a cord in one set is in it once, and in no other |
| Sched.DispatchKeeps | src/braid.c:167-177 | the choice of the next context and the destruction of the zombies keep the census, and no cord destroys itself |
| Sched.SuspendedKeeps | src/braid.c:252-288 | yield, block, exit and stop are a move of the executing cord followed by the dispatch, and in between every cord is still counted once |
| SchedRuns.EachInOnePlace | src/braid.c:62-335 | in every reachable state, each cord created is executing, runnable, blocked, a zombie or destroyed: exactly one, once |
| SchedRuns.AllDestroyedOnce | src/braid.c:234-245 | when `braidstart` finishes, every cord was destroyed exactly once, whatever stops, halts and blocked cords there were |
| SchedRuns.DestroyedStaysOut | src/braid.c:74-80 | a destroyed cord is never again executing, runnable, blocked or a zombie, so it is not resumed, and it is not destroyed again |
| SchedRuns.HaltedNeverRuns | src/braid.c:322-335 | after a halt, before or after `braidstart`, a cord created executes, is runnable or blocks in no run from there, if and only if it is not the executing one |
| SchedRuns.HaltedIsZombie | src/braid.c:322-335 | a runnable or blocked cord that is halted is a zombie |
| SchedRuns.ExitedNeverRuns | src/braid.c:285-288 | a cord that exits never goes on |
| SchedRuns.StopEnds | src/braid.c:275-283 | a stop destroys all runnable cords and the executing one at once, `braidstart` goes on, and only the blocked cords are left |
| SchedRuns.SwitchReaps | src/braid.c:167-177 | a resumed context, or `braidstart`, destroys every zombie there is; a cord that starts destroys none |
| SchedRuns.ReturnsIffIdle | src/braid.c:167-172 | at a switch, `braidstart` goes on if and only if nothing is runnable, or nothing but system cords is and nothing is blocked |
| SchedRuns.ReturnsOnlyWhenIdle | src/braid.c:167-172 | so that, in every run, whenever `braidstart` has gone on, that is so |
| SchedRuns.AddedLast | src/braid.c:141-165 | a new cord is the last of the runnable ones, with the next id, system or not as asked for, and starts at its entry point |
| SchedRuns.YieldsOnly | src/braid.c:252-256 | a cord that yields stays runnable or goes on, and none becomes blocked |
| SchedRuns.BlocksOnly | src/braid.c:258-262 | a cord that blocks is the last of the blocked ones, and no other becomes runnable |
| SchedRuns.WakesOnly | src/braid.c:264-273 | a wake-up moves the blocked cord with the id, with the value, behind the runnable ones; all others stay, and without such a cord nothing changes |
| SchedRuns.HaltsOnly | src/braid.c:322-335 | a halt moves the runnable or blocked cord with the id behind the zombies; all others stay, and without such a cord nothing changes |
| SchedRuns.ExitsOnly | src/braid.c:285-288 | a cord that exits is a zombie behind the others; unless a cord starts next, they are all destroyed in this order by what goes on |
| SchedRuns.NoneDestroysItself | src/braid.c:173-176 | no destruction frees the executing context |
| SchedRuns.BoundedWait | src/braid.c:167-172 | a normal cord at position k of the runnable cords runs within k+1 scheduling points unless it is halted or the braid is stopped, and `braidstart` does not return before |
| SchedRuns.MovesUp | src/braid.c:62-72 | at each scheduling point a runnable cord moves up by one, and otherwise never down |
| SchedRuns.KthReturnIsKthWake | src/braid.c:258-273 | the k-th return of `braidblock` in a cord carries the value of its k-th successful wake-up, and at most one is under way |
| Braids.Braid.Add | src/braid.c:141-165 | fails exactly when three chunks per cord do not fit one cord more; otherwise adds a fresh cord at the end of the runnable ones, with the next id and three chunks of its own |
| Braids.Braid.Schedule | src/braid.c:167-177 | over the hash tables and the pool: the dispatch of the state machine, from count and pop to the destruction of the zombies; `braidstart` goes on if and only if nothing is runnable, or only system cords are and nothing is blocked |
| Braids.Braid.CountSystem | src/braid.c:292-304 | counts the runnable cords that are not normal |
| Braids.Braid.FreeCords | src/braid.c:173-176 | the safe iteration destroys every cord of the set, in order, and gives back their chunks |
| Braids.Braid.Yield | src/braid.c:252-256 | the step of the state machine, and nothing before `braidstart` |
| Braids.Braid.Block | src/braid.c:258-262 | the step of the state machine |
| Braids.Braid.Unblock | src/braid.c:264-273 | wakes the cord if it is blocked and changes nothing otherwise; returns which |
| Braids.Braid.Exit | src/braid.c:285-288 | the step of the state machine |
| Braids.Braid.Stop | src/braid.c:275-283 | the step of the state machine: the runnable cords are destroyed by the one that stops |
| Braids.Braid.HaltId | src/braid.c:322-335 | a runnable or blocked cord becomes a zombie, any other id changes nothing |
| Braids.Braid.HasCord | src/braid.c:351-355 | finds a cord exactly if it is runnable or blocked |
| Braids.Braid.Finish | src/braid.c:234-245 | the cords left over are destroyed; no cord is left in memory and no chunk live |
| Braids.Braid.ValidMeans | src/braid.c:74-80 | between calls the live chunks are three for each cord not destroyed |
| Braids.Braid.Probe | src/braid.c:160 | ends with the first id from the counter on that no runnable cord has |
| Channels.PerformKeeps | src/io/ch.c:34-103 | every call and every step of the other cords keeps the channel's invariant |
| Channels.SwitchKeeps | src/io/ch.c:95-102 | a receiver that goes on finds its element in memory and not in the queue, and frees it; the invariant holds after it |
| ChannelRuns.QueueIsUnmatched | src/io/ch.c:46-103 | the queue holds senders only or receivers only and is the unmatched end of the longer history |
| ChannelRuns.TakenOnceInOrder | src/io/ch.c:46-103 | with halts and closes allowed: each value sent is taken at most once, in order, by ever later receives, and a receive returns the value it took, or not-ok if it was turned away |
| ChannelRuns.WaitersAreQueued | src/io/ch.c:64-95 | the cords blocked on the channel are those of the queued elements, each on its own; other queued elements are of dead cords |
| ChannelDelivery.DeliveredOrDead | src/io/ch.c:54-61 | with halts, stops and closes allowed: an answered receive has returned its answer, or its cord is runnable and about to, or its cord is dead |
| ChannelDelivery.PerformHolds | src/io/ch.c:34-103 | every call and every step of the other cords keeps each answered receive returned or pending |
| ChannelRuns.ReceivesWhatWasSent | src/io/ch.c:46-103 | while open and without halts, the i-th receive takes the i-th send and returns its value |
| ChannelRuns.OpenedReceives | src/io/ch.c:32-103 | the same of every run from the opening of a channel |
| ChannelRuns.FreedOnce | src/io/ch.c:53-102 | no element is freed twice, and none is used after it was freed |
| ChannelRuns.SendSkipsTheDead | src/io/ch.c:53-69 | a send frees exactly the dead receivers in front and hands its value to the first one alive; if there is none, the sender queues itself |
| ChannelRuns.SenderReturnsZero | src/io/ch.c:69 | every blocked send that has returned did so with 0 and after its value was taken, and one about to return will |
| ChannelRuns.ClosedDrains | src/io/ch.c:34-102 | once closed, every send fails, the pending values come out in order, then receives report not-ok |
| ChannelRuns.CloseIs | src/io/ch.c:34-44 | a close leaves the channel closed if anything is queued, frees it unless senders are, and changes nothing else in that case |
| ChannelRuns.ClosingDrains | src/io/ch.c:34-102 | in every run from the close of a channel with senders queued: no value is added, every send gets -1 and changes nothing, no receive blocks, and the receives get the pending values in order and then not-ok |
| ChannelRuns.OpenedWaits | src/io/ch.c:32-95 | on a channel just opened, a send and a receive both wait |
| ChannelRuns.RecvAnswers | src/io/ch.c:78-95 | what a receive returns at once is its outcome in the history; it does not return at once if and only if its cord is blocked on a new element |
| ChannelRuns.SendAnswers | src/io/ch.c:46-70 | a send returns -1 if and only if the channel is closed, 0 if and only if a receiver takes its value at once, and nothing at once if and only if its cord is blocked on a new element |
| ChannelRuns.ResumeAnswers | src/io/ch.c:95-102 | what a resumed receive returns is its outcome in the history: the value in its own element if it was woken with a value other than 0, and not-ok otherwise |
| ChannelRuns.ResumeReplies | src/io/ch.c:69 | what a resumed send returns is 0, and is recorded |
| ChannelRuns.TakeWakesSender | src/io/ch.c:83-88 | taking a pending value wakes its own sender with 0 and frees its element |
| ChannelRuns.CloseWakesReceivers | src/io/ch.c:34-44 | closing wakes every waiting receiver alive, which then returns not-ok |
| ChannelCode.Channel.Send | src/io/ch.c:46-70 | the step of the state machine over linked elements; -1 exactly if the channel is closed, 0 exactly if a receiver takes the value, otherwise a block |
| ChannelCode.Channel.HandOver | src/io/ch.c:53-62 | the retry loop terminates and is the recursion of the state machine |
| ChannelCode.Channel.Recv | src/io/ch.c:78-95 | the step of the state machine over linked elements; what it returns at once is its outcome in the history, otherwise a block |
| ChannelCode.Channel.Resume | src/io/ch.c:95-102 | the end of `chrecv` in the cord that goes on, reading memory that is still allocated |
| ChannelCode.Channel.Close | src/io/ch.c:34-44 | the step of the state machine, walking the queue to wake the receivers; closed if anything was queued, freed unless senders were |
| ChannelCode.Channel.EltPop | src/io/ch.c:21-25 | the queue loses its first element; tail is cleared with the last |
| ChannelCode.Channel.EltAppend | src/io/ch.c:26-30 | the queue gains the element at its end |
| Visors.DoKeeps | src/io/poll/visor.c:27-77 | every turn of the visor, every wait and every step of the other cords keeps the visor's invariant, as long as the process goes on with memory that is there |
| Visors.VisorAwake | src/io/poll/visor.c:37-75 | while cords wait, the visor is not blocked, so that it is executing or runnable unless it is dead |
| VisorRuns.BraidStays | src/braid.c:167-172 | while a cord is blocked in `fdwait` and the visor lives, `braidstart` does not go on |
| VisorRuns.VisorBoundedWait | src/braid.c:167-172 | while a cord is blocked in `fdwait`, a visor at position k of the runnable cords runs within k+1 scheduling points, although it is a system cord, unless it or that cord is halted or the braid is stopped |
| VisorRuns.WaitIsLive | src/io/poll/visor.c:27-37 | exactly when a wait uses arrays that are there, through the arena that holds them: with room, while the cord they belong to is not destroyed; with none, while that is the cord the context names, and is runnable or blocked |
| VisorRuns.TurnIsFound | src/io/poll/visor.c:57-73 | exactly when a turn of the visor does: it does not look at the arrays, or the cord they belong to is executing, runnable, blocked or a zombie |
| VisorRuns.GoesOnIffFound | src/io/poll/visor.c:27-77 | in every run, whoever waits first and whichever cord the arrays belong to: the process goes on, with arrays that are there and in one arena, if and only if every wait and every turn of the visor finds what it needs as in the two rows before |
| VisorRuns.LiveIffServed | src/io/poll/visor.c:27-37 | if the visor ran before the first wait, every wait uses memory that is there, and the process goes on, if and only if at each wait the visor is runnable or blocked, or a zombie with room in the arrays |
| VisorRuns.PollsWhatWasAsked | src/io/poll/visor.c:27-50 | in every run, each descriptor is polled for what its cord asked for |
| VisorRuns.HaltedVisorEndsProcess | src/io/poll/visor.c:29-34 | the failing run: the visor is halted, and the next wait ends the process |
| VisorRuns.DestroyedVisorDangles | src/io/poll/visor.c:35-36 | the failing run: the visor is destroyed, and the next wait writes to arrays that went with it |
| VisorRuns.EarlyWaitDangles | src/io/poll/visor.c:29-34 | the failing run: a wait before the visor ran puts the arrays into the arena of cord 0, which exits |
| VisorRuns.EarlyArraysMix | src/io/poll/visor.c:29-34 | the failing run: four waits before the visor ran fill arrays in the arena of cord 0, and a fifth, when the visor has run, reallocates them through the visor's arena |
| Visors.ListedOnce | src/io/poll/visor.c:35-49 | the cords blocked in `fdwait` are listed, each once, and no runnable cord is |
| Visors.PassWakes | src/io/poll/visor.c:66-72 | a pass wakes each ready cord that is blocked once, in list order, with its own events |
| Visors.PassWakesEach | src/io/poll/visor.c:66-72 | a ready cord that waits is runnable after the pass with the events reported for it |
| Visors.ReadyIs | src/io/poll/visor.c:10-68 | an entry is ready if and only if an error, a hang-up or an invalid descriptor is reported, or an event that was asked for, with the bits as numbers |
| Visors.TurnWakesEach | src/io/poll/visor.c:59-74 | after a turn in which `poll` reported, each cord that waited and for which one of these bits is set is runnable with the events reported for it, or executes with them |
| Visors.TurnKeepsRest | src/io/poll/visor.c:59-74 | after such a turn, the entries for which none of these bits is set stay, and no others, and their cords stay blocked |
| Visors.TimedOutYieldsTwice | src/io/poll/visor.c:62-74 | a `poll` that times out wakes nobody and is followed by two yields; any other by one |
| Visors.IdleBlocks | src/io/poll/visor.c:75 | a visor with an empty list blocks |
| Visors.WaitAsks | src/io/poll/fd.c:9-14 | a wait puts the caller's descriptor behind the others, for POLLIN to read and POLLOUT to write, in arrays with room for four that double; a blocked visor is woken and the caller blocked |
| Visors.UnreadyIs | src/io/poll/visor.c:66-72 | what stays is exactly what is not ready |
| Visors.UnreadyInOrder | src/io/poll/visor.c:66-72 | and it stays in order |
| Visors.InterruptedWakesNone | src/io/poll/visor.c:62-72 | in every run, an interrupted `poll` wakes no cord and removes none |
| Visors.InterruptedIsReport | src/io/poll/visor.c:62-72 | an interrupted `poll` is taken for one that reported the events of the one before |
| VisorCode.Visor.PassOver | src/io/poll/visor.c:66-72 | the loop with removal by search leaves the entries that are not ready, in order, ids and pollfds still paired |
| VisorCode.Visor.Timeout | src/io/poll/visor.c:60-62 | `poll` may wait without end if and only if no other cord is runnable |
| VisorCode.Visor.PollRemove | src/io/poll/visor.c:40-50 | exactly the first entry of the cord is removed from both arrays |
| VisorCode.Visor.PollAppend | src/io/poll/visor.c:27-38 | ends the process exactly if there is no room and no cord to allocate from; otherwise the entry is appended to both arrays, which grow by doubling, and a blocked visor is woken |
| VisorCode.Visor.WaitFd | src/io/poll/fd.c:9-14 | the step of the state machine: listed first, for POLLIN to read or POLLOUT to write, then blocked, if the process goes on |
| VisorCode.Visor.Run | src/io/poll/visor.c:52-76 | from one suspension to the next, a fresh visor's entry included, the code is the visor's turn |
| VisorCode.Visor.Elsewhere | src/braid.c:167-177 | after any steps of other cords the visor is valid again, in the state that the machine comes to |
| ChannelCode.Channel.Elsewhere | src/io/ch.c:95-102 | after any steps of other cords, the cord that goes on ends its receive on this channel, if it was in one, and the channel is valid again, in the state that the machine comes to |
| Sharing.CallConfined | src/io/ch.c:34-103 | what a call on a channel does to the scheduler is a sequence of wake-ups of cords that wait on this channel, ending in a block on it if it blocks |
| Sharing.ActConfined | src/io/poll/visor.c:27-77 | what a turn of the visor or a wait does to the scheduler is a sequence of wake-ups of cords in `fdwait` and of the visor, ending in a yield or a block |
| Sharing.ConfinedForChannel | src/io/ch.c:34-103 | for a channel on which none of the woken or blocking cords waits, such a sequence is a run of other cords |
| Sharing.MoveSeen | src/io/ch.c:34-103 | whichever channel is used, and whatever the visor does, is possible for each channel, and they agree on the scheduler |
| Sharing.MovesKeep | src/io/ch.c:34-103 | in every run of any number of channels, opened at any time, and a visor over one scheduler, all of them keep their invariants |
| Sharing.ChannelSeesRun | src/io/ch.c:34-103 | in every such run each channel has a run of its own that ends in the same state |
| Sharing.VisorSeesRun | src/io/poll/visor.c:27-77 | so has the visor |
| SharingCode.SendBeside | src/io/ch.c:46-70 | after a send on one channel, that channel, another one and the visor over the same braid are valid, and each is in the state that its own machine comes to |
| SharingCode.RunBeside | src/io/poll/visor.c:52-76 | the same after a turn of the visor |

## Left out

- `lambda_compose` but for its size, `mprotect`, cache maintenance, and the variable argument lists.
- Bytes of aarch64 code memory: it is an array of 32-bit words, a literal is two of them.
- Integer widths: `uint64_t` ids, `unsigned` counts and bucket numbers, `int` pool sizes and the doubling of the run length in the sort do not wrap around.
- The hash handle embedded in each cord is an object of its own, and the rest of `cord_s` is kept in a map by id; deleting the entry is the `free`.
- Channel elements and their links are entries of a map by address, not objects; the arena hands out addresses that were never used before.
- Stacks, `ctxcreate` and the `ctxswap` assembly, signal handlers, arenas, names, `braiddata`, `braidinfo`, Valgrind support.
- uthash's hash functions, its bloom filter, ordered adds, `HASH_SELECT`, `HASH_REPLACE` and recoverable memory exhaustion.
- Errors of `poll` other than an interruption, which end the process.
- Timeouts (`src/io/ck.c`), `src/io/tcp.c`, and the kqueue and liburing visors.
- Braids.Braid.Add: what the state is when the pool is full is not stated, because the process ends there.
- What the cords do after memory was used that is not there, or a block of one arena reallocated through another; whether `realloc` moves a block.
- Sharing.MovesKeep: a run ends where the process ends, or a wait or the visor does not find its memory; an address of a freed channel is not used for another one.
