# onlyio: a verified model of the executor

onlyio is a single-threaded async executor built on io_uring. Its correctness rests on a hand-made
ownership protocol: tasks are named in completions by reusable slab indices, only a 16-bit reference
count keeps a completion from reaching a task that is gone, a 15-bit rank filters stale completions,
and buffers move between the kernel and user space without locks. This project models that protocol
in Dafny and proves what it guarantees over every run.

The kernel is nondeterministic: it may complete any flushed submission, in any order, with any
result, and may set F_MORE on multishot ones; for a read it first selects a buffer, and it posts a
positive count only with one. A future is the script of its successive polls (submissions, rank
advances, nested spawns, steps on reads and read buffers) and of what is left of it: returned,
pending for good, or a next poll. Since every statement quantifies over all scripts, a future that
reacts to results is covered by the script of what it does. Every panic of the code modelled and
every access to freed memory is a `Fault`, so that "cannot happen" is a theorem about results.

| file | content |
|---|---|
| `Words.dfy`, `Indices.dfy` | machine words, tags, the `user_data` word; distinct indices |
| `TaskSlab.dfy` | the slab: abstract view, word encoding of the free chain, array class |
| `Protocol.dfy` | the executor as a transition system |
| `ProtocolSafety.dfy` | the inductive invariant and the safety theorems over runs |
| `Tags.dfy` | the stale-completion filter: when tags agree, exactly |
| `Sequential.dfy` | ordinary one-await-at-a-time futures, for runs of any length |
| `Progress.dfy` | bounded work and reaching the exit |
| `Counterexamples.dfy` | runs that end in a panic |
| `Deliveries.dfy`, `Streams.dfy` | what a poll finds in CURRENT_TASK; streams and write batches through whole runs |
| `Runtime.dfy` | the runtime object and `block_on`, proved to perform the protocol |
| `BufRing.dfy`, `ReadBuffers.dfy` | the provided-buffer ring, byte by byte; one read buffer and its `commit` |
| `ReadRuns.dfy`, `Conservation.dfy` | protocol and read buffers run together; where every buffer id is |
| `ReadPlaces.dfy` | which place a buffer id goes to, and that all are back at the exit |
| `ReadSequential.dfy`, `ReadLosses.dfy` | futures that never lose a buffer; runs that lose or duplicate one |
| `WritePool.dfy`, `FanOut.dfy` | the reference-counted write pool; the fan-out write future |

The main results are `ProtocolSafety.RunSafe`, `NoAba`, `ExactCounting` and `ExitTest`;
`Tags.OrderlyRun` with the four `…Exactly` lemmas; `Sequential.SequentialRun`;
`Deliveries.PollStarts`; `Streams.StreamRun` and `BatchDelivered`; `Progress.BoundedWork`;
`RuntimeLoop.Runtime.BlockOn`; `Conservation.ConservedExactly` and `LostExactly`;
`ReadSequential.SequentialReads`; `ReadPlaces.ExitReturnsAll`; `ReadBuffers.AtMostOneRelease`;
`WritePool.PoolRun`; `FanOut.AnyOrder`.

Results that contradict the source's documentation or expectations:

- A `commit` outside a multishot stream ends in the dispatcher's panic: `send_commit_write` masks
  CURRENT_TASK but not the stored tag. `Tags.SubmitTagsExactly` gives the exact condition, and
  `Counterexamples.EchoHandlerRejected` runs the README's own connection handler into the panic.
- The rank overflows after 0x7FFF completions into the MULTIPLE bit. `Tags.ArmedTagsExactly` and
  `Tags.AdvanceTagsExactly` say when that matters, `Counterexamples.RankOverflowRejected` runs into
  it; `Sequential.SequentialRun` shows that it does not matter for sequential futures.
- A finished future is polled again when a completion with the stored tag arrives, and not skipped
  as the comment on `poll` says (src/task.rs:216-231). An `async` block then panics:
  `Tags.RejectedExactly` gives the exact condition, `Counterexamples.ForgetfulFuturePanics` a run.
- A `ReadFuture` takes whichever completion polls its task. So a buffer id is lost when no pending
  read takes its completion and is in two places at once when two do, and in no other case
  (`Conservation.LostExactly`): two reads awaited in one poll, a cancelled read and a read that
  loses a `select` are the runs in `ReadLosses`, with the commit that is dropped after its first
  poll, whose id leaks.
- A write batch is delivered whole under a masked tag (`Streams.BatchDelivered`), but
  `send_multiple_write` sets no mask: in an unmasked task the first completion makes the others
  stale (`Streams.UnmaskedBatchStale`), so a batch of two or more never finishes.
- Growing the slab to 2^31 slots breaks its free list: the last link decodes to 0 instead of the
  length (`TaskSlab.Slab.Growth`, `TaskSlab.LinkSurvives`).
- A write batch of 0 or 0x8000 fds panics in `add_rc` (`ProtocolSafety.AddRcRefusesExactly`).
- `user_data` is packed as index, generation, tag from the low end (src/runtime.rs:520-527), not in
  the order the project's README and src/buf_pool.rs:21 give; the model follows the code.

## Model

| member | source | states |
|---|---|---|
| Words.UserDataRoundTrip | src/runtime.rs:516-527 | packing index, generation and tag into 64 bits is a bijection |
| Words.AndLowMask | src/runtime.rs:364-371 | `x & (2^k - 1)` is `x mod 2^k`, for every k: the ring's slot computation |
| Words.RankIsLowBits | src/task.rs:118-121 | the rank is the tag without the MULTIPLE bit |
| TaskSlab.LinkSurvives | src/task_slab.rs:24-55 | a stored link decodes to itself if and only if it is below 2^31, and never looks like a pointer |
| TaskSlab.InsertKeeps | src/task_slab.rs:120-131 | insertion returns an index no task holds, keeps every other task, and keeps tasks and free indices a partition |
| TaskSlab.RemoveThenInsert | src/task_slab.rs:159-174 | the freed index is the next one handed out, and reinserting restores the slab |
| TaskSlab.TasksPlusFree | src/task_slab.rs:83-88 | tasks and free indices add up to the slots |
| TaskSlab.ChainVisitsFreeSlots | src/task_slab.rs:79-88 | following links from `head` visits each free slot once and ends at `len`; a slot is tagged free exactly when visited |
| TaskSlab.WordsDetermineView | src/task_slab.rs:17-42 | the slot words and `head` determine the abstract slab |
| TaskSlab.Slab.constructor | src/task_slab.rs:96-117 | a new slab encodes the empty view with every index free in order |
| TaskSlab.Slab.Growth | src/task_slab.rs:176-205 | keeps every old slot, chains the new ones in order, keeps `head`; the final link is right if and only if the new length is below 2^31 |
| TaskSlab.Slab.Insert | src/task_slab.rs:120-131 | the array operation pops the free stack and stores the task, growing when full |
| TaskSlab.Slab.RemoveDroppedTask | src/task_slab.rs:159-174 | pushes the index on the free stack; fails exactly on an index that holds no task |
| TaskSlab.Slab.Holds | src/task_slab.rs:228-237 | the index operator's two assertions pass exactly for the indices of tasks |
| TaskSlab.Slab.Get | src/task_slab.rs:228-237 | an occupied slot yields the task stored there |
| ProtocolSafety.AddRcRefusesExactly | src/task.rs:181-193 | short of overflow, `add_rc` panics exactly for counts 0 and 0x8000, and otherwise succeeds |
| ProtocolSafety.ReleaseKeeps | src/task.rs:232-256 | a held reference can always be released; the last one frees the task, queues its slot once, and keeps the invariant |
| ProtocolSafety.EntryDecodes | src/runtime.rs:411-421 | the k-th SQE of a batch decodes to the submitter's slot and tag and generation k, and is a multishot or a read exactly when the operation is |
| ProtocolSafety.SubmitKeeps | src/runtime.rs:270-358 | a submission adds exactly its SQEs to the submitter's count and changes no other task; it fails if and only if the count would exceed 65535 or the batch size is one `add_rc` refuses |
| ProtocolSafety.AdvanceKeeps | src/calls/write.rs:108-114 | advancing the rank never fails and keeps the invariant |
| ProtocolSafety.BeginKeeps | src/runtime.rs:502-509 | a new task enters a slot nobody refers to, with the two references its spawn holds; it fails if and only if no slot is free and 2^30 or more are occupied |
| ProtocolSafety.ScriptSafe | src/task.rs:224-231 | a whole poll, nested spawns included, keeps the invariant and leaves every other task exactly as it was |
| ProtocolSafety.SpawnSafe | src/runtime.rs:502-514 | a whole spawn restores CURRENT_TASK exactly and leaves every existing task, the parent too, with its count and tag; a slab overflow on the way had at least 2^30 tasks |
| ProtocolSafety.HandleSafe | src/runtime.rs:206-245 | the dispatcher consumes the reference of a final completion and no other, and touches no other task |
| ProtocolSafety.CompleteSafe | src/runtime.rs:206-245 | any completion of any flushed SQE keeps the invariant and is processed for its submitter: recorded for it, changing no other task, the SQE leaving the kernel's queue when final |
| ProtocolSafety.CollectSafe | src/runtime.rs:425-434 | collection never trips the slab's assertions, leaves exactly the live tasks, and frees the slots last in first out |
| ProtocolSafety.FlushKeeps | src/runtime.rs:113-137 | a flush keeps the invariant, and panics if and only if more than 1024 SQEs are pending |
| ProtocolSafety.InitInv | src/runtime.rs:102-111 | a new runtime has 16 free slots in order, nothing outstanding and the dummy CURRENT_TASK |
| ProtocolSafety.RunSafe | src/runtime.rs:144-202 | in every run: no bad index, no access to a freed task, no count underflow, no removal of a free slot |
| ProtocolSafety.NoAba | src/runtime.rs:206-219 | in every reachable state each outstanding SQE's word resolves to the live task that submitted it |
| ProtocolSafety.ExactCounting | src/task.rs:167-256 | a task's count is its number of outstanding SQEs, it lives exactly while it has one, and its future is dropped once, when it dies |
| ProtocolSafety.DeferredReclamation | src/runtime.rs:425-434 | the free list is, without duplicates, the occupied slots of freed tasks |
| ProtocolSafety.ExitTest | src/runtime.rs:148-155 | after collection `count() == 0` if and only if nothing is outstanding, if and only if every spawned task is freed |
| Tags.VerdictMeaning | src/task.rs:118-138 | each verdict exactly: Normal and Multiple for the stored tag without and with the mask bit, Expired for a lower rank, Error otherwise |
| Tags.SubmitTagsExactly | src/runtime.rs:319-358 | a submission keeps the two tag copies and the outstanding tags in agreement if and only if a multishot meets no unmasked SQE of its rank and a commit finds the mask set |
| Tags.AdvanceTagsExactly | src/runtime.rs:633-635 | ending a batch keeps the tags in agreement if and only if the rank is below 0x7FFF |
| Tags.ArmedTagsExactly | src/runtime.rs:226-232 | a Normal verdict leaves the copies equal; the outstanding tags stay acceptable if and only if the rank does not overflow or only masked rank-0 SQEs remain |
| Tags.ScriptOrdered | src/runtime.rs:256-268 | throughout an orderly poll, nested spawns included, CURRENT_TASK's tag equals the stored one, outstanding tags stay in order and no rank goes back |
| Tags.CompleteOrdered | src/runtime.rs:221-240 | an orderly completion is never rejected, no live task's rank goes back, and the order is kept |
| Tags.OrderlyRun | src/task.rs:118-155 | in every orderly run the dispatcher never reaches Error, and no rank of a task is polled twice by a Normal verdict |
| Tags.RejectedExactly | src/runtime.rs:219-236 | a completion ends in the Error panic if and only if its tag is out of order, and polls a returned future if and only if it carries the stored tag and the future has returned (the clone being countable) |
| Tags.StaleCostsOneReference | src/runtime.rs:225-244 | a stale final completion costs one reference: no poll, no submission, no change of tag or future; the last one frees the task |
| Counterexamples.EchoHandlerRejected | src/runtime.rs:346-358 | read then commit, with a kernel that completes everything, runs into the Error panic |
| Counterexamples.ForgetfulFuturePanics | src/task.rs:222-231 | a future that starts a read and returns is polled again by the read's completion |
| Counterexamples.RankOverflowRejected | src/task.rs:140-147 | after 0x7FFF awaited operations, the second of two started together runs into the Error panic |
| Sequential.CompleteSequential | src/runtime.rs:226-244 | every completion of a sequential task is one poll |
| Sequential.SequentialRun | src/runtime.rs:206-245 | in every run of sequential futures, of any length, polls are one plus completions and every outstanding tag is the stored one; the only faults are a full slab of at least 2^30 tasks, more than 1024 pending SQEs and the poll of a returned future, and not the last if the polls in which futures return submit nothing |
| Deliveries.PollStarts | src/runtime.rs:206-245 | a completion with the stored tag runs its submitter's next script in a state given in full: both tags moved on unless masked, CURRENT_TASK with the slot, the completion's result and flags and the SQE's generation |
| Deliveries.SubmittedThenPolled | src/runtime.rs:560-571 | when the j-th SQE of a submission polls, CURRENT_TASK holds the submitter's slot, exactly that result and those flags, and generation j for a batch |
| Deliveries.OtherStarts | src/runtime.rs:546-559 | what CURRENT_TASK and the header hold when a first poll starts and after a batch ends |
| Deliveries.StepUninvolved | src/runtime.rs:206-245 | a step that completes nothing of a task leaves its header, outstanding SQEs and records alone |
| Streams.MaskedPolls | src/runtime.rs:233-239 | a completion with the mask bit and the stored tag polls once, is no Normal verdict, and leaves the tag as the script leaves it |
| Streams.StreamRun | src/runtime.rs:233-239 | through any run, each completion of a task under a masked tag with passive polls is one poll and one delivery, and the tag stays |
| Streams.LogSent | src/runtime.rs:206-245 | along such a run every SQE of the task is outstanding or delivered, once |
| Streams.BatchDelivered | src/calls/write.rs:77-116 | a write batch under a masked tag is delivered whole in any run: the fan-out future is ready on the last completion with a report that depends only on the results |
| Streams.BatchQueued | src/runtime.rs:411-421 | a batch submitted with nothing outstanding is all the task has outstanding, under its tag |
| Streams.UnmaskedBatchStale | src/runtime.rs:411-421 | without the mask, the first completion makes the rest of the batch stale |
| Progress.CompleteProgress | src/runtime.rs:241-244 | a final completion strictly reduces the work left; F_MORE adds none |
| Progress.BoundedWork | src/runtime.rs:144-202 | a run processes at most as many final completions as its roots contain submissions, and with that many everything is freed |
| RuntimeLoop.Runtime.constructor | src/runtime.rs:102-111 | a new runtime is the protocol's initial state |
| RuntimeLoop.Runtime.TakeReferences | src/task.rs:181-193 | performs the protocol's counting, with the same failures |
| RuntimeLoop.Runtime.GiveReference | src/task.rs:232-256 | performs the protocol's release |
| RuntimeLoop.Runtime.Send | src/runtime.rs:270-421 | performs the protocol's submission |
| RuntimeLoop.Runtime.NextRank | src/runtime.rs:546-551 | performs the protocol's rank advance on both copies of the tag |
| RuntimeLoop.Runtime.SpawnFuture | src/runtime.rs:502-514 | performs the protocol's spawn on the array slab |
| RuntimeLoop.Runtime.Judge | src/runtime.rs:221-240 | performs the protocol's dispatch |
| RuntimeLoop.Runtime.HandleEntry | src/runtime.rs:206-245 | performs the protocol's completion handling |
| RuntimeLoop.Runtime.FreeUnusedSlots | src/runtime.rs:425-434 | the draining loop performs the protocol's collection |
| RuntimeLoop.Runtime.CollectAndCount | src/runtime.rs:193-199 | the exit test is true exactly when nothing is outstanding, exactly when no task is alive |
| RuntimeLoop.Runtime.HandleBatch | src/runtime.rs:181-183 | processing a batch of completions is a run of the protocol |
| RuntimeLoop.Runtime.SubmitPending | src/runtime.rs:113-137 | performs the protocol's flush: everything pending is handed over in order, or the queue's panic beyond 1024 |
| RuntimeLoop.Runtime.BlockOn | src/runtime.rs:144-202 | every behaviour of the loop is a run; it never waits with nothing outstanding, the exit test after the wait never fires, it ends exactly when all tasks are freed, and within as many waits as the future has submissions if each wait brings a final completion |
| RuntimeLoop.SequentialOutcome | src/runtime.rs:144-202 | a new runtime blocked on a sequential future that returns with nothing outstanding panics only with at least 2^30 tasks in a full slab or more than 1024 pending SQEs |
| BufRing.StoreFrame | src/runtime.rs:374-381 | a little-endian store is read back and changes no field it does not overlap |
| BufRing.EntryFrame | src/runtime.rs:80-91 | writing any entry, entry 0 included, changes that entry alone and never the tail word inside entry 0 |
| BufRing.TailFrame | src/runtime.rs:380-380 | writing the tail changes no entry |
| BufRing.BufferMemory | src/buf_pool.rs:104-110 | buffer `b` is the 4096 bytes from base + 4096 b, inside the ring's share of the pool and disjoint from every other |
| BufRing.EntriesApart | src/runtime.rs:373-377 | in memory that holds the ring, the entry of each id of the window names that id and its own 4096 bytes |
| BufRing.TailSlotConsumed | src/runtime.rs:369-371 | the slot a release writes is none of the window's, across any wrap of the 16-bit tail |
| BufRing.ReleaseHolds | src/runtime.rs:364-382 | a release appends the id to the window the memory encodes |
| BufRing.ReleaseOwned | src/runtime.rs:364-382 | a held id always finds room, and window and held ids stay a partition of all ids |
| BufRing.ReleaseExactly | src/runtime.rs:364-382 | a release keeps memory, window and holders consistent if and only if the id was held |
| BufRing.EmptyExactly | src/runtime.rs:89-91 | the kernel's comparison of 16-bit counters says empty exactly when the window is |
| BufRing.BufferRing.constructor | src/runtime.rs:73-91 | after set-up every buffer is offered once and the tail covers them all |
| BufRing.BufferRing.ReleaseBuffer | src/runtime.rs:364-382 | the byte stores perform the release of any id; the ring stays valid if and only if the id was held |
| BufRing.BufferRing.KernelSelect | src/runtime.rs:93-100 | the kernel takes the first id of the window, or nothing exactly when it is empty |
| ReadBuffers.SoundStep | src/buf_pool.rs:218-243 | a step of a buffer or its commit releases the slot at most once and only as its last; a last step without release is the drop of a polled commit |
| ReadBuffers.AtMostOneRelease | src/buf_pool.rs:218-243 | on every path, however long, the slot is released at most once; exactly once if and only if the commit is polled to its end or the buffer is dropped with no commit polled |
| ReadBuffers.RwBuffer.Drop | src/buf_pool.rs:234-243 | an uncommitted buffer returns its slot, a committed one does not |
| ReadBuffers.CommitCall.Poll | src/calls/commit.rs:28-41 | the first poll commits and returns nothing; the second returns the slot once, the destructor that follows not again |
| ReadBuffers.CommitCall.Abandon | src/buf_pool.rs:227-243 | an unpolled commit call returns the slot when dropped, a polled one does not |
| ReadBuffers.RwBuffer.constructor | src/buf_pool.rs:131-141 | a checked-out buffer points at base + 4096 times its id and is uncommitted |
| ReadBuffers.ReadFuture.Poll | src/calls/read.rs:25-49 | a positive result becomes a buffer of whichever id is in CURRENT_TASK, over the memory its ring entry named; any other returns that slot at once |
| ReadRuns.RunErases | src/runtime.rs:206-245 | protocol and buffers run together are a run of the protocol, so its theorems hold of them |
| Conservation.ScriptMoves | src/calls/read.rs:33-48 | a poll adds one occurrence of the id in CURRENT_TASK per pending read that takes it, and moves all other ids without loss |
| Conservation.StepAccounted | src/runtime.rs:206-245 | in every step only a completion that carries an id changes how often an id occurs, from one to the number of reads that take it |
| Conservation.LostExactly | src/calls/read.rs:33-48 | an id is lost if and only if no pending read takes its completion (wrong tag, or none waiting), duplicated if and only if several do |
| Conservation.LeakedExactly | src/buf_pool.rs:234-243 | an id leaks in a step of its holder if and only if the step drops a commit polled once |
| Conservation.ConservedExactly | src/buf_pool.rs:125-141 | in every run each id is always in exactly one place if and only if every completion that carries one is taken by exactly one read |
| Conservation.RunHolds | src/runtime.rs:364-382 | while completions are taken once, the ring's memory encodes the window along the whole run |
| ReadSequential.CompletionTaken | src/calls/read.rs:25-49 | in runs of sequential futures that await their reads, every completion that carries an id polls its submitter and is taken by exactly one read |
| ReadSequential.SequentialReads | src/calls/read.rs:25-49 | in every run of such futures without commits, ring window, posted completions and live buffers partition the ids, the memory encodes the window, and no read panics |
| ReadPlaces.PerformTaken | src/calls/read.rs:33-48 | the `ReadFuture` object does to the ring and yields exactly what the joint model's taken read says |
| ReadPlaces.HandledPerformed | src/buf_pool.rs:227-243 | the releases of buffer and commit objects are those of the joint model |
| ReadPlaces.HolderSteps | src/buf_pool.rs:227-243 | where each step of a holder leaves its buffer, and that it touches no other |
| ReadPlaces.CompletionPlace | src/calls/read.rs:33-48 | a taken completion's id goes to the ring if the read failed or hit end of file, and is a buffer of the polled task if it brought bytes |
| ReadPlaces.ClosedReturns | src/task.rs:237-239 | dropping a freed task's future leaves it no buffer and returns the uncommitted ones |
| ReadPlaces.FreedHoldsNothing | src/task.rs:237-239 | a task that a step frees holds no buffer afterwards |
| ReadPlaces.ExitHoldsNothing | src/runtime.rs:148-155 | in every run, when no task is left no buffer is in user space and no completion is posted |
| ReadPlaces.ExitReturnsAll | src/runtime.rs:148-155 | and if futures await their reads and do not commit, every buffer is then back in the ring once |
| ReadLosses.JoinedReadsDuplicate | src/calls/read.rs:33-48 | two reads awaited in one poll leave one buffer id in two places |
| ReadLosses.CancelledReadLost | src/calls/read.rs:33-48 | a read dropped while in flight loses its buffer although the task is polled |
| ReadLosses.ExpiredReadLost | src/runtime.rs:225-225 | the read that loses a select loses its buffer to the stale filter |
| ReadLosses.AbandonedCommitLeaks | src/calls/commit.rs:28-41 | a commit dropped after its first poll never returns its slot |
| WritePool.AllocKeeps | src/buf_pool.rs:146-160 | the slot allocated is the oldest free one and had no live handle; allocation fails exactly when none is free |
| WritePool.DropKeeps | src/buf_pool.rs:322-333 | the slot is queued, at the end, exactly when its last handle is dropped |
| WritePool.CloneThenDrop | src/buf_pool.rs:306-333 | dropping a clone restores the pool |
| WritePool.PoolRun | src/buf_pool.rs:76-93 | over any allocations, clones and drops: the free queue is duplicate-free and the slots of count 0, counts are live handles, free plus used is all |
| WritePool.BufPool.AllocWrite | src/buf_pool.rs:146-160 | performs the allocation and never returns a slot with a live handle |
| WritePool.BufPool.CloneHandle | src/buf_pool.rs:306-320 | performs the clone |
| WritePool.BufPool.DropHandle | src/buf_pool.rs:322-333 | performs the drop |
| WritePool.BufPool.SendMultipleWrite | src/runtime.rs:411-421 | the clone-and-consume loop leaves the count at its entry value minus the consumed argument, whatever the number of fds |
| FanOut.AnyOrder | src/calls/write.rs:77-116 | completions in any order: ready on the N-th, with a report that depends only on each write's result |
| FanOut.NotBeforeLast | src/calls/write.rs:88-115 | before the N-th completion the future waits and its counter is the number of unconsumed fds |
| FanOut.EachOnce | src/calls/write.rs:77-116 | completions that bring each generation once, with their results: ready on the last, with the order-free report |
| FanOut.ReportCounts | src/calls/write.rs:98-106 | one completion adds one Failed exactly if negative and one Partial exactly if different from `len` |
| FanOut.ReportMultiplicity | src/calls/write.rs:98-106 | the report holds each entry as often as there are writes that call for it |
| FanOut.FailuresReported | src/calls/write.rs:98-100 | an fd is reported as failed if and only if some write to it had a negative result |
| FanOut.ReportNamesFailures | src/calls/write.rs:98-106 | the report names an fd if and only if some write to it did not write exactly `len` bytes |
| FanOut.WriteMultiple.Poll | src/calls/write.rs:59-116 | the first poll leaves every handle count as it was, later ones consume one completion each; the slot never becomes free |
| FanOut.WriteMultiple.Drop | src/calls/write.rs:44-50 | only dropping the future gives up its handle |

## Left out

- Real io_uring calls, registration, opcodes, fixed-file tables and I/O errors of the wait: the kernel is an arbitrary environment.
- Partial submission: a flush hands over all pending SQEs or panics (`QueueFull`, more than 1024 pending, src/runtime.rs:113-137), so the queue is empty at each flush.
- Memory layout, type erasure, pinning and RefCell borrows of tasks: a task is a record under an identity that is never reused.
- Wakers and the wake list: no code constructs a waker, so the list is always empty.
- `WBuffer::submit`, `on_write_cqe` and the internal `user_data` helpers: the runtime never uses them.
- Batches of 65536 fds or more, whose length the source truncates to 16 bits: an operation of the model has at most 65535. (More than 1024 overfill the submission queue in any case.)
- Completions of a multishot that reach a fan-out future while its batch is out: the future takes their generation for one of its own; `Streams.BatchDelivered` has the batch alone outstanding.
- ReadStream and AcceptStream item accounting: a second `poll_next` in one poll re-reads the same completion. Buffers are selected for single-shot reads only.
- A pending `ReadFuture` moved into another task, and a future spawned after it has returned.
- Single-buffer write, accept, socket and connect futures: each is one single-shot submission, which the model has as `Single`.
- The unsafe `remove` of the slab, which only tests call, and teardown, which runs when no task is left.
- TaskSlab.Slab.Insert: promises nothing about the view once it has to grow to 2^31 slots, because the source then goes on with a broken free list.
- RuntimeLoop.Runtime.Start: stops with `SlabOverflow` at that point instead of continuing with the broken list.
- FanOut.AnyOrder: is stated for at most 65535 fds, the range of the 16-bit generation.
