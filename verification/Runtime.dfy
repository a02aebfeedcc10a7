/**
 The runtime object and its loop. Each method performs one operation of the original in
 place, on the array slab, and is proved to do to the abstract state exactly what
 `Protocol` says; `BlockOn` is the event loop, driven by an arbitrary kernel.
 */
module RuntimeLoop {
  import opened Words
  import opened TaskSlab
  import opened Protocol
  import opened ProtocolSafety
  import opened Sequential
  import opened Progress

  /** One completion the kernel posts: which flushed SQE (counted modulo their number), with
      what result and flags. */
  datatype Reply = Reply(pick: nat, result: int, flags: nat) {
    /** The reply as an event, when `n` SQEs are flushed. */
    function Event(n: nat): Event { Completion(if n == 0 then 0 else pick % n, result, flags) }
  }

  /** Some completion of the batch is a final one. */
  predicate Answers(batch: seq<Reply>) { exists i :: 0 <= i < |batch| && !More(batch[i].flags) }

  /** How `block_on` ends. `Waiting` is the kernel staying silent; the original's exit
      test directly after the wait is `DrainedAfterWait`, its empty-wakeup panic `EmptyWakeup`. */
  datatype Exit = Drained | DrainedAfterWait | Waiting | EmptyWakeup | Panicked(fault: Fault)

  class Runtime {
    const slab: Slab
    var heap: map<TaskId, RawTask>
    var nextId: TaskId
    var current: TaskInfo
    var pending: seq<Sqe>
    var kernel: seq<Sqe>
    var freeList: seq<u32>
    ghost var history: History

    ghost predicate Valid()
      reads this, slab, slab.slots
    {
      slab.Valid()
    }

    ghost function Abs(): State
      reads this, slab
    {
      State(slab.view, heap, nextId, current, pending, kernel, freeList, history)
    }

    /** The object did what the abstract operation says, or failed for the same reason. */
    ghost predicate Did(expected: Result<State>, fault: Option<Fault>)
      reads this, slab
    {
      match expected
      case Ok(s) => fault.None? && Abs() == s
      case Failed(why) => fault == Some(why)
    }

    constructor ()
      ensures Valid() && fresh(slab) && fresh(slab.slots)
      ensures Abs() == INIT
    {
      slab := new Slab(16);
      heap, nextId, current := map[], 0, DUMMY;
      pending, kernel, freeList := [], [], [];
      history := NO_HISTORY;
    }

    // ---- Reference counts --------------------------------------------------

    method Lookup(idx: u32) returns (r: Result<TaskId>)
      requires Valid()
      ensures r == Resolve(Abs(), idx)
    {
      var occupied := slab.Holds(idx);
      if !occupied {
        return Failed(BadIndex);
      }
      var t := slab.Get(idx);
      r := if t in heap then Ok(t) else Failed(UseAfterFree);
    }

    method TakeReferences(t: TaskId, n: u16) returns (fault: Option<Fault>)
      modifies this`heap
      ensures Did(AddRc(old(Abs()), t, n), fault)
    {
      if t !in heap {
        return Some(UseAfterFree);
      }
      var r := heap[t];
      if r.rc + n > 0xFFFF {
        return Some(RcOverflow(r.rc + n));
      }
      if Rank(r.rc) == Rank(r.rc + n) {
        return Some(BatchCount);
      }
      heap := heap[t := r.(rc := r.rc + n)];
      fault := None;
    }

    method GiveReference(t: TaskId) returns (fault: Option<Fault>)
      modifies this`heap, this`freeList, this`history
      ensures Did(Release(old(Abs()), t), fault)
    {
      if t !in heap {
        return Some(UseAfterFree);
      }
      var r := heap[t];
      if r.rc == 0 {
        return Some(RcUnderflow);
      }
      fault := None;
      if r.rc > 1 {
        heap := heap[t := r.(rc := r.rc - 1)];
      } else {
        heap := heap - {t};
        history := history.(dropped := history.dropped + multiset{t});
        if r.slabIdx.Some? {
          freeList := freeList + [r.slabIdx.value];
        } else {
          assert freeList + [] == freeList;
        }
      }
    }

    // ---- What a poll does --------------------------------------------------

    /** The `send_*` family. */
    method Send(op: Op) returns (fault: Option<Fault>)
      requires Valid()
      modifies this`heap, this`current, this`pending
      ensures Did(SubmitOp(old(Abs()), op), fault)
    {
      var found := Lookup(current.taskIdx);
      if found.Failed? {
        return Some(found.fault);
      }
      var t := found.value;
      current := Marked(current, op);
      if op.Multishot? {
        heap := heap[t := heap[t].(syscallNb := SetMask(heap[t].syscallNb))];
      }
      fault := TakeReferences(t, op.Count());
      if fault.None? {
        pending := pending + Entries(current, op, t);
      }
    }

    /** `advance_syscall_nb` and `set_to_next_task`, at the end of a write batch. */
    method NextRank() returns (fault: Option<Fault>)
      requires Valid()
      modifies this`heap, this`current
      ensures Did(AdvanceRank(old(Abs())), fault)
    {
      var found := Lookup(current.taskIdx);
      if found.Failed? {
        return Some(found.fault);
      }
      var t := found.value;
      heap := heap[t := heap[t].(syscallNb := NextTag(heap[t].syscallNb))];
      current := TaskInfo(current.taskIdx, (Rank(current.syscallNb) + 1) % 0x8000, -0x8000_0000, 0, 0);
      fault := None;
    }

    method Poll(script: Script) returns (fault: Option<Fault>)
      requires Valid()
      modifies this, slab, slab.slots
      ensures Did(RunScript(old(Abs()), script), fault)
      ensures fault.None? ==> Valid() && (slab.slots == old(slab.slots) || fresh(slab.slots))
      decreases script
    {
      match script
      case Return => fault := None;
      case Submit(op, rest) =>
        fault := Send(op);
        if fault.None? {
          fault := Poll(rest);
        }
      case Advance(rest) =>
        fault := NextRank();
        if fault.None? {
          fault := Poll(rest);
        }
      case Spawn(child, rest) =>
        fault := SpawnFuture(child);
        if fault.None? {
          fault := Poll(rest);
        }
      case Use(_, rest) => fault := Poll(rest);
    }

    /** `Task::new`, the clone into the slab and the initial CURRENT_TASK. */
    method Start(f: Future) returns (fault: Option<Fault>)
      requires Valid()
      modifies this, slab, slab.slots
      ensures Did(Begin(old(Abs()), f), fault)
      ensures fault.None? ==> Valid() && (slab.slots == old(slab.slots) || fresh(slab.slots))
    {
      var room := slab.HasRoom();
      if !room {
        return Some(SlabOverflow(slab.taskCount));
      }
      var idx := slab.Insert(nextId);
      history := history.(polled := history.polled + multiset{nextId});
      heap, nextId, current := heap[nextId := RawTask(2, 0, Some(idx), f.later)], nextId + 1, InitialPoll(idx);
      fault := None;
    }

    /** `spawn`. */
    method SpawnFuture(f: Future) returns (fault: Option<Fault>)
      requires Valid()
      modifies this, slab, slab.slots
      ensures Did(SpawnTask(old(Abs()), f), fault)
      ensures fault.None? ==> Valid() && (slab.slots == old(slab.slots) || fresh(slab.slots))
      decreases f
    {
      var t, context := nextId, current;
      fault := Start(f);
      if fault.None? {
        fault := Poll(f.now);
      }
      if fault.None? {
        fault := GiveReference(t);
      }
      if fault.None? {
        current := context;
        fault := GiveReference(t);
      }
    }

    // ---- Completions -------------------------------------------------------

    method PollOnce(t: TaskId) returns (fault: Option<Fault>)
      requires Valid() && t in heap
      modifies this, slab, slab.slots
      ensures Did(PollTask(old(Abs()), t), fault)
      ensures fault.None? ==> Valid() && (slab.slots == old(slab.slots) || fresh(slab.slots))
    {
      if heap[t].future.Returned? {
        return Some(PolledAfterReturn);
      }
      var script := heap[t].future.Now();
      heap := heap[t := heap[t].(future := heap[t].future.Later())];
      history := history.(polled := history.polled + multiset{t});
      fault := Poll(script);
    }

    method Judge(t: TaskId, info: TaskInfo) returns (fault: Option<Fault>)
      requires Valid() && t in heap
      modifies this, slab, slab.slots
      ensures Did(Dispatch(old(Abs()), t, info), fault)
      ensures fault.None? ==> Valid() && (slab.slots == old(slab.slots) || fresh(slab.slots))
    {
      match Evaluate(heap[t].syscallNb, info.syscallNb)
      case Error => fault := Some(NewerThanExpected);
      case Expired => fault := None;
      case Normal =>
        heap := heap[t := heap[t].(syscallNb := NextTag(heap[t].syscallNb))];
        current := info.(syscallNb := NextTag(info.syscallNb));
        history := history.(normal := history.normal + multiset{(t, Rank(info.syscallNb))});
        fault := PollOnce(t);
      case Multiple =>
        current := info;
        fault := PollOnce(t);
    }

    /** `handle_cqe_entry`. */
    method HandleEntry(cqe: Cqe) returns (fault: Option<Fault>)
      requires Valid()
      modifies this, slab, slab.slots
      ensures Did(HandleCqe(old(Abs()), cqe), fault)
      ensures fault.None? ==> Valid() && (slab.slots == old(slab.slots) || fresh(slab.slots))
    {
      var info := InfoOf(cqe);
      var found := Lookup(info.taskIdx);
      if found.Failed? {
        return Some(found.fault);
      }
      var t := found.value;
      history := history.(completed := history.completed + multiset{t});
      fault := TakeReferences(t, 1);
      if fault.None? {
        fault := Judge(t, info);
      }
      if fault.None? && !More(cqe.flags) {
        fault := GiveReference(t);
      }
      if fault.None? {
        fault := GiveReference(t);
      }
    }

    // ---- The loop ----------------------------------------------------------

    /** `free_unsed_slab_slot`. */
    method FreeUnusedSlots() returns (fault: Option<Fault>)
      requires Valid()
      modifies this`freeList, slab, slab.slots
      ensures Did(Collect(old(Abs())), fault)
      ensures fault.None? ==> Valid() && slab.slots == old(slab.slots)
    {
      var i := 0;
      while i < |freeList|
        modifies slab, slab.slots
        invariant 0 <= i <= |freeList|
        invariant Valid() && slab.slots == old(slab.slots)
        invariant Drain(slab.view, freeList[i..]) == Drain(old(slab.view), freeList)
      {
        assert freeList[i..][0] == freeList[i] && freeList[i..][1..] == freeList[i + 1..];
        var removed := slab.RemoveDroppedTask(freeList[i]);
        if !removed {
          return Some(RemoveFree);
        }
        i := i + 1;
      }
      freeList := [];
      fault := None;
    }

    /** Collect, then the exit test `count() == 0`. */
    method CollectAndCount() returns (empty: bool)
      requires Valid() && Inv(Abs(), multiset{})
      modifies this, slab, slab.slots
      ensures Valid() && slab.slots == old(slab.slots)
      ensures Inv(Abs(), multiset{}) && Collect(old(Abs())) == Ok(Abs())
      ensures pending == old(pending) && kernel == old(kernel) && heap == old(heap)
      ensures empty <==> pending == [] && kernel == []
      ensures empty <==> heap == map[]
      ensures empty <==> slab.taskCount == 0
    {
      ExitTest(Abs());
      CollectSafe(Abs(), multiset{});
      var fault := FreeUnusedSlots();
      empty := slab.taskCount == 0;
    }

    /** The kernel completes some flushed SQE; a reply it could not give is ignored. */
    method Deliver(reply: Reply) returns (fault: Option<Fault>)
      requires Valid()
      modifies this, slab, slab.slots
      ensures Did(Step(old(Abs()), reply.Event(old(|kernel|))), fault)
      ensures fault.None? ==> Valid() && (slab.slots == old(slab.slots) || fresh(slab.slots))
    {
      if kernel == [] {
        return None;
      }
      var k := reply.pick % |kernel|;
      if More(reply.flags) && !kernel[k].multishot {
        return None;
      }
      var cqe := Cqe(kernel[k].userData, reply.result, reply.flags);
      if !More(reply.flags) {
        kernel := Without(kernel, k);
      }
      fault := HandleEntry(cqe);
    }

    /** The `for entry in entries` loop over one batch of completions. */
    method HandleBatch(batch: seq<Reply>) returns (fault: Option<Fault>)
      requires Valid() && Inv(Abs(), multiset{})
      modifies this, slab, slab.slots
      ensures Did(Run(old(Abs()), BatchEvents(old(Abs()), batch)), fault)
      ensures fault.None? ==> Valid() && Inv(Abs(), multiset{}) && (slab.slots == old(slab.slots) || fresh(slab.slots))
      ensures fault.Some? ==> Reachable(fault.value)
    {
      fault := None;
      ghost var s0 := Abs();
      var i := 0;
      while i < |batch|
        invariant 0 <= i <= |batch| && fault.None?
        invariant Run(s0, BatchEvents(s0, batch)) == Run(Abs(), BatchEvents(Abs(), batch[i..]))
        invariant Valid() && Inv(Abs(), multiset{}) && (slab.slots == old(slab.slots) || fresh(slab.slots))
      {
        StepSafe(Abs(), batch[i].Event(|kernel|));
        BatchNext(Abs(), batch[i..]);
        assert batch[i..][0] == batch[i] && batch[i..][1..] == batch[i + 1..];
        fault := Deliver(batch[i]);
        if fault.Some? {
          return;
        }
        i := i + 1;
      }
    }

    /** The exit test at the end of a turn. */
    method Settle() returns (exit: Option<Exit>)
      requires Valid() && Inv(Abs(), multiset{})
      modifies this, slab, slab.slots
      ensures Valid() && slab.slots == old(slab.slots)
      ensures Outcome(old(Abs()), [CollectSlots], exit, Abs()) && (exit.None? || exit.value.Drained?)
    {
      RunOne(Abs(), CollectSlots);
      var empty := CollectAndCount();
      exit := if empty then Some(Drained) else None;
    }

    /** The spawn of the root future and the first exit test. */
    method Boot(root: Future) returns (exit: Option<Exit>, ghost events: seq<Event>)
      requires Valid() && Inv(Abs(), multiset{})
      modifies this, slab, slab.slots
      ensures Outcome(old(Abs()), events, exit, Abs())
      ensures Alive(exit) ==> Valid() && (slab.slots == old(slab.slots) || fresh(slab.slots))
      ensures exit != Some(Waiting) && exit != Some(EmptyWakeup)
      ensures SpawnsOnly(events, {root}) && RootWork(events) == Work(root)
    {
      ghost var s0 := Abs();
      StepSafe(s0, SpawnRoot(root));
      events := [SpawnRoot(root)];
      RunOne(s0, SpawnRoot(root));
      var fault := SpawnFuture(root);
      if fault.Some? {
        return Some(Panicked(fault.value)), events;
      }
      ghost var s1 := Abs();
      exit := Settle();
      OutcomeConcat(s0, events, s1, [CollectSlots], exit, Abs());
      events := events + [CollectSlots];
    }

    /** `submit_and_wait` up to the wait. */
    method SubmitPending() returns (fault: Option<Fault>)
      modifies this`kernel, this`pending
      ensures Did(Step(old(Abs()), FlushAll), fault)
    {
      if |pending| > RING_ENTRIES {
        return Some(QueueFull(|pending|));
      }
      kernel, pending := kernel + pending, [];
      fault := None;
    }

    /** One turn of the loop after its flush: the exit test, the batch, the exit test. */
    method Turn(batch: seq<Reply>) returns (exit: Option<Exit>, ghost events: seq<Event>)
      requires Valid() && Busy(Abs()) && pending == []
      modifies this, slab, slab.slots
      ensures Outcome(old(Abs()), events, exit, Abs())
      ensures Alive(exit) ==> Valid() && (slab.slots == old(slab.slots) || fresh(slab.slots))
      ensures (exit == Some(EmptyWakeup) ==> batch == []) && exit != Some(Waiting) && SpawnsOnly(events, {})
      ensures Alive(exit) && Answers(batch) ==> 1 <= Finals(old(Abs()), events)
    {
      hide Inv, Run, Finals, BatchEvents, Collect;
      ghost var s0 := Abs();
      var empty := CollectAndCount();
      events := [CollectSlots];
      RunOne(s0, CollectSlots);
      if empty {
        return Some(DrainedAfterWait), events;
      }
      if batch == [] {
        return Some(EmptyWakeup), events;
      }
      ghost var s2, more := Abs(), BatchEvents(Abs(), batch);
      var fault := HandleBatch(batch);
      BatchSpawnsNone(s2, batch);
      if fault.None? {
        BatchFinals(s2, batch);
      }
      RunConcat(s0, events, more);
      FinalsConcat(s0, events, more);
      events := events + more;
      if fault.Some? {
        return Some(Panicked(fault.value)), events;
      }
      ghost var s1 := Abs();
      exit := Settle();
      OutcomeConcat(s0, events, s1, [CollectSlots], exit, Abs());
      FinalsConcat(s0, events, [CollectSlots]);
      events := events + [CollectSlots];
    }

    /**
     `block_on`, against a kernel that answers each wait with one of `batches`. Every
     behaviour is a run of the protocol; the loop never waits with nothing outstanding, its
     exit test after the wait never fires, and it stops exactly when everything has completed
     and every task has been freed. If every batch holds a final completion, that is within as
     many waits as there are submissions in the future.
     */
    method BlockOn(root: Future, batches: seq<seq<Reply>>) returns (exit: Exit, ghost events: seq<Event>)
      requires Valid() && Inv(Abs(), multiset{})
      modifies this, slab, slab.slots
      ensures Outcome(old(Abs()), events, Some(exit), Abs())
      ensures !exit.Panicked? ==> Valid()
      ensures exit.EmptyWakeup? ==> [] in batches
      ensures SpawnsOnly(events, {root})
      ensures WorkLeft(old(Abs())) + Work(root) <= |batches| && AllAnswer(batches) ==> exit.Drained? || exit.Panicked?
    {
      hide Inv, Run, Step, Finals, Outcome;
      ghost var s0 := Abs();
      var ended;
      ended, events := Boot(root);
      var i := 0;
      while ended.None?
        invariant 0 <= i <= |batches|
        invariant Alive(ended) ==> Valid() && (slab.slots == old(slab.slots) || fresh(slab.slots))
        invariant Looped(s0, events, ended, Abs(), i, root, batches)
        decreases ended.None?, |batches| - i
      {
        FlushLooped(s0, events, Abs(), i, root, batches);
        events := events + [FlushAll];
        var fault := SubmitPending();
        if fault.Some? {
          ended := Some(Panicked(fault.value));
        } else if i == |batches| {
          ended := Some(Waiting);
        } else {
          ghost var s2, more := Abs(), [];
          ended, more := Turn(batches[i]);
          TurnLooped(s0, events, s2, more, ended, Abs(), i, root, batches);
          events := events + more;
          i := i + 1;
        }
      }
      exit := ended.value;
      LoopBounded(s0, events, exit, Abs(), i, root, batches);
    }
  }

  // ---- Runs of the loop ----------------------------------------------------

  /** Something is outstanding and some task is alive, as before every wait. */
  ghost predicate Busy(s: State) {
    Inv(s, multiset{}) && s.heap != map[] && (s.pending != [] || s.kernel != [])
  }

  /** The loop has not panicked, so the state is still meaningful. */
  predicate Alive(exit: Option<Exit>) { exit.None? || !exit.value.Panicked? }

  predicate SpawnsOnly(events: seq<Event>, roots: set<Future>) {
    forall e :: e in events && e.SpawnRoot? ==> e.future in roots
  }

  /** What the loop may claim when, started in `s0`, it has performed `events` and is in `s`:
      going on means work is outstanding, an end means what its name says. */
  ghost predicate Outcome(s0: State, events: seq<Event>, exit: Option<Exit>, s: State) {
    if !Alive(exit) then Run(s0, events) == Failed(exit.value.fault) && Reachable(exit.value.fault)
    else
      && Run(s0, events) == Ok(s)
      && Inv(s, multiset{})
      && exit != Some(DrainedAfterWait)
      && (exit == Some(Drained) <==> s.heap == map[])
      && (exit == Some(Drained) ==> s.pending == [] && s.kernel == [] && s.slab.tasks == map[])
      && (exit == None ==> Busy(s))
      && (exit == Some(Waiting) || exit == Some(EmptyWakeup) ==> s.kernel != [])
  }

  predicate AllAnswer(batches: seq<seq<Reply>>) { forall b :: b in batches ==> Answers(b) }

  /** The events of a batch processed from `s` on, up to the first that fails. */
  ghost function BatchEvents(s: State, batch: seq<Reply>): seq<Event>
    decreases batch
  {
    if batch == [] then []
    else
      var e := batch[0].Event(|s.kernel|);
      [e] + (if Step(s, e).Ok? then BatchEvents(Step(s, e).value, batch[1..]) else [])
  }

  lemma BatchNext(s: State, batch: seq<Reply>)
    requires batch != []
    ensures var e := batch[0].Event(|s.kernel|);
      Run(s, BatchEvents(s, batch)) ==
        if Step(s, e).Ok? then Run(Step(s, e).value, BatchEvents(Step(s, e).value, batch[1..])) else Step(s, e)
  {
    var e := batch[0].Event(|s.kernel|);
    assert Step(s, e).Ok? ==> BatchEvents(s, batch)[1..] == BatchEvents(Step(s, e).value, batch[1..]);
  }

  /** A batch processed while something is outstanding, and holding a final completion,
      processes one; and it spawns no root. */
  lemma {:induction false} BatchFinals(s: State, batch: seq<Reply>)
    requires Inv(s, multiset{}) && Run(s, BatchEvents(s, batch)).Ok?
    ensures s.kernel != [] && Answers(batch) ==> 1 <= Finals(s, BatchEvents(s, batch))
    decreases batch
  {
    if batch != [] {
      var e := batch[0].Event(|s.kernel|);
      BatchNext(s, batch);
      StepSafe(s, e);
      var s1, rest := Step(s, e).value, batch[1..];
      assert BatchEvents(s, batch)[1..] == BatchEvents(s1, rest);
      BatchFinals(s1, rest);
      if s.kernel != [] && Answers(batch) && More(batch[0].flags) {
        if CanComplete(s, e.k, e.flags) {
          CompleteSafe(s, e.k, e.result, e.flags);
        }
        var i :| 0 <= i < |batch| && !More(batch[i].flags);
        assert rest[i - 1] == batch[i];
      }
    }
  }

  lemma {:induction false} BatchSpawnsNone(s: State, batch: seq<Reply>)
    ensures SpawnsOnly(BatchEvents(s, batch), {})
    decreases batch
  {
    if batch != [] && Step(s, batch[0].Event(|s.kernel|)).Ok? {
      BatchSpawnsNone(Step(s, batch[0].Event(|s.kernel|)).value, batch[1..]);
    }
  }

  /** The loop, started in `s0`, is in `s` after `i` waits: what it has done and how it ended,
      and if every batch holds a final completion, that at least `i` have been processed. */
  ghost predicate Looped(s0: State, events: seq<Event>, ended: Option<Exit>, s: State, i: nat, root: Future, batches: seq<seq<Reply>>) {
    && Outcome(s0, events, ended, s)
    && SpawnsOnly(events, {root}) && RootWork(events) == Work(root)
    && (Alive(ended) && AllAnswer(batches) ==> i <= Finals(s0, events))
    && (ended == Some(Waiting) ==> i == |batches|)
    && (ended == Some(EmptyWakeup) ==> [] in batches)
  }

  lemma FlushLooped(s0: State, events: seq<Event>, s: State, i: nat, root: Future, batches: seq<seq<Reply>>)
    requires Looped(s0, events, None, s, i, root, batches)
    ensures match Step(s, FlushAll)
            case Ok(s') =>
              && Looped(s0, events + [FlushAll], None, s', i, root, batches) && Busy(s') && s'.pending == []
              && (i == |batches| ==> Looped(s0, events + [FlushAll], Some(Waiting), s', i, root, batches))
            case Failed(why) => forall s' :: Looped(s0, events + [FlushAll], Some(Panicked(why)), s', i, root, batches)
  {
    FlushKeeps(s, multiset{});
    RunThen(s0, events, FlushAll);
    FinalsConcat(s0, events, [FlushAll]);
    RootWorkConcat(events, [FlushAll]);
  }

  lemma TurnLooped(s0: State, events: seq<Event>, s: State, more: seq<Event>, ended: Option<Exit>, s': State,
                   i: nat, root: Future, batches: seq<seq<Reply>>)
    requires Looped(s0, events, None, s, i, root, batches) && i < |batches|
    requires Outcome(s, more, ended, s') && SpawnsOnly(more, {})
    requires Alive(ended) && Answers(batches[i]) ==> 1 <= Finals(s, more)
    requires ended != Some(Waiting) && (ended == Some(EmptyWakeup) ==> batches[i] == [])
    ensures Looped(s0, events + more, ended, s', i + 1, root, batches)
  {
    OutcomeConcat(s0, events, s, more, ended, s');
    FinalsConcat(s0, events, more);
    RootWorkConcat(events, more);
    NoRootWork(more);
  }

  lemma LoopBounded(s0: State, events: seq<Event>, exit: Exit, s: State, i: nat, root: Future, batches: seq<seq<Reply>>)
    requires Inv(s0, multiset{}) && Looped(s0, events, Some(exit), s, i, root, batches)
    ensures WorkLeft(s0) + Work(root) <= |batches| && AllAnswer(batches) ==> exit.Drained? || exit.Panicked?
  {
    if exit.Waiting? {
      RunProgress(s0, events, s);
    }
    assert !Answers([]);
  }

  lemma OutcomeConcat(s0: State, a: seq<Event>, s: State, b: seq<Event>, exit: Option<Exit>, s': State)
    requires Run(s0, a) == Ok(s) && Outcome(s, b, exit, s')
    ensures Outcome(s0, a + b, exit, s')
  {
    RunConcat(s0, a, b);
  }

  /** A new runtime blocked on a sequential future whose last poll submits nothing never panics,
      short of 2^31 slots and of a full submission queue. */
  lemma SequentialOutcome(root: Future, events: seq<Event>, exit: Exit, s: State)
    requires IsSequential(root) && Quiet(root) && SpawnsOnly(events, {root})
    requires Outcome(INIT, events, Some(exit), s)
    ensures exit.Panicked? ==> SlabFault(exit.fault) || QueueFault(exit.fault)
  {
    SequentialRun(events, true);
  }
}
