/**
 Safety of every run: the invariant that ties the slab, the task heap, the
 outstanding submissions and the reference counts together, its preservation by
 every step, and what follows from it (no completion reaches a wrong task, exact
 counting, deferred reclamation, exit).
 */
module ProtocolSafety {
  import opened Words
  import opened Indices
  import opened TaskSlab
  import opened Protocol

  // ---- Owners of a queue ---------------------------------------------------

  function OwnerList(q: seq<Sqe>): (r: seq<TaskId>)
    ensures |r| == |q| && forall i :: 0 <= i < |q| ==> r[i] == q[i].owner
  {
    seq(|q|, i requires 0 <= i < |q| => q[i].owner)
  }

  /** How many of the queue's SQEs each task submitted. */
  ghost function Owners(q: seq<Sqe>): multiset<TaskId> { multiset(OwnerList(q)) }

  lemma OwnersConcat(a: seq<Sqe>, b: seq<Sqe>)
    ensures Owners(a + b) == Owners(a) + Owners(b)
  {
    assert OwnerList(a + b) == OwnerList(a) + OwnerList(b);
  }

  lemma OwnersWithout(q: seq<Sqe>, k: nat)
    requires k < |q|
    ensures Owners(q) == Owners(Without(q, k)) + multiset{q[k].owner}
  {
    var r := OwnerList(q);
    assert r == r[..k] + [r[k]] + r[k + 1..];
    assert OwnerList(Without(q, k)) == r[..k] + r[k + 1..];
  }

  lemma {:induction false} OwnersUniform(q: seq<Sqe>, t: TaskId)
    requires forall x :: x in q ==> x.owner == t
    ensures Owners(q) == multiset{}[t := |q|]
  {
    if q == [] {
      assert OwnerList(q) == [];
    } else {
      OwnersUniform(q[1..], t);
      assert q[0] in q;
      assert OwnerList(q) == [t] + OwnerList(q[1..]);
    }
  }

  lemma OwnersMember(q: seq<Sqe>, t: TaskId)
    ensures t in Owners(q) <==> exists x :: x in q && x.owner == t
  {
    if t in Owners(q) {
      assert t in OwnerList(q);
      var i :| 0 <= i < |q| && OwnerList(q)[i] == t;
      assert q[i] in q;
    }
    if x :| x in q && x.owner == t {
      var i :| 0 <= i < |q| && q[i] == x;
      assert OwnerList(q)[i] == t;
    }
  }

  /** References held by submissions whose final completion is unprocessed. */
  ghost function Owned(s: State): multiset<TaskId> { Owners(s.pending) + Owners(s.kernel) }

  predicate Outstanding(s: State, x: Sqe) { x in s.pending || x in s.kernel }

  // ---- The invariant -------------------------------------------------------

  /** A live task and its slot point at each other. */
  ghost predicate LiveSlot(s: State, t: TaskId) {
    t in s.heap ==>
      && t < s.nextId
      && s.heap[t].slabIdx.Some?
      && s.heap[t].slabIdx.value in s.slab.tasks
      && s.slab.tasks[s.heap[t].slabIdx.value] == t
  }

  /** An occupied slot holds a live task, or a freed one waiting in the free list. */
  ghost predicate OccupiedSlot(s: State, i: u32) {
    i in s.slab.tasks ==>
      var t := s.slab.tasks[i];
      t < s.nextId && (if t in s.heap then s.heap[t].slabIdx == Some(i) else i in s.freeList)
  }

  /** The free list names only slots of freed tasks. */
  ghost predicate DeadSlot(s: State, i: u32) {
    i in s.freeList ==> i in s.slab.tasks && s.slab.tasks[i] !in s.heap
  }

  /** A reference count is the number of outstanding submissions plus held handles. */
  ghost predicate Counted(s: State, h: multiset<TaskId>, t: TaskId) {
    && (t in s.heap ==> 0 < s.heap[t].rc == Owned(s)[t] + h[t])
    && (t !in s.heap ==> Owned(s)[t] == 0 == h[t])
  }

  /** A submission's word names the slot of the task that submitted it. */
  ghost predicate Addressed(s: State, x: Sqe) {
    Outstanding(s, x) ==>
      x.owner in s.heap && s.heap[x.owner].slabIdx == Some(FromUserData(x.userData).taskIdx)
  }

  /** A spawned task's future is dropped once, when the task leaves the heap. */
  ghost predicate DroppedOnce(s: State, t: TaskId) {
    s.history.dropped[t] == if t < s.nextId && t !in s.heap then 1 else 0
  }

  /** The invariant, while the runtime's stack holds the handles `h`. */
  ghost predicate Inv(s: State, h: multiset<TaskId>) {
    && WellFormed(s.slab)
    && Distinct(s.freeList)
    && (forall t :: LiveSlot(s, t))
    && (forall i :: OccupiedSlot(s, i))
    && (forall i :: DeadSlot(s, i))
    && (forall t :: Counted(s, h, t))
    && (forall x :: Addressed(s, x))
    && (forall t :: DroppedOnce(s, t))
  }

  /** Task `t` is being polled: it is alive, held, and CURRENT_TASK names its slot. */
  ghost predicate Running(s: State, h: multiset<TaskId>, t: TaskId) {
    t in s.heap && t in h && s.heap[t].slabIdx == Some(s.current.taskIdx)
  }

  /** The faults a submission can end in: more than 65535 references, or a batch size that
      `add_rc` refuses. */
  predicate CountFault(f: Fault) { (f.RcOverflow? && f.count > 65535) || f.BatchCount? }

  /** The fault a spawn can end in: a slab in which 2^30 tasks or more leave no slot free. */
  predicate SlabFault(f: Fault) { f.SlabOverflow? && f.tasks >= 0x4000_0000 }

  /** The faults a poll can end in. */
  predicate Exhausted(f: Fault) { CountFault(f) || SlabFault(f) }

  /** The fault a flush can end in: more than 1024 pending submissions. */
  predicate QueueFault(f: Fault) { f.QueueFull? && f.pending > 1024 }

  /** The resource limits a run can hit. */
  predicate Limit(f: Fault) { Exhausted(f) || QueueFault(f) }

  /** The faults a run can end in: a limit, the dispatcher's verdict on a tag, or the poll of a
      future that has returned. */
  predicate Reachable(f: Fault) { Limit(f) || f.NewerThanExpected? || f.PolledAfterReturn? }

  /** Every other task is left exactly as it was. */
  ghost predicate OthersKept(s: State, s': State, t: TaskId) {
    forall u :: u in s.heap && u != t ==> u in s'.heap && s'.heap[u] == s.heap[u]
  }

  /** What the poll of `t` may change. */
  ghost predicate PollFrame(s: State, s': State, t: TaskId) {
    && OthersKept(s, s', t)
    && s'.kernel == s.kernel
    && s.nextId <= s'.nextId
    && s.pending <= s'.pending
    && s'.history.completed == s.history.completed
  }

  // ---- Reference counting --------------------------------------------------

  /** Changing only the count and tag of one task touches nothing but its own counting. */
  lemma HeaderKeeps(s: State, h: multiset<TaskId>, t: TaskId, r: RawTask, h': multiset<TaskId>)
    requires Inv(s, h) && t in s.heap && r.slabIdx == s.heap[t].slabIdx
    requires 0 < r.rc && forall u :: h'[u] == if u == t then h[u] + r.rc - s.heap[t].rc else h[u]
    ensures Inv(SetTask(s, t, r), h')
  {
    var s' := SetTask(s, t, r);
    forall u ensures LiveSlot(s', u) { assert LiveSlot(s, u); }
    forall i ensures OccupiedSlot(s', i) { assert OccupiedSlot(s, i); }
    forall i ensures DeadSlot(s', i) { assert DeadSlot(s, i); }
    forall u ensures Counted(s', h', u) { assert Counted(s, h, u); }
    forall x ensures Addressed(s', x) { assert Addressed(s, x); }
    forall u ensures DroppedOnce(s', u) { assert DroppedOnce(s, u); }
  }

  /** `add_rc` refuses exactly the multiples of 2^15, the empty batch among them; a single
      reference is never refused. */
  lemma AddRcRefusesExactly(s: State, t: TaskId, n: u16)
    requires t in s.heap && s.heap[t].rc + n <= 0xFFFF
    ensures AddRc(s, t, n) == Failed(BatchCount) <==> n == 0 || n == 0x8000
    ensures AddRc(s, t, n).Ok? <==> n != 0 && n != 0x8000
  {
    TagSplits(s.heap[t].rc);
    TagSplits(s.heap[t].rc + n);
  }

  lemma CloneKeeps(s: State, h: multiset<TaskId>, t: TaskId)
    requires Inv(s, h) && t in s.heap
    ensures match AddRc(s, t, 1)
            case Ok(s') => Inv(s', h + multiset{t}) && s' == SetTask(s, t, s.heap[t].(rc := s.heap[t].rc + 1))
            case Failed(why) => Exhausted(why)
  {
    if s.heap[t].rc < 0xFFFF {
      HeaderKeeps(s, h, t, s.heap[t].(rc := s.heap[t].rc + 1), h + multiset{t});
    }
  }

  /** A held handle can always be released; the last reference frees the task. */
  lemma ReleaseKeeps(s: State, h: multiset<TaskId>, t: TaskId)
    requires Inv(s, h) && t in h
    ensures Release(s, t).Ok?
    ensures Inv(Release(s, t).value, h - multiset{t})
    ensures OthersKept(s, Release(s, t).value, t)
  {
    assert Counted(s, h, t);
    var r := s.heap[t];
    if r.rc > 1 {
      HeaderKeeps(s, h, t, r.(rc := r.rc - 1), h - multiset{t});
    } else {
      FreeKeeps(s, h, t);
    }
  }

  lemma FreeKeeps(s: State, h: multiset<TaskId>, t: TaskId)
    requires Inv(s, h) && t in h && t in s.heap && s.heap[t].rc == 1
    ensures Inv(Release(s, t).value, h - multiset{t})
  {
    assert Counted(s, h, t) && LiveSlot(s, t);
    var s', h', i := Release(s, t).value, h - multiset{t}, s.heap[t].slabIdx.value;
    assert DeadSlot(s, i);
    assert s'.freeList == s.freeList + [i];
    forall u ensures LiveSlot(s', u) { assert LiveSlot(s, u); }
    forall j ensures OccupiedSlot(s', j) { assert OccupiedSlot(s, j); }
    forall j ensures DeadSlot(s', j) { assert DeadSlot(s, j); }
    forall u ensures Counted(s', h', u) { assert Counted(s, h, u); }
    forall x ensures Addressed(s', x) {
      assert Addressed(s, x);
      if Outstanding(s, x) && x.owner == t {
        OwnersMember(s.pending, t);
        OwnersMember(s.kernel, t);
        assert false;
      }
    }
    forall u ensures DroppedOnce(s', u) { assert DroppedOnce(s, u); }
  }

  // ---- What a poll does ----------------------------------------------------

  lemma SubmitKeeps(s: State, h: multiset<TaskId>, t: TaskId, op: Op)
    requires Inv(s, h) && Running(s, h, t)
    ensures match SubmitOp(s, op)
            case Ok(s') =>
              && Inv(s', h) && Running(s', h, t) && PollFrame(s, s', t)
              && s'.heap[t].future == s.heap[t].future
              && Owned(s') == Owned(s)[t := Owned(s)[t] + op.Count()]
            case Failed(why) => CountFault(why)
    ensures SubmitOp(s, op).Failed? && SubmitOp(s, op).fault.RcOverflow? <==> s.heap[t].rc + op.Count() > 65535
    ensures SubmitOp(s, op) == Failed(BatchCount) <==>
      s.heap[t].rc + op.Count() <= 65535 && (op.Count() == 0 || op.Count() == 0x8000)
  {
    assert LiveSlot(s, t);
    hide Inv, SubmitOp, Entries, Rank;
    SubmitShape(s, t, op);
    var r := SubmitOp(s, op);
    if r.Ok? {
      var n, info := op.Count(), Marked(s.current, op);
      var s1 := SetTask(s, t, r.value.heap[t]);
      HeaderKeeps(s, h, t, s1.heap[t], h[t := h[t] + n]);
      EntriesNameTask(info, op, t);
      QueueKeeps(s1, h, t, info, Entries(info, op, t));
    }
  }

  /** What a submission changes: its task's header, CURRENT_TASK's mask and the queue. */
  lemma SubmitShape(s: State, t: TaskId, op: Op)
    requires Resolve(s, s.current.taskIdx) == Ok(t)
    ensures match SubmitOp(s, op)
            case Ok(s') =>
              var info := Marked(s.current, op);
              && t in s'.heap && s'.heap[t] == s.heap[t].(rc := s'.heap[t].rc, syscallNb := s'.heap[t].syscallNb)
              && s'.heap[t].rc == s.heap[t].rc + op.Count()
              && s' == SetTask(s, t, s'.heap[t]).(current := info, pending := s.pending + Entries(info, op, t))
            case Failed(why) => CountFault(why)
    ensures SubmitOp(s, op).Failed? && SubmitOp(s, op).fault.RcOverflow? <==> s.heap[t].rc + op.Count() > 65535
    ensures SubmitOp(s, op) == Failed(BatchCount) <==>
      s.heap[t].rc + op.Count() <= 65535 && (op.Count() == 0 || op.Count() == 0x8000)
  {
    var r := SubmitOp(s, op);
    if s.heap[t].rc + op.Count() <= 0xFFFF {
      AddRcRefusesExactly(s, t, op.Count());
    }
    if r.Ok? {
      assert r.value.heap == s.heap[t := r.value.heap[t]];
    }
  }

  /** Queueing submissions moves their references from handles to the queue. */
  lemma QueueKeeps(s: State, h: multiset<TaskId>, t: TaskId, info: TaskInfo, added: seq<Sqe>)
    requires Inv(s, h[t := h[t] + |added|]) && t in s.heap && s.heap[t].slabIdx == Some(info.taskIdx)
    requires forall x :: x in added ==> x.owner == t && FromUserData(x.userData).taskIdx == info.taskIdx
    ensures Inv(s.(current := info, pending := s.pending + added), h)
    ensures Owned(s.(pending := s.pending + added)) == Owned(s)[t := Owned(s)[t] + |added|]
  {
    var h', s' := h[t := h[t] + |added|], s.(current := info, pending := s.pending + added);
    OwnersConcat(s.pending, added);
    OwnersUniform(added, t);
    forall u ensures LiveSlot(s', u) { assert LiveSlot(s, u); }
    forall i ensures OccupiedSlot(s', i) { assert OccupiedSlot(s, i); }
    forall i ensures DeadSlot(s', i) { assert DeadSlot(s, i); }
    forall u ensures Counted(s', h, u) { assert Counted(s, h', u); }
    forall x ensures Addressed(s', x) { assert Addressed(s, x); }
    forall u ensures DroppedOnce(s', u) { assert DroppedOnce(s, u); }
  }

  /** The k-th SQE of a submission decodes to the task's slot and tag, and in a batch to
      generation `k`. */
  lemma EntryDecodes(info: TaskInfo, op: Op, t: TaskId, k: nat)
    requires k < op.Count()
    ensures var x := Entries(info, op, t)[k];
      && x.owner == t && x.multishot == op.Multishot? && x.read == op.Read?
      && FromUserData(x.userData) == Payload(info.taskIdx, if op.Batch? then k else info.responseGen, info.syscallNb)
  {
    PackedFields(Payload(info.taskIdx, if op.Batch? then k else info.responseGen, info.syscallNb));
  }

  lemma EntriesNameTask(info: TaskInfo, op: Op, t: TaskId)
    ensures forall x :: x in Entries(info, op, t) ==>
      && x.owner == t && x.read == op.Read?
      && FromUserData(x.userData).taskIdx == info.taskIdx && FromUserData(x.userData).syscallNb == info.syscallNb
  {
    forall x | x in Entries(info, op, t)
      ensures x.owner == t && x.read == op.Read? && FromUserData(x.userData).taskIdx == info.taskIdx
      ensures FromUserData(x.userData).syscallNb == info.syscallNb
    {
      var k :| 0 <= k < op.Count() && Entries(info, op, t)[k] == x;
      EntryDecodes(info, op, t, k);
    }
  }

  lemma AdvanceKeeps(s: State, h: multiset<TaskId>, t: TaskId)
    requires Inv(s, h) && Running(s, h, t)
    ensures AdvanceRank(s).Ok?
    ensures var s' := AdvanceRank(s).value;
      && Inv(s', h) && Running(s', h, t) && PollFrame(s, s', t)
      && s'.heap[t].future == s.heap[t].future
  {
    assert LiveSlot(s, t) && Counted(s, h, t);
    var s1 := SetTask(s, t, s.heap[t].(syscallNb := NextTag(s.heap[t].syscallNb)));
    HeaderKeeps(s, h, t, s1.heap[t], h);
    BystanderKeeps(s1, AdvanceRank(s).value, h);
  }

  /** CURRENT_TASK and the poll, completion and rank records play no part in the invariant. */
  lemma BystanderKeeps(s: State, s': State, h: multiset<TaskId>)
    requires Inv(s, h)
    requires s' == s.(current := s'.current, history := s'.history) && s'.history.dropped == s.history.dropped
    ensures Inv(s', h)
  {
    forall u ensures LiveSlot(s', u) { assert LiveSlot(s, u); }
    forall i ensures OccupiedSlot(s', i) { assert OccupiedSlot(s, i); }
    forall i ensures DeadSlot(s', i) { assert DeadSlot(s, i); }
    forall u ensures Counted(s', h, u) { assert Counted(s, h, u); }
    forall x ensures Addressed(s', x) { assert Addressed(s, x); }
    forall u ensures DroppedOnce(s', u) { assert DroppedOnce(s, u); }
  }

  lemma BeginKeeps(s: State, h: multiset<TaskId>, f: Future)
    requires Inv(s, h)
    ensures match Begin(s, f)
            case Ok(s') =>
              && Inv(s', h + multiset{s.nextId, s.nextId})
              && Running(s', h + multiset{s.nextId, s.nextId}, s.nextId)
              && s.nextId !in s.heap && PollFrame(s, s', s.nextId)
            case Failed(why) => SlabFault(why)
    ensures Begin(s, f).Failed? <==> 0x4000_0000 <= |s.slab.tasks| == s.slab.len
  {
    TasksPlusFree(s.slab);
    var r := Begin(s, f);
    if r.Ok? {
      var t, idx, s', h' := s.nextId, NextIndex(s.slab), r.value, h + multiset{s.nextId, s.nextId};
      InsertKeeps(s.slab, t);
      assert LiveSlot(s, t) && DeadSlot(s, idx);
      forall u ensures LiveSlot(s', u) { assert LiveSlot(s, u); }
      forall i ensures OccupiedSlot(s', i) { assert OccupiedSlot(s, i); }
      forall i ensures DeadSlot(s', i) { assert DeadSlot(s, i) && OccupiedSlot(s, i); }
      forall u ensures Counted(s', h', u) { assert Counted(s, h, u); }
      forall x ensures Addressed(s', x) { assert Addressed(s, x); }
      forall u ensures DroppedOnce(s', u) { assert DroppedOnce(s, u); }
    }
  }

  /** A whole script: the invariant survives, other tasks are untouched, and only
      resource limits can stop it. */
  lemma {:induction false} ScriptSafe(s: State, h: multiset<TaskId>, t: TaskId, script: Script)
    requires Inv(s, h) && Running(s, h, t)
    ensures match RunScript(s, script)
            case Ok(s') =>
              && Inv(s', h) && Running(s', h, t) && PollFrame(s, s', t)
              && s'.heap[t].future == s.heap[t].future
            case Failed(why) => Exhausted(why)
    decreases script
  {
    match script
    case Return =>
    case Submit(op, rest) =>
      SubmitKeeps(s, h, t, op);
      var r := SubmitOp(s, op);
      if r.Ok? {
        ScriptSafe(r.value, h, t, rest);
      }
    case Advance(rest) =>
      AdvanceKeeps(s, h, t);
      ScriptSafe(AdvanceRank(s).value, h, t, rest);
    case Spawn(child, rest) =>
      SpawnSafe(s, h, child);
      var r := SpawnTask(s, child);
      if r.Ok? {
        ScriptSafe(r.value, h, t, rest);
      }
    case Use(_, rest) => ScriptSafe(s, h, t, rest);
  }

  /** A whole spawn, nested spawns included: CURRENT_TASK is restored exactly and every
      task that existed before, the spawning one too, keeps its count and its tag. */
  lemma {:induction false} SpawnSafe(s: State, h: multiset<TaskId>, f: Future)
    requires Inv(s, h)
    ensures match SpawnTask(s, f)
            case Ok(s') => Inv(s', h) && s'.current == s.current && PollFrame(s, s', s.nextId) && s.nextId !in s.heap
            case Failed(why) => Exhausted(why)
    decreases f
  {
    var t := s.nextId;
    BeginKeeps(s, h, f);
    var r1 := Begin(s, f);
    if r1.Ok? {
      var s1, h2 := r1.value, h + multiset{t, t};
      var r2 := RunScript(s1, f.now);
      ScriptSafe(s1, h2, t, f.now);
      if r2.Ok? {
        EndSpawn(r2.value, h, t, s.current);
      }
    }
  }

  /** The two releases that close a spawn, around the restoring of CURRENT_TASK. */
  lemma EndSpawn(s: State, h: multiset<TaskId>, t: TaskId, info: TaskInfo)
    requires Inv(s, h + multiset{t, t})
    ensures Release(s, t).Ok? && Release(Release(s, t).value.(current := info), t).Ok?
    ensures var s' := Release(Release(s, t).value.(current := info), t).value;
            Inv(s', h) && s'.current == info && PollFrame(s, s', t)
  {
    var h2 := h + multiset{t, t};
    ReleaseKeeps(s, h2, t);
    var s1, h1 := Release(s, t).value, h2 - multiset{t};
    BystanderKeeps(s1, s1.(current := info), h1);
    ReleaseKeeps(s1.(current := info), h1, t);
    assert h1 - multiset{t} == h;
  }

  // ---- Completions ---------------------------------------------------------

  lemma PollSafe(s: State, h: multiset<TaskId>, t: TaskId)
    requires Inv(s, h) && Running(s, h, t)
    ensures match PollTask(s, t)
            case Ok(s') => Inv(s', h) && Running(s', h, t) && PollFrame(s, s', t)
            case Failed(why) => Exhausted(why) || why.PolledAfterReturn?
    ensures PollTask(s, t) == Failed(PolledAfterReturn) <==> s.heap[t].future.Returned?
  {
    assert Counted(s, h, t);
    var r := s.heap[t];
    var s1 := SetTask(s, t, r.(future := r.future.Later()));
    HeaderKeeps(s, h, t, s1.heap[t], h);
    BystanderKeeps(s1, Polled(s, t), h);
    ScriptSafe(Polled(s, t), h, t, r.future.Now());
  }

  lemma DispatchSafe(s: State, h: multiset<TaskId>, t: TaskId, info: TaskInfo)
    requires Inv(s, h) && t in s.heap && t in h && s.heap[t].slabIdx == Some(info.taskIdx)
    ensures match Dispatch(s, t, info)
            case Ok(s') => Inv(s', h) && PollFrame(s, s', t)
            case Failed(why) => Reachable(why)
  {
    match Evaluate(s.heap[t].syscallNb, info.syscallNb)
    case Error =>
    case Expired =>
    case Normal =>
      assert Counted(s, h, t);
      var r := s.heap[t];
      var s1 := SetTask(s, t, r.(syscallNb := NextTag(r.syscallNb)));
      HeaderKeeps(s, h, t, s1.heap[t], h);
      BystanderKeeps(s1, Armed(s, t, info), h);
      PollSafe(Armed(s, t, info), h, t);
    case Multiple =>
      BystanderKeeps(s, s.(current := info), h);
      PollSafe(s.(current := info), h, t);
  }

  /** The dispatcher, given the reference of the final completion in `h`: it consumes that
      reference, keeps every other task, and fails only for the reachable reasons. */
  lemma HandleSafe(s: State, h: multiset<TaskId>, t: TaskId, cqe: Cqe)
    requires Inv(s, h) && t in s.heap && s.heap[t].slabIdx == Some(InfoOf(cqe).taskIdx)
    requires More(cqe.flags) || t in h
    ensures match HandleCqe(s, cqe)
            case Ok(s') =>
              && Inv(s', if More(cqe.flags) then h else h - multiset{t})
              && OthersKept(s, s', t) && s'.kernel == s.kernel && s.pending <= s'.pending
              && s'.history.completed == s.history.completed + multiset{t} && s.nextId <= s'.nextId
            case Failed(why) => Reachable(why)
  {
    assert LiveSlot(s, t);
    var s0 := s.(history := s.history.(completed := s.history.completed + multiset{t}));
    BystanderKeeps(s, s0, h);
    CloneKeeps(s0, h, t);
    var r1 := Judged(s, t);
    if r1.Ok? {
      var h1 := h + multiset{t};
      DispatchSafe(r1.value, h1, t, InfoOf(cqe));
      var r2 := Dispatch(r1.value, t, InfoOf(cqe));
      if r2.Ok? {
        FinishSafe(r2.value, h, t, More(cqe.flags));
      }
    }
  }

  /** The dispatcher's closing releases: one for a final completion, one for the clone. */
  lemma FinishSafe(s: State, h: multiset<TaskId>, t: TaskId, more: bool)
    requires Inv(s, h + multiset{t}) && (more || t in h)
    ensures var r := if more then Ok(s) else Release(s, t);
            && r.Ok? && Release(r.value, t).Ok?
            && var s' := Release(r.value, t).value;
               Inv(s', if more then h else h - multiset{t}) && OthersKept(s, s', t)
               && s'.kernel == s.kernel && s'.pending == s.pending
               && s'.history.completed == s.history.completed && s'.nextId == s.nextId
  {
    var h1 := h + multiset{t};
    ReleaseKeeps(s, h1, t);
    assert h1 - multiset{t} == h;
    if !more {
      ReleaseKeeps(Release(s, t).value, h, t);
    }
  }

  /** Taking a submission off the kernel's queue leaves its reference in hand. */
  lemma TakeKeeps(s: State, h: multiset<TaskId>, k: nat)
    requires Inv(s, h) && k < |s.kernel|
    ensures Inv(s.(kernel := Without(s.kernel, k)), h + multiset{s.kernel[k].owner})
  {
    var t, s' := s.kernel[k].owner, s.(kernel := Without(s.kernel, k));
    var h' := h + multiset{t};
    OwnersWithout(s.kernel, k);
    forall u ensures LiveSlot(s', u) { assert LiveSlot(s, u); }
    forall i ensures OccupiedSlot(s', i) { assert OccupiedSlot(s, i); }
    forall i ensures DeadSlot(s', i) { assert DeadSlot(s, i); }
    forall u ensures Counted(s', h', u) { assert Counted(s, h, u); }
    forall x ensures Addressed(s', x) { assert Addressed(s, x); }
    forall u ensures DroppedOnce(s', u) { assert DroppedOnce(s, u); }
  }

  /** Any completion, of any flushed submission, in any order: it is processed for the
      task that submitted it, and that task survives exactly while it has submissions left. */
  lemma CompleteSafe(s: State, k: nat, result: int, flags: nat)
    requires Inv(s, multiset{}) && CanComplete(s, k, flags)
    ensures match Complete(s, k, result, flags)
            case Ok(s') =>
              var t := s.kernel[k].owner;
              && Inv(s', multiset{}) && OthersKept(s, s', t)
              && s'.history.completed == s.history.completed + multiset{t}
              && s'.kernel == (if More(flags) then s.kernel else Without(s.kernel, k)) && s.nextId <= s'.nextId
            case Failed(why) => Reachable(why)
  {
    var x := s.kernel[k];
    assert Addressed(s, x);
    if More(flags) {
      HandleSafe(s, multiset{}, x.owner, Cqe(x.userData, result, flags));
    } else {
      TakeKeeps(s, multiset{}, k);
      var h := multiset{} + multiset{x.owner};
      HandleSafe(s.(kernel := Without(s.kernel, k)), h, x.owner, Cqe(x.userData, result, flags));
      assert h - multiset{x.owner} == multiset{};
    }
  }

  // ---- Slab collection -----------------------------------------------------

  /** Draining distinct occupied slots succeeds and removes exactly those. */
  lemma {:induction false} DrainRemoves(v: View, list: seq<u32>)
    requires WellFormed(v) && Distinct(list) && forall i :: i in list ==> i in v.tasks
    ensures Drain(v, list).Ok? && WellFormed(Drain(v, list).value)
    ensures Drain(v, list).value.tasks == v.tasks - Elements(list)
    ensures Drain(v, list).value.free == Backwards(list) + v.free
    decreases list
  {
    if list == [] {
      assert v.tasks - Elements(list) == v.tasks;
    } else {
      assert Backwards(list[1..]) + ([list[0]] + v.free) == Backwards(list) + v.free;
      RemoveKeeps(v, list[0]);
      assert forall i :: i in list[1..] ==> i != list[0];
      DrainRemoves(Removed(v, list[0]), list[1..]);
      assert Elements(list) == {list[0]} + Elements(list[1..]);
    }
  }

  /** Collection never trips the slab's assertions and leaves exactly the live tasks; the slots it
      frees are handed out again last freed first. */
  lemma CollectSafe(s: State, h: multiset<TaskId>)
    requires Inv(s, h)
    ensures Collect(s).Ok? && Inv(Collect(s).value, h)
    ensures Collect(s).value == s.(slab := Collect(s).value.slab, freeList := [])
    ensures Collect(s).value.slab.free == Backwards(s.freeList) + s.slab.free
    ensures forall i :: i in Collect(s).value.slab.tasks <==> i in s.slab.tasks && s.slab.tasks[i] in s.heap
  {
    forall i | i in s.freeList ensures i in s.slab.tasks { assert DeadSlot(s, i); }
    DrainRemoves(s.slab, s.freeList);
    var s' := Collect(s).value;
    forall i
      ensures i in s'.slab.tasks <==> i in s.slab.tasks && s.slab.tasks[i] in s.heap
    {
      assert OccupiedSlot(s, i) && DeadSlot(s, i);
    }
    forall u ensures LiveSlot(s', u) { assert LiveSlot(s, u); }
    forall i ensures OccupiedSlot(s', i) { assert OccupiedSlot(s, i); }
    forall u ensures Counted(s', h, u) { assert Counted(s, h, u); }
    forall x ensures Addressed(s', x) { assert Addressed(s, x); }
    forall u ensures DroppedOnce(s', u) { assert DroppedOnce(s, u); }
  }

  lemma FlushKeeps(s: State, h: multiset<TaskId>)
    requires Inv(s, h)
    ensures Inv(Flush(s), h)
    ensures Step(s, FlushAll).Failed? <==> |s.pending| > 1024
  {
    var s' := Flush(s);
    OwnersConcat(s.kernel, s.pending);
    forall u ensures LiveSlot(s', u) { assert LiveSlot(s, u); }
    forall i ensures OccupiedSlot(s', i) { assert OccupiedSlot(s, i); }
    forall i ensures DeadSlot(s', i) { assert DeadSlot(s, i); }
    forall u ensures Counted(s', h, u) { assert Counted(s, h, u); }
    forall x ensures Addressed(s', x) { assert Addressed(s, x); }
    forall u ensures DroppedOnce(s', u) { assert DroppedOnce(s, u); }
  }

  // ---- Whole runs ----------------------------------------------------------

  lemma RunOne(s: State, e: Event)
    ensures Run(s, [e]) == Step(s, e)
  {
    assert [e][1..] == [];
  }

  lemma RunStep(s: State, e: Event, rest: seq<Event>)
    ensures Run(s, [e] + rest) == if Step(s, e).Ok? then Run(Step(s, e).value, rest) else Step(s, e)
  {
    assert ([e] + rest)[1..] == rest;
  }

  lemma {:induction false} RunConcat(s: State, a: seq<Event>, b: seq<Event>)
    ensures Run(s, a + b) == if Run(s, a).Ok? then Run(Run(s, a).value, b) else Run(s, a)
    decreases a
  {
    if a == [] {
      assert a + b == b;
    } else {
      assert (a + b)[1..] == a[1..] + b;
      var r := Step(s, a[0]);
      if r.Ok? {
        RunConcat(r.value, a[1..], b);
      }
    }
  }

  lemma RunThen(s: State, a: seq<Event>, e: Event)
    ensures Run(s, a).Ok? ==> Run(s, a + [e]) == Step(Run(s, a).value, e)
  {
    RunConcat(s, a, [e]);
    RunOne(s, e);
    assert [e][1..] == [];
  }

  /** A new runtime: 16 free slots, handed out in order, nothing outstanding, no current task. */
  lemma InitInv()
    ensures Inv(INIT, multiset{})
    ensures INIT.slab.len == 16 == |INIT.slab.free| && forall k :: 0 <= k < 16 ==> INIT.slab.free[k] == k
    ensures INIT.heap == map[] && INIT.pending == [] && INIT.kernel == [] && INIT.freeList == []
    ensures INIT.current == TaskInfo(0xFFFF_FFFF, 0, -0x8000_0000, 0xFFFF_FFFF, 0xFFFF)
  {
    EncodesEmpty(seq(16, i requires 0 <= i < 16 => FreeSlot(i + 1)));
  }

  lemma StepSafe(s: State, e: Event)
    requires Inv(s, multiset{})
    ensures match Step(s, e) case Ok(s') => Inv(s', multiset{}) case Failed(why) => Reachable(why)
  {
    match e
    case SpawnRoot(f) => SpawnSafe(s, multiset{}, f);
    case FlushAll => FlushKeeps(s, multiset{});
    case Completion(k, result, flags) =>
      if CanComplete(s, k, flags) {
        CompleteSafe(s, k, result, flags);
      }
    case CollectSlots => CollectSafe(s, multiset{});
  }

  lemma {:induction false} RunKeeps(s: State, events: seq<Event>)
    requires Inv(s, multiset{})
    ensures match Run(s, events) case Ok(s') => Inv(s', multiset{}) case Failed(why) => Reachable(why)
    decreases events
  {
    if events != [] {
      StepSafe(s, events[0]);
      var r := Step(s, events[0]);
      if r.Ok? {
        RunKeeps(r.value, events[1..]);
      }
    }
  }

  /** Memory safety of every run from start-up: no bad index, no access to a freed task,
      no underflow and no double removal, whatever the futures and the kernel do. */
  lemma RunSafe(events: seq<Event>)
    ensures match Run(INIT, events) case Ok(s) => Inv(s, multiset{}) case Failed(why) => Reachable(why)
  {
    InitInv();
    RunKeeps(INIT, events);
  }

  /** No ABA: in every reachable state the word of every outstanding submission resolves
      to the live task that submitted it, though slots are reused. */
  lemma NoAba(events: seq<Event>, s: State, x: Sqe)
    requires Run(INIT, events) == Ok(s) && Outstanding(s, x)
    ensures Resolve(s, FromUserData(x.userData).taskIdx) == Ok(x.owner)
  {
    RunSafe(events);
    assert Addressed(s, x) && LiveSlot(s, x.owner);
  }

  /** Exact counting: between steps a task's count is its number of outstanding submissions,
      it is alive exactly while it has one, and its future is dropped once, when it dies. */
  lemma ExactCounting(events: seq<Event>, s: State, t: TaskId)
    requires Run(INIT, events) == Ok(s)
    ensures t in s.heap <==> t in Owned(s)
    ensures t in s.heap ==> s.heap[t].rc == Owned(s)[t]
    ensures s.history.dropped[t] == if t < s.nextId && t !in Owned(s) then 1 else 0
  {
    RunSafe(events);
    assert Counted(s, multiset{}, t) && DroppedOnce(s, t);
  }

  /** Deferred reclamation: the free list is, without duplicates, the occupied slots of freed
      tasks; collecting it succeeds and the slab then holds exactly the live tasks. */
  lemma DeferredReclamation(events: seq<Event>, s: State)
    requires Run(INIT, events) == Ok(s)
    ensures Distinct(s.freeList)
    ensures forall i :: i in s.freeList <==> i in s.slab.tasks && s.slab.tasks[i] !in s.heap
    ensures Collect(s).Ok?
    ensures forall i :: i in Collect(s).value.slab.tasks <==> i in s.slab.tasks && s.slab.tasks[i] in s.heap
  {
    RunSafe(events);
    CollectSafe(s, multiset{});
    forall i
      ensures i in s.freeList <==> i in s.slab.tasks && s.slab.tasks[i] !in s.heap
    {
      assert OccupiedSlot(s, i) && DeadSlot(s, i);
    }
  }

  /** Exit: once collected, the slab is empty exactly when nothing is outstanding, and
      exactly when every spawned task has been freed. */
  lemma ExitTest(s: State)
    requires Inv(s, multiset{})
    ensures Collect(s).Ok?
    ensures var v := Collect(s).value.slab;
            && (|v.tasks| == 0 <==> s.pending == [] && s.kernel == [])
            && (|v.tasks| == 0 <==> s.heap == map[])
            && (|v.tasks| == 0 <==> forall t: TaskId :: t < s.nextId ==> s.history.dropped[t] == 1)
  {
    CollectSafe(s, multiset{});
    var v := Collect(s).value.slab;
    assert s.pending != [] ==> Addressed(s, s.pending[0]);
    assert s.kernel != [] ==> Addressed(s, s.kernel[0]);
    if s.heap != map[] {
      var t :| t in s.heap;
      assert LiveSlot(s, t) && Counted(s, multiset{}, t) && DroppedOnce(s, t);
      assert s.heap[t].slabIdx.value in v.tasks;
      OwnersMember(s.pending, t);
      OwnersMember(s.kernel, t);
    } else {
      assert v.tasks == map[];
      forall t: TaskId | t < s.nextId ensures s.history.dropped[t] == 1 { assert DroppedOnce(s, t); }
    }
  }
}
