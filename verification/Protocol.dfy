/**
 The executor as a transition system: what a task is, what a poll may do, and
 what each step of the runtime (spawn, flush, completion, slab collection) does to
 the whole state. Every failure of the original, a panic or an access to freed
 memory, is a `Fault`, so that "this cannot happen" is a statement about results.
 */
module Protocol {
  import opened Words
  import opened TaskSlab

  // ---- Futures as scripts --------------------------------------------------

  /** The kinds of submission: a read into a buffer the kernel selects, another SQE that
      completes once, a multishot SQE, the WRITE_FIXED of `commit`, or a batch of WRITE_FIXED
      that differ in `response_gen`. */
  datatype Op = Read | Single | Multishot | CommitWrite | Batch(count: u16) {
    function Count(): u16 { if Batch? then count else 1 }
    predicate MasksCurrent() { Multishot? || CommitWrite? }
  }

  /** What a poll does with its reads and read buffers: poll or drop a pending `ReadFuture`; drop
      the i-th buffer (or the commit call it moved into), call `commit` on it, poll that call, or
      hand the buffer to another task. These steps only move buffers: see `ReadRuns`. */
  datatype Act =
    | TakeRead
    | CancelRead
    | DropBuffer(i: nat)
    | CallCommit(i: nat)
    | PollCommit(i: nat)
    | PassBuffer(i: nat, to: TaskId)

  /** What one poll of a future does: submissions, rank advances, nested spawns, buffer steps. */
  datatype Script =
    | Return
    | Submit(op: Op, rest: Script)
    | Advance(rest: Script)
    | Spawn(child: Future, rest: Script)
    | Use(act: Act, rest: Script)

  /** A future: what its next poll does and what it is afterwards. */
  datatype Future = Polls(now: Script, later: Rest)

  /** What is left of a polled future: it has returned, so that another poll panics; it stays
      pending and does nothing more; or it has a next poll. */
  datatype Rest = Returned | Idle | Resume(next: Future) {
    function Now(): Script { if Resume? then next.now else Return }
    function Later(): Rest { if Resume? then next.later else this }
  }

  // ---- Tasks ---------------------------------------------------------------

  /** The task header beside its future. */
  datatype RawTask = RawTask(rc: u16, syscallNb: u16, slabIdx: Option<u32>, future: Rest)

  datatype Verdict = Expired | Normal | Multiple | Error

  /** `evaluate_syscall_nb`: how the stored tag judges an incoming one. */
  function Evaluate(stored: u16, incoming: u16): Verdict {
    if Rank(incoming) < Rank(stored) then Expired
    else if Rank(incoming) > Rank(stored) then Error
    else if Masked(stored) != Masked(incoming) then Error
    else if Masked(stored) then Multiple
    else Normal
  }

  /** `augmente_syscall_nb` on the header: rank 0x7FFF steps to 0x8000, rank 0 with the mask set. */
  function NextTag(nb: u16): (r: u16)
    ensures Rank(nb) < 0x7FFF ==> Rank(r) == Rank(nb) + 1 && !Masked(r)
    ensures Rank(nb) == 0x7FFF ==> Rank(r) == 0 && Masked(r)
  {
    Rank(nb) + 1
  }

  // ---- State ---------------------------------------------------------------

  /** CURRENT_TASK. */
  datatype TaskInfo = TaskInfo(taskIdx: u32, syscallNb: u16, result: int, flags: nat, responseGen: u16)

  const DUMMY := TaskInfo(0xFFFF_FFFF, 0, -0x8000_0000, 0xFFFF_FFFF, 0xFFFF)

  function InitialPoll(idx: u32): TaskInfo { TaskInfo(idx, 0, 0x7FFF_FFFF, 0, 0xFFFF) }

  /** A submission. `owner` records who submitted it; no step reads it. */
  datatype Sqe = Sqe(userData: nat, multishot: bool, read: bool, owner: TaskId)

  datatype Cqe = Cqe(userData: nat, result: int, flags: nat)

  /** IORING_CQE_F_MORE, bit 1 of the flags. */
  predicate More(flags: nat) { (flags / 2) % 2 == 1 }

  /** What has happened so far, per task; `normal` holds (task, rank) per `Normal` verdict. */
  datatype History = History(
    polled: multiset<TaskId>,
    completed: multiset<TaskId>,
    normal: multiset<(TaskId, nat)>,
    dropped: multiset<TaskId>)

  /** The whole runtime: `heap` holds the allocated tasks, `pending` the SQEs not yet
      flushed, `kernel` the flushed ones whose final completion is unprocessed. */
  datatype State = State(
    slab: View,
    heap: map<TaskId, RawTask>,
    nextId: TaskId,
    current: TaskInfo,
    pending: seq<Sqe>,
    kernel: seq<Sqe>,
    freeList: seq<u32>,
    history: History)

  const NO_HISTORY := History(multiset{}, multiset{}, multiset{}, multiset{})

  /** A new runtime: a slab of 16 slots and nothing else. */
  const INIT := State(Empty(16), map[], 0, DUMMY, [], [], [], NO_HISTORY)

  datatype Fault =
    | RcOverflow(count: nat) // checked_add on the reference count would give `count`
    | BatchCount        // add_rc asserts that the low 15 bits changed
    | NewerThanExpected // the dispatcher's Error verdict
    | PolledAfterReturn // a poll of a future that has returned Ready
    | NoBuffer          // a positive read result without a selected buffer
    | SlabOverflow(tasks: nat) // the slab, holding `tasks`, would grow to 2^31 slots
    | QueueFull(pending: nat)  // more pending SQEs than the submission queue has entries
    | BadIndex          // slab index out of bounds or on a free slot
    | RemoveFree        // remove_dropped_task out of bounds or on a free slot
    | UseAfterFree      // access to a deallocated task
    | RcUnderflow       // decrement of a zero reference count

  datatype Result<+T> = Ok(value: T) | Failed(fault: Fault) {
    predicate IsFailure() { Failed? }
    function PropagateFailure<U>(): Result<U> requires Failed? { Failed(fault) }
    function Extract(): T requires Ok? { value }
  }

  // ---- Reference counts ----------------------------------------------------

  function SetTask(s: State, t: TaskId, r: RawTask): State { s.(heap := s.heap[t := r]) }

  /** The slab's index operator followed by a dereference. */
  function Resolve(s: State, idx: u32): Result<TaskId> {
    if idx !in s.slab.tasks then Failed(BadIndex)
    else if s.slab.tasks[idx] !in s.heap then Failed(UseAfterFree)
    else Ok(s.slab.tasks[idx])
  }

  function AddRc(s: State, t: TaskId, n: u16): Result<State> {
    if t !in s.heap then Failed(UseAfterFree)
    else
      var r := s.heap[t];
      if r.rc + n > 0xFFFF then Failed(RcOverflow(r.rc + n))
      else if Rank(r.rc) == Rank(r.rc + n) then Failed(BatchCount)
      else Ok(SetTask(s, t, r.(rc := r.rc + n)))
  }

  /** Gives one reference back; the last one drops the future, frees the task and
      queues its slot for collection. */
  function Release(s: State, t: TaskId): Result<State> {
    if t !in s.heap then Failed(UseAfterFree)
    else
      var r := s.heap[t];
      if r.rc == 0 then Failed(RcUnderflow)
      else if r.rc > 1 then Ok(SetTask(s, t, r.(rc := r.rc - 1)))
      else
        Ok(s.(heap := s.heap - {t},
              freeList := s.freeList + (if r.slabIdx.Some? then [r.slabIdx.value] else []),
              history := s.history.(dropped := s.history.dropped + multiset{t})))
  }

  // ---- What a poll does ----------------------------------------------------

  function UserDataOf(info: TaskInfo): nat {
    IntoUserData(Payload(info.taskIdx, info.responseGen, info.syscallNb))
  }

  /** The SQEs of one submission; batch entries are told apart by `response_gen`. */
  function Entries(info: TaskInfo, op: Op, owner: TaskId): (q: seq<Sqe>)
    ensures |q| == op.Count()
  {
    if op.Batch? then
      seq(op.count, i requires 0 <= i < op.count => Sqe(UserDataOf(info.(responseGen := i)), false, false, owner))
    else
      [Sqe(UserDataOf(info), op.Multishot?, op.Read?, owner)]
  }

  /** CURRENT_TASK as a submission leaves it. */
  function Marked(info: TaskInfo, op: Op): TaskInfo {
    if op.MasksCurrent() then info.(syscallNb := SetMask(info.syscallNb)) else info
  }

  /** The `send_*` family: only a multishot also marks the stored tag. */
  function SubmitOp(s: State, op: Op): Result<State> {
    var info := Marked(s.current, op);
    var t :- Resolve(s, info.taskIdx);
    var r := s.heap[t];
    var s1 := if op.Multishot? then SetTask(s, t, r.(syscallNb := SetMask(r.syscallNb))) else s;
    var s2 :- AddRc(s1, t, op.Count());
    Ok(s2.(current := info, pending := s2.pending + Entries(info, op, t)))
  }

  /** The end of a write batch: both copies of the tag move to the next rank. */
  function AdvanceRank(s: State): Result<State> {
    var t :- Resolve(s, s.current.taskIdx);
    var r := s.heap[t];
    var nb := (Rank(s.current.syscallNb) + 1) % 0x8000;
    Ok(SetTask(s, t, r.(syscallNb := NextTag(r.syscallNb)))
       .(current := TaskInfo(s.current.taskIdx, nb, -0x8000_0000, 0, 0)))
  }

  /** `spawn` up to its poll: a new task with one reference for the local handle and
      one for the slab's clone, in the slot on top of the free list. */
  function Begin(s: State, f: Future): Result<State> {
    if !CanInsert(s.slab) then Failed(SlabOverflow(|s.slab.tasks|))
    else
      var t, idx := s.nextId, NextIndex(s.slab);
      Ok(s.(slab := Inserted(s.slab, t),
            heap := s.heap[t := RawTask(2, 0, Some(idx), f.later)],
            nextId := t + 1,
            current := InitialPoll(idx),
            history := s.history.(polled := s.history.polled + multiset{t})))
  }

  function RunScript(s: State, script: Script): Result<State>
    decreases script
  {
    match script
    case Return => Ok(s)
    case Submit(op, rest) =>
      var s1 :- SubmitOp(s, op);
      RunScript(s1, rest)
    case Advance(rest) =>
      var s1 :- AdvanceRank(s);
      RunScript(s1, rest)
    case Spawn(child, rest) =>
      var s1 :- SpawnTask(s, child);
      RunScript(s1, rest)
    case Use(_, rest) => RunScript(s, rest)
  }

  /** `spawn`: start, poll once, release the slab's reference, restore CURRENT_TASK,
      drop the local handle. */
  function SpawnTask(s: State, f: Future): Result<State>
    decreases f
  {
    var t := s.nextId;
    var s1 :- Begin(s, f);
    var s2 :- RunScript(s1, f.now);
    var s3 :- Release(s2, t);
    Release(s3.(current := s.current), t)
  }

  // ---- Completions ---------------------------------------------------------

  /** The state in which a poll's script starts. */
  function Polled(s: State, t: TaskId): State
    requires t in s.heap
  {
    var r := s.heap[t];
    SetTask(s, t, r.(future := r.future.Later()))
    .(history := s.history.(polled := s.history.polled + multiset{t}))
  }

  function PollTask(s: State, t: TaskId): Result<State>
    requires t in s.heap
  {
    if s.heap[t].future.Returned? then Failed(PolledAfterReturn)
    else RunScript(Polled(s, t), s.heap[t].future.Now())
  }

  function InfoOf(cqe: Cqe): TaskInfo {
    var p := FromUserData(cqe.userData);
    TaskInfo(p.taskIdx, p.syscallNb, cqe.result, cqe.flags, p.responseGen)
  }

  /** The state in which a `Normal` verdict polls: both tags moved past the rank. */
  function Armed(s: State, t: TaskId, info: TaskInfo): State
    requires t in s.heap
  {
    var r := s.heap[t];
    SetTask(s, t, r.(syscallNb := NextTag(r.syscallNb)))
    .(current := info.(syscallNb := NextTag(info.syscallNb)),
      history := s.history.(normal := s.history.normal + multiset{(t, Rank(info.syscallNb))}))
  }

  function Dispatch(s: State, t: TaskId, info: TaskInfo): Result<State>
    requires t in s.heap
  {
    match Evaluate(s.heap[t].syscallNb, info.syscallNb)
    case Error => Failed(NewerThanExpected)
    case Expired => Ok(s)
    case Normal => PollTask(Armed(s, t, info), t)
    case Multiple => PollTask(s.(current := info), t)
  }

  /** The state in which the dispatcher judges a completion: the clone is counted. */
  function Judged(s: State, t: TaskId): Result<State> {
    AddRc(s.(history := s.history.(completed := s.history.completed + multiset{t})), t, 1)
  }

  /** `handle_cqe_entry`: clone, dispatch, release unless more is to come, drop the clone. */
  function HandleCqe(s: State, cqe: Cqe): Result<State> {
    var info := InfoOf(cqe);
    var t :- Resolve(s, info.taskIdx);
    var s1 :- Judged(s, t);
    var s2 :- Dispatch(s1, t, info);
    var s3 :- if More(cqe.flags) then Ok(s2) else Release(s2, t);
    Release(s3, t)
  }

  // ---- Steps and runs ------------------------------------------------------

  function Drain(v: View, list: seq<u32>): Result<View>
    decreases list
  {
    if list == [] then Ok(v)
    else if list[0] !in v.tasks then Failed(RemoveFree)
    else Drain(Removed(v, list[0]), list[1..])
  }

  /** `free_unsed_slab_slot`. */
  function Collect(s: State): Result<State> {
    var v :- Drain(s.slab, s.freeList);
    Ok(s.(slab := v, freeList := []))
  }

  /** Entries of the submission queue (DEFAULT_RING_ENTRIES). */
  const RING_ENTRIES: nat := 1024

  /** `submit_and_wait` up to the wait: hand every pending SQE to the kernel. */
  function Flush(s: State): State {
    s.(kernel := s.kernel + s.pending, pending := [])
  }

  /** The kernel may complete any flushed SQE, with F_MORE only for a multishot. */
  predicate CanComplete(s: State, k: nat, flags: nat) {
    k < |s.kernel| && (More(flags) ==> s.kernel[k].multishot)
  }

  function Without<T>(q: seq<T>, k: nat): seq<T>
    requires k < |q|
  {
    q[..k] + q[k + 1..]
  }

  /** A completion of `kernel[k]` is processed; without F_MORE it is that SQE's last. */
  function Complete(s: State, k: nat, result: int, flags: nat): Result<State>
    requires CanComplete(s, k, flags)
  {
    var s1 := if More(flags) then s else s.(kernel := Without(s.kernel, k));
    HandleCqe(s1, Cqe(s.kernel[k].userData, result, flags))
  }

  /** A step of the runtime or of the kernel. */
  datatype Event = SpawnRoot(future: Future) | FlushAll | Completion(k: nat, result: int, flags: nat) | CollectSlots

  /** A completion the kernel cannot produce leaves the state alone. */
  function Step(s: State, e: Event): Result<State> {
    match e
    case SpawnRoot(f) => SpawnTask(s, f)
    case FlushAll => if |s.pending| > RING_ENTRIES then Failed(QueueFull(|s.pending|)) else Ok(Flush(s))
    case Completion(k, result, flags) => if CanComplete(s, k, flags) then Complete(s, k, result, flags) else Ok(s)
    case CollectSlots => Collect(s)
  }

  function Run(s: State, events: seq<Event>): Result<State>
    decreases events
  {
    if events == [] then Ok(s)
    else
      var s1 :- Step(s, events[0]);
      Run(s1, events[1..])
  }
}
