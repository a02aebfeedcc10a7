/**
 Sequential futures that await every read they start and drop their buffers without a commit.
 For them every completion is taken by exactly one read, in runs of any length, so the ring's
 window, the posted completions and the buffers in user space partition the buffer ids.
 */
module ReadSequential {
  import opened Words
  import opened Indices
  import opened TaskSlab
  import opened Protocol
  import opened ProtocolSafety
  import opened Tags
  import opened Sequential
  import opened BufRing
  import opened ReadBuffers
  import opened ReadRuns
  import opened Conservation

  // ---- Awaiting futures ----------------------------------------------------

  /** The reads a script starts. */
  function Reads(script: Script): nat {
    match script
    case Return => 0
    case Submit(op, rest) => (if op.Read? then 1 else 0) + Reads(rest)
    case Advance(rest) => Reads(rest)
    case Spawn(_, rest) => Reads(rest)
    case Use(_, rest) => Reads(rest)
  }

  /** The poll finishes the read it is `owed`, if any, before it submits; it cancels no read and
      calls no `commit`. */
  predicate Finishes(script: Script, owed: bool)
    decreases script
  {
    match script
    case Return => !owed
    case Submit(_, rest) => !owed && Finishes(rest, false)
    case Advance(_) => false
    case Spawn(child, rest) => Awaits(child, false) && Finishes(rest, owed)
    case Use(act, rest) =>
      if act.TakeRead? then owed && Finishes(rest, false)
      else !act.CancelRead? && !act.CallCommit? && Finishes(rest, owed)
  }

  /** Every read that a poll starts is finished by the next one. */
  predicate Awaits(f: Future, owed: bool)
    decreases f
  {
    Finishes(f.now, owed) && RestAwaits(f.later, Reads(f.now) > 0)
  }

  predicate RestAwaits(r: Rest, owed: bool)
    decreases r
  {
    if r.Resume? then Awaits(r.next, owed) else !owed
  }

  lemma NextAwaits(r: Rest, owed: bool)
    requires RestAwaits(r, owed) && !r.Returned?
    ensures Finishes(r.Now(), owed) && RestAwaits(r.Later(), Reads(r.Now()) > 0)
  {
    if r.Resume? {
      assert Awaits(r.next, owed);
    }
  }

  /** The poll that is owed a read takes the completion once; another takes none. */
  lemma {:induction false} FinishesTakes(script: Script, owed: bool, waiting: nat)
    requires Finishes(script, owed) && (owed ==> waiting == 1)
    ensures Takes(script, waiting) == if owed then 1 else 0
    decreases script
  {
    match script
    case Return =>
    case Submit(op, rest) => FinishesTakes(rest, false, if op.Read? then waiting + 1 else waiting);
    case Spawn(_, rest) => FinishesTakes(rest, owed, waiting);
    case Use(act, rest) =>
      if act.TakeRead? {
        FinishesTakes(rest, false, 0);
      } else {
        FinishesTakes(rest, owed, waiting);
      }
  }

  // ---- Invariant -----------------------------------------------------------

  /** A task waits for the read it has outstanding, and for nothing else. */
  ghost predicate Matched(w: World, x: Sqe) {
    Outstanding(w.s, x) ==> w.pool.waiting[x.owner] == if x.read then 1 else 0
  }

  /** A task that is not running will finish the read it waits for. */
  ghost predicate Parked(w: World, h: multiset<TaskId>, t: TaskId) {
    t in w.s.heap && t !in h ==> RestAwaits(w.s.heap[t].future, w.pool.waiting[t] > 0)
  }

  ghost predicate NobodyWaits(w: World, t: TaskId) { t !in w.s.heap ==> w.pool.waiting[t] == 0 }

  /** No buffer has been committed. */
  ghost predicate Uncommitted(p: Pool) {
    p.leaked == multiset{} && forall i :: 0 <= i < |p.held| ==> p.held[i].piece == CHECKED_OUT
  }

  ghost predicate AwaitInv(w: World, h: multiset<TaskId>) {
    && (forall x :: Matched(w, x))
    && (forall t :: Parked(w, h, t))
    && (forall t :: NobodyWaits(w, t))
    && Uncommitted(w.pool)
  }

  /** Running task `t` is at `script`: it waits for the read it is owed, or for the one it has
      just started. */
  ghost predicate AtScript(w: World, h: multiset<TaskId>, t: TaskId, script: Script, owed: bool) {
    && Inv(w.s, h) && Running(w.s, h, t)
    && Plain(script) && Finishes(script, owed) && Owned(w.s)[t] + Submits(script) <= 1
    && (owed ==> w.pool.waiting[t] == 1 && Owned(w.s)[t] == 0)
    && (!owed && Owned(w.s)[t] == 0 ==> w.pool.waiting[t] == 0)
    && (owed && w.s.current.result > 0 ==> BufferSelect(w.s.current.flags).Some?)
  }

  // ---- Buffer steps --------------------------------------------------------

  lemma UncommittedHandled(p: Pool, t: TaskId, i: nat, deed: Deed)
    requires Uncommitted(p) && !deed.CallIt?
    ensures Uncommitted(Handled(p, t, i, deed)) && Handled(p, t, i, deed).waiting == p.waiting
  {
  }

  lemma {:induction false} UncommittedClosed(p: Pool, t: TaskId)
    requires Uncommitted(p)
    ensures Uncommitted(Closed(p, t)) && Closed(p, t).waiting == p.waiting[t := 0]
    decreases |p.held|
  {
    var i := FirstOf(p.held, t);
    if i < |p.held| {
      UncommittedHandled(p, t, i, DropIt);
      UncommittedClosed(Handled(p, t, i, DropIt), t);
    }
  }

  /** An act of an awaiting script: it never lacks a buffer, and takes a read only when owed. */
  lemma ActAwaits(w: World, h: multiset<TaskId>, t: TaskId, act: Act, rest: Script, owed: bool)
    requires AwaitInv(w, h) && AtScript(w, h, t, Use(act, rest), owed)
    ensures match Perform(w.pool, t, w.s.current, Aimed(w.s, t, act))
            case Ok(q) =>
              && Uncommitted(q)
              && q.waiting == if act.TakeRead? then w.pool.waiting - multiset{t} else w.pool.waiting
            case Failed(why) => false
  {
    match act
    case DropBuffer(i) => UncommittedHandled(w.pool, t, i, DropIt);
    case PollCommit(i) => UncommittedHandled(w.pool, t, i, PollIt);
    case _ =>
  }

  /** Changing only how long `t`, which has nothing outstanding, waits. */
  lemma WaitingAwaits(w: World, h: multiset<TaskId>, t: TaskId, q: Pool)
    requires Inv(w.s, h) && AwaitInv(w, h) && t in h && t in w.s.heap && Uncommitted(q)
    requires forall u :: u != t || Owned(w.s)[t] > 0 ==> q.waiting[u] == w.pool.waiting[u]
    ensures AwaitInv(w.(pool := q), h)
  {
    var w' := w.(pool := q);
    OwnersMember(w.s.pending, t);
    OwnersMember(w.s.kernel, t);
    forall x ensures Matched(w', x) { assert Matched(w, x); }
    forall u ensures Parked(w', h, u) { assert Parked(w, h, u); }
    forall u ensures NobodyWaits(w', u) { assert NobodyWaits(w, u); }
  }

  // ---- Polls ---------------------------------------------------------------

  lemma SubmitAwaits(w: World, h: multiset<TaskId>, t: TaskId, op: Op, rest: Script, s1: State)
    requires AwaitInv(w, h) && AtScript(w, h, t, Submit(op, rest), false) && SubmitOp(w.s, op) == Ok(s1)
    ensures var p1 := if op.Read? then w.pool.(waiting := w.pool.waiting + multiset{t}) else w.pool;
      AwaitInv(World(s1, p1), h) && AtScript(World(s1, p1), h, t, rest, false)
  {
    var p1 := if op.Read? then w.pool.(waiting := w.pool.waiting + multiset{t}) else w.pool;
    assert LiveSlot(w.s, t);
    SubmitShape(w.s, t, op);
    EntriesNameTask(Marked(w.s.current, op), op, t);
    SubmitKeeps(w.s, h, t, op);
    QueuedAwaits(w, h, t, op, World(s1, p1), Entries(Marked(w.s.current, op), op, t));
  }

  lemma QueuedAwaits(w: World, h: multiset<TaskId>, t: TaskId, op: Op, w': World, added: seq<Sqe>)
    requires AwaitInv(w, h) && t in h && Owned(w.s)[t] == 0 && w.pool.waiting[t] == 0
    requires forall x :: x in added ==> x.owner == t && x.read == op.Read?
    requires w'.s.pending == w.s.pending + added && w'.s.kernel == w.s.kernel
    requires t in w.s.heap && t in w'.s.heap && w'.s.heap == w.s.heap[t := w'.s.heap[t]]
    requires w'.pool == w.pool.(waiting := if op.Read? then w.pool.waiting + multiset{t} else w.pool.waiting)
    ensures AwaitInv(w', h)
  {
    OwnersMember(w.s.pending, t);
    OwnersMember(w.s.kernel, t);
    forall x ensures Matched(w', x) { assert Matched(w, x); }
    forall u ensures Parked(w', h, u) { assert Parked(w, h, u); }
    forall u ensures NobodyWaits(w', u) { assert NobodyWaits(w, u); }
  }

  /** A poll of an awaiting future: the read it is owed is finished, the one it starts is waited
      for, and no buffer is missing. */
  lemma {:induction false} ScriptAwaits(w: World, h: multiset<TaskId>, t: TaskId, script: Script, owed: bool)
    requires AwaitInv(w, h) && AtScript(w, h, t, script, owed)
    ensures match RunReads(w, t, script)
            case Ok(w') =>
              && AwaitInv(w', h)
              && w'.pool.waiting[t] == (if owed then 0 else w.pool.waiting[t]) + Reads(script)
            case Failed(why) => !why.NoBuffer?
    decreases script
  {
    hide Inv, Perform, SubmitOp, SpawnReads, AwaitInv;
    match script
    case Return =>
    case Submit(op, rest) =>
      var r := SubmitOp(w.s, op);
      SubmitFault(w, h, t, op, rest, owed);
      if r.Ok? {
        SubmitAwaits(w, h, t, op, rest, r.value);
        ScriptAwaits(World(r.value, if op.Read? then w.pool.(waiting := w.pool.waiting + multiset{t}) else w.pool), h, t, rest, false);
      }
    case Spawn(child, rest) =>
      SpawnAwaits(w, h, child);
      var r := SpawnReads(w, child);
      if r.Ok? {
        AfterSpawn(w, h, t, child, rest, owed, r.value);
        ScriptAwaits(r.value, h, t, rest, owed);
      }
    case Use(act, rest) =>
      ActAwaits(w, h, t, act, rest, owed);
      var q := Perform(w.pool, t, w.s.current, Aimed(w.s, t, act)).value;
      WaitingAwaits(w, h, t, q);
      ScriptAwaits(w.(pool := q), h, t, rest, owed && !act.TakeRead?);
  }

  lemma SubmitFault(w: World, h: multiset<TaskId>, t: TaskId, op: Op, rest: Script, owed: bool)
    requires AtScript(w, h, t, Submit(op, rest), owed)
    ensures SubmitOp(w.s, op).Failed? ==> !SubmitOp(w.s, op).fault.NoBuffer?
  {
    SubmitKeeps(w.s, h, t, op);
  }

  lemma SoundUncommitted(p: Pool)
    requires Uncommitted(p)
    ensures AllSound(p)
  {
  }

  /** A spawn leaves the spawning task where it was. */
  lemma AfterSpawn(w: World, h: multiset<TaskId>, t: TaskId, child: Future, rest: Script, owed: bool, w': World)
    requires AwaitInv(w, h) && AtScript(w, h, t, Spawn(child, rest), owed) && SpawnReads(w, child) == Ok(w')
    ensures AtScript(w', h, t, rest, owed) && w'.pool.waiting[t] == w.pool.waiting[t]
  {
    SoundUncommitted(w.pool);
    assert LiveSlot(w.s, t);
    SpawnWaits(w, child, w');
    SpawnErases(w, child);
    SpawnSafe(w.s, h, child);
    assert Counted(w.s, h, t) && Counted(w'.s, h, t);
  }

  // ---- The end of a poll ---------------------------------------------------

  /** Nothing but task `t` may have gone, and the queues are untouched. */
  ghost predicate Shrunk(s: State, s': State, t: TaskId) {
    && s'.pending == s.pending && s'.kernel == s.kernel
    && forall u :: (u in s'.heap ==> u in s.heap && s'.heap[u].future == s.heap[u].future)
                && (u in s.heap && u != t ==> u in s'.heap)
  }

  lemma ReleaseShrinks(s: State, t: TaskId, s': State)
    requires Release(s, t) == Ok(s')
    ensures Shrunk(s, s', t) && s'.current == s.current
  {
  }

  lemma EndAwaits(w: World, h: multiset<TaskId>, t: TaskId, s': State, h': multiset<TaskId>)
    requires AwaitInv(w, h) && Inv(s', h') && Shrunk(w.s, s', t) && forall u :: u != t ==> h'[u] == h[u]
    requires t in w.s.heap ==> RestAwaits(w.s.heap[t].future, w.pool.waiting[t] > 0)
    ensures AwaitInv(World(s', AfterEnd(w.pool, s', t)), h')
  {
    var w' := World(s', AfterEnd(w.pool, s', t));
    UncommittedClosed(w.pool, t);
    forall x ensures Matched(w', x) { assert Matched(w, x) && Addressed(s', x); }
    forall u ensures Parked(w', h', u) { assert Parked(w, h, u); }
    forall u ensures NobodyWaits(w', u) { assert NobodyWaits(w, u); }
  }

  lemma BeginAwaits(w: World, h: multiset<TaskId>, f: Future, s1: State)
    requires Inv(w.s, h) && AwaitInv(w, h) && IsSequential(f) && Awaits(f, false) && Begin(w.s, f) == Ok(s1)
    ensures var h2 := h + multiset{w.s.nextId, w.s.nextId};
      AwaitInv(w.(s := s1), h2) && AtScript(w.(s := s1), h2, w.s.nextId, f.now, false)
  {
    var t, w', h2 := w.s.nextId, w.(s := s1), h + multiset{w.s.nextId, w.s.nextId};
    BeginKeeps(w.s, h, f);
    assert LiveSlot(w.s, t) && Counted(w.s, h, t) && NobodyWaits(w, t);
    forall x ensures Matched(w', x) { assert Matched(w, x); }
    forall u ensures Parked(w', h2, u) { assert Parked(w, h, u); }
    forall u ensures NobodyWaits(w', u) { assert NobodyWaits(w, u); }
  }

  lemma {:induction false} SpawnAwaits(w: World, h: multiset<TaskId>, f: Future)
    requires Inv(w.s, h) && AwaitInv(w, h) && IsSequential(f) && Awaits(f, false)
    ensures match SpawnReads(w, f) case Ok(w') => AwaitInv(w', h) case Failed(why) => !why.NoBuffer?
    decreases f
  {
    var t, r := w.s.nextId, Begin(w.s, f);
    BeginKeeps(w.s, h, f);
    if r.Ok? {
      hide Inv, AwaitInv, Begin, Release;
      var w1, h2 := w.(s := r.value), h + multiset{t, t};
      BeginAwaits(w, h, f, r.value);
      BeginFuture(w, h, f, r.value);
      ScriptAwaits(w1, h2, t, f.now, false);
      var r2 := RunReads(w1, t, f.now);
      if r2.Ok? {
        ScriptErases(w1, t, f.now);
        ScriptSafe(w1.s, h2, t, f.now);
        EndSpawnAwaits(r2.value, h, t, w.s.current);
      }
    }
  }

  lemma BeginFuture(w: World, h: multiset<TaskId>, f: Future, s1: State)
    requires AwaitInv(w, h) && Inv(w.s, h) && Begin(w.s, f) == Ok(s1)
    ensures w.s.nextId in s1.heap && s1.heap[w.s.nextId].future == f.later && w.pool.waiting[w.s.nextId] == 0
  {
    assert LiveSlot(w.s, w.s.nextId) && NobodyWaits(w, w.s.nextId);
  }

  lemma EndSpawnAwaits(w: World, h: multiset<TaskId>, t: TaskId, info: TaskInfo)
    requires AwaitInv(w, h + multiset{t, t}) && Inv(w.s, h + multiset{t, t})
    requires t in w.s.heap && RestAwaits(w.s.heap[t].future, w.pool.waiting[t] > 0)
    ensures Release(w.s, t).Ok? && Release(Release(w.s, t).value.(current := info), t).Ok?
    ensures var s4 := Release(Release(w.s, t).value.(current := info), t).value;
      AwaitInv(World(s4, AfterEnd(w.pool, s4, t)), h)
  {
    hide Inv, AwaitInv, Release;
    EndSpawn(w.s, h, t, info);
    var s3 := Release(w.s, t).value;
    var s4 := Release(s3.(current := info), t).value;
    ReleaseShrinks(w.s, t, s3);
    ReleaseShrinks(s3.(current := info), t, s4);
    EndAwaits(w, h + multiset{t, t}, t, s4, h);
  }

  // ---- Completions ---------------------------------------------------------

  /** The task a completion is for, before its poll: nothing outstanding, one reference in hand,
      and the completion is the one it waits for. */
  ghost predicate Due(w: World, h: multiset<TaskId>, t: TaskId, info: TaskInfo) {
    && Inv(w.s, h) && AwaitInv(w, h) && t in h && t in w.s.heap && Owned(w.s)[t] == 0
    && w.s.heap[t].slabIdx == Some(info.taskIdx) && info.syscallNb == w.s.heap[t].syscallNb
    && RestSequential(w.s.heap[t].future) && RestAwaits(w.s.heap[t].future, w.pool.waiting[t] > 0)
    && w.pool.waiting[t] <= 1 && (w.pool.waiting[t] == 1 && info.result > 0 ==> BufferSelect(info.flags).Some?)
  }

  /** The header, CURRENT_TASK and the records of a running task are not the waiting's concern. */
  lemma HeaderAwaits(w: World, h: multiset<TaskId>, t: TaskId, s': State, h': multiset<TaskId>)
    requires AwaitInv(w, h) && t in h && t in h' && t in w.s.heap && t in s'.heap && s'.heap == w.s.heap[t := s'.heap[t]]
    requires s'.pending == w.s.pending && s'.kernel == w.s.kernel && forall u :: u != t ==> h'[u] == h[u]
    ensures AwaitInv(w.(s := s'), h')
  {
    var w' := w.(s := s');
    forall x ensures Matched(w', x) { assert Matched(w, x); }
    forall u ensures Parked(w', h', u) { assert Parked(w, h, u); }
    forall u ensures NobodyWaits(w', u) { assert NobodyWaits(w, u); }
  }

  lemma PollAwaits(w: World, h: multiset<TaskId>, t: TaskId)
    requires Due(w, h, t, w.s.current)
    ensures match PollReads(w, t)
            case Ok(w') =>
              && AwaitInv(w', h) && Inv(w'.s, h) && t in w'.s.heap
              && RestAwaits(w'.s.heap[t].future, w'.pool.waiting[t] > 0)
            case Failed(why) => !why.NoBuffer?
  {
    var f := w.s.heap[t].future;
    if !f.Returned? {
      var w1, owed := w.(s := Polled(w.s, t)), w.pool.waiting[t] > 0;
      assert Counted(w.s, h, t);
      NextAwaits(f, owed);
      NextPoll(f);
      HeaderKeeps(w.s, h, t, w1.s.heap[t], h);
      BystanderKeeps(SetTask(w.s, t, w1.s.heap[t]), w1.s, h);
      HeaderAwaits(w, h, t, w1.s, h);
      hide Inv, AwaitInv, RunReads, RunScript;
      ScriptAwaits(w1, h, t, f.Now(), owed);
      if RunReads(w1, t, f.Now()).Ok? {
        ScriptErases(w1, t, f.Now());
        ScriptSafe(w1.s, h, t, f.Now());
      }
    }
  }

  lemma DispatchAwaits(w: World, h: multiset<TaskId>, t: TaskId, info: TaskInfo)
    requires Due(w, h, t, info)
    ensures match DispatchReads(w, t, info)
            case Ok(w') =>
              && AwaitInv(w', h) && Inv(w'.s, h) && t in w'.s.heap
              && RestAwaits(w'.s.heap[t].future, w'.pool.waiting[t] > 0)
            case Failed(why) => !why.NoBuffer?
  {
    VerdictMeaning(w.s.heap[t].syscallNb, info.syscallNb);
    var normal := Evaluate(w.s.heap[t].syscallNb, info.syscallNb).Normal?;
    var s1 := if normal then Armed(w.s, t, info) else w.s.(current := info);
    assert Counted(w.s, h, t);
    HeaderKeeps(w.s, h, t, s1.heap[t], h);
    BystanderKeeps(SetTask(w.s, t, s1.heap[t]), s1, h);
    HeaderAwaits(w, h, t, s1, h);
    hide Inv, AwaitInv, PollReads;
    PollAwaits(w.(s := s1), h, t);
  }

  lemma HandleAwaits(w: World, t: TaskId, cqe: Cqe)
    requires Due(w, multiset{} + multiset{t}, t, InfoOf(cqe)) && !More(cqe.flags)
    ensures match HandleReads(w, cqe) case Ok(w') => AwaitInv(w', multiset{}) case Failed(why) => !why.NoBuffer?
  {
    var h, info := multiset{} + multiset{t}, InfoOf(cqe);
    assert LiveSlot(w.s, t);
    var s0 := w.s.(history := w.s.history.(completed := w.s.history.completed + multiset{t}));
    BystanderKeeps(w.s, s0, h);
    CloneKeeps(s0, h, t);
    var r1 := Judged(w.s, t);
    if r1.Ok? {
      var w1 := w.(s := r1.value);
      HeaderAwaits(w, h, t, w1.s, h + multiset{t});
      hide Inv, AwaitInv, DispatchReads, Release;
      DispatchAwaits(w1, h + multiset{t}, t, info);
      var r2 := DispatchReads(w1, t, info);
      if r2.Ok? {
        FinishAwaits(r2.value, t);
      }
    }
  }

  lemma FinishAwaits(w: World, t: TaskId)
    requires var h := multiset{} + multiset{t} + multiset{t}; AwaitInv(w, h) && Inv(w.s, h)
    requires t in w.s.heap && RestAwaits(w.s.heap[t].future, w.pool.waiting[t] > 0)
    ensures Release(w.s, t).Ok? && Release(Release(w.s, t).value, t).Ok?
    ensures var s' := Release(Release(w.s, t).value, t).value; AwaitInv(World(s', AfterEnd(w.pool, s', t)), multiset{})
  {
    hide Inv, AwaitInv, Release;
    var h := multiset{} + multiset{t};
    FinishSafe(w.s, h, t, false);
    var s1 := Release(w.s, t).value;
    var s' := Release(s1, t).value;
    ReleaseShrinks(w.s, t, s1);
    ReleaseShrinks(s1, t, s');
    assert h - multiset{t} == multiset{};
    EndAwaits(w, h + multiset{t}, t, s', multiset{});
  }

  // ---- Runs ----------------------------------------------------------------

  /** What every world of such a run satisfies. */
  ghost predicate ReadInv(w: World, quiet: bool) {
    WorldInv(w) && SeqInv(w.s, multiset{}, quiet) && AwaitInv(w, multiset{})
  }

  /** The submitter of a posted read is polled, and exactly one read takes the completion. */
  lemma CompletionTaken(w: World, e: ReadEvent, quiet: bool)
    requires ReadInv(w, quiet)
    ensures TakenOnce(w, e)
  {
    if Carries(w, e) {
      var x := w.s.kernel[e.k];
      var t := x.owner;
      assert Addressed(w.s, x) && CurrentTag(w.s, x) && Matched(w, x) && Counted(w.s, multiset{}, t);
      assert Parked(w, multiset{}, t);
      var f := w.s.heap[t].future;
      NextAwaits(f, true);
      FinishesTakes(f.Now(), true, 1);
    }
  }

  lemma FetchedDue(w: World, e: ReadEvent, quiet: bool)
    requires ReadInv(w, quiet) && e.Posted? && CanPost(w, e.k, e.result, e.more) && !e.more
    ensures var x := w.s.kernel[e.k];
      Due(Fetched(w, e.k, false), multiset{} + multiset{x.owner}, x.owner, InfoOf(CqeOf(w, e.k, e.result, false)))
  {
    var k, x := e.k, w.s.kernel[e.k];
    var t, w0, h := x.owner, Fetched(w, k, false), multiset{} + multiset{x.owner};
    assert Addressed(w.s, x) && CurrentTag(w.s, x) && OneAtATime(w.s, t, quiet) && Matched(w, x) && Parked(w, multiset{}, t);
    TakeKeeps(w.s, multiset{}, k);
    OwnersWithout(w.s.kernel, k);
    forall y ensures Matched(w0, y) { assert Matched(w, y); }
    forall u ensures Parked(w0, h, u) { assert Parked(w, multiset{}, u); }
    forall u ensures NobodyWaits(w0, u) { assert NobodyWaits(w, u); }
    if w.pool.posted[k].Some? {
      PostedRange(w.pool, k);
    }
    FlagsDecode(w.pool.posted[k], false);
  }

  /** Sequential tasks submit no multishot. */
  lemma NoMultishot(w: World, k: nat, quiet: bool)
    requires ReadInv(w, quiet) && k < |w.s.kernel|
    ensures !w.s.kernel[k].multishot
  {
    assert CurrentTag(w.s, w.s.kernel[k]) && Addressed(w.s, w.s.kernel[k]);
  }

  lemma StepAwaits(w: World, e: ReadEvent, quiet: bool)
    requires ReadInv(w, quiet) && (e.Root? ==> IsSequential(e.future) && Awaits(e.future, false))
    ensures match ReadStep(w, e) case Ok(w') => AwaitInv(w', multiset{}) case Failed(why) => !why.NoBuffer?
  {
    match e
    case Root(f) => SpawnAwaits(w, multiset{}, f);
    case Flushed => FlushAwaits(w);
    case Collected =>
      CollectSafe(w.s, multiset{});
      CollectAwaits(w);
    case Select(k) =>
      if CanSelect(w, k) {
        SelectAwaits(w, k);
      }
    case Posted(k, result, more) =>
      if CanPost(w, k, result, more) {
        NoMultishot(w, k, quiet);
        hide ReadInv, HandleReads;
        FetchedDue(w, e, quiet);
        FlagsMore(w.pool.posted[k], false);
        HandleAwaits(Fetched(w, k, false), w.s.kernel[k].owner, CqeOf(w, k, result, false));
      }
  }

  lemma FlushAwaits(w: World)
    requires AwaitInv(w, multiset{})
    ensures AwaitInv(World(Flush(w.s), w.pool.(posted := w.pool.posted + Nones(|w.s.pending|))), multiset{})
  {
    var w' := World(Flush(w.s), w.pool.(posted := w.pool.posted + Nones(|w.s.pending|)));
    forall x ensures Matched(w', x) { assert Matched(w, x); }
    forall u ensures Parked(w', multiset{}, u) { assert Parked(w, multiset{}, u); }
    forall u ensures NobodyWaits(w', u) { assert NobodyWaits(w, u); }
  }

  lemma CollectAwaits(w: World)
    requires AwaitInv(w, multiset{}) && Collect(w.s).Ok?
    ensures AwaitInv(w.(s := Collect(w.s).value), multiset{})
  {
    var w' := w.(s := Collect(w.s).value);
    forall x ensures Matched(w', x) { assert Matched(w, x); }
    forall u ensures Parked(w', multiset{}, u) { assert Parked(w, multiset{}, u); }
    forall u ensures NobodyWaits(w', u) { assert NobodyWaits(w, u); }
  }

  lemma SelectAwaits(w: World, k: nat)
    requires AwaitInv(w, multiset{}) && CanSelect(w, k)
    ensures AwaitInv(w.(pool := Selected(w.pool, k)), multiset{})
  {
    var w' := w.(pool := Selected(w.pool, k));
    forall x ensures Matched(w', x) { assert Matched(w, x); }
    forall u ensures Parked(w', multiset{}, u) { assert Parked(w, multiset{}, u); }
    forall u ensures NobodyWaits(w', u) { assert NobodyWaits(w, u); }
  }

  /** The futures a run starts with. */
  predicate AwaitingRoots(events: seq<ReadEvent>, quiet: bool) {
    forall i :: 0 <= i < |events| && events[i].Root? ==>
      IsSequential(events[i].future) && Awaits(events[i].future, false) && (quiet ==> Quiet(events[i].future))
  }

  lemma {:induction false} RunAwaits(w: World, events: seq<ReadEvent>, quiet: bool)
    requires ReadInv(w, quiet) && AwaitingRoots(events, quiet)
    ensures AlwaysTakenOnce(w, events)
    ensures match ReadRun(w, events)
            case Ok(w') => ReadInv(w', quiet)
            case Failed(why) => SeqFault(why, quiet) || QueueFault(why)
    decreases events
  {
    if events != [] {
      hide ReadStep, Inv, AwaitInv, SeqInv, Aligned, AllSound, InRange, TakenOnce, Erased;
      var e, r := events[0], ReadStep(w, events[0]);
      CompletionTaken(w, e, quiet);
      StepAwaits(w, e, quiet);
      StepSequential(w, e, quiet);
      if r.Ok? {
        StepWorldInv(w, e, r.value);
        RunAwaits(r.value, events[1..], quiet);
      }
    }
  }

  lemma StepSequential(w: World, e: ReadEvent, quiet: bool)
    requires ReadInv(w, quiet) && (e.Root? ==> IsSequential(e.future) && (quiet ==> Quiet(e.future)))
    ensures match ReadStep(w, e)
            case Ok(w') => SeqInv(w'.s, multiset{}, quiet)
            case Failed(why) => why.NoBuffer? || SeqFault(why, quiet) || QueueFault(why)
  {
    StepErases(w, e);
    RunSequential(w.s, Erased(w, e), quiet);
  }

  /** Read-buffer conservation: in every run, of any length, of sequential futures that await their
      reads and drop their buffers without a commit, every id is in exactly one of the ring's
      window, a posted completion and a buffer in user space, and the ring's memory encodes the
      window. No read panics; the faults are those of `SequentialRun`. */
  lemma SequentialReads(w: World, events: seq<ReadEvent>, quiet: bool)
    requires Fresh(w) && AwaitingRoots(events, quiet)
    ensures match ReadRun(w, events)
            case Ok(w') =>
              var p := w'.pool;
              && Holds(p.image, p.ring) && p.ring.Size() == w.pool.ring.Size()
              && (forall b: u32 :: multiset(p.ring.window)[b] + PostedIds(p.posted)[b] + multiset(HeldList(p.held))[b]
                                == if b < w.pool.ring.Size() then 1 else 0)
            case Failed(why) => SlabFault(why) || QueueFault(why) || (!quiet && why.PolledAfterReturn?)
  {
    FreshInv(w);
    assert ReadInv(w, quiet);
    RunAwaits(w, events, quiet);
    var r := ReadRun(w, events);
    if r.Ok? {
      hide WorldInv, SeqInv, Holds, AlwaysTakenOnce, ReadRun, Fresh, Places;
      RunHolds(w, events, r.value);
      PlacesUncommitted(r.value.pool);
    }
  }

  lemma PlacesUncommitted(p: Pool)
    requires Uncommitted(p) && Conserved(p)
    ensures forall b: u32 :: multiset(p.ring.window)[b] + PostedIds(p.posted)[b] + multiset(HeldList(p.held))[b]
                          == if b < p.ring.Size() then 1 else 0
  {
    forall b: u32
      ensures multiset(p.ring.window)[b] + PostedIds(p.posted)[b] + multiset(HeldList(p.held))[b] == Places(p)[b]
    {
    }
  }
}
