/**
 Progress: futures are finite scripts, so a run has only so much work in it. The work left
 never grows except by a root spawn, every final completion uses some up, and when none is
 left every task has been freed, which is the loop's exit condition.
 */
module Progress {
  import opened Words
  import opened Indices
  import opened TaskSlab
  import opened Protocol
  import opened ProtocolSafety

  /** The number of SQEs a script will submit, its children's included. */
  function ScriptWork(script: Script): nat
    decreases script
  {
    match script
    case Return => 0
    case Submit(op, rest) => op.Count() + ScriptWork(rest)
    case Advance(rest) => ScriptWork(rest)
    case Spawn(child, rest) => Work(child) + ScriptWork(rest)
    case Use(_, rest) => ScriptWork(rest)
  }

  function Work(f: Future): nat
    decreases f
  {
    ScriptWork(f.now) + RestWork(f.later)
  }

  function RestWork(r: Rest): nat
    decreases r
  {
    if r.Resume? then Work(r.next) else 0
  }

  /** The work of task `t`'s remaining polls. */
  ghost function TaskWork(heap: map<TaskId, RawTask>, t: TaskId): nat {
    if t in heap then RestWork(heap[t].future) else 0
  }

  /** The work of the tasks below `n`. */
  ghost function HeapWork(heap: map<TaskId, RawTask>, n: nat): nat {
    if n == 0 then 0 else HeapWork(heap, n - 1) + TaskWork(heap, n - 1)
  }

  /** The work left: submissions to complete and submissions to come. */
  ghost function WorkLeft(s: State): nat { |s.pending| + |s.kernel| + HeapWork(s.heap, s.nextId) }

  /** Heaps that differ at `t` only differ in work by that task's. */
  lemma {:induction false} HeapWorkAt(a: map<TaskId, RawTask>, b: map<TaskId, RawTask>, n: nat, t: TaskId)
    requires forall u: TaskId :: u < n && u != t ==> TaskWork(a, u) == TaskWork(b, u)
    ensures HeapWork(b, n) == HeapWork(a, n) + (if t < n then TaskWork(b, t) - TaskWork(a, t) else 0)
  {
    if n > 0 {
      HeapWorkAt(a, b, n - 1, t);
    }
  }

  lemma ReleaseWork(s: State, t: TaskId, s': State)
    requires Release(s, t) == Ok(s')
    ensures WorkLeft(s') <= WorkLeft(s)
  {
    HeapWorkAt(s.heap, s'.heap, s.nextId, t);
  }

  lemma SubmitWork(s: State, op: Op, s': State)
    requires SubmitOp(s, op) == Ok(s')
    ensures WorkLeft(s') == WorkLeft(s) + op.Count()
  {
    var t := s.slab.tasks[s.current.taskIdx];
    HeapWorkAt(s.heap, s'.heap, s.nextId, t);
  }

  lemma BeginWork(s: State, h: multiset<TaskId>, f: Future, s': State)
    requires Inv(s, h) && Begin(s, f) == Ok(s')
    ensures WorkLeft(s') == WorkLeft(s) + RestWork(f.later)
  {
    assert LiveSlot(s, s.nextId);
    HeapWorkAt(s.heap, s'.heap, s.nextId, s.nextId);
  }

  lemma {:induction false} ScriptProgress(s: State, h: multiset<TaskId>, t: TaskId, script: Script)
    requires Inv(s, h) && Running(s, h, t) && RunScript(s, script).Ok?
    ensures WorkLeft(RunScript(s, script).value) <= WorkLeft(s) + ScriptWork(script)
    decreases script
  {
    match script
    case Return =>
    case Submit(op, rest) =>
      SubmitKeeps(s, h, t, op);
      SubmitWork(s, op, SubmitOp(s, op).value);
      ScriptProgress(SubmitOp(s, op).value, h, t, rest);
    case Advance(rest) =>
      AdvanceKeeps(s, h, t);
      HeapWorkAt(s.heap, AdvanceRank(s).value.heap, s.nextId, s.slab.tasks[s.current.taskIdx]);
      ScriptProgress(AdvanceRank(s).value, h, t, rest);
    case Spawn(child, rest) =>
      SpawnSafe(s, h, child);
      SpawnProgress(s, h, child);
      ScriptProgress(SpawnTask(s, child).value, h, t, rest);
    case Use(_, rest) => ScriptProgress(s, h, t, rest);
  }

  lemma {:induction false} SpawnProgress(s: State, h: multiset<TaskId>, f: Future)
    requires Inv(s, h) && SpawnTask(s, f).Ok?
    ensures WorkLeft(SpawnTask(s, f).value) <= WorkLeft(s) + Work(f)
    decreases f
  {
    var t := s.nextId;
    BeginKeeps(s, h, f);
    var s1 := Begin(s, f).value;
    BeginWork(s, h, f, s1);
    ScriptProgress(s1, h + multiset{t, t}, t, f.now);
    var s2 := RunScript(s1, f.now).value;
    var s3 := Release(s2, t).value;
    ReleaseWork(s2, t, s3);
    ReleaseWork(s3.(current := s.current), t, SpawnTask(s, f).value);
  }

  lemma PollProgress(s: State, h: multiset<TaskId>, t: TaskId)
    requires Inv(s, h) && Running(s, h, t) && PollTask(s, t).Ok?
    ensures WorkLeft(PollTask(s, t).value) <= WorkLeft(s)
  {
    assert Counted(s, h, t) && LiveSlot(s, t);
    var s1 := Polled(s, t);
    HeaderKeeps(s, h, t, s1.heap[t], h);
    BystanderKeeps(SetTask(s, t, s1.heap[t]), s1, h);
    HeapWorkAt(s.heap, s1.heap, s.nextId, t);
    var f := s.heap[t].future;
    assert RestWork(f) == ScriptWork(f.Now()) + RestWork(f.Later());
    ScriptProgress(s1, h, t, f.Now());
  }

  lemma DispatchProgress(s: State, h: multiset<TaskId>, t: TaskId, info: TaskInfo)
    requires Inv(s, h) && t in s.heap && t in h && s.heap[t].slabIdx == Some(info.taskIdx)
    requires Dispatch(s, t, info).Ok?
    ensures WorkLeft(Dispatch(s, t, info).value) <= WorkLeft(s)
  {
    match Evaluate(s.heap[t].syscallNb, info.syscallNb)
    case Error =>
    case Expired =>
    case Normal =>
      assert Counted(s, h, t);
      var s1 := Armed(s, t, info);
      HeaderKeeps(s, h, t, s1.heap[t], h);
      BystanderKeeps(SetTask(s, t, s1.heap[t]), s1, h);
      HeapWorkAt(s.heap, s1.heap, s.nextId, t);
      PollProgress(s1, h, t);
    case Multiple =>
      BystanderKeeps(s, s.(current := info), h);
      PollProgress(s.(current := info), h, t);
  }

  lemma HandleProgress(s: State, h: multiset<TaskId>, t: TaskId, cqe: Cqe)
    requires Inv(s, h) && t in s.heap && s.heap[t].slabIdx == Some(InfoOf(cqe).taskIdx)
    requires (More(cqe.flags) || t in h) && HandleCqe(s, cqe).Ok?
    ensures WorkLeft(HandleCqe(s, cqe).value) <= WorkLeft(s)
  {
    assert LiveSlot(s, t);
    var s0 := s.(history := s.history.(completed := s.history.completed + multiset{t}));
    BystanderKeeps(s, s0, h);
    CloneKeeps(s0, h, t);
    var s1 := Judged(s, t).value;
    HeapWorkAt(s.heap, s1.heap, s.nextId, t);
    DispatchProgress(s1, h + multiset{t}, t, InfoOf(cqe));
    var s2 := Dispatch(s1, t, InfoOf(cqe)).value;
    var s3 := if More(cqe.flags) then s2 else Release(s2, t).value;
    if !More(cqe.flags) {
      ReleaseWork(s2, t, s3);
    }
    ReleaseWork(s3, t, HandleCqe(s, cqe).value);
  }

  /** A final completion uses work up; one with F_MORE at least adds none. */
  lemma CompleteProgress(s: State, k: nat, result: int, flags: nat)
    requires Inv(s, multiset{}) && CanComplete(s, k, flags) && Complete(s, k, result, flags).Ok?
    ensures WorkLeft(Complete(s, k, result, flags).value) + (if More(flags) then 0 else 1) <= WorkLeft(s)
  {
    var x := s.kernel[k];
    assert Addressed(s, x);
    if More(flags) {
      HandleProgress(s, multiset{}, x.owner, Cqe(x.userData, result, flags));
    } else {
      TakeKeeps(s, multiset{}, k);
      HandleProgress(s.(kernel := Without(s.kernel, k)), multiset{} + multiset{x.owner}, x.owner, Cqe(x.userData, result, flags));
    }
  }

  // ---- Whole runs ----------------------------------------------------------

  /** Whether `e`, in state `s`, processes a final completion. */
  predicate IsFinal(s: State, e: Event) {
    e.Completion? && CanComplete(s, e.k, e.flags) && !More(e.flags)
  }

  /** The final completions processed along a run. */
  ghost function Finals(s: State, events: seq<Event>): nat
    decreases events
  {
    if events == [] then 0
    else
      (if IsFinal(s, events[0]) then 1 else 0)
      + (if Step(s, events[0]).Ok? then Finals(Step(s, events[0]).value, events[1..]) else 0)
  }

  /** The work brought in by root spawns. */
  function RootWork(events: seq<Event>): nat {
    if events == [] then 0
    else (if events[0].SpawnRoot? then Work(events[0].future) else 0) + RootWork(events[1..])
  }

  lemma StepProgress(s: State, e: Event, s': State)
    requires Inv(s, multiset{}) && Step(s, e) == Ok(s')
    ensures WorkLeft(s') + (if IsFinal(s, e) then 1 else 0)
         <= WorkLeft(s) + (if e.SpawnRoot? then Work(e.future) else 0)
  {
    match e
    case SpawnRoot(f) => SpawnProgress(s, multiset{}, f);
    case FlushAll =>
    case Completion(k, result, flags) =>
      if CanComplete(s, k, flags) {
        CompleteProgress(s, k, result, flags);
      }
    case CollectSlots => CollectSafe(s, multiset{});
  }

  lemma {:induction false} RunProgress(s: State, events: seq<Event>, s': State)
    requires Inv(s, multiset{}) && Run(s, events) == Ok(s')
    ensures Finals(s, events) + WorkLeft(s') <= WorkLeft(s) + RootWork(events)
    decreases events
  {
    if events != [] {
      var s1 := Step(s, events[0]).value;
      StepSafe(s, events[0]);
      StepProgress(s, events[0], s1);
      RunProgress(s1, events[1..], s');
    }
  }

  lemma {:induction false} FinalsConcat(s: State, a: seq<Event>, b: seq<Event>)
    requires Run(s, a).Ok?
    ensures Finals(s, a + b) == Finals(s, a) + Finals(Run(s, a).value, b)
    decreases a
  {
    if a == [] {
      assert a + b == b;
    } else {
      assert (a + b)[1..] == a[1..] + b;
      FinalsConcat(Step(s, a[0]).value, a[1..], b);
    }
  }

  lemma {:induction false} RootWorkConcat(a: seq<Event>, b: seq<Event>)
    ensures RootWork(a + b) == RootWork(a) + RootWork(b)
  {
    if a == [] {
      assert a + b == b;
    } else {
      assert (a + b)[1..] == a[1..] + b;
      RootWorkConcat(a[1..], b);
    }
  }

  lemma {:induction false} NoRootWork(events: seq<Event>)
    requires forall e :: e in events ==> !e.SpawnRoot?
    ensures RootWork(events) == 0
  {
    if events != [] {
      NoRootWork(events[1..]);
    }
  }

  /** Bounded work: however the kernel behaves, a run processes at most as many final completions
      as its root futures contain submissions, and once that many have been processed every task
      is freed and nothing is outstanding. */
  lemma BoundedWork(events: seq<Event>, s: State)
    requires Run(INIT, events) == Ok(s)
    ensures Finals(INIT, events) <= RootWork(events)
    ensures Finals(INIT, events) == RootWork(events) ==> s.heap == map[] && s.pending == [] && s.kernel == []
  {
    InitInv();
    RunProgress(INIT, events, s);
    RunSafe(events);
    ExitTest(s);
  }
}
