/**
 Sequential futures, the shape of ordinary `async` code: each poll awaits at most one
 single-shot operation and may spawn further sequential tasks. For them the filter is
 invisible over runs of any length, the overflow of the 15-bit rank included: nothing
 expires, nothing is rejected, and every completion is one poll.
 */
module Sequential {
  import opened Words
  import opened TaskSlab
  import opened Protocol
  import opened ProtocolSafety
  import opened Tags

  /** The number of submissions in a script. */
  function Submits(script: Script): nat {
    match script
    case Return => 0
    case Submit(_, rest) => 1 + Submits(rest)
    case Advance(rest) => Submits(rest)
    case Spawn(_, rest) => Submits(rest)
    case Use(_, rest) => Submits(rest)
  }

  /** Only single-shot submissions and spawns of sequential futures. */
  predicate Plain(script: Script)
    decreases script
  {
    match script
    case Return => true
    case Submit(op, rest) => OneShot(op) && Plain(rest)
    case Advance(_) => false
    case Spawn(child, rest) => IsSequential(child) && Plain(rest)
    case Use(_, rest) => Plain(rest)
  }

  predicate OneShot(op: Op) { op.Single? || op.Read? }

  predicate IsSequential(f: Future)
    decreases f
  {
    Plain(f.now) && Submits(f.now) <= 1 && RestSequential(f.later)
  }

  predicate RestSequential(r: Rest)
    decreases r
  {
    r.Resume? ==> IsSequential(r.next)
  }

  /** The poll in which the future returns submits nothing, and so for the futures it spawns. */
  predicate Quiet(f: Future)
    decreases f
  {
    QuietScript(f.now) && (f.later.Returned? ==> Submits(f.now) == 0) && RestQuiet(f.later)
  }

  predicate RestQuiet(r: Rest)
    decreases r
  {
    r.Resume? ==> Quiet(r.next)
  }

  predicate QuietScript(script: Script)
    decreases script
  {
    match script
    case Return => true
    case Submit(_, rest) => QuietScript(rest)
    case Advance(rest) => QuietScript(rest)
    case Spawn(child, rest) => Quiet(child) && QuietScript(rest)
    case Use(_, rest) => QuietScript(rest)
  }

  lemma NextPoll(r: Rest)
    requires RestSequential(r)
    ensures Plain(r.Now()) && Submits(r.Now()) <= 1 && RestSequential(r.Later())
    ensures RestQuiet(r) && !r.Returned? ==>
      QuietScript(r.Now()) && RestQuiet(r.Later()) && (r.Later().Returned? ==> Submits(r.Now()) == 0)
  {
    assert r.Resume? ==> IsSequential(r.next);
    assert RestQuiet(r) && r.Resume? ==> Quiet(r.next);
  }

  /** What can stop sequential futures: the slab's limit, and without `quiet` a poll of a
      future that has returned. */
  predicate SeqFault(why: Fault, quiet: bool) { SlabFault(why) || (!quiet && why.PolledAfterReturn?) }

  // ---- Invariant -----------------------------------------------------------

  /** A task has one submission outstanding at most; if `quiet`, none once it has returned. */
  ghost predicate OneAtATime(s: State, t: TaskId, quiet: bool) {
    t in s.heap ==>
      && RestSequential(s.heap[t].future) && Owned(s)[t] <= 1
      && (quiet ==> RestQuiet(s.heap[t].future) && (s.heap[t].future.Returned? ==> Owned(s)[t] == 0))
  }

  ghost predicate CurrentTag(s: State, x: Sqe) {
    Outstanding(s, x) && x.owner in s.heap ==> !x.multishot && TagOf(x) == s.heap[x.owner].syscallNb
  }

  /** Polls are one plus completions, but for the polls `owed` to completions in hand. */
  ghost predicate PollsCounted(s: State, owed: multiset<TaskId>, t: TaskId) {
    s.history.polled[t] + owed[t] == s.history.completed[t] + (if t < s.nextId then 1 else 0)
  }

  ghost predicate SeqInv(s: State, owed: multiset<TaskId>, quiet: bool) {
    && (forall t :: OneAtATime(s, t, quiet))
    && (forall x :: CurrentTag(s, x))
    && (forall t :: PollsCounted(s, owed, t))
  }

  /** Running task `t` has room for the submissions of `script`. */
  ghost predicate Room(s: State, h: multiset<TaskId>, t: TaskId, script: Script, quiet: bool) {
    && Inv(s, h) && Running(s, h, t) && Agree(s, t) && h[t] <= 2
    && Plain(script) && Owned(s)[t] + Submits(script) <= 1
    && (quiet ==> QuietScript(script) && (s.heap[t].future.Returned? ==> Submits(script) == 0))
  }

  // ---- Polls ---------------------------------------------------------------

  /** A single-shot submission of a task that holds at most two references succeeds. */
  lemma SingleQueues(s: State, h: multiset<TaskId>, t: TaskId, op: Op)
    requires Inv(s, h) && Running(s, h, t) && h[t] <= 2 && Owned(s)[t] == 0 && OneShot(op)
    ensures s.heap[t].rc <= 2
    ensures var r := s.heap[t];
      SubmitOp(s, op) == Ok(s.(heap := s.heap[t := r.(rc := r.rc + 1)],
                               pending := s.pending + Entries(s.current, op, t)))
  {
    assert LiveSlot(s, t) && Counted(s, h, t);
  }

  lemma SubmitSequential(s: State, h: multiset<TaskId>, t: TaskId, op: Op, rest: Script, owed: multiset<TaskId>, quiet: bool)
    requires SeqInv(s, owed, quiet) && Room(s, h, t, Submit(op, rest), quiet)
    ensures SubmitOp(s, op).Ok?
    ensures var s' := SubmitOp(s, op).value; SeqInv(s', owed, quiet) && Room(s', h, t, rest, quiet)
  {
    SingleQueues(s, h, t, op);
    var s' := SubmitOp(s, op).value;
    assert SeqInv(s', owed, quiet) && Owned(s')[t] == 1 by {
      EntriesNameTask(s.current, op, t);
      QueuedSequential(s, t, Entries(s.current, op, t)[0], s', owed, quiet);
    }
    SubmitKeeps(s, h, t, op);
  }

  /** One more submission, carrying the task's tag. */
  lemma QueuedSequential(s: State, t: TaskId, added: Sqe, s': State, owed: multiset<TaskId>, quiet: bool)
    requires SeqInv(s, owed, quiet) && t in s.heap && Owned(s)[t] == 0 && (quiet ==> !s.heap[t].future.Returned?)
    requires added.owner == t && !added.multishot && TagOf(added) == s.heap[t].syscallNb
    requires t in s'.heap && s'.heap == s.heap[t := s.heap[t].(rc := s'.heap[t].rc)]
    requires s' == s.(heap := s'.heap, pending := s.pending + [added])
    ensures SeqInv(s', owed, quiet) && Owned(s')[t] == 1
  {
    OwnersConcat(s.pending, [added]);
    OwnersUniform([added], t);
    forall u ensures OneAtATime(s', u, quiet) { assert OneAtATime(s, u, quiet); }
    forall x ensures CurrentTag(s', x) { assert CurrentTag(s, x); }
    forall u ensures PollsCounted(s', owed, u) { assert PollsCounted(s, owed, u); }
  }

  lemma BeginSequential(s: State, h: multiset<TaskId>, f: Future, owed: multiset<TaskId>, quiet: bool)
    requires SeqInv(s, owed, quiet) && Inv(s, h) && IsSequential(f) && (quiet ==> Quiet(f)) && Begin(s, f).Ok?
    ensures var s' := Begin(s, f).value;
      SeqInv(s', owed, quiet) && Room(s', h + multiset{s.nextId, s.nextId}, s.nextId, f.now, quiet)
  {
    var t, s' := s.nextId, Begin(s, f).value;
    assert LiveSlot(s, t) && Counted(s, h, t);
    BeginKeeps(s, h, f);
    forall u ensures OneAtATime(s', u, quiet) { assert OneAtATime(s, u, quiet); }
    forall x ensures CurrentTag(s', x) { assert CurrentTag(s, x) && Addressed(s, x); }
    forall u ensures PollsCounted(s', owed, u) { assert PollsCounted(s, owed, u); }
  }

  lemma ReleaseSequential(s: State, t: TaskId, s': State, owed: multiset<TaskId>, quiet: bool)
    requires SeqInv(s, owed, quiet) && Release(s, t) == Ok(s')
    ensures SeqInv(s', owed, quiet)
  {
    forall u ensures OneAtATime(s', u, quiet) { assert OneAtATime(s, u, quiet); }
    forall x ensures CurrentTag(s', x) { assert CurrentTag(s, x); }
    forall u ensures PollsCounted(s', owed, u) { assert PollsCounted(s, owed, u); }
  }

  lemma RestoreSequential(s: State, info: TaskInfo, owed: multiset<TaskId>, quiet: bool)
    requires SeqInv(s, owed, quiet)
    ensures SeqInv(s.(current := info), owed, quiet)
  {
    var s' := s.(current := info);
    forall u ensures OneAtATime(s', u, quiet) { assert OneAtATime(s, u, quiet); }
    forall x ensures CurrentTag(s', x) { assert CurrentTag(s, x); }
    forall u ensures PollsCounted(s', owed, u) { assert PollsCounted(s, owed, u); }
  }

  lemma {:induction false} ScriptSequential(s: State, h: multiset<TaskId>, t: TaskId, script: Script, owed: multiset<TaskId>, quiet: bool)
    requires SeqInv(s, owed, quiet) && Room(s, h, t, script, quiet)
    ensures match RunScript(s, script) case Ok(s') => SeqInv(s', owed, quiet) case Failed(why) => SeqFault(why, quiet)
    decreases script
  {
    match script
    case Return =>
    case Submit(op, rest) =>
      SubmitSequential(s, h, t, op, rest, owed, quiet);
      ScriptSequential(SubmitOp(s, op).value, h, t, rest, owed, quiet);
    case Use(_, rest) => ScriptSequential(s, h, t, rest, owed, quiet);
    case Spawn(child, rest) =>
      SpawnSafe(s, h, child);
      SpawnSequential(s, h, child, owed, quiet);
      var r := SpawnTask(s, child);
      if r.Ok? {
        assert Owned(r.value)[t] == Owned(s)[t] by {
          assert Counted(s, h, t) && Counted(r.value, h, t);
        }
        ScriptSequential(r.value, h, t, rest, owed, quiet);
      }
  }

  lemma {:induction false} SpawnSequential(s: State, h: multiset<TaskId>, f: Future, owed: multiset<TaskId>, quiet: bool)
    requires SeqInv(s, owed, quiet) && Inv(s, h) && IsSequential(f) && (quiet ==> Quiet(f))
    ensures match SpawnTask(s, f) case Ok(s') => SeqInv(s', owed, quiet) case Failed(why) => SeqFault(why, quiet)
    decreases f
  {
    var t := s.nextId;
    BeginKeeps(s, h, f);
    if Begin(s, f).Ok? {
      hide Inv, SeqInv, Begin, Release;
      var s1, h2 := Begin(s, f).value, h + multiset{t, t};
      BeginSequential(s, h, f, owed, quiet);
      ScriptSequential(s1, h2, t, f.now, owed, quiet);
      ScriptSafe(s1, h2, t, f.now);
      var r2 := RunScript(s1, f.now);
      if r2.Ok? {
        var s2 := r2.value;
        EndSpawn(s2, h, t, s.current);
        var s3 := Release(s2, t).value;
        ReleaseSequential(s2, t, s3, owed, quiet);
        RestoreSequential(s3, s.current, owed, quiet);
        ReleaseSequential(s3.(current := s.current), t, SpawnTask(s, f).value, owed, quiet);
      }
    }
  }

  // ---- Completions ---------------------------------------------------------

  /** The state in which a completion of tag `nb` polls `t`, whatever the verdict's kind. */
  lemma PollSequential(s: State, h: multiset<TaskId>, t: TaskId, owed: multiset<TaskId>, quiet: bool)
    requires SeqInv(s, owed + multiset{t}, quiet) && Inv(s, h) && Running(s, h, t) && Agree(s, t)
    requires h[t] <= 2 && Owned(s)[t] == 0 && (quiet ==> !s.heap[t].future.Returned?)
    ensures match PollTask(s, t) case Ok(s') => SeqInv(s', owed, quiet) case Failed(why) => SeqFault(why, quiet)
  {
    assert Counted(s, h, t) && OneAtATime(s, t, quiet);
    var s1, script := Polled(s, t), s.heap[t].future.Now();
    NextPoll(s.heap[t].future);
    HeaderKeeps(s, h, t, s1.heap[t], h);
    BystanderKeeps(SetTask(s, t, s1.heap[t]), s1, h);
    forall u ensures OneAtATime(s1, u, quiet) { assert OneAtATime(s, u, quiet); }
    forall x ensures CurrentTag(s1, x) { assert CurrentTag(s, x); }
    forall u ensures PollsCounted(s1, owed, u) { assert PollsCounted(s, owed + multiset{t}, u); }
    if !s.heap[t].future.Returned? {
      ScriptSequential(s1, h, t, script, owed, quiet);
    }
  }

  lemma DispatchSequential(s: State, h: multiset<TaskId>, t: TaskId, info: TaskInfo, owed: multiset<TaskId>, quiet: bool)
    requires SeqInv(s, owed + multiset{t}, quiet) && Inv(s, h) && t in s.heap && t in h && h[t] <= 2 && Owned(s)[t] == 0
    requires quiet ==> !s.heap[t].future.Returned?
    requires s.heap[t].slabIdx == Some(info.taskIdx) && info.syscallNb == s.heap[t].syscallNb
    ensures match Dispatch(s, t, info) case Ok(s') => SeqInv(s', owed, quiet) case Failed(why) => SeqFault(why, quiet)
  {
    VerdictMeaning(s.heap[t].syscallNb, info.syscallNb);
    var owing := owed + multiset{t};
    if Evaluate(s.heap[t].syscallNb, info.syscallNb).Normal? {
      assert Counted(s, h, t);
      var s1 := Armed(s, t, info);
      HeaderKeeps(s, h, t, s1.heap[t], h);
      BystanderKeeps(SetTask(s, t, s1.heap[t]), s1, h);
      forall u ensures OneAtATime(s1, u, quiet) { assert OneAtATime(s, u, quiet); }
      forall x ensures CurrentTag(s1, x) {
        assert CurrentTag(s, x);
        OwnersMember(s.pending, t);
        OwnersMember(s.kernel, t);
      }
      forall u ensures PollsCounted(s1, owing, u) { assert PollsCounted(s, owing, u); }
      PollSequential(s1, h, t, owed, quiet);
    } else {
      BystanderKeeps(s, s.(current := info), h);
      RestoreSequential(s, info, owing, quiet);
      PollSequential(s.(current := info), h, t, owed, quiet);
    }
  }

  /** A completion polls its task once; only the slab can run out. */
  lemma CompleteSequential(s: State, k: nat, result: int, flags: nat, quiet: bool)
    requires SeqInv(s, multiset{}, quiet) && Inv(s, multiset{}) && CanComplete(s, k, flags)
    ensures match Complete(s, k, result, flags)
            case Ok(s') => SeqInv(s', multiset{}, quiet)
            case Failed(why) => SeqFault(why, quiet)
  {
    var x := s.kernel[k];
    var t, s0 := x.owner, s.(kernel := Without(s.kernel, k));
    assert Addressed(s, x) && CurrentTag(s, x) && OneAtATime(s, t, quiet);
    TakeKeeps(s, multiset{}, k);
    OwnersWithout(s.kernel, k);
    forall u ensures OneAtATime(s0, u, quiet) { assert OneAtATime(s, u, quiet); }
    forall y ensures CurrentTag(s0, y) { assert CurrentTag(s, y); }
    forall u ensures PollsCounted(s0, multiset{}, u) { assert PollsCounted(s, multiset{}, u); }
    HandleSequential(s0, t, Cqe(x.userData, result, flags), quiet);
  }

  /** Counting the clone of a task that holds one reference succeeds, and owes it a poll. */
  lemma JudgedSequential(s: State, t: TaskId, quiet: bool)
    requires SeqInv(s, multiset{}, quiet) && Inv(s, multiset{} + multiset{t}) && t in s.heap && Owned(s)[t] == 0
    ensures Judged(s, t).Ok?
    ensures var s', h := Judged(s, t).value, multiset{} + multiset{t};
      && SeqInv(s', multiset{} + multiset{t}, quiet) && Inv(s', h + multiset{t}) && Owned(s') == Owned(s)
      && t in s'.heap && s'.heap[t] == s.heap[t].(rc := s'.heap[t].rc)
  {
    var h := multiset{} + multiset{t};
    assert Counted(s, h, t);
    var s1 := s.(history := s.history.(completed := s.history.completed + multiset{t}));
    BystanderKeeps(s, s1, h);
    CloneKeeps(s1, h, t);
    var s' := Judged(s, t).value;
    forall u ensures OneAtATime(s', u, quiet) { assert OneAtATime(s, u, quiet); }
    forall y ensures CurrentTag(s', y) { assert CurrentTag(s, y); }
    forall u ensures PollsCounted(s', h, u) { assert PollsCounted(s, multiset{}, u); }
  }

  lemma HandleSequential(s: State, t: TaskId, cqe: Cqe, quiet: bool)
    requires SeqInv(s, multiset{}, quiet) && Inv(s, multiset{} + multiset{t}) && !More(cqe.flags)
    requires t in s.heap && Owned(s)[t] == 0 && (quiet ==> !s.heap[t].future.Returned?)
    requires s.heap[t].slabIdx == Some(InfoOf(cqe).taskIdx) && InfoOf(cqe).syscallNb == s.heap[t].syscallNb
    ensures match HandleCqe(s, cqe) case Ok(s') => SeqInv(s', multiset{}, quiet) case Failed(why) => SeqFault(why, quiet)
  {
    var h := multiset{} + multiset{t};
    assert LiveSlot(s, t);
    hide Inv, SeqInv, Dispatch, Release, Judged, InfoOf;
    JudgedSequential(s, t, quiet);
    var s2 := Judged(s, t).value;
    DispatchSequential(s2, h + multiset{t}, t, InfoOf(cqe), multiset{}, quiet);
    DispatchSafe(s2, h + multiset{t}, t, InfoOf(cqe));
    var r := Dispatch(s2, t, InfoOf(cqe));
    if r.Ok? {
      FinishSafe(r.value, h, t, false);
      var s4 := Release(r.value, t).value;
      ReleaseSequential(r.value, t, s4, multiset{}, quiet);
      ReleaseSequential(s4, t, Release(s4, t).value, multiset{}, quiet);
    }
  }

  lemma {:induction false} RunSequential(s: State, events: seq<Event>, quiet: bool)
    requires SeqInv(s, multiset{}, quiet) && Inv(s, multiset{})
    requires forall e :: e in events && e.SpawnRoot? ==> IsSequential(e.future) && (quiet ==> Quiet(e.future))
    ensures match Run(s, events)
            case Ok(s') => SeqInv(s', multiset{}, quiet)
            case Failed(why) => SeqFault(why, quiet) || QueueFault(why)
    decreases events
  {
    if events != [] {
      var e := events[0];
      StepSafe(s, e);
      match e {
        case SpawnRoot(f) => SpawnSequential(s, multiset{}, f, multiset{}, quiet);
        case Completion(k, result, flags) =>
          if CanComplete(s, k, flags) {
            CompleteSequential(s, k, result, flags, quiet);
          }
        case FlushAll => FlushSequential(s, quiet);
        case CollectSlots =>
          CollectSafe(s, multiset{});
          CollectSequential(s, quiet);
      }
      var r := Step(s, e);
      if r.Ok? {
        RunSequential(r.value, events[1..], quiet);
      }
    }
  }

  lemma FlushSequential(s: State, quiet: bool)
    requires SeqInv(s, multiset{}, quiet)
    ensures SeqInv(Flush(s), multiset{}, quiet)
  {
    OwnersConcat(s.kernel, s.pending);
    forall u ensures OneAtATime(Flush(s), u, quiet) { assert OneAtATime(s, u, quiet); }
    forall x ensures CurrentTag(Flush(s), x) { assert CurrentTag(s, x); }
    forall u ensures PollsCounted(Flush(s), multiset{}, u) { assert PollsCounted(s, multiset{}, u); }
  }

  lemma CollectSequential(s: State, quiet: bool)
    requires SeqInv(s, multiset{}, quiet) && Collect(s).Ok?
    ensures SeqInv(Collect(s).value, multiset{}, quiet)
  {
    var s' := Collect(s).value;
    forall u ensures OneAtATime(s', u, quiet) { assert OneAtATime(s, u, quiet); }
    forall x ensures CurrentTag(s', x) { assert CurrentTag(s, x); }
    forall u ensures PollsCounted(s', multiset{}, u) { assert PollsCounted(s, multiset{}, u); }
  }

  /** Every run of sequential futures, however long: the only possible faults are a slab of
      2^31 slots, a full submission queue and the poll of a future that has returned, and the last
      cannot happen if the polls in which futures return submit nothing. Every task has been
      polled once plus once per completion, and no outstanding completion can expire or be
      rejected, since each carries the stored tag. */
  lemma SequentialRun(events: seq<Event>, quiet: bool)
    requires forall e :: e in events && e.SpawnRoot? ==> IsSequential(e.future) && (quiet ==> Quiet(e.future))
    ensures match Run(INIT, events)
            case Ok(s) =>
              && (forall t: TaskId :: t < s.nextId ==> s.history.polled[t] == 1 + s.history.completed[t])
              && (forall t :: t in s.heap ==> s.heap[t].rc == 1)
              && (forall x :: Outstanding(s, x) ==> x.owner in s.heap && TagOf(x) == s.heap[x.owner].syscallNb)
            case Failed(why) => SlabFault(why) || QueueFault(why) || (!quiet && why.PolledAfterReturn?)
  {
    InitInv();
    assert SeqInv(INIT, multiset{}, quiet);
    RunSequential(INIT, events, quiet);
    var r := Run(INIT, events);
    if r.Ok? {
      RunSafe(events);
      var s := r.value;
      forall t: TaskId | t < s.nextId ensures s.history.polled[t] == 1 + s.history.completed[t] {
        assert PollsCounted(s, multiset{}, t);
      }
      forall t | t in s.heap ensures s.heap[t].rc == 1 {
        assert OneAtATime(s, t, quiet) && Counted(s, multiset{}, t);
      }
      forall x | Outstanding(s, x)
        ensures x.owner in s.heap && TagOf(x) == s.heap[x.owner].syscallNb
      {
        assert Addressed(s, x) && CurrentTag(s, x);
      }
    }
  }
}
