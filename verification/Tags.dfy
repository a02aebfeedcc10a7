/**
 The stale-completion filter. A task's tag is kept twice, in its header and in
 CURRENT_TASK while it is polled; submissions carry a copy through the kernel. This
 module says exactly which operations keep the copies in agreement, that the
 dispatcher then never meets a tag it rejects, and what the filter guarantees.
 */
module Tags {
  import opened Words
  import opened TaskSlab
  import opened Protocol
  import opened ProtocolSafety

  function TagOf(x: Sqe): u16 { FromUserData(x.userData).syscallNb }

  /** The verdicts, in terms of the tags as numbers: a completion polls the task exactly
      when its tag is the stored one, and the mask bit tells the two polling verdicts apart. */
  lemma VerdictMeaning(stored: u16, incoming: u16)
    ensures Evaluate(stored, incoming).Normal? <==> incoming == stored < 0x8000
    ensures Evaluate(stored, incoming).Multiple? <==> incoming == stored >= 0x8000
    ensures Evaluate(stored, incoming).Expired? <==> incoming % 0x8000 < stored % 0x8000
    ensures Evaluate(stored, incoming).Error? <==>
      incoming % 0x8000 > stored % 0x8000 || (incoming % 0x8000 == stored % 0x8000 && incoming != stored)
  {
    TagSplits(stored);
    TagSplits(incoming);
  }

  // ---- Agreement -----------------------------------------------------------

  /** An outstanding submission is older than the stored tag or carries exactly it. */
  ghost predicate TagOk(s: State, x: Sqe) {
    Outstanding(s, x) && x.owner in s.heap ==>
      Rank(TagOf(x)) < Rank(s.heap[x.owner].syscallNb) || TagOf(x) == s.heap[x.owner].syscallNb
  }

  ghost predicate TagInv(s: State) { forall x :: TagOk(s, x) }

  /** The two copies of the running task's tag agree. */
  ghost predicate Agree(s: State, t: TaskId) {
    t in s.heap && s.current.syscallNb == s.heap[t].syscallNb
  }

  /** No outstanding submission of `t` carries its current rank without the mask. */
  ghost predicate NoUnmaskedPeer(s: State, t: TaskId)
    requires t in s.heap
  {
    forall x :: Outstanding(s, x) && x.owner == t && Rank(TagOf(x)) == Rank(s.heap[t].syscallNb) ==> Masked(TagOf(x))
  }

  /** When a submission by `t` keeps the tags in agreement. */
  ghost predicate OpOrderly(s: State, t: TaskId, op: Op)
    requires t in s.heap
  {
    match op
    case Multishot => NoUnmaskedPeer(s, t)
    case CommitWrite => Masked(s.heap[t].syscallNb)
    case _ => true
  }

  lemma SameTag(a: u16, b: u16)
    requires Rank(a) == Rank(b) && Masked(a) == Masked(b)
    ensures a == b
  {
    TagSplits(a);
    TagSplits(b);
  }

  /** A submission keeps the tags in agreement if and only if it is orderly: a multishot
      must meet no unmasked submission of its rank, and a commit needs the mask already set. */
  lemma SubmitTagsExactly(s: State, h: multiset<TaskId>, t: TaskId, op: Op, s': State)
    requires Inv(s, h) && Running(s, h, t) && TagInv(s) && Agree(s, t)
    requires SubmitOp(s, op) == Ok(s')
    ensures TagInv(s') && Agree(s', t) <==> OpOrderly(s, t, op)
  {
    assert LiveSlot(s, t);
    var info, nb := Marked(s.current, op), s.heap[t].syscallNb;
    var added := Entries(info, op, t);
    assert s'.pending == s.pending + added;
    EntriesNameTask(info, op, t);
    if OpOrderly(s, t, op) {
      if op.CommitWrite? { SameTag(nb, SetMask(nb)); }
      assert Agree(s', t);
      forall x
        ensures TagOk(s', x)
      {
        assert TagOk(s, x);
        if op.Multishot? && Outstanding(s, x) && x.owner == t && TagOf(x) == nb {
          SameTag(nb, SetMask(nb));
        }
      }
    } else if op.Multishot? {
      var x :| Outstanding(s, x) && x.owner == t && Rank(TagOf(x)) == Rank(nb) && !Masked(TagOf(x));
      assert Outstanding(s', x);
      assert !TagOk(s', x);
    } else {
      assert !Agree(s', t);
    }
  }

  /** Ending a batch keeps the tags in agreement if and only if the rank does not overflow. */
  lemma AdvanceTagsExactly(s: State, h: multiset<TaskId>, t: TaskId, s': State)
    requires Inv(s, h) && Running(s, h, t) && TagInv(s) && Agree(s, t)
    requires AdvanceRank(s) == Ok(s')
    ensures TagInv(s') && Agree(s', t) <==> Rank(s.heap[t].syscallNb) < 0x7FFF
  {
    assert LiveSlot(s, t);
    if Rank(s.heap[t].syscallNb) < 0x7FFF {
      forall x ensures TagOk(s', x) { assert TagOk(s, x); }
    }
  }

  /** A `Normal` verdict leaves both copies equal; the outstanding tags stay acceptable if and
      only if the rank does not overflow or only masked rank-0 submissions of the task remain. */
  lemma ArmedTagsExactly(s: State, t: TaskId, info: TaskInfo)
    requires TagInv(s) && t in s.heap && info.syscallNb == s.heap[t].syscallNb
    ensures Agree(Armed(s, t, info), t)
    ensures TagInv(Armed(s, t, info)) <==>
      || Rank(info.syscallNb) < 0x7FFF
      || (forall x :: Outstanding(s, x) && x.owner == t ==> TagOf(x) == 0x8000)
  {
    var s' := Armed(s, t, info);
    if Rank(info.syscallNb) < 0x7FFF || (forall x :: Outstanding(s, x) && x.owner == t ==> TagOf(x) == 0x8000) {
      forall x ensures TagOk(s', x) { assert TagOk(s, x); }
    } else {
      var x :| Outstanding(s, x) && x.owner == t && TagOf(x) != 0x8000;
      assert !TagOk(s', x);
    }
  }

  // ---- Orderly runs --------------------------------------------------------

  /** Every operation the script performs, in the state it performs it, is orderly. */
  ghost predicate ScriptOrderly(s: State, t: TaskId, script: Script)
    decreases script
  {
    match script
    case Return => true
    case Submit(op, rest) =>
      t in s.heap && OpOrderly(s, t, op) && (SubmitOp(s, op).Ok? ==> ScriptOrderly(SubmitOp(s, op).value, t, rest))
    case Advance(rest) =>
      && t in s.heap && Rank(s.heap[t].syscallNb) < 0x7FFF
      && (AdvanceRank(s).Ok? ==> ScriptOrderly(AdvanceRank(s).value, t, rest))
    case Spawn(child, rest) =>
      SpawnOrderly(s, child) && (SpawnTask(s, child).Ok? ==> ScriptOrderly(SpawnTask(s, child).value, t, rest))
    case Use(_, rest) => ScriptOrderly(s, t, rest)
  }

  ghost predicate SpawnOrderly(s: State, f: Future)
    decreases f
  {
    Begin(s, f).Ok? ==> ScriptOrderly(Begin(s, f).value, s.nextId, f.now)
  }

  ghost predicate PollOrderly(s: State, t: TaskId)
    requires t in s.heap
  {
    ScriptOrderly(Polled(s, t), t, s.heap[t].future.Now())
  }

  ghost predicate DispatchOrderly(s: State, t: TaskId, info: TaskInfo)
    requires t in s.heap
  {
    match Evaluate(s.heap[t].syscallNb, info.syscallNb)
    case Normal => Rank(info.syscallNb) < 0x7FFF && PollOrderly(Armed(s, t, info), t)
    case Multiple => PollOrderly(s.(current := info), t)
    case _ => true
  }

  ghost predicate HandleOrderly(s: State, cqe: Cqe) {
    var r := Resolve(s, InfoOf(cqe).taskIdx);
    r.Ok? && Judged(s, r.value).Ok? ==> DispatchOrderly(Judged(s, r.value).value, r.value, InfoOf(cqe))
  }

  ghost predicate StepOrderly(s: State, e: Event) {
    match e
    case SpawnRoot(f) => SpawnOrderly(s, f)
    case Completion(k, result, flags) =>
      CanComplete(s, k, flags) ==>
        HandleOrderly(if More(flags) then s else s.(kernel := Without(s.kernel, k)), Cqe(s.kernel[k].userData, result, flags))
    case _ => true
  }

  /** Along the whole run, every multishot meets no unmasked submission of its rank, every
      commit finds the mask set, and ranks stay below 0x7FFF. */
  ghost predicate RunOrderly(s: State, events: seq<Event>)
    decreases events
  {
    events != [] ==>
      StepOrderly(s, events[0]) && (Step(s, events[0]).Ok? ==> RunOrderly(Step(s, events[0]).value, events[1..]))
  }

  // ---- At most one poll per rank -------------------------------------------

  /** A task is polled at most once per rank by a `Normal` verdict, and only for ranks
      below its stored one. */
  ghost predicate PolledBelow(s: State, t: TaskId, r: nat) {
    && s.history.normal[(t, r)] <= 1
    && ((t, r) in s.history.normal ==> t < s.nextId && (t in s.heap ==> r < Rank(s.heap[t].syscallNb)))
  }

  ghost predicate RankInv(s: State) { forall t, r :: PolledBelow(s, t, r) }

  /** Tags in order: agreement of the outstanding tags and one poll per rank. */
  ghost predicate Ordered(s: State) { TagInv(s) && RankInv(s) }

  /** No live task's rank goes back. */
  ghost predicate RanksGrow(s: State, s': State) {
    forall u :: u in s.heap && u in s'.heap ==> Rank(s.heap[u].syscallNb) <= Rank(s'.heap[u].syscallNb)
  }

  /** Every live task stays alive and its rank does not go back. */
  ghost predicate RanksKept(s: State, s': State) {
    forall u :: u in s.heap ==> u in s'.heap && Rank(s.heap[u].syscallNb) <= Rank(s'.heap[u].syscallNb)
  }

  lemma SubmitOrdered(s: State, h: multiset<TaskId>, t: TaskId, op: Op, s': State)
    requires Inv(s, h) && Running(s, h, t) && Ordered(s) && Agree(s, t) && OpOrderly(s, t, op)
    requires SubmitOp(s, op) == Ok(s')
    ensures Ordered(s') && Agree(s', t) && RanksKept(s, s')
  {
    SubmitTagsExactly(s, h, t, op, s');
    assert LiveSlot(s, t);
    forall u, r ensures PolledBelow(s', u, r) { assert PolledBelow(s, u, r); }
  }

  lemma AdvanceOrdered(s: State, h: multiset<TaskId>, t: TaskId, s': State)
    requires Inv(s, h) && Running(s, h, t) && Ordered(s) && Agree(s, t) && Rank(s.heap[t].syscallNb) < 0x7FFF
    requires AdvanceRank(s) == Ok(s')
    ensures Ordered(s') && Agree(s', t) && RanksKept(s, s')
  {
    AdvanceTagsExactly(s, h, t, s');
    assert LiveSlot(s, t);
    forall u, r ensures PolledBelow(s', u, r) { assert PolledBelow(s, u, r); }
  }

  lemma BeginOrdered(s: State, h: multiset<TaskId>, f: Future, s': State)
    requires Inv(s, h) && Ordered(s) && Begin(s, f) == Ok(s')
    ensures Ordered(s') && Agree(s', s.nextId)
  {
    assert LiveSlot(s, s.nextId);
    forall x ensures TagOk(s', x) { assert TagOk(s, x) && Addressed(s, x); }
    forall u, r ensures PolledBelow(s', u, r) { assert PolledBelow(s, u, r); }
  }

  lemma ReleaseOrdered(s: State, t: TaskId, s': State)
    requires Ordered(s) && Release(s, t) == Ok(s')
    ensures Ordered(s')
  {
    forall x ensures TagOk(s', x) { assert TagOk(s, x); }
    forall u, r ensures PolledBelow(s', u, r) { assert PolledBelow(s, u, r); }
  }

  lemma CurrentOrdered(s: State, info: TaskInfo)
    requires Ordered(s)
    ensures Ordered(s.(current := info))
  {
    var s' := s.(current := info);
    forall x ensures TagOk(s', x) { assert TagOk(s, x); }
    forall u, r ensures PolledBelow(s', u, r) { assert PolledBelow(s, u, r); }
  }

  lemma {:induction false} ScriptOrdered(s: State, h: multiset<TaskId>, t: TaskId, script: Script)
    requires Inv(s, h) && Running(s, h, t) && Ordered(s) && Agree(s, t) && ScriptOrderly(s, t, script)
    ensures RunScript(s, script).Ok? ==>
      var s' := RunScript(s, script).value; Ordered(s') && Agree(s', t) && RanksKept(s, s')
    decreases script
  {
    match script
    case Return =>
    case Submit(op, rest) =>
      SubmitKeeps(s, h, t, op);
      var r := SubmitOp(s, op);
      if r.Ok? {
        SubmitOrdered(s, h, t, op, r.value);
        ScriptOrdered(r.value, h, t, rest);
      }
    case Advance(rest) =>
      AdvanceKeeps(s, h, t);
      var s1 := AdvanceRank(s).value;
      AdvanceOrdered(s, h, t, s1);
      ScriptOrdered(s1, h, t, rest);
    case Spawn(child, rest) =>
      SpawnSafe(s, h, child);
      SpawnOrdered(s, h, child);
      var r := SpawnTask(s, child);
      if r.Ok? {
        ScriptOrdered(r.value, h, t, rest);
      }
    case Use(_, rest) => ScriptOrdered(s, h, t, rest);
  }

  lemma {:induction false} SpawnOrdered(s: State, h: multiset<TaskId>, f: Future)
    requires Inv(s, h) && Ordered(s) && SpawnOrderly(s, f)
    ensures SpawnTask(s, f).Ok? ==> Ordered(SpawnTask(s, f).value) && RanksKept(s, SpawnTask(s, f).value)
    decreases f
  {
    var t := s.nextId;
    SpawnSafe(s, h, f);
    BeginKeeps(s, h, f);
    if SpawnTask(s, f).Ok? {
      var s1, h2 := Begin(s, f).value, h + multiset{t, t};
      BeginOrdered(s, h, f, s1);
      ScriptOrdered(s1, h2, t, f.now);
      var s2 := RunScript(s1, f.now).value;
      var s3 := Release(s2, t).value;
      ReleaseOrdered(s2, t, s3);
      CurrentOrdered(s3, s.current);
      ReleaseOrdered(s3.(current := s.current), t, SpawnTask(s, f).value);
    }
  }

  // ---- Completions and runs ------------------------------------------------

  lemma PollOrdered(s: State, h: multiset<TaskId>, t: TaskId)
    requires Inv(s, h) && Running(s, h, t) && Ordered(s) && Agree(s, t) && PollOrderly(s, t)
    ensures PollTask(s, t).Ok? ==> Ordered(PollTask(s, t).value) && RanksGrow(s, PollTask(s, t).value)
  {
    assert Counted(s, h, t);
    var r, s1 := s.heap[t], Polled(s, t);
    HeaderKeeps(s, h, t, s1.heap[t], h);
    BystanderKeeps(SetTask(s, t, s1.heap[t]), s1, h);
    forall x ensures TagOk(s1, x) { assert TagOk(s, x); }
    forall u, k ensures PolledBelow(s1, u, k) { assert PolledBelow(s, u, k); }
    ScriptOrdered(s1, h, t, r.future.Now());
  }

  lemma DispatchOrdered(s: State, h: multiset<TaskId>, t: TaskId, info: TaskInfo)
    requires Inv(s, h) && t in s.heap && t in h && s.heap[t].slabIdx == Some(info.taskIdx)
    requires Ordered(s) && DispatchOrderly(s, t, info)
    ensures Dispatch(s, t, info).Ok? ==>
      Ordered(Dispatch(s, t, info).value) && RanksGrow(s, Dispatch(s, t, info).value)
  {
    VerdictMeaning(s.heap[t].syscallNb, info.syscallNb);
    match Evaluate(s.heap[t].syscallNb, info.syscallNb)
    case Error =>
    case Expired =>
    case Normal =>
      assert Counted(s, h, t);
      var s1 := Armed(s, t, info);
      HeaderKeeps(s, h, t, s1.heap[t], h);
      BystanderKeeps(SetTask(s, t, s1.heap[t]), s1, h);
      ArmedOrdered(s, h, t, info);
      PollOrdered(s1, h, t);
    case Multiple =>
      BystanderKeeps(s, s.(current := info), h);
      CurrentOrdered(s, info);
      PollOrdered(s.(current := info), h, t);
  }

  /** A `Normal` verdict uses its rank up. */
  lemma ArmedOrdered(s: State, h: multiset<TaskId>, t: TaskId, info: TaskInfo)
    requires Inv(s, h) && t in s.heap && Ordered(s)
    requires info.syscallNb == s.heap[t].syscallNb && Rank(info.syscallNb) < 0x7FFF
    ensures Ordered(Armed(s, t, info)) && Agree(Armed(s, t, info), t)
  {
    ArmedTagsExactly(s, t, info);
    assert LiveSlot(s, t);
    var s' := Armed(s, t, info);
    forall u, r ensures PolledBelow(s', u, r) { assert PolledBelow(s, u, r); }
  }

  /** An orderly completion of any flushed submission passes the filter and keeps the order. */
  lemma CompleteOrdered(s: State, k: nat, result: int, flags: nat)
    requires Inv(s, multiset{}) && Ordered(s) && CanComplete(s, k, flags)
    requires StepOrderly(s, Completion(k, result, flags))
    ensures match Complete(s, k, result, flags)
            case Ok(s') => Ordered(s') && RanksGrow(s, s')
            case Failed(why) => Exhausted(why) || why.PolledAfterReturn?
  {
    var x := s.kernel[k];
    var t, cqe := x.owner, Cqe(x.userData, result, flags);
    assert Addressed(s, x) && LiveSlot(s, t) && TagOk(s, x);
    var s0 := if More(flags) then s else s.(kernel := Without(s.kernel, k));
    var h := if More(flags) then multiset{} else multiset{} + multiset{t};
    if !More(flags) {
      TakeKeeps(s, multiset{}, k);
    }
    forall y ensures TagOk(s0, y) { assert TagOk(s, y); }
    forall u, r ensures PolledBelow(s0, u, r) { assert PolledBelow(s, u, r); }
    assert !Evaluate(s.heap[t].syscallNb, TagOf(x)).Error? by {
      TagSplits(TagOf(x));
    }
    HandleOrdered(s0, h, t, cqe);
  }

  /** Counting the clone leaves tags and ranks alone. */
  lemma JudgedOrdered(s: State, h: multiset<TaskId>, t: TaskId)
    requires Inv(s, h) && t in s.heap && Ordered(s)
    ensures match Judged(s, t)
            case Ok(s') =>
              && Inv(s', h + multiset{t}) && Ordered(s') && RanksGrow(s, s') && OthersKept(s, s', t)
              && t in s'.heap && s'.heap[t] == s.heap[t].(rc := s'.heap[t].rc)
            case Failed(why) => Exhausted(why)
  {
    var s0 := s.(history := s.history.(completed := s.history.completed + multiset{t}));
    BystanderKeeps(s, s0, h);
    CloneKeeps(s0, h, t);
    var r := Judged(s, t);
    if r.Ok? {
      forall x ensures TagOk(r.value, x) { assert TagOk(s, x); }
      forall u, k ensures PolledBelow(r.value, u, k) { assert PolledBelow(s, u, k); }
    }
  }

  lemma HandleOrdered(s: State, h: multiset<TaskId>, t: TaskId, cqe: Cqe)
    requires Inv(s, h) && t in s.heap && s.heap[t].slabIdx == Some(InfoOf(cqe).taskIdx)
    requires More(cqe.flags) || t in h
    requires Ordered(s) && HandleOrderly(s, cqe) && !Evaluate(s.heap[t].syscallNb, InfoOf(cqe).syscallNb).Error?
    ensures match HandleCqe(s, cqe)
            case Ok(s') => Ordered(s') && RanksGrow(s, s')
            case Failed(why) => Exhausted(why) || why.PolledAfterReturn?
  {
    assert LiveSlot(s, t);
    hide Inv, Dispatch, Ordered, DispatchOrderly, Judged, Evaluate, Release, InfoOf, RanksGrow, PollFrame;
    JudgedOrdered(s, h, t);
    var r1 := Judged(s, t);
    if r1.Ok? {
      var s1, h1 := r1.value, h + multiset{t};
      DispatchFaults(s1, h1, t, InfoOf(cqe));
      DispatchSafe(s1, h1, t, InfoOf(cqe));
      DispatchOrdered(s1, h1, t, InfoOf(cqe));
      var r2 := Dispatch(s1, t, InfoOf(cqe));
      if r2.Ok? {
        FinishSafe(r2.value, h, t, More(cqe.flags));
        FinishOrdered(r2.value, t, More(cqe.flags));
        RanksChain(s, s1, r2.value, HandleCqe(s, cqe).value, h1, t);
      }
    }
  }

  lemma RanksChain(s: State, s1: State, s2: State, s': State, h: multiset<TaskId>, t: TaskId)
    requires RanksGrow(s, s1) && RanksGrow(s1, s2) && RanksGrow(s2, s')
    requires OthersKept(s, s1, t) && PollFrame(s1, s2, t) && t in s1.heap && t in h && Inv(s2, h)
    ensures RanksGrow(s, s')
  {
    assert Counted(s2, h, t);
  }

  lemma FinishOrdered(s: State, t: TaskId, more: bool)
    requires Ordered(s)
    requires more || Release(s, t).Ok?
    ensures var s1 := if more then s else Release(s, t).value;
      Release(s1, t).Ok? ==> Ordered(Release(s1, t).value) && RanksGrow(s, Release(s1, t).value)
  {
    var s1 := if more then s else Release(s, t).value;
    if !more {
      ReleaseOrdered(s, t, s1);
    }
    if Release(s1, t).Ok? {
      ReleaseOrdered(s1, t, Release(s1, t).value);
    }
  }

  /** Only the verdict itself reports a tag that is too new, and only a verdict that polls meets
      a future that has returned. */
  lemma DispatchFaults(s: State, h: multiset<TaskId>, t: TaskId, info: TaskInfo)
    requires Inv(s, h) && t in s.heap && t in h && s.heap[t].slabIdx == Some(info.taskIdx)
    ensures Dispatch(s, t, info) == Failed(NewerThanExpected) <==> Evaluate(s.heap[t].syscallNb, info.syscallNb).Error?
    ensures Dispatch(s, t, info) == Failed(PolledAfterReturn) <==>
      info.syscallNb == s.heap[t].syscallNb && s.heap[t].future.Returned?
    ensures Dispatch(s, t, info).Failed? ==>
      var why := Dispatch(s, t, info).fault; why.NewerThanExpected? || why.PolledAfterReturn? || Exhausted(why)
  {
    assert Counted(s, h, t);
    VerdictMeaning(s.heap[t].syscallNb, info.syscallNb);
    match Evaluate(s.heap[t].syscallNb, info.syscallNb)
    case Normal =>
      var s1 := Armed(s, t, info);
      HeaderKeeps(s, h, t, s1.heap[t], h);
      BystanderKeeps(SetTask(s, t, s1.heap[t]), s1, h);
      PollSafe(s1, h, t);
    case Multiple =>
      BystanderKeeps(s, s.(current := info), h);
      PollSafe(s.(current := info), h, t);
    case _ =>
  }

  lemma {:induction false} RunOrdered(s: State, events: seq<Event>)
    requires Inv(s, multiset{}) && Ordered(s) && RunOrderly(s, events)
    ensures match Run(s, events)
            case Ok(s') => Ordered(s')
            case Failed(why) => Limit(why) || why.PolledAfterReturn?
    decreases events
  {
    if events != [] {
      var e := events[0];
      StepSafe(s, e);
      match e {
        case SpawnRoot(f) =>
          SpawnSafe(s, multiset{}, f);
          SpawnOrdered(s, multiset{}, f);
        case Completion(k, result, flags) =>
          if CanComplete(s, k, flags) {
            CompleteOrdered(s, k, result, flags);
          }
        case FlushAll =>
          FlushOrdered(s);
        case CollectSlots =>
          CollectSafe(s, multiset{});
          CollectOrdered(s);
      }
      var r := Step(s, e);
      if r.Ok? {
        RunOrdered(r.value, events[1..]);
      }
    }
  }

  lemma FlushOrdered(s: State)
    requires Ordered(s)
    ensures Ordered(Flush(s))
  {
    forall x ensures TagOk(Flush(s), x) { assert TagOk(s, x); }
    forall u, r ensures PolledBelow(Flush(s), u, r) { assert PolledBelow(s, u, r); }
  }

  lemma CollectOrdered(s: State)
    requires Ordered(s) && Collect(s).Ok?
    ensures Ordered(Collect(s).value)
  {
    var s' := Collect(s).value;
    forall x ensures TagOk(s', x) { assert TagOk(s, x); }
    forall u, r ensures PolledBelow(s', u, r) { assert PolledBelow(s, u, r); }
  }

  /** Tag agreement over whole runs: in an orderly run the dispatcher never meets a tag it
      rejects, every outstanding tag is older than or equal to the stored one, and no rank
      of a task is used for more than one `Normal` poll. */
  lemma OrderlyRun(events: seq<Event>)
    requires RunOrderly(INIT, events)
    ensures match Run(INIT, events)
            case Ok(s) =>
              && (forall x :: Outstanding(s, x) ==> x.owner in s.heap && !Evaluate(s.heap[x.owner].syscallNb, TagOf(x)).Error?)
              && (forall t, r :: s.history.normal[(t, r)] <= 1)
            case Failed(why) => Limit(why) || why.PolledAfterReturn?
  {
    InitInv();
    assert Ordered(INIT);
    RunOrdered(INIT, events);
    var r := Run(INIT, events);
    if r.Ok? {
      RunSafe(events);
      var s := r.value;
      forall x | Outstanding(s, x)
        ensures x.owner in s.heap && !Evaluate(s.heap[x.owner].syscallNb, TagOf(x)).Error?
      {
        assert Addressed(s, x) && TagOk(s, x);
        TagSplits(TagOf(x));
      }
      forall t, k ensures s.history.normal[(t, k)] <= 1 { assert PolledBelow(s, t, k); }
    }
  }

  // ---- What the filter does, step by step ----------------------------------

  /** A completion is rejected if and only if its tag is out of order, and polls a future that
      has returned if and only if it carries the stored tag and the task's future has returned
      (the clone being countable in both cases). */
  lemma RejectedExactly(s: State, k: nat, result: int, flags: nat)
    requires Inv(s, multiset{}) && CanComplete(s, k, flags)
    ensures s.kernel[k].owner in s.heap
    ensures var t := s.kernel[k].owner;
      && (Complete(s, k, result, flags) == Failed(NewerThanExpected) <==>
          s.heap[t].rc < 0xFFFF && !TagOk(s, s.kernel[k]))
      && (Complete(s, k, result, flags) == Failed(PolledAfterReturn) <==>
          s.heap[t].rc < 0xFFFF && TagOf(s.kernel[k]) == s.heap[t].syscallNb && s.heap[t].future.Returned?)
  {
    var x := s.kernel[k];
    var t, cqe := x.owner, Cqe(x.userData, result, flags);
    assert Addressed(s, x) && LiveSlot(s, t);
    var s0 := if More(flags) then s else s.(kernel := Without(s.kernel, k));
    var h := if More(flags) then multiset{} else multiset{} + multiset{t};
    if !More(flags) {
      TakeKeeps(s, multiset{}, k);
    }
    var s1 := s0.(history := s0.history.(completed := s0.history.completed + multiset{t}));
    BystanderKeeps(s0, s1, h);
    CloneKeeps(s1, h, t);
    TagSplits(TagOf(x));
    TagSplits(s.heap[t].syscallNb);
    if s.heap[t].rc < 0xFFFF {
      var s2, h2 := Judged(s0, t).value, h + multiset{t};
      DispatchFaults(s2, h2, t, InfoOf(cqe));
      DispatchSafe(s2, h2, t, InfoOf(cqe));
      if Dispatch(s2, t, InfoOf(cqe)).Ok? {
        FinishSafe(Dispatch(s2, t, InfoOf(cqe)).value, h, t, More(flags));
      }
    }
  }

  /** A stale completion costs its task one reference and nothing else: no poll, no
      submission, no change of tag or future; the last one frees the task. */
  lemma StaleCostsOneReference(s: State, k: nat, result: int, flags: nat)
    requires Inv(s, multiset{}) && CanComplete(s, k, flags) && !More(flags)
    requires var t := s.kernel[k].owner;
      t in s.heap && s.heap[t].rc < 0xFFFF && Rank(TagOf(s.kernel[k])) < Rank(s.heap[t].syscallNb)
    ensures Complete(s, k, result, flags).Ok?
    ensures var t, s' := s.kernel[k].owner, Complete(s, k, result, flags).value;
      && s'.history.polled == s.history.polled && s'.pending == s.pending && s'.current == s.current
      && s'.kernel == Without(s.kernel, k)
      && s'.heap == if s.heap[t].rc > 1 then s.heap[t := s.heap[t].(rc := s.heap[t].rc - 1)] else s.heap - {t}
  {
    var x := s.kernel[k];
    var t := x.owner;
    assert Addressed(s, x) && LiveSlot(s, t) && Counted(s, multiset{}, t);
    var s' := Complete(s, k, result, flags).value;
    if s.heap[t].rc > 1 {
      assert s'.heap == s.heap[t := s.heap[t].(rc := s.heap[t].rc - 1)];
    } else {
      assert s'.heap == s.heap - {t};
    }
  }
}
