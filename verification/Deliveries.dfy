/**
 What a poll finds. The first part says in which state a completion's poll starts: CURRENT_TASK
 holds the completion's own slot, result, flags and generation. The second follows a task whose
 tag is masked through whole runs: each of its completions is one poll, and the generations of a
 write batch are delivered once each.
 */
module Deliveries {
  import opened Words
  import opened TaskSlab
  import opened Protocol
  import opened ProtocolSafety
  import opened Tags

  // ---- The start of a poll -------------------------------------------------

  /** The closing releases of the dispatcher. */
  function Finished(s: State, t: TaskId, more: bool): Result<State> {
    var s1 :- if more then Ok(s) else Release(s, t);
    Release(s1, t)
  }

  /** The tag under which a completion of tag `nb` polls: a masked tag stays, another moves on. */
  function PollTag(nb: u16): u16 { if nb >= 0x8000 then nb else nb + 1 }

  /** The state in which a completion of `kernel[k]` that carries the stored tag starts the poll. */
  ghost function PollStart(s: State, k: nat, result: int, flags: nat): State
    requires k < |s.kernel| && s.kernel[k].owner in s.heap && s.heap[s.kernel[k].owner].rc < 0xFFFF
    requires s.heap[s.kernel[k].owner].slabIdx.Some?
  {
    var x := s.kernel[k];
    var t, p := x.owner, FromUserData(x.userData);
    var r, nb := s.heap[t], PollTag(p.syscallNb);
    s.(kernel := if More(flags) then s.kernel else Without(s.kernel, k),
       heap := s.heap[t := RawTask(r.rc + 1, nb, r.slabIdx, r.future.Later())],
       current := TaskInfo(r.slabIdx.value, nb, result, flags, p.responseGen),
       history := History(
         s.history.polled + multiset{t},
         s.history.completed + multiset{t},
         if p.syscallNb >= 0x8000 then s.history.normal else s.history.normal + multiset{(t, p.syscallNb as nat)},
         s.history.dropped))
  }

  /** A completion that carries the stored tag of a task that has not returned. */
  ghost predicate Polling(s: State, k: nat, flags: nat) {
    && CanComplete(s, k, flags)
    && s.kernel[k].owner in s.heap
    && var r := s.heap[s.kernel[k].owner];
       r.rc < 0xFFFF && TagOf(s.kernel[k]) == r.syscallNb && !r.future.Returned?
  }

  /** Such a completion runs the next script of its submitter in that state, and then gives back
      the clone and, if it is final, the reference of the SQE. */
  lemma PollStarts(s: State, k: nat, result: int, flags: nat)
    requires Inv(s, multiset{}) && Polling(s, k, flags)
    ensures var t := s.kernel[k].owner;
      && s.heap[t].slabIdx == Some(FromUserData(s.kernel[k].userData).taskIdx)
      && Complete(s, k, result, flags) ==
         match RunScript(PollStart(s, k, result, flags), s.heap[t].future.Now())
         case Ok(s2) => Finished(s2, t, More(flags))
         case Failed(why) => Failed(why)
  {
    hide RunScript, Dispatch, Release, PollStart, Verdicted, FromUserData, More, Judged;
    var x := s.kernel[k];
    var t, cqe := x.owner, Cqe(x.userData, result, flags);
    assert Addressed(s, x) && LiveSlot(s, t);
    hide Inv;
    var s0 := if More(flags) then s else s.(kernel := Without(s.kernel, k));
    JudgeStarts(s0, t);
    DispatchStarts(Judged(s0, t).value, t, InfoOf(cqe));
    StartIs(s, k, result, flags);
  }

  lemma JudgeStarts(s: State, t: TaskId)
    requires t in s.heap && s.heap[t].rc < 0xFFFF
    ensures Judged(s, t) == Ok(s.(heap := s.heap[t := s.heap[t].(rc := s.heap[t].rc + 1)],
                                  history := s.history.(completed := s.history.completed + multiset{t})))
  {
    AddRcRefusesExactly(s, t, 1);
  }

  /** The state a polling verdict runs the script in. */
  ghost function Verdicted(s: State, t: TaskId, info: TaskInfo): State
    requires t in s.heap
  {
    Polled(if info.syscallNb < 0x8000 then Armed(s, t, info) else s.(current := info), t)
  }

  lemma DispatchStarts(s: State, t: TaskId, info: TaskInfo)
    requires t in s.heap && info.syscallNb == s.heap[t].syscallNb && !s.heap[t].future.Returned?
    ensures Dispatch(s, t, info) == RunScript(Verdicted(s, t, info), s.heap[t].future.Now())
  {
    hide RunScript;
    VerdictMeaning(s.heap[t].syscallNb, info.syscallNb);
  }

  lemma VerdictedIs(s: State, t: TaskId, info: TaskInfo)
    requires t in s.heap && info.syscallNb == s.heap[t].syscallNb
    ensures var r, nb := s.heap[t], info.syscallNb;
      Verdicted(s, t, info) ==
        s.(heap := s.heap[t := r.(syscallNb := PollTag(nb), future := r.future.Later())],
           current := info.(syscallNb := PollTag(nb)),
           history := s.history.(polled := s.history.polled + multiset{t},
                                 normal := if nb >= 0x8000 then s.history.normal else s.history.normal + multiset{(t, nb as nat)}))
  {
    var r, nb := s.heap[t], info.syscallNb;
    assert s.heap[t := r.(syscallNb := PollTag(nb))][t := r.(syscallNb := PollTag(nb), future := r.future.Later())]
        == s.heap[t := r.(syscallNb := PollTag(nb), future := r.future.Later())];
  }

  lemma StartIs(s: State, k: nat, result: int, flags: nat)
    requires Polling(s, k, flags) && s.heap[s.kernel[k].owner].slabIdx == Some(FromUserData(s.kernel[k].userData).taskIdx)
    ensures var t, info := s.kernel[k].owner, InfoOf(Cqe(s.kernel[k].userData, result, flags));
      var s0 := if More(flags) then s else s.(kernel := Without(s.kernel, k));
      Verdicted(s0.(heap := s.heap[t := s.heap[t].(rc := s.heap[t].rc + 1)],
                    history := s.history.(completed := s.history.completed + multiset{t})), t, info)
        == PollStart(s, k, result, flags)
  {
    hide FromUserData, Verdicted, PollTag, More;
    var t, info := s.kernel[k].owner, InfoOf(Cqe(s.kernel[k].userData, result, flags));
    var s0 := if More(flags) then s else s.(kernel := Without(s.kernel, k));
    var r := s.heap[t].(rc := s.heap[t].rc + 1);
    VerdictedIs(s0.(heap := s.heap[t := r], history := s.history.(completed := s.history.completed + multiset{t})), t, info);
    var r' := r.(syscallNb := PollTag(info.syscallNb), future := r.future.Later());
    assert s.heap[t := r][t := r'] == s.heap[t := r'];
  }

  /** The j-th SQE of a submission, when its completion polls: CURRENT_TASK holds the submitter's
      slot, exactly the completion's result and flags, and in a batch generation `j`. */
  lemma SubmittedThenPolled(s: State, k: nat, result: int, flags: nat, info: TaskInfo, op: Op, t: TaskId, j: nat)
    requires Inv(s, multiset{}) && Polling(s, k, flags) && j < op.Count() && s.kernel[k] == Entries(info, op, t)[j]
    ensures s.kernel[k].owner == t && s.heap[t].slabIdx.Some?
    ensures PollStart(s, k, result, flags).current ==
      TaskInfo(info.taskIdx, PollTag(info.syscallNb), result, flags, if op.Batch? then j else info.responseGen)
  {
    EntryDecodes(info, op, t, j);
    PollStarts(s, k, result, flags);
  }

  /** A poll starts with both copies of the tag equal, and finds CURRENT_TASK and the header so
      also on the first poll, in `spawn`, and after the end of a batch. */
  lemma OtherStarts(s: State, h: multiset<TaskId>, f: Future, t: TaskId)
    requires Inv(s, h)
    ensures Begin(s, f).Ok? ==>
      var s1 := Begin(s, f).value;
      && s.nextId in s1.heap && s1.heap[s.nextId].slabIdx == Some(s1.current.taskIdx) && s1.heap[s.nextId].syscallNb == 0
      && s1.current == TaskInfo(s1.current.taskIdx, 0, 0x7FFF_FFFF, 0, 0xFFFF)
      && s1.slab.tasks == s.slab.tasks[s1.current.taskIdx := s.nextId]
    ensures Running(s, h, t) && Agree(s, t) && s.current.syscallNb % 0x8000 < 0x7FFF ==>
      && AdvanceRank(s).Ok?
      && var s1 := AdvanceRank(s).value; var nb := s.current.syscallNb % 0x8000 + 1;
         s1 == SetTask(s, t, s.heap[t].(syscallNb := nb)).(current := TaskInfo(s.current.taskIdx, nb, -0x8000_0000, 0, 0))
  {
    if Begin(s, f).Ok? {
      InsertKeeps(s.slab, s.nextId);
    }
    assert LiveSlot(s, t);
  }

  // ---- What polls leave alone ----------------------------------------------

  /** Tasks below `n` are neither polled nor completed nor created. */
  ghost predicate Unrecorded(s: State, s': State, n: TaskId) {
    && s.nextId <= s'.nextId && s'.history.completed == s.history.completed && s'.history.normal == s.history.normal
    && forall u: TaskId :: u < n ==> s'.history.polled[u] == s.history.polled[u] && (u in s'.heap ==> u in s.heap)
  }

  lemma ReleaseUnrecorded(s: State, t: TaskId, s': State, n: TaskId)
    requires Release(s, t) == Ok(s')
    ensures Unrecorded(s, s', n) && s'.pending == s.pending
  {
  }

  lemma {:induction false} ScriptUnrecorded(s: State, script: Script, s': State)
    requires RunScript(s, script) == Ok(s')
    ensures Unrecorded(s, s', s.nextId)
    decreases script
  {
    match script
    case Return =>
    case Submit(op, rest) => ScriptUnrecorded(SubmitOp(s, op).value, rest, s');
    case Advance(rest) => ScriptUnrecorded(AdvanceRank(s).value, rest, s');
    case Spawn(child, rest) =>
      SpawnUnrecorded(s, child, SpawnTask(s, child).value);
      ScriptUnrecorded(SpawnTask(s, child).value, rest, s');
    case Use(_, rest) => ScriptUnrecorded(s, rest, s');
  }

  lemma {:induction false} SpawnUnrecorded(s: State, f: Future, s': State)
    requires SpawnTask(s, f) == Ok(s')
    ensures Unrecorded(s, s', s.nextId)
    decreases f
  {
    var t, s1 := s.nextId, Begin(s, f).value;
    var s2 := RunScript(s1, f.now).value;
    var s3 := Release(s2, t).value;
    ScriptUnrecorded(s1, f.now, s2);
    ReleaseUnrecorded(s2, t, s3, t);
    ReleaseUnrecorded(s3.(current := s.current), t, s', t);
  }

  // ---- The submissions of one task -----------------------------------------

  /** The SQEs of task `t` in a queue, in order. */
  function SqesOf(q: seq<Sqe>, t: TaskId): (r: seq<Sqe>)
    ensures forall x :: x in r <==> x in q && x.owner == t
  {
    if q == [] then [] else (if q[0].owner == t then [q[0]] else []) + SqesOf(q[1..], t)
  }

  lemma {:induction false} SqesConcat(a: seq<Sqe>, b: seq<Sqe>, t: TaskId)
    ensures SqesOf(a + b, t) == SqesOf(a, t) + SqesOf(b, t)
  {
    if a == [] {
      assert a + b == b;
    } else {
      assert (a + b)[1..] == a[1..] + b;
      SqesConcat(a[1..], b, t);
    }
  }

  lemma SqesNone(q: seq<Sqe>, t: TaskId)
    requires forall x :: x in q ==> x.owner != t
    ensures SqesOf(q, t) == []
  {
    assert SqesOf(q, t) == [] || SqesOf(q, t)[0] in SqesOf(q, t);
  }

  /** Task `u` submits nothing. */
  ghost predicate Silent(s: State, s': State, u: TaskId) { SqesOf(s'.pending, u) == SqesOf(s.pending, u) }

  lemma {:induction false} ScriptSilent(s: State, h: multiset<TaskId>, t: TaskId, script: Script, s': State, u: TaskId)
    requires Inv(s, h) && Running(s, h, t) && RunScript(s, script) == Ok(s') && u < s.nextId && u != t
    ensures Silent(s, s', u)
    decreases script
  {
    hide Inv;
    match script
    case Return =>
    case Submit(op, rest) =>
      var s1 := SubmitOp(s, op).value;
      SubmitKeeps(s, h, t, op);
      SubmitSilent(s, h, t, op, s1, u);
      ScriptSilent(s1, h, t, rest, s', u);
    case Advance(rest) =>
      AdvanceKeeps(s, h, t);
      ScriptSilent(AdvanceRank(s).value, h, t, rest, s', u);
    case Spawn(child, rest) =>
      var s1 := SpawnTask(s, child).value;
      SpawnSafe(s, h, child);
      SpawnSilent(s, h, child, s1, u);
      ScriptSilent(s1, h, t, rest, s', u);
    case Use(_, rest) => ScriptSilent(s, h, t, rest, s', u);
  }

  lemma SubmitSilent(s: State, h: multiset<TaskId>, t: TaskId, op: Op, s': State, u: TaskId)
    requires Inv(s, h) && Running(s, h, t) && SubmitOp(s, op) == Ok(s') && u != t
    ensures Silent(s, s', u)
  {
    assert LiveSlot(s, t);
    SubmitShape(s, t, op);
    var added := Entries(Marked(s.current, op), op, t);
    EntriesNameTask(Marked(s.current, op), op, t);
    SqesConcat(s.pending, added, u);
    SqesNone(added, u);
  }

  lemma {:induction false} SpawnSilent(s: State, h: multiset<TaskId>, f: Future, s': State, u: TaskId)
    requires Inv(s, h) && SpawnTask(s, f) == Ok(s') && u < s.nextId
    ensures Silent(s, s', u)
    decreases f
  {
    var t, s1 := s.nextId, Begin(s, f).value;
    var s2 := RunScript(s1, f.now).value;
    var s3 := Release(s2, t).value;
    BeginKeeps(s, h, f);
    ScriptSilent(s1, h + multiset{t, t}, t, f.now, s2, u);
    ReleaseUnrecorded(s2, t, s3, t);
    ReleaseUnrecorded(s3.(current := s.current), t, s', t);
  }

  // ---- One task among the others -------------------------------------------

  /** The outstanding submissions of a task. */
  ghost function Sent(s: State, u: TaskId): multiset<Sqe> {
    multiset(SqesOf(s.pending, u)) + multiset(SqesOf(s.kernel, u))
  }

  /** Task `u` is as before: its header, its outstanding submissions and its records. */
  ghost predicate Uninvolved(s: State, s': State, u: TaskId) {
    && s.nextId <= s'.nextId && Sent(s', u) == Sent(s, u)
    && (u in s.heap <==> u in s'.heap) && (u in s.heap ==> s'.heap[u] == s.heap[u])
    && s'.history.polled[u] == s.history.polled[u] && s'.history.completed[u] == s.history.completed[u]
    && forall r :: s'.history.normal[(u, r)] == s.history.normal[(u, r)]
  }

  lemma {:induction false} SqesWithout(q: seq<Sqe>, k: nat, t: TaskId)
    requires k < |q|
    ensures multiset(SqesOf(q, t)) == multiset(SqesOf(Without(q, k), t)) + (if q[k].owner == t then multiset{q[k]} else multiset{})
  {
    var a, x, b := q[..k], q[k], q[k + 1..];
    assert q == a + ([x] + b);
    SqesConcat(a, [x] + b, t);
    SqesConcat([x], b, t);
    SqesConcat(a, b, t);
    assert [x][1..] == [];
  }

  /** The event processes a completion of task `t`. */
  predicate Completes(s: State, e: Event, t: TaskId) {
    e.Completion? && CanComplete(s, e.k, e.flags) && s.kernel[e.k].owner == t
  }

  /** What the poll of task `t` leaves of another task `u`. */
  lemma PollUninvolved(s: State, h: multiset<TaskId>, t: TaskId, script: Script, s': State, u: TaskId)
    requires Inv(s, h) && Running(s, h, t) && RunScript(s, script) == Ok(s') && u < s.nextId && u != t
    ensures Uninvolved(s, s', u)
  {
    hide Inv, RunScript;
    ScriptUnrecorded(s, script, s');
    ScriptSilent(s, h, t, script, s', u);
    ScriptSafe(s, h, t, script);
  }

  lemma SpawnUninvolved(s: State, h: multiset<TaskId>, f: Future, s': State, u: TaskId)
    requires Inv(s, h) && SpawnTask(s, f) == Ok(s') && u < s.nextId
    ensures Uninvolved(s, s', u)
  {
    hide Inv, SpawnTask;
    SpawnUnrecorded(s, f, s');
    SpawnSilent(s, h, f, s', u);
    SpawnSafe(s, h, f);
  }

  lemma ReleaseUninvolved(s: State, t: TaskId, s': State, u: TaskId)
    requires Release(s, t) == Ok(s') && u != t
    ensures Uninvolved(s, s', u)
  {
    hide SqesOf;
  }

  lemma FinishedUninvolved(s: State, t: TaskId, more: bool, s': State, u: TaskId)
    requires Finished(s, t, more) == Ok(s') && u != t
    ensures Uninvolved(s, s', u)
  {
    hide Release, Uninvolved;
    if more {
      ReleaseUninvolved(s, t, s', u);
    } else {
      var s1 := Release(s, t).value;
      ReleaseUninvolved(s, t, s1, u);
      ReleaseUninvolved(s1, t, s', u);
      UninvolvedTrans(s, s1, s', u);
    }
  }

  lemma UninvolvedTrans(s: State, s1: State, s': State, u: TaskId)
    requires Uninvolved(s, s1, u) && Uninvolved(s1, s', u)
    ensures Uninvolved(s, s', u)
  {
  }

  /** A polling verdict keeps the invariant and concerns its task alone. */
  lemma VerdictKeeps(s: State, h: multiset<TaskId>, t: TaskId, info: TaskInfo)
    requires Inv(s, h) && t in s.heap && t in h && s.heap[t].slabIdx == Some(info.taskIdx)
    requires info.syscallNb == s.heap[t].syscallNb
    ensures Inv(Verdicted(s, t, info), h) && Running(Verdicted(s, t, info), h, t)
  {
    assert Counted(s, h, t);
    VerdictedIs(s, t, info);
    var s1 := Verdicted(s, t, info);
    HeaderKeeps(s, h, t, s1.heap[t], h);
    BystanderKeeps(SetTask(s, t, s1.heap[t]), s1, h);
  }

  lemma VerdictUninvolved(s: State, t: TaskId, info: TaskInfo, u: TaskId)
    requires t in s.heap && u != t && info.syscallNb == s.heap[t].syscallNb
    ensures Uninvolved(s, Verdicted(s, t, info), u)
  {
    hide Verdicted, SqesOf;
    VerdictedIs(s, t, info);
  }

  lemma DispatchUninvolved(s: State, h: multiset<TaskId>, t: TaskId, info: TaskInfo, s': State, u: TaskId)
    requires Inv(s, h) && t in s.heap && t in h && s.heap[t].slabIdx == Some(info.taskIdx)
    requires Dispatch(s, t, info) == Ok(s') && u < s.nextId && u != t
    ensures Uninvolved(s, s', u)
  {
    VerdictMeaning(s.heap[t].syscallNb, info.syscallNb);
    if info.syscallNb == s.heap[t].syscallNb {
      hide Inv, RunScript, Dispatch, Uninvolved, Running;
      var s1 := Verdicted(s, t, info);
      assert !s.heap[t].future.Returned? by { DispatchReturned(s, t, info); }
      DispatchStarts(s, t, info);
      VerdictKeeps(s, h, t, info);
      VerdictUninvolved(s, t, info, u);
      PollUninvolved(s1, h, t, s.heap[t].future.Now(), s', u);
      UninvolvedTrans(s, s1, s', u);
    }
  }

  lemma DispatchReturned(s: State, t: TaskId, info: TaskInfo)
    requires t in s.heap && info.syscallNb == s.heap[t].syscallNb && Dispatch(s, t, info).Ok?
    ensures !s.heap[t].future.Returned?
  {
    VerdictMeaning(s.heap[t].syscallNb, info.syscallNb);
  }

  lemma HandleUninvolved(s: State, h: multiset<TaskId>, t: TaskId, cqe: Cqe, s': State, u: TaskId)
    requires Inv(s, h) && Resolve(s, InfoOf(cqe).taskIdx) == Ok(t) && s.heap[t].slabIdx == Some(InfoOf(cqe).taskIdx)
    requires HandleCqe(s, cqe) == Ok(s') && u < s.nextId && u != t
    ensures Uninvolved(s, s', u)
  {
    hide Inv, Dispatch, Release, Uninvolved, Judged, InfoOf, Resolve;
    var info := InfoOf(cqe);
    assert t in s.heap by { ResolvedAlive(s, info.taskIdx, t); }
    var s1 := Judged(s, t).value;
    JudgeUninvolved(s, h, t, u);
    var s2 := Dispatch(s1, t, info).value;
    DispatchUninvolved(s1, h + multiset{t}, t, info, s2, u);
    FinishedUninvolved(s2, t, More(cqe.flags), s', u);
    UninvolvedTrans(s, s1, s2, u);
    UninvolvedTrans(s, s2, s', u);
  }

  lemma ResolvedAlive(s: State, idx: u32, t: TaskId)
    requires Resolve(s, idx) == Ok(t)
    ensures t in s.heap
  {
  }

  /** A completion of another task than `u`. */
  lemma CompleteUninvolved(s: State, k: nat, result: int, flags: nat, s': State, u: TaskId)
    requires Inv(s, multiset{}) && CanComplete(s, k, flags) && Complete(s, k, result, flags) == Ok(s')
    requires u < s.nextId && s.kernel[k].owner != u
    ensures Uninvolved(s, s', u)
  {
    var x := s.kernel[k];
    var t, cqe := x.owner, Cqe(x.userData, result, flags);
    assert Addressed(s, x) && LiveSlot(s, t);
    hide Inv, HandleCqe, FromUserData, More, SqesOf;
    var s0 := if More(flags) then s else s.(kernel := Without(s.kernel, k));
    var h := if More(flags) then multiset{} else multiset{} + multiset{t};
    SqesWithout(s.kernel, k, u);
    assert Uninvolved(s, s0, u);
    hide Uninvolved;
    if !More(flags) {
      TakeKeeps(s, multiset{}, k);
    }
    HandleUninvolved(s0, h, t, cqe, s', u);
    UninvolvedTrans(s, s0, s', u);
  }

  lemma JudgeUninvolved(s: State, h: multiset<TaskId>, t: TaskId, u: TaskId)
    requires Inv(s, h) && t in s.heap && u != t && Judged(s, t).Ok?
    ensures Uninvolved(s, Judged(s, t).value, u) && Inv(Judged(s, t).value, h + multiset{t})
    ensures var s1 := Judged(s, t).value;
      t in s1.heap && s1.heap[t].slabIdx == s.heap[t].slabIdx && s1.nextId == s.nextId
  {
    var s0 := s.(history := s.history.(completed := s.history.completed + multiset{t}));
    BystanderKeeps(s, s0, h);
    CloneKeeps(s0, h, t);
  }

  lemma StepUninvolved(s: State, e: Event, s': State, u: TaskId)
    requires Inv(s, multiset{}) && Step(s, e) == Ok(s') && u < s.nextId && !Completes(s, e, u)
    ensures Uninvolved(s, s', u)
  {
    match e
    case SpawnRoot(f) => SpawnUninvolved(s, multiset{}, f, s', u);
    case FlushAll => SqesConcat(s.kernel, s.pending, u);
    case Completion(k, result, flags) =>
      if CanComplete(s, k, flags) {
        CompleteUninvolved(s, k, result, flags, s', u);
      }
    case CollectSlots => CollectSafe(s, multiset{});
  }
}
