/**
 Tasks under a masked tag, through whole runs: every completion of the task is one poll and leaves
 the tag alone, whatever the other tasks do, and each SQE's generation is delivered once. So the
 items of a multishot stream are all delivered, and a write batch is delivered whole. Under an
 unmasked tag it is not: the first completion makes the others stale.
 */
module Streams {
  import opened Words
  import opened TaskSlab
  import opened Protocol
  import opened ProtocolSafety
  import opened Tags
  import opened Deliveries
  import FanOut

  // ---- Polls that only look ------------------------------------------------

  /** The poll submits nothing and does not advance the rank; it may spawn and handle buffers. */
  predicate Passive(script: Script) {
    match script
    case Return => true
    case Spawn(_, rest) => Passive(rest)
    case Use(_, rest) => Passive(rest)
    case _ => false
  }

  /** The next `m` polls are of that kind. */
  predicate PassiveFor(r: Rest, m: nat) {
    m == 0 || r.Idle? || (r.Resume? && Passive(r.next.now) && PassiveFor(r.next.later, m - 1))
  }

  lemma {:induction false} PassiveKeeps(s: State, h: multiset<TaskId>, t: TaskId, script: Script, s': State)
    requires Inv(s, h) && Running(s, h, t) && RunScript(s, script) == Ok(s') && Passive(script)
    ensures t in s'.heap && s'.heap[t] == s.heap[t] && s'.current == s.current && Silent(s, s', t)
    decreases script
  {
    match script
    case Return =>
    case Spawn(child, rest) =>
      var s1 := SpawnTask(s, child).value;
      assert LiveSlot(s, t);
      hide Inv;
      SpawnSafe(s, h, child);
      SpawnSilent(s, h, child, s1, t);
      PassiveKeeps(s1, h, t, rest, s');
    case Use(_, rest) => PassiveKeeps(s, h, t, rest, s');
  }

  // ---- A task under a masked tag -------------------------------------------

  /** Task `t` is alive under a masked tag that all its outstanding submissions carry, and its
      next `m` polls are passive. */
  ghost predicate Fed(s: State, t: TaskId, m: nat) {
    && t in s.heap && s.heap[t].syscallNb >= 0x8000 && PassiveFor(s.heap[t].future, m)
    && forall x :: x in Sent(s, t) ==> TagOf(x) == s.heap[t].syscallNb
  }

  lemma SentOutstanding(s: State, t: TaskId, x: Sqe)
    ensures x in Sent(s, t) <==> Outstanding(s, x) && x.owner == t
  {
    assert x in multiset(SqesOf(s.pending, t)) <==> x in SqesOf(s.pending, t);
    assert x in multiset(SqesOf(s.kernel, t)) <==> x in SqesOf(s.kernel, t);
  }

  /** What a completion of a fed task does: one poll, no `Normal` record, the same tag, and one
      submission fewer if it was final. */
  ghost predicate FedOnce(s: State, k: nat, flags: nat, s': State, t: TaskId)
    requires k < |s.kernel| && t in s.heap
  {
    && s.nextId <= s'.nextId
    && s'.history.polled[t] == s.history.polled[t] + 1 && s'.history.completed[t] == s.history.completed[t] + 1
    && (forall r :: s'.history.normal[(t, r)] == s.history.normal[(t, r)])
    && Sent(s, t) == Sent(s', t) + (if More(flags) then multiset{} else multiset{s.kernel[k]})
    && (t in s'.heap ==> s'.heap[t].syscallNb == s.heap[t].syscallNb)
  }

  lemma StartInv(s: State, k: nat, result: int, flags: nat)
    requires Inv(s, multiset{}) && Polling(s, k, flags)
    ensures s.heap[s.kernel[k].owner].slabIdx.Some?
    ensures var t := s.kernel[k].owner;
      var h := if More(flags) then multiset{} + multiset{t} else multiset{} + multiset{t} + multiset{t};
      Inv(PollStart(s, k, result, flags), h) && Running(PollStart(s, k, result, flags), h, t)
  {
    var x := s.kernel[k];
    var t, info := x.owner, InfoOf(Cqe(x.userData, result, flags));
    assert Addressed(s, x) && LiveSlot(s, t);
    var s0 := if More(flags) then s else s.(kernel := Without(s.kernel, k));
    var h := if More(flags) then multiset{} else multiset{} + multiset{t};
    hide Inv, FromUserData, More, PollStart, Verdicted, Running;
    if !More(flags) {
      TakeKeeps(s, multiset{}, k);
    }
    var s1 := s0.(heap := s.heap[t := s.heap[t].(rc := s.heap[t].rc + 1)],
                  history := s.history.(completed := s.history.completed + multiset{t}));
    JudgeStarts(s0, t);
    JudgeUninvolved(s0, h, t, t + 1);
    VerdictKeeps(s1, h + multiset{t}, t, info);
    StartIs(s, k, result, flags);
  }

  /** A passive poll of task `t`, as far as `t` is concerned. */
  ghost predicate Looked(s: State, s': State, t: TaskId) {
    && t in s.heap && t in s'.heap && s'.heap[t] == s.heap[t] && s'.kernel == s.kernel && Silent(s, s', t)
    && s.nextId <= s'.nextId && s'.history.polled[t] == s.history.polled[t]
    && s'.history.completed == s.history.completed && s'.history.normal == s.history.normal
  }

  lemma PassiveLooks(s: State, h: multiset<TaskId>, t: TaskId, script: Script, s': State)
    requires Inv(s, h) && Running(s, h, t) && RunScript(s, script) == Ok(s') && Passive(script)
    ensures Looked(s, s', t)
  {
    assert LiveSlot(s, t);
    hide Inv, RunScript, Running, Silent;
    PassiveKeeps(s, h, t, script, s');
    ScriptUnrecorded(s, script, s');
    assert t in s.heap by { RunningAlive(s, h, t); }
    ScriptSafe(s, h, t, script);
  }

  lemma RunningAlive(s: State, h: multiset<TaskId>, t: TaskId)
    requires Running(s, h, t)
    ensures t in s.heap
  {
  }

  lemma PollOnce(s: State, k: nat, result: int, flags: nat, s': State)
    requires Inv(s, multiset{}) && Polling(s, k, flags) && Complete(s, k, result, flags) == Ok(s')
    requires var r := s.heap[s.kernel[k].owner]; r.syscallNb >= 0x8000 && Passive(r.future.Now())
    ensures var t := s.kernel[k].owner;
      FedOnce(s, k, flags, s', t) && (t in s'.heap ==> s'.heap[t].future == s.heap[t].future.Later())
  {
    hide Inv, RunScript, Complete, PollStart, Running, More, Finished, Passive, Looked, Started, Ended, FedOnce;
    PollStarts(s, k, result, flags);
    StartInv(s, k, result, flags);
    StartFacts(s, k, result, flags);
    var t, s1, script := s.kernel[k].owner, PollStart(s, k, result, flags), s.heap[s.kernel[k].owner].future.Now();
    var h := if More(flags) then multiset{} + multiset{t} else multiset{} + multiset{t} + multiset{t};
    var s2 := RunScript(s1, script).value;
    PassiveLooks(s1, h, t, script, s2);
    FinishedFacts(s2, t, More(flags), s');
    OnceFed(s, k, flags, s1, s2, s');
  }

  lemma OnceFed(s: State, k: nat, flags: nat, s1: State, s2: State, s': State)
    requires k < |s.kernel| && s.kernel[k].owner in s.heap
    requires Started(s, k, flags, s1) && Looked(s1, s2, s.kernel[k].owner) && Ended(s2, s.kernel[k].owner, s')
    ensures var t := s.kernel[k].owner;
      FedOnce(s, k, flags, s', t) && (t in s'.heap ==> s'.heap[t].future == s.heap[t].future.Later())
  {
    hide Sent, More;
    OnceSent(s, k, flags, s1, s2, s', s.kernel[k].owner);
  }

  /** The start of a poll under a masked tag. */
  ghost predicate Started(s: State, k: nat, flags: nat, s1: State)
    requires k < |s.kernel| && s.kernel[k].owner in s.heap
  {
    var t := s.kernel[k].owner;
    && t in s1.heap && s1.heap[t].syscallNb == s.heap[t].syscallNb && s1.heap[t].future == s.heap[t].future.Later()
    && s1.nextId == s.nextId && s1.pending == s.pending
    && s1.kernel == (if More(flags) then s.kernel else Without(s.kernel, k))
    && s1.history.polled == s.history.polled + multiset{t} && s1.history.completed == s.history.completed + multiset{t}
    && s1.history.normal == s.history.normal
  }

  /** The end of a completion. */
  ghost predicate Ended(s: State, t: TaskId, s': State) {
    && s'.nextId == s.nextId && s'.pending == s.pending && s'.kernel == s.kernel
    && s'.history.polled == s.history.polled && s'.history.completed == s.history.completed
    && s'.history.normal == s.history.normal
    && (t in s'.heap ==> t in s.heap && s'.heap[t].syscallNb == s.heap[t].syscallNb && s'.heap[t].future == s.heap[t].future)
  }

  lemma CompletedOnce(s: State, k: nat, result: int, flags: nat, s': State, t: TaskId, m: nat)
    requires Inv(s, multiset{}) && CanComplete(s, k, flags) && s.kernel[k].owner == t
    requires Fed(s, t, m + 1) && Complete(s, k, result, flags) == Ok(s')
    ensures FedOnce(s, k, flags, s', t) && (t in s'.heap ==> Fed(s', t, m))
  {
    hide Inv, Complete, Sent, FromUserData;
    SentOutstanding(s, t, s.kernel[k]);
    CompleteCounted(s, k, result, flags);
    PollOnce(s, k, result, flags, s');
  }

  /** A completion that succeeds found a countable clone and a future that has not returned. */
  lemma CompleteCounted(s: State, k: nat, result: int, flags: nat)
    requires Inv(s, multiset{}) && CanComplete(s, k, flags) && Complete(s, k, result, flags).Ok?
    requires s.kernel[k].owner in s.heap && TagOf(s.kernel[k]) == s.heap[s.kernel[k].owner].syscallNb
    ensures Polling(s, k, flags)
  {
    RejectedExactly(s, k, result, flags);
    CloneCounted(s, k, result, flags);
  }

  lemma CloneCounted(s: State, k: nat, result: int, flags: nat)
    requires Inv(s, multiset{}) && CanComplete(s, k, flags) && Complete(s, k, result, flags).Ok?
    requires s.kernel[k].owner in s.heap
    ensures s.heap[s.kernel[k].owner].rc < 0xFFFF
  {
    var x := s.kernel[k];
    assert Addressed(s, x) && LiveSlot(s, x.owner);
    hide Dispatch, Release, Inv;
  }

  lemma StartFacts(s: State, k: nat, result: int, flags: nat)
    requires Polling(s, k, flags) && s.heap[s.kernel[k].owner].slabIdx.Some? && s.heap[s.kernel[k].owner].syscallNb >= 0x8000
    ensures Started(s, k, flags, PollStart(s, k, result, flags))
  {
  }

  lemma FinishedFacts(s: State, t: TaskId, more: bool, s': State)
    requires Finished(s, t, more) == Ok(s')
    ensures Ended(s, t, s')
  {
  }

  lemma OnceSent(s: State, k: nat, flags: nat, s1: State, s2: State, s': State, t: TaskId)
    requires k < |s.kernel| && s.kernel[k].owner == t && s1.pending == s.pending && Silent(s1, s2, t)
    requires s1.kernel == (if More(flags) then s.kernel else Without(s.kernel, k)) && s2.kernel == s1.kernel
    requires s'.pending == s2.pending && s'.kernel == s2.kernel
    ensures Sent(s, t) == Sent(s', t) + (if More(flags) then multiset{} else multiset{s.kernel[k]})
  {
    hide SqesOf;
    SqesWithout(s.kernel, k, t);
  }

  // ---- Runs ----------------------------------------------------------------

  /** What a poll of the task finds in CURRENT_TASK, and which submission brought it. */
  datatype Delivery = Delivery(sqe: Sqe, gen: u16, result: int)

  /** The event starts a poll of task `t` by a completion. */
  ghost predicate Delivers(s: State, e: Event, t: TaskId) {
    Completes(s, e, t) && Polling(s, e.k, e.flags) && s.heap[t].slabIdx.Some?
  }

  ghost function DeliveryOf(s: State, e: Event, t: TaskId): Delivery
    requires Delivers(s, e, t)
  {
    var info := PollStart(s, e.k, e.result, e.flags).current;
    Delivery(s.kernel[e.k], info.responseGen, info.result)
  }

  /** The deliveries to task `t` along a run. */
  ghost function Log(s: State, events: seq<Event>, t: TaskId): seq<Delivery>
    decreases events
  {
    if events == [] then []
    else
      Logged(s, events[0], t)
      + (if Step(s, events[0]).Ok? then Log(Step(s, events[0]).value, events[1..], t) else [])
  }

  function SqeList(log: seq<Delivery>): (r: seq<Sqe>)
    ensures |r| == |log| && forall i :: 0 <= i < |log| ==> r[i] == log[i].sqe
  {
    seq(|log|, i requires 0 <= i < |log| => log[i].sqe)
  }

  /** A dead task stays as it is, and a live one is completed only by its own submissions. */
  lemma DeadUninvolved(s: State, e: Event, t: TaskId)
    requires Inv(s, multiset{}) && t !in s.heap
    ensures !Completes(s, e, t)
  {
    if e.Completion? && e.k < |s.kernel| {
      assert Addressed(s, s.kernel[e.k]);
    }
  }

  lemma UninvolvedFed(s: State, s': State, t: TaskId, m: nat)
    requires Uninvolved(s, s', t) && t in s.heap && Fed(s, t, m)
    ensures Fed(s', t, m)
  {
    hide Sent;
  }

  lemma OwnStep(s: State, e: Event, s': State, t: TaskId, m: nat)
    requires Inv(s, multiset{}) && Step(s, e) == Ok(s') && Completes(s, e, t) && Fed(s, t, m + 1)
    ensures FedOnce(s, e.k, e.flags, s', t) && (t in s'.heap ==> Fed(s', t, m)) && Delivers(s, e, t)
  {
    assert LiveSlot(s, t);
    hide Inv, Sent, Complete, FromUserData;
    CompletedOnce(s, e.k, e.result, e.flags, s', t, m);
    SentOutstanding(s, t, s.kernel[e.k]);
    CompleteCounted(s, e.k, e.result, e.flags);
  }

  lemma {:induction false} CompletedGrows(s: State, events: seq<Event>, s': State, t: TaskId)
    requires Inv(s, multiset{}) && t < s.nextId && Run(s, events) == Ok(s')
    ensures s.history.completed[t] <= s'.history.completed[t]
    decreases events
  {
    if events != [] {
      var e, s1 := events[0], Step(s, events[0]).value;
      StepSafe(s, e);
      if Completes(s, e, t) {
        CompleteSafe(s, e.k, e.result, e.flags);
      } else {
        StepUninvolved(s, e, s1, t);
      }
      hide Inv, Step;
      CompletedGrows(s1, events[1..], s', t);
    }
  }

  /** The deliveries of one step. */
  ghost function Logged(s: State, e: Event, t: TaskId): seq<Delivery> {
    if Delivers(s, e, t) then [DeliveryOf(s, e, t)] else []
  }

  /** From `s` to `s'`, `n` completions of `t` were `n` polls, none by a `Normal` verdict, under a
      tag that stayed. */
  ghost predicate Through(s: State, s': State, t: TaskId, m: nat, n: nat) {
    && s'.history.completed[t] == s.history.completed[t] + n && s'.history.polled[t] == s.history.polled[t] + n
    && (forall r :: s'.history.normal[(t, r)] == s.history.normal[(t, r)])
    && (t in s'.heap ==> t in s.heap && s'.heap[t].syscallNb == s.heap[t].syscallNb && n <= m && Fed(s', t, m - n))
  }

  lemma ThroughOwn(s: State, e: Event, s1: State, s': State, t: TaskId, m: nat, n: nat)
    requires Completes(s, e, t) && t in s.heap && FedOnce(s, e.k, e.flags, s1, t) && Through(s1, s', t, m, n)
    ensures Through(s, s', t, m + 1, n + 1)
  {
    hide Sent, Fed;
  }

  lemma ThroughOther(s: State, s1: State, s': State, t: TaskId, m: nat, n: nat)
    requires Uninvolved(s, s1, t) && Through(s1, s', t, m, n)
    ensures Through(s, s', t, m, n)
  {
    hide Sent, Fed;
  }

  lemma NoEvents(s: State, t: TaskId, m: nat)
    ensures Run(s, []) == Ok(s) && Log(s, [], t) == [] && ((t in s.heap ==> Fed(s, t, m)) ==> Through(s, s, t, m, 0))
  {
  }

  /** One step of the run: either a completion of `t`, which is alive and fed, or none of its business. */
  lemma StreamStep(s: State, events: seq<Event>, s': State, t: TaskId, m: nat)
    requires Inv(s, multiset{}) && t < s.nextId && (t in s.heap ==> Fed(s, t, m)) && events != [] && Run(s, events) == Ok(s')
    requires s'.history.completed[t] <= s.history.completed[t] + m
    ensures var e, s1 := events[0], Step(s, events[0]).value;
      && Step(s, e).Ok? && Inv(s1, multiset{}) && t < s1.nextId && Run(s1, events[1..]) == Ok(s')
      && (if Completes(s, e, t)
          then && 0 < m && t in s.heap && FedOnce(s, e.k, e.flags, s1, t) && (t in s1.heap ==> Fed(s1, t, m - 1))
               && Delivers(s, e, t) && s'.history.completed[t] <= s1.history.completed[t] + (m - 1)
          else && Uninvolved(s, s1, t) && (t in s1.heap ==> Fed(s1, t, m))
               && !Delivers(s, e, t) && s'.history.completed[t] <= s1.history.completed[t] + m)
  {
    hide Inv, Step, Delivers, Fed, FedOnce, Uninvolved, Completes;
    var e, s1 := events[0], Step(s, events[0]).value;
    StepSafe(s, e);
    if Completes(s, e, t) {
      assert t in s.heap by { CompletesAlive(s, e, t); }
      OneMore(s, events, s', t, m);
      OwnStep(s, e, s1, t, m - 1);
      OnceFacts(s, e, s1, t);
    } else {
      StepUninvolved(s, e, s1, t);
      UninvolvedFacts(s, s1, t);
      NotDelivered(s, e, t);
      if t in s.heap {
        UninvolvedFed(s, s1, t, m);
      }
    }
  }

  lemma CompletesAlive(s: State, e: Event, t: TaskId)
    requires Inv(s, multiset{}) && Completes(s, e, t)
    ensures t in s.heap
  {
    assert Addressed(s, s.kernel[e.k]);
  }

  lemma OnceFacts(s: State, e: Event, s1: State, t: TaskId)
    requires Completes(s, e, t) && t in s.heap && FedOnce(s, e.k, e.flags, s1, t)
    ensures s.nextId <= s1.nextId
  {
  }

  lemma UninvolvedFacts(s: State, s1: State, t: TaskId)
    requires Uninvolved(s, s1, t)
    ensures s.nextId <= s1.nextId && s1.history.completed[t] == s.history.completed[t] && (t in s1.heap ==> t in s.heap)
  {
  }

  /** The log, one event at a time. */
  lemma LogStep(s: State, events: seq<Event>, t: TaskId)
    requires events != [] && Step(s, events[0]).Ok?
    ensures Log(s, events, t) == Logged(s, events[0], t) + Log(Step(s, events[0]).value, events[1..], t)
    ensures |Logged(s, events[0], t)| == if Delivers(s, events[0], t) then 1 else 0
  {
    hide Step, Delivers, DeliveryOf;
  }

  /** A fed task through a whole run in which at most `m` of its completions are processed, whatever
      the other tasks do: each is one poll and one delivery, none is a `Normal` one, and the tag
      stays what it was. */
  lemma {:induction false} StreamRun(s: State, events: seq<Event>, s': State, t: TaskId, m: nat)
    requires Inv(s, multiset{}) && t < s.nextId && (t in s.heap ==> Fed(s, t, m)) && Run(s, events) == Ok(s')
    requires s'.history.completed[t] <= s.history.completed[t] + m
    ensures Through(s, s', t, m, |Log(s, events, t)|)
    decreases events
  {
    hide Inv, Step, Run, Log, Logged, Delivers, Fed, FedOnce, Uninvolved, Through, Completes;
    if events == [] {
      NoEvents(s, t, m);
    } else {
      StreamStep(s, events, s', t, m);
      LogStep(s, events, t);
      var e, s1, rest := events[0], Step(s, events[0]).value, events[1..];
      if Completes(s, e, t) {
        StreamRun(s1, rest, s', t, m - 1);
        ThroughOwn(s, e, s1, s', t, m - 1, |Log(s1, rest, t)|);
      } else {
        StreamRun(s1, rest, s', t, m);
        ThroughOther(s, s1, s', t, m, |Log(s1, rest, t)|);
      }
    }
  }

  lemma NotDelivered(s: State, e: Event, t: TaskId)
    requires !Completes(s, e, t)
    ensures !Delivers(s, e, t)
  {
  }

  /** A run that starts with a completion of `t` has one to process. */
  lemma OneMore(s: State, events: seq<Event>, s': State, t: TaskId, m: nat)
    requires Inv(s, multiset{}) && t < s.nextId && events != [] && Run(s, events) == Ok(s') && Completes(s, events[0], t)
    requires s'.history.completed[t] <= s.history.completed[t] + m
    ensures 0 < m && s'.history.completed[t] <= Step(s, events[0]).value.history.completed[t] + (m - 1)
  {
    var e, s1 := events[0], Step(s, events[0]).value;
    StepSafe(s, e);
    CompleteSafe(s, e.k, e.result, e.flags);
    hide Inv, Step;
    CompletedGrows(s1, events[1..], s', t);
  }

  // ---- Where the submissions go --------------------------------------------

  ghost predicate NoMultishot(s: State, t: TaskId) { forall x :: x in Sent(s, t) ==> !x.multishot }

  lemma OwnSent(s: State, e: Event, s1: State, t: TaskId)
    requires Completes(s, e, t) && t in s.heap && FedOnce(s, e.k, e.flags, s1, t) && NoMultishot(s, t)
    ensures Sent(s, t) == Sent(s1, t) + multiset{s.kernel[e.k]} && NoMultishot(s1, t)
  {
    SentOutstanding(s, t, s.kernel[e.k]);
    hide Sent;
  }

  lemma OtherSent(s: State, s1: State, t: TaskId)
    requires Uninvolved(s, s1, t) && NoMultishot(s, t)
    ensures Sent(s, t) == Sent(s1, t) && NoMultishot(s1, t)
  {
    hide Sent;
  }

  lemma LogFirst(s: State, events: seq<Event>, t: TaskId)
    requires events != [] && Step(s, events[0]).Ok? && Delivers(s, events[0], t)
    ensures multiset(SqeList(Log(s, events, t)))
         == multiset{s.kernel[events[0].k]} + multiset(SqeList(Log(Step(s, events[0]).value, events[1..], t)))
  {
    LogStep(s, events, t);
    var first, rest := DeliveryOf(s, events[0], t), Log(Step(s, events[0]).value, events[1..], t);
    assert Logged(s, events[0], t) == [first] && first.sqe == s.kernel[events[0].k];
    hide Step, Log, DeliveryOf, Logged;
    assert SqeList([first] + rest) == [first.sqe] + SqeList(rest);
  }

  /** Where the submissions of a fed task are: outstanding or delivered, if none is a multishot. */
  lemma {:induction false} LogSent(s: State, events: seq<Event>, s': State, t: TaskId, m: nat)
    requires Inv(s, multiset{}) && t < s.nextId && (t in s.heap ==> Fed(s, t, m)) && Run(s, events) == Ok(s')
    requires s'.history.completed[t] <= s.history.completed[t] + m && NoMultishot(s, t)
    ensures Sent(s, t) == Sent(s', t) + multiset(SqeList(Log(s, events, t)))
    decreases events
  {
    hide Inv, Step, Run, Log, Logged, Delivers, Fed, FedOnce, Uninvolved, Completes, Sent, NoMultishot, Through;
    if events == [] {
      NoEvents(s, t, m);
      assert SqeList([]) == [];
    } else {
      StreamStep(s, events, s', t, m);
      LogStep(s, events, t);
      var e, s1, rest := events[0], Step(s, events[0]).value, events[1..];
      if Completes(s, e, t) {
        OwnSent(s, e, s1, t);
        LogSent(s1, rest, s', t, m - 1);
        LogFirst(s, events, t);
      } else {
        OtherSent(s, s1, t);
        LogSent(s1, rest, s', t, m);
        assert Log(s, events, t) == Log(s1, rest, t);
      }
    }
  }

  // ---- A completion under a masked tag -------------------------------------

  /** Whatever the future does: a completion with the mask bit set that carries the stored tag polls
      its task once, records no `Normal` verdict, and leaves the tag as the polled script leaves it. */
  lemma MaskedPolls(s: State, k: nat, result: int, flags: nat, s': State)
    requires Inv(s, multiset{}) && Polling(s, k, flags) && Complete(s, k, result, flags) == Ok(s')
    requires s.heap[s.kernel[k].owner].syscallNb >= 0x8000
    ensures var t := s.kernel[k].owner;
      && s'.history.polled[t] == s.history.polled[t] + 1 && s'.history.normal == s.history.normal
      && s.heap[t].slabIdx.Some?
      && var s1 := PollStart(s, k, result, flags);
         && s1.heap[t].syscallNb == s1.current.syscallNb == s.heap[t].syscallNb
         && var r := RunScript(s1, s.heap[t].future.Now());
            r.Ok? && (t in s'.heap ==> t in r.value.heap && s'.heap[t].syscallNb == r.value.heap[t].syscallNb)
  {
    var t := s.kernel[k].owner;
    assert LiveSlot(s, t);
    hide Inv, RunScript, Complete, More, Finished;
    PollStarts(s, k, result, flags);
    var s1, script := PollStart(s, k, result, flags), s.heap[t].future.Now();
    var s2 := RunScript(s1, script).value;
    ScriptUnrecorded(s1, script, s2);
    FinishedFacts(s2, t, More(flags), s');
  }

  // ---- A write batch -------------------------------------------------------

  function GenOf(x: Sqe): u16 { FromUserData(x.userData).responseGen }

  function GenMap(q: seq<Sqe>): (r: seq<u16>)
    ensures |r| == |q| && forall i :: 0 <= i < |q| ==> r[i] == GenOf(q[i])
  {
    seq(|q|, i requires 0 <= i < |q| => GenOf(q[i]))
  }

  lemma TakenOut<T>(q: seq<T>, k: nat)
    requires k < |q|
    ensures multiset(q) == multiset(Without(q, k)) + multiset{q[k]} && |Without(q, k)| == |q| - 1
    ensures multiset(Without(q, k)) == multiset(q) - multiset{q[k]}
  {
    assert q == q[..k] + [q[k]] + q[k + 1..];
  }

  lemma GenMapWithout(q: seq<Sqe>, k: nat)
    requires k < |q|
    ensures multiset(GenMap(q)) == multiset(GenMap(Without(q, k))) + multiset{GenOf(q[k])}
    ensures multiset(Without(q, k)) == multiset(q) - multiset{q[k]} && |Without(q, k)| == |q| - 1
  {
    hide GenOf;
    TakenOut(q, k);
    TakenOut(GenMap(q), k);
    assert GenMap(Without(q, k)) == Without(GenMap(q), k);
  }

  lemma {:induction false} GenMapPermuted(a: seq<Sqe>, b: seq<Sqe>)
    requires multiset(a) == multiset(b)
    ensures multiset(GenMap(a)) == multiset(GenMap(b))
    decreases |a|
  {
    hide GenOf, GenMap, Without;
    if a == [] {
      assert |b| == |multiset(b)| == 0;
    } else {
      assert a[0] in multiset(b);
      var k :| 0 <= k < |b| && b[k] == a[0];
      GenMapWithout(a, 0);
      GenMapWithout(b, k);
      GenMapPermuted(Without(a, 0), Without(b, k));
    }
  }

  /** A delivery shows its submission's own generation. */
  lemma {:induction false} LogGens(s: State, events: seq<Event>, t: TaskId)
    ensures forall d :: d in Log(s, events, t) ==> d.gen == GenOf(d.sqe)
    decreases events
  {
    hide Step, Delivers;
    if events != [] && Step(s, events[0]).Ok? {
      LogGens(Step(s, events[0]).value, events[1..], t);
    }
  }

  /** The generations and results the task's polls find. */
  function Pairs(log: seq<Delivery>): (r: seq<(u16, int)>)
    ensures |r| == |log| && forall i :: 0 <= i < |log| ==> r[i] == (log[i].gen, log[i].result)
  {
    seq(|log|, i requires 0 <= i < |log| => (log[i].gen, log[i].result))
  }

  lemma BatchGens(info: TaskInfo, n: u16, t: TaskId)
    ensures GenMap(Entries(info, Batch(n), t)) == FanOut.Gens(n)
  {
    forall i | 0 <= i < n
      ensures GenOf(Entries(info, Batch(n), t)[i]) == i
    {
      EntryDecodes(info, Batch(n), t, i);
    }
  }

  /** The N completions of a batch under a masked tag: each generation is delivered once. */
  lemma BatchGenerations(s: State, events: seq<Event>, s1: State, last: Event, t: TaskId, info: TaskInfo, n: u16)
    requires Inv(s, multiset{}) && 1 <= n && t < s.nextId
    requires Fed(s, t, n - 1) && Sent(s, t) == multiset(Entries(info, Batch(n), t))
    requires Run(s, events) == Ok(s1) && s1.history.completed[t] == s.history.completed[t] + n - 1
    requires Delivers(s1, last, t)
    ensures var log := Log(s, events, t) + [DeliveryOf(s1, last, t)];
      |log| == n && multiset(GenMap(SqeList(log))) == multiset(FanOut.Gens(n)) && forall d :: d in log ==> d.gen == GenOf(d.sqe)
  {
    hide Inv, Run, Step, Log, Fed, Sent, Entries, PollStart, GenOf;
    var batch, most, final := Entries(info, Batch(n), t), Log(s, events, t), DeliveryOf(s1, last, t);
    NotMultishots(s, info, n, t);
    StreamRun(s, events, s1, t, n - 1);
    LogSent(s, events, s1, t, n - 1);
    LastSent(s, s1, last, t, most, batch);
    assert SqeList(most + [final]) == SqeList(most) + [final.sqe];
    LogGens(s, events, t);
    FinalGen(s1, last, t);
    GenMapPermuted(SqeList(most + [final]), batch);
    BatchGens(info, n, t);
  }

  lemma FinalGen(s: State, e: Event, t: TaskId)
    requires Delivers(s, e, t)
    ensures DeliveryOf(s, e, t).gen == GenOf(DeliveryOf(s, e, t).sqe) && DeliveryOf(s, e, t).sqe == s.kernel[e.k]
  {
  }

  /** Under a masked tag a write batch is delivered whole, whatever else runs: the polls of its N
      completions find every generation once, so the fan-out future is ready on the last, with a
      report that depends only on the result of each write. `last` is the N-th completion. */
  lemma BatchDelivered(s: State, events: seq<Event>, s1: State, last: Event, t: TaskId, info: TaskInfo, fds: seq<u32>, len: u32)
    requires Inv(s, multiset{}) && 1 <= |fds| <= 0xFFFF && FanOut.GONE !in fds && t < s.nextId
    requires Fed(s, t, |fds| - 1) && Sent(s, t) == multiset(Entries(info, Batch(|fds|), t))
    requires Run(s, events) == Ok(s1) && s1.history.completed[t] == s.history.completed[t] + |fds| - 1
    requires Delivers(s1, last, t)
    ensures var log := Pairs(Log(s, events, t) + [DeliveryOf(s1, last, t)]);
      var end := FanOut.DeliverEach(FanOut.Start(fds, len), log);
      && |log| == |fds| && end.Ready?
      && multiset(end.faileds) == FanOut.Reports(FanOut.Gens(|fds|), fds, FanOut.ResultsOf(log, |fds|), len)
  {
    hide Inv, Run, Step, Log, Fed, Sent, Entries, Delivers, DeliveryOf, GenOf;
    BatchGenerations(s, events, s1, last, t, info, |fds|);
    var log := Log(s, events, t) + [DeliveryOf(s1, last, t)];
    assert FanOut.GenList(Pairs(log)) == GenMap(SqeList(log));
    FanOut.EachOnce(fds, len, Pairs(log));
  }

  lemma NotMultishots(s: State, info: TaskInfo, n: u16, t: TaskId)
    requires Sent(s, t) == multiset(Entries(info, Batch(n), t))
    ensures NoMultishot(s, t)
  {
    forall x | x in Sent(s, t)
      ensures !x.multishot
    {
      assert x in Entries(info, Batch(n), t);
      var i :| 0 <= i < n && Entries(info, Batch(n), t)[i] == x;
    }
  }

  /** When all but one are delivered, the completion of `t` is that one's. */
  lemma LastSent(s: State, s1: State, last: Event, t: TaskId, most: seq<Delivery>, batch: seq<Sqe>)
    requires Sent(s, t) == Sent(s1, t) + multiset(SqeList(most)) == multiset(batch) && |most| + 1 == |batch|
    requires Delivers(s1, last, t)
    ensures multiset(SqeList(most)) + multiset{s1.kernel[last.k]} == multiset(batch)
  {
    var x := s1.kernel[last.k];
    SentOutstanding(s1, t, x);
    hide Sent;
    assert |Sent(s1, t)| + |multiset(SqeList(most))| == |multiset(batch)|;
    assert Sent(s1, t) == multiset{x} + (Sent(s1, t) - multiset{x});
  }

  /** How a batch starts: queued by a task with nothing outstanding, it is all the task has. */
  lemma BatchQueued(s: State, h: multiset<TaskId>, t: TaskId, n: u16, s': State)
    requires Inv(s, h) && Running(s, h, t) && Sent(s, t) == multiset{} && SubmitOp(s, Batch(n)) == Ok(s')
    ensures Sent(s', t) == multiset(Entries(s.current, Batch(n), t))
    ensures forall x :: x in Sent(s', t) ==> TagOf(x) == s.current.syscallNb
  {
    assert LiveSlot(s, t);
    SubmitShape(s, t, Batch(n));
    var added := Entries(s.current, Batch(n), t);
    EntriesNameTask(s.current, Batch(n), t);
    SqesConcat(s.pending, added, t);
    SqesAll(added, t);
    hide Inv, Entries, FromUserData;
    assert multiset(SqesOf(s.pending, t)) == multiset{} && multiset(SqesOf(s.kernel, t)) == multiset{};
    assert multiset(SqesOf(s.pending, t) + added) == multiset(SqesOf(s.pending, t)) + multiset(added);
    forall x | x in Sent(s', t) ensures TagOf(x) == s.current.syscallNb { assert x in multiset(added); }
  }

  lemma {:induction false} SqesAll(q: seq<Sqe>, t: TaskId)
    requires forall x :: x in q ==> x.owner == t
    ensures SqesOf(q, t) == q
  {
    if q != [] {
      assert q[0] in q;
      SqesAll(q[1..], t);
    }
  }

  /** Without the mask it is not delivered: the first completion to poll moves the tag on, and if
      that poll is passive every other submission of the same tag is stale from then on. */
  lemma UnmaskedBatchStale(s: State, k: nat, result: int, flags: nat, s': State, x: Sqe)
    requires Inv(s, multiset{}) && Polling(s, k, flags) && Complete(s, k, result, flags) == Ok(s')
    requires var r := s.heap[s.kernel[k].owner]; r.syscallNb < 0x7FFF && Passive(r.future.Now())
    requires x.owner == s.kernel[k].owner && TagOf(x) == TagOf(s.kernel[k])
    ensures x.owner in s'.heap ==> Evaluate(s'.heap[x.owner].syscallNb, TagOf(x)).Expired?
  {
    hide Inv, RunScript, Complete, Finished, Looked, Running, PollStart, More, Evaluate, Passive, FromUserData;
    var t := s.kernel[k].owner;
    PollStarts(s, k, result, flags);
    StartInv(s, k, result, flags);
    StartHeader(s, k, result, flags);
    var s1, script := PollStart(s, k, result, flags), s.heap[t].future.Now();
    var h := if More(flags) then multiset{} + multiset{t} else multiset{} + multiset{t} + multiset{t};
    var s2 := RunScript(s1, script).value;
    PassiveLooks(s1, h, t, script, s2);
    assert s2.heap[t] == s1.heap[t] by { LookedHeader(s1, s2, t); }
    FinishedFacts(s2, t, More(flags), s');
    VerdictMeaning(TagOf(x) + 1, TagOf(x));
  }

  lemma StartHeader(s: State, k: nat, result: int, flags: nat)
    requires Polling(s, k, flags) && s.heap[s.kernel[k].owner].slabIdx.Some?
    ensures var t, s1 := s.kernel[k].owner, PollStart(s, k, result, flags);
      t in s1.heap && s1.heap[t].syscallNb == PollTag(TagOf(s.kernel[k]))
  {
  }

  lemma LookedHeader(s: State, s': State, t: TaskId)
    requires Looked(s, s', t)
    ensures t in s.heap && t in s'.heap && s'.heap[t] == s.heap[t]
  {
  }
}
