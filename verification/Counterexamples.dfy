/**
 Runs in which the code fails: a commit outside a multishot, a future that returns with a
 submission outstanding, and the overflow of the 15-bit rank. Each is one task, alone in a
 new runtime, with a kernel that completes everything.
 */
module Counterexamples {
  import opened Words
  import opened TaskSlab
  import opened Protocol
  import opened ProtocolSafety
  import opened Tags

  // ---- One task alone ------------------------------------------------------

  /** The submission of task 0 under tag `nb`. */
  function Sent(nb: u16, read: bool): Sqe { Sqe(IntoUserData(Payload(0, 0xFFFF, nb)), false, read, 0) }

  /** Task 0 is alone, in slot 0, with the given header and rest; its submissions are queued
      (`pending`) or flushed (`kernel`). */
  ghost predicate Alone(s: State, rc: u16, nb: u16, rest: Rest, pending: seq<Sqe>, kernel: seq<Sqe>) {
    && s.heap == map[0 := RawTask(rc, nb, Some(0), rest)] && s.slab.tasks == map[0 := 0]
    && s.pending == pending && s.kernel == kernel
  }

  /** A first poll that submits one operation. */
  lemma SpawnAlone(f: Future, op: Op) returns (s': State)
    requires f.now == Submit(op, Return) && (op.Single? || op.Read?)
    ensures Step(INIT, SpawnRoot(f)) == Ok(s') && Alone(s', 1, 0, f.later, [Sent(0, op.Read?)], [])
  {
    var s1 := Begin(INIT, f).value;
    SubmitAlone(s1, 2, 0, f.later, [], [], op);
    assert RunScript(s1, f.now) == SubmitOp(s1, op);
    s' := SpawnTask(INIT, f).value;
  }

  lemma FlushAlone(s: State, rc: u16, nb: u16, rest: Rest, sent: seq<Sqe>) returns (s': State)
    requires Alone(s, rc, nb, rest, sent, []) && |sent| <= RING_ENTRIES
    ensures Step(s, FlushAll) == Ok(s') && Alone(s', rc, nb, rest, [], sent)
  {
    s' := Flush(s);
  }

  /** The spawn of a future and the first flush. */
  lemma StartAlone(f: Future, op: Op, rest: seq<Event>) returns (s': State)
    requires f.now == Submit(op, Return) && (op.Single? || op.Read?)
    ensures Alone(s', 1, 0, f.later, [], [Sent(0, op.Read?)])
    ensures Run(INIT, [SpawnRoot(f), FlushAll] + rest) == Run(s', rest)
  {
    hide Run, Step, Alone;
    var s := SpawnAlone(f, op);
    s' := FlushAlone(s, 1, 0, f.later, [Sent(0, op.Read?)]);
    RunStep(s, FlushAll, rest);
    RunStep(INIT, SpawnRoot(f), [FlushAll] + rest);
    assert [SpawnRoot(f), FlushAll] + rest == [SpawnRoot(f)] + ([FlushAll] + rest);
  }

  /** CURRENT_TASK names task 0's slot and carries tag `nb`. */
  predicate At(info: TaskInfo, nb: u16) { info.taskIdx == 0 && info.syscallNb == nb && info.responseGen == 0xFFFF }

  /** One submission of the task that is alone. */
  lemma SubmitAlone(s: State, rc: u16, nb: u16, rest: Rest, pending: seq<Sqe>, kernel: seq<Sqe>, op: Op)
    requires Alone(s, rc, nb, rest, pending, kernel) && At(s.current, nb) && rc < 0x7FFF
    requires op.Read? || op.Single? || op.CommitWrite?
    ensures SubmitOp(s, op).Ok?
    ensures var s' := SubmitOp(s, op).value;
      && Alone(s', rc + 1, nb, rest, pending + [Sent(Marked(s.current, op).syscallNb, op.Read?)], kernel)
      && At(s'.current, Marked(s.current, op).syscallNb)
  {
    var s' := SubmitOp(s, op).value;
    assert s'.heap == map[0 := RawTask(rc + 1, nb, Some(0), rest)];
  }

  /** The state in which a completion with the stored, unmasked tag polls the task. */
  ghost function Resumed(s: State, nb: u16, result: int, flags: nat): State
    requires 0 in s.heap && s.heap[0].rc < 0xFFFF && s.kernel != []
  {
    var s1 := s.(kernel := s.kernel[1..], heap := s.heap[0 := s.heap[0].(rc := s.heap[0].rc + 1)],
                 history := s.history.(completed := s.history.completed + multiset{0}));
    Polled(Armed(s1, 0, TaskInfo(0, nb, result, flags, 0xFFFF)), 0)
  }

  lemma ResumedAlone(s: State, rc: u16, nb: u16, rest: Rest, kernel: seq<Sqe>, result: int, flags: nat)
    requires Alone(s, rc, nb, rest, [], kernel) && rc < 0xFFFF && nb < 0x8000 && kernel != []
    ensures var s' := Resumed(s, nb, result, flags);
      Alone(s', rc + 1, nb + 1, rest.Later(), [], kernel[1..]) && At(s'.current, nb + 1)
  {
    assert Resumed(s, nb, result, flags).heap == map[0 := RawTask(rc + 1, nb + 1, Some(0), rest.Later())];
  }

  /** Such a completion runs the task's next script there and gives two references back. */
  lemma CompletedAlone(s: State, rc: u16, nb: u16, rest: Rest, kernel: seq<Sqe>, result: int, flags: nat, s2: State)
    requires Alone(s, rc, nb, rest, [], kernel) && rc < 0xFFFF && nb < 0x8000 && !rest.Returned? && !More(flags)
    requires kernel != [] && kernel[0] in {Sent(nb, true), Sent(nb, false)}
    requires RunScript(Resumed(s, nb, result, flags), rest.Now()) == Ok(s2) && 0 in s2.heap && s2.heap[0].rc > 2
    ensures Step(s, Completion(0, result, flags))
         == Ok(s2.(heap := s2.heap[0 := s2.heap[0].(rc := s2.heap[0].rc - 2)]))
  {
    PackedFields(Payload(0, 0xFFFF, nb));
    assert Without(kernel, 0) == kernel[1..];
    var info := TaskInfo(0, nb, result, flags, 0xFFFF);
    assert InfoOf(Cqe(kernel[0].userData, result, flags)) == info;
    var s0 := s.(kernel := kernel[1..]);
    assert Resolve(s0, 0) == Ok(0);
    assert Judged(s0, 0).Ok?;
    assert Dispatch(Judged(s0, 0).value, 0, info) == Ok(s2);
    var s3 := Release(s2, 0).value;
    assert Release(s3, 0).value.heap == s2.heap[0 := s2.heap[0].(rc := s2.heap[0].rc - 2)];
  }

  // ---- A commit outside a multishot ----------------------------------------

  /** The README's connection handler: read once, then commit, then return. */
  const ECHO := Polls(Submit(Read, Return), Resume(AFTER_READ))
  const AFTER_READ := Polls(Use(TakeRead, Use(CallCommit(0), Use(PollCommit(0), Submit(CommitWrite, Return)))), Resume(AFTER_COMMIT))
  const AFTER_COMMIT := Polls(Use(PollCommit(0), Return), Returned)

  /** The commit masks CURRENT_TASK but not the stored tag, so its completion is rejected:
      the handler ends in the dispatcher's panic. */
  lemma EchoHandlerRejected(handler: Future, bytes: int)
    requires handler == ECHO
    ensures Run(INIT, [SpawnRoot(handler), FlushAll, Completion(0, bytes, 1), FlushAll, Completion(0, bytes, 0)])
         == Failed(NewerThanExpected)
  {
    hide Run, Step, Alone;
    var read, write := Completion(0, bytes, 1), Completion(0, bytes, 0);
    var s := StartAlone(handler, Read, [read, FlushAll, write]);
    EchoReads(s, bytes);
    var s1 := Step(s, read).value;
    var s2 := FlushAlone(s1, 1, 1, Resume(AFTER_COMMIT), [Sent(0x8001, false)]);
    EchoCommitted(s2, bytes);
    RunStep(s2, write, []);
    RunStep(s1, FlushAll, [write] + []);
    RunStep(s, read, [FlushAll] + ([write] + []));
    assert [read] + ([FlushAll] + ([write] + [])) == [read, FlushAll, write];
    assert [SpawnRoot(handler), FlushAll] + [read, FlushAll, write] == [SpawnRoot(handler), FlushAll, read, FlushAll, write];
  }

  lemma EchoReads(s: State, bytes: int)
    requires Alone(s, 1, 0, Resume(AFTER_READ), [], [Sent(0, true)])
    ensures Step(s, Completion(0, bytes, 1)).Ok?
    ensures Alone(Step(s, Completion(0, bytes, 1)).value, 1, 1, Resume(AFTER_COMMIT), [Sent(0x8001, false)], [])
  {
    hide Step, Resumed, SubmitOp;
    ResumedAlone(s, 1, 0, Resume(AFTER_READ), s.kernel, bytes, 1);
    var s1 := Resumed(s, 0, bytes, 1);
    SubmitAlone(s1, 2, 1, Resume(AFTER_COMMIT), [], [], CommitWrite);
    var s2 := SubmitOp(s1, CommitWrite).value;
    assert RunScript(s1, Submit(CommitWrite, Return)) == Ok(s2);
    assert RunScript(s1, Use(PollCommit(0), Submit(CommitWrite, Return))) == Ok(s2);
    assert RunScript(s1, Use(CallCommit(0), Use(PollCommit(0), Submit(CommitWrite, Return)))) == Ok(s2);
    CompletedAlone(s, 1, 0, Resume(AFTER_READ), s.kernel, bytes, 1, s2);
  }

  lemma EchoCommitted(s: State, bytes: int)
    requires Alone(s, 1, 1, Resume(AFTER_COMMIT), [], [Sent(0x8001, false)])
    ensures Step(s, Completion(0, bytes, 0)) == Failed(NewerThanExpected)
  {
    PackedFields(Payload(0, 0xFFFF, 0x8001));
  }

  // ---- Returning with a submission outstanding -----------------------------

  /** Starts a read and returns without awaiting it. */
  const FORGETS := Polls(Submit(Read, Return), Returned)

  /** The read's completion carries the stored tag, so it polls a future that has returned. */
  lemma ForgetfulFuturePanics(f: Future, bytes: int)
    requires f == FORGETS
    ensures Run(INIT, [SpawnRoot(f), FlushAll, Completion(0, bytes, 1)]) == Failed(PolledAfterReturn)
  {
    hide Run, Step, Alone;
    var e := Completion(0, bytes, 1);
    var s := StartAlone(f, Read, [e]);
    ForgottenRead(s, bytes);
    RunStep(s, e, []);
    assert [e] + [] == [e] && [SpawnRoot(f), FlushAll] + [e] == [SpawnRoot(f), FlushAll, e];
  }

  lemma ForgottenRead(s: State, bytes: int)
    requires Alone(s, 1, 0, Returned, [], [Sent(0, true)])
    ensures Step(s, Completion(0, bytes, 1)) == Failed(PolledAfterReturn)
  {
    PackedFields(Payload(0, 0xFFFF, 0));
  }

  // ---- The rank overflows --------------------------------------------------

  /** `n` polls that await one operation each, then one that starts two. */
  function Chain(n: nat): Future {
    if n == 0 then Polls(Submit(Single, Submit(Single, Return)), Idle)
    else Polls(Submit(Single, Return), Resume(Chain(n - 1)))
  }

  const DONE := Completion(0, 1, 0)

  /** `n` turns of the loop, then the completions of the last two operations. */
  function ChainEvents(n: nat): seq<Event> {
    if n == 0 then [DONE, DONE] else [DONE, FlushAll] + ChainEvents(n - 1)
  }

  /** `Chain(n)` has been polled under tag `nb` and what it submitted is flushed. */
  ghost predicate InChain(s: State, nb: u16, n: nat) {
    Alone(s, |ChainSent(nb, n)|, nb, Chain(n).later, [], ChainSent(nb, n))
  }

  /** After 0x7FFF polls the rank steps to the mask bit. An operation that is then still
      outstanding is newer than the stored tag, and its completion is rejected. */
  lemma RankOverflowRejected(f: Future)
    requires f == Chain(0x7FFF)
    ensures Run(INIT, [SpawnRoot(f), FlushAll] + ChainEvents(0x7FFF)) == Failed(NewerThanExpected)
  {
    hide Run, Step, ChainEvents;
    var s := StartAlone(f, Single, ChainEvents(0x7FFF));
    ChainOverflows(s, 0, 0x7FFF);
  }

  lemma {:induction false} ChainOverflows(s: State, nb: u16, n: nat)
    requires InChain(s, nb, n) && nb + n == 0x7FFF
    ensures Run(s, ChainEvents(n)) == Failed(NewerThanExpected)
    decreases n
  {
    hide Run, Step, InChain, Chain;
    if n == 0 {
      ChainEnds(s);
    } else {
      var s' := ChainTurn(s, nb, n - 1, ChainEvents(n - 1));
      ChainOverflows(s', nb + 1, n - 1);
    }
  }

  /** The number of submissions of `Chain(n)`'s first poll, under tag `nb`. */
  function ChainSent(nb: u16, n: nat): seq<Sqe> {
    if n == 0 then [Sent(nb, false), Sent(nb, false)] else [Sent(nb, false)]
  }

  lemma ChainPolled(s: State, nb: u16, n: nat)
    requires Alone(s, 2, nb, Chain(n).later, [], []) && At(s.current, nb)
    ensures RunScript(s, Chain(n).now).Ok?
    ensures Alone(RunScript(s, Chain(n).now).value, 2 + |ChainSent(nb, n)|, nb, Chain(n).later, ChainSent(nb, n), [])
  {
    SubmitAlone(s, 2, nb, Chain(n).later, [], [], Single);
    var s1 := SubmitOp(s, Single).value;
    if n == 0 {
      SubmitAlone(s1, 3, nb, Chain(n).later, [Sent(nb, false)], [], Single);
      assert RunScript(s1, Submit(Single, Return)) == SubmitOp(s1, Single);
    }
  }

  lemma ChainCompleted(s: State, nb: u16, n: nat)
    requires Alone(s, 1, nb, Resume(Chain(n)), [], [Sent(nb, false)]) && nb < 0x7FFF
    ensures Step(s, DONE).Ok?
    ensures Alone(Step(s, DONE).value, |ChainSent(nb + 1, n)|, nb + 1, Chain(n).later, ChainSent(nb + 1, n), [])
  {
    hide Step, RunScript, Resumed;
    var s1 := Resumed(s, nb, 1, 0);
    ResumedAlone(s, 1, nb, Resume(Chain(n)), s.kernel, 1, 0);
    ChainPolled(s1, nb + 1, n);
    CompletedAlone(s, 1, nb, Resume(Chain(n)), s.kernel, 1, 0, RunScript(s1, Chain(n).now).value);
  }

  lemma ChainTurn(s: State, nb: u16, n: nat, rest: seq<Event>) returns (s': State)
    requires InChain(s, nb, n + 1) && nb < 0x7FFF
    ensures InChain(s', nb + 1, n) && Run(s, [DONE, FlushAll] + rest) == Run(s', rest)
  {
    ChainCompleted(s, nb, n);
    var s1 := Step(s, DONE).value;
    s' := Flush(s1);
    RunStep(s1, FlushAll, rest);
    RunStep(s, DONE, [FlushAll] + rest);
    assert [DONE] + ([FlushAll] + rest) == [DONE, FlushAll] + rest;
  }

  lemma ChainEnds(s: State)
    requires InChain(s, 0x7FFF, 0)
    ensures Run(s, [DONE, DONE]) == Failed(NewerThanExpected)
  {
    ResumedAlone(s, 2, 0x7FFF, Idle, s.kernel, 1, 0);
    CompletedAlone(s, 2, 0x7FFF, Idle, s.kernel, 1, 0, Resumed(s, 0x7FFF, 1, 0));
    var s1 := Step(s, DONE).value;
    TooNew(s1);
    RunStep(s1, DONE, []);
    RunStep(s, DONE, [DONE]);
    assert [DONE] + [] == [DONE] && [DONE] + [DONE] == [DONE, DONE];
  }

  lemma TooNew(s: State)
    requires Alone(s, 1, 0x8000, Idle, [], [Sent(0x7FFF, false)])
    ensures Step(s, DONE) == Failed(NewerThanExpected)
  {
    PackedFields(Payload(0, 0xFFFF, 0x7FFF));
  }
}
