/**
 The ways of losing or duplicating a read buffer, as runs of a new runtime: two reads awaited in
 one poll, a read that is cancelled, a read whose completion expires, a commit that is abandoned.
 */
module ReadLosses {
  import opened Words
  import opened TaskSlab
  import opened Protocol
  import opened ProtocolSafety
  import opened Tags
  import opened Counterexamples
  import opened BufRing
  import opened ReadBuffers
  import opened ReadRuns
  import opened Conservation

  // ---- Starting reads ------------------------------------------------------

  const ONE := Submit(Read, Return)
  const TWO := Submit(Read, Submit(Read, Return))
  const CANCELLED := Submit(Read, Use(CancelRead, Return))

  /** The SQEs such a first poll leaves, and how many of its reads still wait. */
  function SentBy(first: Script): seq<Sqe> { if first == TWO then [Sent(0, true), Sent(0, true)] else [Sent(0, true)] }

  function WaitingAfter(first: Script): nat { if first == TWO then 2 else if first == ONE then 1 else 0 }

  /** Task 0 is alone with its reads flushed, and the kernel has selected id 0 for the first. */
  ghost predicate Reading(w: World, first: Script, rest: Rest) {
    && WorldInv(w) && Conserved(w.pool) && 2 <= w.pool.ring.Size() && w.pool.held == [] && w.pool.leaked == multiset{}
    && Alone(w.s, |SentBy(first)|, 0, rest, [], SentBy(first))
    && w.pool.posted[0] == Some(0) && (forall k :: 1 <= k < |w.pool.posted| ==> w.pool.posted[k].None?)
    && w.pool.waiting == multiset{}[0 := WaitingAfter(first)]
    && |w.pool.ring.window| == w.pool.ring.Size() - 1 && w.pool.ring.window[0] == 1
  }

  lemma ReadRunStep(w: World, e: ReadEvent, rest: seq<ReadEvent>)
    ensures ReadRun(w, [e] + rest) == if ReadStep(w, e).Ok? then ReadRun(ReadStep(w, e).value, rest) else ReadStep(w, e)
  {
    assert ([e] + rest)[1..] == rest;
  }

  /** The first poll, in the state in which a spawn runs it. */
  lemma FirstPoll(w: World, first: Script, rest: Rest)
    requires first in {ONE, TWO, CANCELLED} && Alone(w.s, 2, 0, rest, [], []) && At(w.s.current, 0) && w.pool.waiting == multiset{}
    ensures RunReads(w, 0, first).Ok?
    ensures var w' := RunReads(w, 0, first).value;
      && Alone(w'.s, 2 + |SentBy(first)|, 0, rest, SentBy(first), [])
      && w'.pool == w.pool.(waiting := multiset{}[0 := WaitingAfter(first)])
  {
    hide SubmitOp;
    SubmitAlone(w.s, 2, 0, rest, [], [], Read);
    var w1 := World(SubmitOp(w.s, Read).value, w.pool.(waiting := w.pool.waiting + multiset{0}));
    if first == TWO {
      SubmitAlone(w1.s, 3, 0, rest, [Sent(0, true)], [], Read);
      var w2 := World(SubmitOp(w1.s, Read).value, w1.pool.(waiting := w1.pool.waiting + multiset{0}));
      assert RunReads(w1, 0, ONE) == Ok(w2);
    } else if first == CANCELLED {
      assert RunReads(w1, 0, Use(CancelRead, Return)) == Ok(w1.(pool := w1.pool.(waiting := w1.pool.waiting - multiset{0})));
    }
  }

  lemma SpawnsReading(w: World, f: Future) returns (w': World)
    requires Fresh(w) && f.now in {ONE, TWO, CANCELLED}
    ensures ReadStep(w, Root(f)) == Ok(w')
    ensures Alone(w'.s, |SentBy(f.now)|, 0, f.later, SentBy(f.now), [])
    ensures w'.pool == w.pool.(waiting := multiset{}[0 := WaitingAfter(f.now)])
  {
    hide RunReads, Holds;
    var w1 := w.(s := Begin(INIT, f).value);
    FirstPoll(w1, f.now, f.later);
    var w2 := RunReads(w1, 0, f.now).value;
    var s3 := Release(w2.s, 0).value;
    assert Release(s3.(current := INIT.current), 0).Ok?;
    w' := SpawnReads(w, f).value;
  }

  lemma FlushesReading(w: World, rest: Rest, sent: seq<Sqe>) returns (w': World)
    requires |sent| <= RING_ENTRIES && Alone(w.s, |sent|, 0, rest, sent, []) && w.pool.posted == []
    ensures ReadStep(w, Flushed) == Ok(w') && Alone(w'.s, |sent|, 0, rest, [], sent)
    ensures w'.pool == w.pool.(posted := Nones(|sent|))
  {
    w' := ReadStep(w, Flushed).value;
    assert [] + Nones(|sent|) == Nones(|sent|);
  }

  /** Spawn, flush and the kernel's first selection. */
  lemma StartsReading(w: World, f: Future, rest: seq<ReadEvent>) returns (w': World)
    requires Fresh(w) && 2 <= w.pool.ring.Size() && f.now in {ONE, TWO, CANCELLED}
    ensures Reading(w', f.now, f.later)
    ensures ReadRun(w, [Root(f), Flushed, Select(0)] + rest) == ReadRun(w', rest)
  {
    hide ReadStep, ReadRun, WorldInv, Conserved, Holds, Alone;
    FreshInv(w);
    var w1 := SpawnsReading(w, f);
    KeptStep(w, Root(f), w1);
    var w2 := FlushesReading(w1, f.later, SentBy(f.now));
    KeptStep(w1, Flushed, w2);
    w' := SelectsFirst(w2, f.later, SentBy(f.now));
    KeptStep(w2, Select(0), w');
    ReadRunThree(w, Root(f), w1, Flushed, w2, Select(0), w', rest);
  }

  lemma ReadRunThree(w: World, e1: ReadEvent, w1: World, e2: ReadEvent, w2: World, e3: ReadEvent, w3: World, rest: seq<ReadEvent>)
    requires ReadStep(w, e1) == Ok(w1) && ReadStep(w1, e2) == Ok(w2) && ReadStep(w2, e3) == Ok(w3)
    ensures ReadRun(w, [e1, e2, e3] + rest) == ReadRun(w3, rest)
  {
    hide ReadStep;
    ReadRunStep(w2, e3, rest);
    ReadRunStep(w1, e2, [e3] + rest);
    ReadRunStep(w, e1, [e2] + ([e3] + rest));
    assert [e1, e2, e3] + rest == [e1] + ([e2] + ([e3] + rest));
  }

  lemma SelectsFirst(w: World, rest: Rest, sent: seq<Sqe>) returns (w': World)
    requires 0 < |sent| <= RING_ENTRIES && Alone(w.s, |sent|, 0, rest, [], sent) && sent[0].read && w.pool.posted == Nones(|sent|)
    requires 2 <= |w.pool.ring.window| && w.pool.ring.window[0] == 0 && w.pool.ring.window[1] == 1
    ensures ReadStep(w, Select(0)) == Ok(w') && w' == w.(pool := w.pool.(ring := w'.pool.ring, posted := w'.pool.posted))
    ensures w'.pool.posted == Nones(|sent|)[0 := Some(0)] && w'.pool.ring.logN == w.pool.ring.logN
    ensures |w'.pool.ring.window| == |w.pool.ring.window| - 1 && w'.pool.ring.window[0] == 1
  {
    w' := w.(pool := Selected(w.pool, 0));
  }

  /** A step that processes no completion loses nothing. */
  lemma KeptStep(w: World, e: ReadEvent, w': World)
    requires WorldInv(w) && Conserved(w.pool) && ReadStep(w, e) == Ok(w') && !Carries(w, e)
    ensures WorldInv(w') && Conserved(w'.pool)
  {
    LostExactly(w, e, w');
    StepWorldInv(w, e, w');
  }

  // ---- Completing a read ---------------------------------------------------

  /** A script of buffer steps. */
  predicate JustUses(script: Script) {
    script.Return? || (script.Use? && JustUses(script.rest))
  }

  lemma {:induction false} UsesRun(w: World, t: TaskId, script: Script)
    requires JustUses(script) && BufferSelect(w.s.current.flags).Some?
    ensures RunReads(w, t, script).Ok? && RunReads(w, t, script).value.s == w.s && RunScript(w.s, script) == Ok(w.s)
    decreases script
  {
    if script.Use? {
      UsesRun(w.(pool := Perform(w.pool, t, w.s.current, Aimed(w.s, t, script.act)).value), t, script.rest);
    }
  }

  /** The state in which the dispatcher judges a final completion of the k-th flushed SQE. */
  lemma JudgesWell(w: World, k: nat, cqe: Cqe) returns (w': World)
    requires WorldInv(w) && k < |w.s.kernel| && cqe.userData == w.s.kernel[k].userData
    requires w.s.kernel[k].owner in w.s.heap && w.s.heap[w.s.kernel[k].owner].rc < 0xFFFF
    ensures var t, w0 := w.s.kernel[k].owner, Fetched(w, k, false);
      && Resolve(w0.s, InfoOf(cqe).taskIdx) == Ok(t) && Judged(w0.s, t) == Ok(w'.s) && w'.pool == w0.pool
      && Inv(w'.s, multiset{} + multiset{t} + multiset{t}) && t in w'.s.heap
      && w'.s.heap[t] == w.s.heap[t].(rc := w.s.heap[t].rc + 1) && w'.s.heap[t].slabIdx == Some(InfoOf(cqe).taskIdx)
  {
    var x, w0 := w.s.kernel[k], Fetched(w, k, false);
    var t, h := x.owner, multiset{} + multiset{x.owner};
    assert Addressed(w.s, x) && LiveSlot(w.s, t);
    hide Inv, AllSound, Aligned, InRange;
    TakeKeeps(w.s, multiset{}, k);
    var s0 := w0.s.(history := w0.s.history.(completed := w0.s.history.completed + multiset{t}));
    BystanderKeeps(w0.s, s0, h);
    CloneKeeps(s0, h, t);
    w' := w0.(s := Judged(w0.s, t).value);
  }

  /** Once the dispatch has succeeded, so do the closing releases. */
  lemma EndsWell(w: World, t: TaskId, cqe: Cqe, w1: World)
    requires Resolve(w.s, InfoOf(cqe).taskIdx) == Ok(t) && Judged(w.s, t) == Ok(w1.s) && w1.pool == w.pool && !More(cqe.flags)
    requires Inv(w1.s, multiset{} + multiset{t} + multiset{t}) && t in w1.s.heap
    requires w1.s.heap[t].slabIdx == Some(InfoOf(cqe).taskIdx) && DispatchReads(w1, t, InfoOf(cqe)).Ok?
    ensures HandleReads(w, cqe).Ok?
    ensures var w' := HandleReads(w, cqe).value; w'.pool == AfterEnd(DispatchReads(w1, t, InfoOf(cqe)).value.pool, w'.s, t)
  {
    hide Inv, DispatchReads, Judged, Release;
    var h := multiset{} + multiset{t};
    DispatchErases(w1, t, InfoOf(cqe));
    DispatchSafe(w1.s, h + multiset{t}, t, InfoOf(cqe));
    FinishSafe(DispatchReads(w1, t, InfoOf(cqe)).value.s, h, t, false);
  }

  /** A completion that carries an id and polls a future that only handles buffers, or that is
      stale, is processed without a fault. */
  lemma CompletesWell(w: World, k: nat, result: int)
    requires WorldInv(w) && CanPost(w, k, result, false) && w.pool.posted[k].Some?
    requires var x := w.s.kernel[k]; var t := x.owner;
      && t in w.s.heap && w.s.heap[t].rc < 0xFFFF && !w.s.heap[t].future.Returned?
      && (TagOf(x) == w.s.heap[t].syscallNb || Rank(TagOf(x)) < Rank(w.s.heap[t].syscallNb))
      && JustUses(w.s.heap[t].future.Now())
    ensures ReadStep(w, Posted(k, result, false)).Ok?
  {
    hide Inv, AllSound, Aligned, HandleReads, DispatchReads, Judged, Resolve;
    var t, cqe := w.s.kernel[k].owner, CqeOf(w, k, result, false);
    PostedRange(w.pool, k);
    FlagsDecode(w.pool.posted[k], false);
    var w1 := JudgesWell(w, k, cqe);
    DispatchesWell(w1, t, InfoOf(cqe));
    EndsWell(Fetched(w, k, false), t, cqe, w1);
  }

  lemma DispatchesWell(w: World, t: TaskId, info: TaskInfo)
    requires t in w.s.heap && !w.s.heap[t].future.Returned? && JustUses(w.s.heap[t].future.Now())
    requires BufferSelect(info.flags).Some?
    requires info.syscallNb == w.s.heap[t].syscallNb || Rank(info.syscallNb) < Rank(w.s.heap[t].syscallNb)
    ensures DispatchReads(w, t, info).Ok?
  {
    VerdictMeaning(w.s.heap[t].syscallNb, info.syscallNb);
    var script := w.s.heap[t].future.Now();
    UsesRun(w.(s := Polled(Armed(w.s, t, info), t)), t, script);
    UsesRun(w.(s := Polled(w.s.(current := info), t)), t, script);
  }

  /** The first read's completion, if the next poll only handles buffers: id 0 is then in as many
      places as there are reads that took it. */
  lemma FirstCompletion(w: World, first: Script, script: Script, bytes: int)
    requires first in {ONE, TWO, CANCELLED} && Reading(w, first, Resume(Polls(script, Idle))) && JustUses(script)
    ensures ReadStep(w, Posted(0, bytes, false)).Ok?
    ensures Places(ReadStep(w, Posted(0, bytes, false)).value.pool)[0] == Takes(script, WaitingAfter(first))
  {
    PackedFields(Payload(0, 0xFFFF, 0));
    hide ReadStep, WorldInv, Conserved, Places;
    CompletesWell(w, 0, bytes);
    LostExactly(w, Posted(0, bytes, false), ReadStep(w, Posted(0, bytes, false)).value);
  }

  /** Spawned alone, a future that starts reads and then only handles buffers. */
  lemma ReadAndHandle(w: World, f: Future, script: Script, bytes: int)
    requires Fresh(w) && 2 <= w.pool.ring.Size() && bytes > 0
    requires f.now in {ONE, TWO, CANCELLED} && f.later == Resume(Polls(script, Idle)) && JustUses(script)
    ensures var r := ReadRun(w, [Root(f), Flushed, Select(0), Posted(0, bytes, false)]);
      r.Ok? && Places(r.value.pool)[0] == Takes(script, WaitingAfter(f.now))
  {
    hide ReadStep, Reading, Fresh, Places, JustUses, Takes;
    var e := Posted(0, bytes, false);
    var w' := StartsReading(w, f, [e]);
    assert [Root(f), Flushed, Select(0)] + [e] == [Root(f), Flushed, Select(0), e];
    FirstCompletion(w', f.now, script, bytes);
    ReadRunStep(w', e, []);
    assert [e] + [] == [e];
  }

  // ---- Two reads in one poll -----------------------------------------------

  /** Both reads of a join take the first completion; then both buffers are dropped. */
  const DROPS := Use(DropBuffer(0), Use(DropBuffer(0), Return))
  const JOIN := Polls(TWO, Resume(Polls(Use(TakeRead, Use(TakeRead, DROPS)), Idle)))

  lemma JoinTakes()
    ensures JustUses(JOIN.later.Now()) && Takes(JOIN.later.Now(), 2) == 2
  {
    assert JustUses(Use(DropBuffer(0), Return)) && Takes(Use(DropBuffer(0), Return), 0) == 0;
    assert JustUses(DROPS) && Takes(DROPS, 0) == 0;
    assert JustUses(Use(TakeRead, DROPS)) && Takes(Use(TakeRead, DROPS), 1) == 1;
  }

  /** Two reads awaited together: the first completion leaves its buffer id in two places. */
  lemma JoinedReadsDuplicate(w: World, f: Future, bytes: int)
    requires Fresh(w) && 2 <= w.pool.ring.Size() && f == JOIN && bytes > 0
    ensures var r := ReadRun(w, [Root(f), Flushed, Select(0), Posted(0, bytes, false)]);
      r.Ok? && Places(r.value.pool)[0] == 2
  {
    hide ReadRun, Fresh, Places;
    JoinTakes();
    ReadAndHandle(w, f, f.later.Now(), bytes);
  }

  // ---- A cancelled read ----------------------------------------------------

  /** A read dropped while its SQE is in flight: the completion polls the task, nobody takes the
      buffer, and its id is nowhere. */
  lemma CancelledReadLost(w: World, f: Future, bytes: int)
    requires Fresh(w) && 2 <= w.pool.ring.Size() && f == Polls(CANCELLED, Resume(Polls(Return, Idle))) && bytes > 0
    ensures var r := ReadRun(w, [Root(f), Flushed, Select(0), Posted(0, bytes, false)]);
      r.Ok? && Places(r.value.pool)[0] == 0
  {
    hide ReadRun, Fresh, Places;
    ReadAndHandle(w, f, Return, bytes);
  }

  // ---- A read that expires -------------------------------------------------

  /** The first of two reads wins, the other is dropped: a `select`. */
  const SELECTS := Use(TakeRead, Use(CancelRead, Return))

  lemma SelectsTakes(s: State)
    ensures JustUses(SELECTS) && Takes(SELECTS, 2) == 1 && RunScript(s, SELECTS) == Ok(s)
  {
    assert JustUses(Use(CancelRead, Return)) && Takes(Use(CancelRead, Return), 1) == 0;
    assert RunScript(s, Use(CancelRead, Return)) == Ok(s);
  }

  /** Both reads' completions are posted, with ids 0 and 1. */
  ghost predicate BothPosted(w: World, rest: Rest) {
    && WorldInv(w) && Conserved(w.pool) && Alone(w.s, 2, 0, rest, [], [Sent(0, true), Sent(0, true)])
    && w.pool.posted == [Some(0), Some(1)] && w.pool.waiting[0] == 2
  }

  lemma SelectsSecond(w: World, rest: Rest) returns (w': World)
    requires Reading(w, TWO, rest)
    ensures ReadStep(w, Select(1)) == Ok(w') && BothPosted(w', rest)
  {
    w' := w.(pool := Selected(w.pool, 1));
    assert w.pool.posted == [Some(0), None];
    hide WorldInv, Conserved;
    KeptStep(w, Select(1), w');
  }

  /** The winning read's completion: it is taken once, and the other SQE is left behind. */
  lemma WinnerCompletes(w: World, bytes: int) returns (w': World)
    requires BothPosted(w, Resume(Polls(SELECTS, Idle)))
    ensures ReadStep(w, Posted(0, bytes, false)) == Ok(w') && WorldInv(w') && Conserved(w'.pool)
    ensures Alone(w'.s, 1, 1, Idle, [], [Sent(0, true)]) && w'.pool.posted == [Some(1)]
  {
    var e, rest := Posted(0, bytes, false), Resume(Polls(SELECTS, Idle));
    PackedFields(Payload(0, 0xFFFF, 0));
    SelectsTakes(Resumed(w.s, 0, bytes, 1));
    hide ReadStep, WorldInv, Conserved;
    CompletesWell(w, 0, bytes);
    w' := ReadStep(w, e).value;
    LostExactly(w, e, w');
    StepWorldInv(w, e, w');
    CompletionAccounted(w, e, w');
    assert w'.pool.posted == [Some(1)] by { assert Without([Some(0), Some(1)], 0) == [Some(1)]; }
    WinnerState(w, rest, bytes, w');
  }

  lemma WinnerState(w: World, rest: Rest, bytes: int, w': World)
    requires BothPosted(w, rest) && rest == Resume(Polls(SELECTS, Idle)) && ReadStep(w, Posted(0, bytes, false)) == Ok(w')
    ensures Alone(w'.s, 1, 1, Idle, [], [Sent(0, true)])
  {
    hide ReadStep, Run, Step, RunScript, WorldInv, Conserved;
    StepErases(w, Posted(0, bytes, false));
    RunOne(w.s, Completion(0, bytes, 1));
    WinnerPolled(w.s, rest, bytes);
  }

  lemma WinnerPolled(s: State, rest: Rest, bytes: int)
    requires Alone(s, 2, 0, rest, [], [Sent(0, true), Sent(0, true)]) && rest == Resume(Polls(SELECTS, Idle))
    ensures Step(s, Completion(0, bytes, 1)).Ok?
    ensures Alone(Step(s, Completion(0, bytes, 1)).value, 1, 1, Idle, [], [Sent(0, true)])
  {
    hide Step, RunScript, Resumed;
    var s1 := Resumed(s, 0, bytes, 1);
    SelectsTakes(s1);
    ResumedAlone(s, 2, 0, rest, s.kernel, bytes, 1);
    CompletedAlone(s, 2, 0, rest, s.kernel, bytes, 1, s1);
    assert s.kernel[1..] == [Sent(0, true)];
  }

  /** Of two reads of which the first wins, the second's completion is stale: the task is not
      polled, and the id it carries is nowhere. */
  lemma ExpiredReadLost(w: World, f: Future, bytes: int)
    requires Fresh(w) && 2 <= w.pool.ring.Size() && f == Polls(TWO, Resume(Polls(SELECTS, Idle))) && bytes > 0
    ensures var e := Posted(0, bytes, false);
      var r := ReadRun(w, [Root(f), Flushed, Select(0)] + [Select(1), e, e]);
      r.Ok? && Places(r.value.pool)[1] == 0
  {
    hide ReadStep, ReadRun, Reading, BothPosted, Fresh, WorldInv, Conserved, Places;
    var e := Posted(0, bytes, false);
    var w1 := StartsReading(w, f, [Select(1), e, e]);
    var w2 := SelectsSecond(w1, f.later);
    var w3 := WinnerCompletes(w2, bytes);
    var w4 := LoserCompletes(w3, bytes);
    ReadRunThree(w1, Select(1), w2, e, w3, e, w4, []);
    assert [Select(1), e, e] + [] == [Select(1), e, e];
    assert ReadRun(w4, []) == Ok(w4) by { ReadRunNone(w4); }
  }

  lemma ReadRunNone(w: World)
    ensures ReadRun(w, []) == Ok(w)
  {
  }

  lemma LoserCompletes(w: World, bytes: int) returns (w': World)
    requires WorldInv(w) && Conserved(w.pool) && Alone(w.s, 1, 1, Idle, [], [Sent(0, true)]) && w.pool.posted == [Some(1)]
    ensures ReadStep(w, Posted(0, bytes, false)) == Ok(w') && Places(w'.pool)[1] == 0
  {
    PackedFields(Payload(0, 0xFFFF, 0));
    hide ReadStep, WorldInv, Conserved, Places;
    CompletesWell(w, 0, bytes);
    w' := ReadStep(w, Posted(0, bytes, false)).value;
    LostExactly(w, Posted(0, bytes, false), w');
  }

  // ---- An abandoned commit -------------------------------------------------

  /** Take the read, commit the buffer, drop the commit after its first poll. */
  const DROP := Use(DropBuffer(0), Return)
  const COMMITS := Use(CallCommit(0), Use(PollCommit(0), Submit(CommitWrite, DROP)))
  const ABANDONS := Use(TakeRead, COMMITS)

  /** A pool with nothing in user space but at most the buffer of id 0. */
  ghost predicate Only(p: Pool, held: seq<Handle>, leaked: multiset<u32>) { p.held == held && p.leaked == leaked }

  lemma AbandonRuns(w: World)
    requires Alone(w.s, 2, 1, Idle, [], []) && At(w.s.current, 1) && w.s.current.result > 0
    requires BufferSelect(w.s.current.flags) == Some(0) && 0 in w.pool.waiting && Only(w.pool, [], multiset{})
    ensures RunReads(w, 0, ABANDONS).Ok?
    ensures var w' := RunReads(w, 0, ABANDONS).value; Only(w'.pool, [], multiset{0})
  {
    hide SubmitOp, BufferSelect;
    var p1 := Perform(w.pool, 0, w.s.current, TakeRead).value;
    assert Only(p1, [Handle(0, 0, Loose(false))], multiset{});
    var p2 := Perform(p1, 0, w.s.current, CallCommit(0)).value;
    assert Only(p2, [Handle(0, 0, Unresumed(false))], multiset{});
    var p3 := Perform(p2, 0, w.s.current, PollCommit(0)).value;
    assert Only(p3, [Handle(0, 0, Suspended(true, Pending))], multiset{});
    SubmitAlone(w.s, 2, 1, Idle, [], [], CommitWrite);
    var s4 := SubmitOp(w.s, CommitWrite).value;
    var p4 := Perform(p3, 0, s4.current, DropBuffer(0)).value;
    assert Without(p3.held, 0) == [];
    assert Only(p4, [], multiset{0});
    hide Perform;
    assert RunReads(World(s4, p3), 0, DROP) == Ok(World(s4, p4));
    assert RunReads(World(w.s, p3), 0, Submit(CommitWrite, DROP)) == Ok(World(s4, p4));
    assert RunReads(World(w.s, p2), 0, Use(PollCommit(0), Submit(CommitWrite, DROP))) == Ok(World(s4, p4));
    assert RunReads(World(w.s, p1), 0, COMMITS) == Ok(World(s4, p4));
  }

  lemma AbandonDispatches(w: World, info: TaskInfo)
    requires Alone(w.s, 2, 0, Resume(Polls(ABANDONS, Idle)), [], []) && At(info, 0) && info.result > 0
    requires BufferSelect(info.flags) == Some(0) && 0 in w.pool.waiting && Only(w.pool, [], multiset{})
    ensures DispatchReads(w, 0, info).Ok? && Only(DispatchReads(w, 0, info).value.pool, [], multiset{0})
  {
    hide RunReads, BufferSelect;
    var s1 := Polled(Armed(w.s, 0, info), 0);
    assert s1.heap == map[0 := RawTask(2, 1, Some(0), Idle)];
    AbandonRuns(w.(s := s1));
  }

  /** A commit that is dropped after its first poll: its id leaks. */
  lemma AbandonedCommitLeaks(w: World, f: Future, bytes: int)
    requires Fresh(w) && 2 <= w.pool.ring.Size() && f == Polls(ONE, Resume(Polls(ABANDONS, Idle))) && bytes > 0
    ensures var r := ReadRun(w, [Root(f), Flushed, Select(0)] + [Posted(0, bytes, false)]);
      r.Ok? && r.value.pool.leaked == multiset{0}
  {
    hide ReadStep, ReadRun, Reading, Fresh;
    var e := Posted(0, bytes, false);
    var w1 := StartsReading(w, f, [e]);
    AbandonCompletes(w1, bytes);
    ReadRunStep(w1, e, []);
    assert [e] + [] == [e];
    ReadRunNone(ReadStep(w1, e).value);
  }

  lemma PostedIs(w: World, k: nat, result: int)
    requires CanPost(w, k, result, false)
    ensures ReadStep(w, Posted(k, result, false)) == HandleReads(Fetched(w, k, false), CqeOf(w, k, result, false))
  {
  }

  lemma AbandonCompletes(w: World, bytes: int)
    requires Reading(w, ONE, Resume(Polls(ABANDONS, Idle))) && bytes > 0
    ensures ReadStep(w, Posted(0, bytes, false)).Ok?
    ensures ReadStep(w, Posted(0, bytes, false)).value.pool.leaked == multiset{0}
  {
    hide ReadStep, Conserved, Inv, AllSound, InRange, HandleReads, DispatchReads, Resolve, Judged, Only, Closed, FromUserData, IntoUserData;
    var cqe, info := CqeOf(w, 0, bytes, false), TaskInfo(0, 0, bytes, 1, 0xFFFF);
    PackedFields(Payload(0, 0xFFFF, 0));
    assert InfoOf(cqe) == info;
    PostedIs(w, 0, bytes);
    var w1 := JudgesWell(w, 0, cqe);
    AbandonJudged(w, w1, info);
    AbandonDispatches(w1, info);
    EndsWell(Fetched(w, 0, false), 0, cqe, w1);
    NothingHeld(DispatchReads(w1, 0, info).value.pool, 0);
  }

  lemma AbandonJudged(w: World, w1: World, info: TaskInfo)
    requires Reading(w, ONE, Resume(Polls(ABANDONS, Idle))) && Judged(Fetched(w, 0, false).s, 0) == Ok(w1.s)
    requires w1.pool == Fetched(w, 0, false).pool
    ensures Alone(w1.s, 2, 0, Resume(Polls(ABANDONS, Idle)), [], []) && Only(w1.pool, [], multiset{}) && 0 in w1.pool.waiting
  {
    assert Without(w.s.kernel, 0) == [];
    assert w1.s.heap == map[0 := RawTask(2, 0, Some(0), Resume(Polls(ABANDONS, Idle)))];
  }

  lemma NothingHeld(p: Pool, t: TaskId)
    requires Only(p, [], multiset{0})
    ensures Closed(p, t).leaked == multiset{0} == p.leaked
  {
  }
}
