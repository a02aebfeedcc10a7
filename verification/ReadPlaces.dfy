/**
 Which place an id goes to. A taken completion turns into a buffer of the polled task or goes back
 to the ring at once; a freed task holds nothing any more; so when everything has completed, every
 id that was not lost is back in the ring.
 */
module ReadPlaces {
  import opened Words
  import opened Indices
  import opened TaskSlab
  import opened Protocol
  import opened ProtocolSafety
  import opened Tags
  import opened Sequential
  import opened BufRing
  import opened ReadBuffers
  import opened ReadRuns
  import opened Conservation
  import opened ReadSequential

  // ---- The objects perform the model's steps -------------------------------

  /** `ReadFuture.Poll` does to the ring what `Taken` says, yields the buffer that `Taken` adds, and
      panics when `Taken` fails. */
  method PerformTaken(f: ReadFuture, pool: BufferRing, t: TaskId, info: TaskInfo, ghost p: Pool) returns (out: ReadOutcome)
    requires pool.Valid() && p.ring == pool.ring && f.pending && info.result < 0x8000_0000
    requires BufferSelect(info.flags).Some? ==> BufferSelect(info.flags).value in pool.held
    modifies f, pool`ring, pool`held, pool.bytes
    ensures pool.Valid()
    ensures match Taken(p, t, info)
            case Failed(why) => why.NoBuffer? && out.NoBufferPanic? && pool.ring == p.ring
            case Ok(q) =>
              && !out.NoBufferPanic? && !out.StillPending? && pool.ring == q.ring
              && q.held == if out.Buffer? then p.held + [Handle(out.buffer.bufIdx, t, Loose(out.buffer.committed))] else p.held
  {
    out := f.Poll(pool, info.result, info.flags);
  }

  /** The releases of a buffer or commit object are those of `Handled`. */
  lemma HandledPerformed(p: Pool, t: TaskId, i: nat, deed: Deed, held: set<u32>, ring: Ring, held': set<u32>)
    requires Holding(p, t, i) && Sound(p.held[i].piece)
    requires GaveBack(p.ring, held, ring, held', p.held[i].bid, After(p.held[i].piece, deed).releases)
    ensures Handled(p, t, i, deed).ring == ring
  {
    SoundStep(p.held[i].piece, deed);
    assert GiveTimes(p, p.held[i].bid, 1) == GiveBack(p, p.held[i].bid);
  }

  /** What a holder's step does to its buffer: an uncommitted buffer that is dropped, and a commit
      that is polled a second time, end the window with their id and are gone; the other steps
      leave the ring alone. No step touches another buffer, and nobody acts on a buffer of another. */
  lemma HolderSteps(p: Pool, t: TaskId, i: nat, deed: Deed, to: TaskId, info: TaskInfo)
    requires AllSound(p) && i < |p.held|
    ensures var x, q := p.held[i], Handled(p, t, i, deed);
      if x.holder != t then q == p
      else if (deed.DropIt? && !x.piece.Suspended?) || (deed.PollIt? && x.piece.Suspended?)
      then q.ring.window == p.ring.window + [x.bid] && q.held == p.held[..i] + p.held[i + 1..] && q.leaked == p.leaked
      else && q.ring == p.ring
           && q.held == (if deed.DropIt? then p.held[..i] + p.held[i + 1..]
                         else if deed.CallIt? && x.piece.Loose? then p.held[i := Handle(x.bid, t, Unresumed(false))]
                         else if deed.PollIt? && x.piece.Unresumed? then p.held[i := Handle(x.bid, t, Suspended(true, Pending))]
                         else p.held)
    ensures Perform(p, t, info, PassBuffer(i, to))
         == Ok(if p.held[i].holder == t then p.(held := p.held[i := p.held[i].(holder := to)]) else p)
    ensures Perform(p, t, info, DropBuffer(i)) == Ok(Handled(p, t, i, DropIt))
    ensures Perform(p, t, info, CallCommit(i)) == Ok(Handled(p, t, i, CallIt))
    ensures Perform(p, t, info, PollCommit(i)) == Ok(Handled(p, t, i, PollIt))
  {
    var x := p.held[i];
    SoundStep(x.piece, deed);
    assert GiveTimes(p, x.bid, 1) == GiveBack(p, x.bid);
    assert p.held[i := x] == p.held;
  }

  // ---- What stays ----------------------------------------------------------

  /** The window only grows at its end, and the handle stays. */
  ghost predicate Stays(p: Pool, q: Pool, x: Handle) {
    p.ring.window <= q.ring.window && (x in p.held ==> x in q.held)
  }

  lemma InWithout(held: seq<Handle>, i: nat, x: Handle)
    requires i < |held| && x in held && held[i] != x
    ensures x in held[..i] + held[i + 1..]
  {
    var j :| 0 <= j < |held| && held[j] == x;
    var w := held[..i] + held[i + 1..];
    assert if j < i then w[j] == x else w[j - 1] == x;
  }

  lemma HandledStays(p: Pool, t: TaskId, i: nat, deed: Deed, x: Handle)
    requires AllSound(p) && x.holder != t
    ensures Stays(p, Handled(p, t, i, deed), x)
  {
    if Holding(p, t, i) {
      hide Handled, Perform, AllSound;
      HolderSteps(p, t, i, deed, t, DUMMY);
      if x in p.held {
        InWithout(p.held, i, x);
        var j :| 0 <= j < |p.held| && p.held[j] == x;
        assert |Handled(p, t, i, deed).held| == |p.held| ==> Handled(p, t, i, deed).held[j] == x;
      }
    }
  }

  lemma {:induction false} ClosedStays(p: Pool, t: TaskId, x: Handle)
    requires AllSound(p) && x.holder != t
    ensures Stays(p, Closed(p, t), x)
    decreases |p.held|
  {
    hide AllSound;
    var i := FirstOf(p.held, t);
    if i < |p.held| {
      HandledStays(p, t, i, DropIt, x);
      HandledMoves(p, t, i, DropIt);
      ClosedStays(Handled(p, t, i, DropIt), t, x);
    }
  }

  /** The poll's own steps only take or cancel reads. */
  predicate TakesOnly(script: Script) {
    match script
    case Return => true
    case Submit(_, rest) => TakesOnly(rest)
    case Advance(rest) => TakesOnly(rest)
    case Spawn(_, rest) => TakesOnly(rest)
    case Use(act, rest) => (act.TakeRead? || act.CancelRead?) && TakesOnly(rest)
  }

  lemma PassStays(p: Pool, t: TaskId, i: nat, to: TaskId, x: Handle)
    requires Holding(p, t, i) && x.holder != t
    ensures Stays(p, p.(held := p.held[i := p.held[i].(holder := to)]), x)
  {
    if x in p.held {
      var j :| 0 <= j < |p.held| && p.held[j] == x;
      assert p.held[i := p.held[i].(holder := to)][j] == x;
    }
  }

  lemma PerformStays(p: Pool, t: TaskId, info: TaskInfo, act: Act, q: Pool, x: Handle)
    requires AllSound(p) && Perform(p, t, info, act) == Ok(q)
    requires x.holder != t || act.TakeRead? || act.CancelRead?
    ensures Stays(p, q, x)
  {
    hide Handled, AllSound, BufferSelect;
    match act
    case TakeRead =>
    case CancelRead =>
    case DropBuffer(i) => HandledStays(p, t, i, DropIt, x);
    case CallCommit(i) => HandledStays(p, t, i, CallIt, x);
    case PollCommit(i) => HandledStays(p, t, i, PollIt, x);
    case PassBuffer(i, to) =>
      if Holding(p, t, i) {
        PassStays(p, t, i, to, x);
      }
  }

  /** A poll of `t` leaves a buffer alone, unless it is its own and it handles it. */
  lemma {:induction false} ScriptStays(w: World, t: TaskId, script: Script, w': World, x: Handle)
    requires t < w.s.nextId && AllSound(w.pool) && RunReads(w, t, script) == Ok(w')
    requires x.holder < w.s.nextId && (x.holder == t ==> TakesOnly(script))
    ensures Stays(w.pool, w'.pool, x)
    decreases script
  {
    hide SubmitOp, AdvanceRank, SpawnReads, Perform, AllSound, Moved;
    match script
    case Return =>
    case Submit(op, rest) =>
      var s1 := SubmitOp(w.s, op).value;
      SubmitInfo(w.s, op, s1);
      var p := if op.Read? then w.pool.(waiting := w.pool.waiting + multiset{t}) else w.pool;
      assert AllSound(p) by { SoundAside(w.pool, p); }
      ScriptStays(World(s1, p), t, rest, w', x);
    case Advance(rest) =>
      AdvanceInfo(w.s, AdvanceRank(w.s).value);
      ScriptStays(w.(s := AdvanceRank(w.s).value), t, rest, w', x);
    case Spawn(child, rest) =>
      var w1 := SpawnReads(w, child).value;
      SpawnWaits(w, child, w1);
      SpawnStays(w, child, w1, x);
      ScriptStays(w1, t, rest, w', x);
    case Use(act, rest) =>
      var aimed := Aimed(w.s, t, act);
      var q := Perform(w.pool, t, w.s.current, aimed).value;
      PerformMoves(w.pool, t, w.s.current, aimed, q);
      PerformStays(w.pool, t, w.s.current, aimed, q, x);
      ScriptStays(w.(pool := q), t, rest, w', x);
  }

  lemma SoundAside(p: Pool, q: Pool)
    requires AllSound(p) && q.held == p.held
    ensures AllSound(q)
  {
  }

  lemma {:induction false} SpawnStays(w: World, f: Future, w': World, x: Handle)
    requires AllSound(w.pool) && SpawnReads(w, f) == Ok(w') && x.holder < w.s.nextId
    ensures Stays(w.pool, w'.pool, x)
    decreases f
  {
    hide AllSound, Begin, Release, RunReads, Closed;
    var t, w1 := w.s.nextId, w.(s := Begin(w.s, f).value);
    BeginInfo(w.s, f, w1.s);
    var w2 := RunReads(w1, t, f.now).value;
    ScriptWaits(w1, t, f.now, w2);
    ScriptStays(w1, t, f.now, w2, x);
    ClosedStays(w2.pool, t, x);
  }

  // ---- Where a taken completion goes ---------------------------------------

  /** The id `b` of a completion with this result, taken by `t`. */
  ghost predicate Arrived(p: Pool, b: u32, t: TaskId, result: int) {
    if result <= 0 then b in p.ring.window else Handle(b, t, CHECKED_OUT) in p.held
  }

  lemma StaysArrived(p: Pool, q: Pool, b: u32, t: TaskId, result: int)
    requires Arrived(p, b, t, result) && Stays(p, q, Handle(b, t, CHECKED_OUT))
    ensures Arrived(q, b, t, result)
  {
  }

  lemma TakenArrives(p: Pool, t: TaskId, info: TaskInfo, b: u32, q: Pool)
    requires t in p.waiting && Perform(p, t, info, TakeRead) == Ok(q) && BufferSelect(info.flags) == Some(b)
    ensures Arrived(q, b, t, info.result)
  {
    hide BufferSelect;
  }

  lemma {:induction false} ScriptArrives(w: World, t: TaskId, script: Script, w': World, b: u32)
    requires t < w.s.nextId && AllSound(w.pool) && RunReads(w, t, script) == Ok(w') && TakesOnly(script)
    requires BufferSelect(w.s.current.flags) == Some(b) && Takes(script, w.pool.waiting[t]) >= 1
    ensures Arrived(w'.pool, b, t, w.s.current.result)
    decreases script
  {
    hide SubmitOp, AdvanceRank, SpawnReads, Perform, AllSound, Moved, BufferSelect, Arrived;
    var x, p := Handle(b, t, CHECKED_OUT), w.pool;
    match script
    case Submit(op, rest) =>
      var s1 := SubmitOp(w.s, op).value;
      SubmitInfo(w.s, op, s1);
      var q := if op.Read? then p.(waiting := p.waiting + multiset{t}) else p;
      assert AllSound(q) by { SoundAside(p, q); }
      ScriptArrives(World(s1, q), t, rest, w', b);
    case Spawn(child, rest) =>
      var w1 := SpawnReads(w, child).value;
      SpawnWaits(w, child, w1);
      ScriptArrives(w1, t, rest, w', b);
    case Use(act, rest) =>
      var aimed := Aimed(w.s, t, act);
      var q := Perform(p, t, w.s.current, aimed).value;
      PerformMoves(p, t, w.s.current, aimed, q);
      if act.TakeRead? && t in p.waiting {
        TakenArrives(p, t, w.s.current, b, q);
        ScriptStays(w.(pool := q), t, rest, w', x);
        StaysArrived(q, w'.pool, b, t, w.s.current.result);
      } else {
        ScriptArrives(w.(pool := q), t, rest, w', b);
      }
  }

  // ---- A freed task holds nothing ------------------------------------------

  ghost predicate HoldsNone(p: Pool, t: TaskId) { forall y :: y in p.held ==> y.holder != t }

  lemma {:induction false} FirstOfNone(held: seq<Handle>, t: TaskId)
    requires FirstOf(held, t) == |held|
    ensures forall y :: y in held ==> y.holder != t
  {
    if held != [] {
      FirstOfNone(held[1..], t);
      assert held == [held[0]] + held[1..];
    }
  }

  /** Dropping a freed task's future: none of its buffers remains, and an uncommitted one is back
      in the ring. */
  lemma {:induction false} ClosedReturns(p: Pool, t: TaskId, b: u32)
    requires AllSound(p)
    ensures HoldsNone(Closed(p, t), t)
    ensures Handle(b, t, CHECKED_OUT) in p.held || b in p.ring.window ==> b in Closed(p, t).ring.window
    decreases |p.held|
  {
    var i, x := FirstOf(p.held, t), Handle(b, t, CHECKED_OUT);
    if i < |p.held| {
      hide Perform, AllSound, Handled;
      HolderSteps(p, t, i, DropIt, t, DUMMY);
      HandledMoves(p, t, i, DropIt);
      var q := Handled(p, t, i, DropIt);
      ClosedReturns(q, t, b);
      if x in p.held && p.held[i] != x {
        InWithout(p.held, i, x);
      }
      assert q.ring.window == p.ring.window + [p.held[i].bid] || q.ring == p.ring;
    } else {
      FirstOfNone(p.held, t);
    }
  }

  // ---- A whole completion --------------------------------------------------

  lemma DispatchArrives(w: World, t: TaskId, info: TaskInfo, w': World, b: u32)
    requires t in w.s.heap && t < w.s.nextId && AllSound(w.pool) && DispatchReads(w, t, info) == Ok(w')
    requires TakesOnly(w.s.heap[t].future.Now()) && BufferSelect(info.flags) == Some(b) && Takers(w, t, info.syscallNb) >= 1
    ensures Arrived(w'.pool, b, t, info.result) && AllSound(w'.pool)
  {
    VerdictMeaning(w.s.heap[t].syscallNb, info.syscallNb);
    var s1, s2, script := Polled(Armed(w.s, t, info), t), Polled(w.s.(current := info), t), w.s.heap[t].future.Now();
    hide RunReads, BufferSelect, Takes, AllSound, Arrived, TakesOnly;
    if info.syscallNb < 0x8000 {
      ScriptArrives(w.(s := s1), t, script, w', b);
      ScriptWaits(w.(s := s1), t, script, w');
    } else {
      ScriptArrives(w.(s := s2), t, script, w', b);
      ScriptWaits(w.(s := s2), t, script, w');
    }
  }

  lemma HandleArrives(w: World, t: TaskId, cqe: Cqe, w': World, b: u32)
    requires Resolve(w.s, InfoOf(cqe).taskIdx) == Ok(t) && t < w.s.nextId && AllSound(w.pool)
    requires HandleReads(w, cqe) == Ok(w') && t in w.s.heap && TakesOnly(w.s.heap[t].future.Now())
    requires BufferSelect(cqe.flags) == Some(b) && Takers(w, t, InfoOf(cqe).syscallNb) >= 1
    ensures if t in w'.s.heap then Arrived(w'.pool, b, t, cqe.result) else b in w'.pool.ring.window
  {
    hide DispatchReads, Judged, Release, Takers, BufferSelect, Closed, AllSound;
    var info, w1 := InfoOf(cqe), w.(s := Judged(w.s, t).value);
    JudgedInfo(w, t, w1.s, info.syscallNb);
    assert w1.s.heap[t].future == w.s.heap[t].future by { JudgedFuture(w.s, t); }
    var w2 := DispatchReads(w1, t, info).value;
    DispatchArrives(w1, t, info, w2, b);
    ClosedReturns(w2.pool, t, b);
  }

  lemma JudgedFuture(s: State, t: TaskId)
    requires t in s.heap && Judged(s, t).Ok?
    ensures t in Judged(s, t).value.heap && Judged(s, t).value.heap[t].future == s.heap[t].future
  {
  }

  /** A completion that carries `b` and is taken by a poll that does nothing else with buffers: if
      the read failed or hit end of file, `b` ends up in the ring; if it brought bytes, `b` is a
      fresh buffer of the polled task, or back in the ring if that task has been freed. And if it
      is taken once, it is nowhere else. */
  lemma CompletionPlace(w: World, k: nat, result: int, w': World)
    requires WorldInv(w) && CanPost(w, k, result, false) && w.pool.posted[k].Some?
    requires ReadStep(w, Posted(k, result, false)) == Ok(w') && TakersOf(w, k) >= 1
    requires w.s.kernel[k].owner in w.s.heap && TakesOnly(w.s.heap[w.s.kernel[k].owner].future.Now())
    ensures var b, t := w.pool.posted[k].value, w.s.kernel[k].owner;
      && (result <= 0 || t !in w'.s.heap ==> b in w'.pool.ring.window)
      && (result > 0 && t in w'.s.heap ==> Handle(b, t, CHECKED_OUT) in w'.pool.held)
      && (Conserved(w.pool) && TakersOf(w, k) == 1 ==> Places(w'.pool)[b] == 1)
  {
    hide ReadStep, Inv, AllSound, InRange, Places, Takers, TakesOnly, Conserved;
    var b, x := w.pool.posted[k].value, w.s.kernel[k];
    var w0, cqe := Fetched(w, k, false), CqeOf(w, k, result, false);
    FetchedResolves(w, k, result);
    PostedIsHandled(w, k, result);
    HandleArrives(w0, x.owner, cqe, w', b);
    if Conserved(w.pool) {
      LostExactly(w, Posted(k, result, false), w');
    }
  }

  lemma FetchedResolves(w: World, k: nat, result: int)
    requires WorldInv(w) && CanPost(w, k, result, false)
    ensures var w0, cqe, t := Fetched(w, k, false), CqeOf(w, k, result, false), w.s.kernel[k].owner;
      && Resolve(w0.s, InfoOf(cqe).taskIdx) == Ok(t) && t < w0.s.nextId && AllSound(w0.pool)
      && BufferSelect(cqe.flags) == w.pool.posted[k] && InfoOf(cqe).syscallNb == TagOf(w.s.kernel[k])
      && Takers(w0, t, TagOf(w.s.kernel[k])) == TakersOf(w, k)
  {
    var x := w.s.kernel[k];
    assert Addressed(w.s, x) && LiveSlot(w.s, x.owner);
    if w.pool.posted[k].Some? {
      PostedRange(w.pool, k);
    }
    FlagsDecode(w.pool.posted[k], false);
    hide Takes;
  }

  lemma PostedIsHandled(w: World, k: nat, result: int)
    requires CanPost(w, k, result, false)
    ensures ReadStep(w, Posted(k, result, false)) == HandleReads(Fetched(w, k, false), CqeOf(w, k, result, false))
  {
    hide HandleReads;
  }

  // ---- Holders are alive ---------------------------------------------------

  /** Every buffer in user space is held by a live task. */
  ghost predicate HoldersAlive(w: World) { forall y :: y in w.pool.held ==> y.holder in w.s.heap }

  /** The holders after a step: `t`, whom it passed a buffer to, or as before. */
  ghost predicate FromHolders(p: Pool, q: Pool, t: TaskId, to: TaskId) {
    forall y :: y in q.held ==> y.holder == t || y.holder == to || (exists x :: x in p.held && x.holder == y.holder)
  }

  lemma HandledHolders(p: Pool, t: TaskId, i: nat, deed: Deed)
    requires AllSound(p)
    ensures FromHolders(p, Handled(p, t, i, deed), t, t)
  {
    if Holding(p, t, i) {
      hide Perform, AllSound, Handled;
      HolderSteps(p, t, i, deed, t, DUMMY);
      var q := Handled(p, t, i, deed);
      forall y | y in q.held
        ensures y.holder == t || y in p.held
      {
        var j :| 0 <= j < |q.held| && q.held[j] == y;
      }
    }
  }

  lemma PerformHolders(p: Pool, t: TaskId, info: TaskInfo, act: Act, q: Pool)
    requires AllSound(p) && Perform(p, t, info, act) == Ok(q)
    ensures FromHolders(p, q, t, if act.PassBuffer? then act.to else t)
  {
    hide Handled, AllSound, BufferSelect;
    match act
    case TakeRead =>
    case CancelRead =>
    case DropBuffer(i) => HandledHolders(p, t, i, DropIt);
    case CallCommit(i) => HandledHolders(p, t, i, CallIt);
    case PollCommit(i) => HandledHolders(p, t, i, PollIt);
    case PassBuffer(i, to) =>
  }

  lemma {:induction false} ClosedHolders(p: Pool, t: TaskId)
    requires AllSound(p)
    ensures FromHolders(p, Closed(p, t), t, t)
    decreases |p.held|
  {
    hide AllSound;
    var i := FirstOf(p.held, t);
    if i < |p.held| {
      HandledHolders(p, t, i, DropIt);
      HandledMoves(p, t, i, DropIt);
      ClosedHolders(Handled(p, t, i, DropIt), t);
    }
  }

  /** The end of a spawn or completion of `t`: nobody else dies, and what `t` held goes with it. */
  lemma EndHolders(w: World, t: TaskId, s': State)
    requires AllSound(w.pool) && HoldersAlive(w) && forall u :: u in w.s.heap && u != t ==> u in s'.heap
    ensures HoldersAlive(World(s', AfterEnd(w.pool, s', t)))
  {
    hide AllSound, Closed;
    ClosedHolders(w.pool, t);
    ClosedReturns(w.pool, t, 0);
  }

  lemma {:induction false} ScriptHolders(w: World, h: multiset<TaskId>, t: TaskId, script: Script, w': World)
    requires Inv(w.s, h) && Running(w.s, h, t) && AllSound(w.pool) && HoldersAlive(w) && RunReads(w, t, script) == Ok(w')
    ensures HoldersAlive(w')
    decreases script
  {
    hide Inv, SubmitOp, AdvanceRank, SpawnReads, Perform, AllSound, Moved, PollFrame;
    match script
    case Return =>
    case Submit(op, rest) =>
      var s1 := SubmitOp(w.s, op).value;
      SubmitKeeps(w.s, h, t, op);
      assert HoldersAlive(w.(s := s1)) by { FrameHolders(w, s1, t); }
      var p := if op.Read? then w.pool.(waiting := w.pool.waiting + multiset{t}) else w.pool;
      assert AllSound(p) by { SoundAside(w.pool, p); }
      ScriptHolders(World(s1, p), h, t, rest, w');
    case Advance(rest) =>
      var s1 := AdvanceRank(w.s).value;
      AdvanceKeeps(w.s, h, t);
      assert HoldersAlive(w.(s := s1)) by { FrameHolders(w, s1, t); }
      ScriptHolders(w.(s := s1), h, t, rest, w');
    case Spawn(child, rest) =>
      var w1 := SpawnReads(w, child).value;
      SpawnWaits(w, child, w1);
      SpawnHolders(w, h, child, w1);
      SpawnRunning(w, h, t, child, w1);
      ScriptHolders(w1, h, t, rest, w');
    case Use(act, rest) =>
      var aimed := Aimed(w.s, t, act);
      var q := Perform(w.pool, t, w.s.current, aimed).value;
      PerformMoves(w.pool, t, w.s.current, aimed, q);
      PerformHolders(w.pool, t, w.s.current, aimed, q);
      ScriptHolders(w.(pool := q), h, t, rest, w');
  }

  lemma FrameHolders(w: World, s': State, t: TaskId)
    requires HoldersAlive(w) && PollFrame(w.s, s', t) && t in s'.heap
    ensures HoldersAlive(w.(s := s'))
  {
  }

  lemma SpawnRunning(w: World, h: multiset<TaskId>, t: TaskId, f: Future, w': World)
    requires Inv(w.s, h) && Running(w.s, h, t) && SpawnReads(w, f) == Ok(w')
    ensures Inv(w'.s, h) && Running(w'.s, h, t)
  {
    hide SpawnReads, SpawnTask, Inv;
    SpawnErases(w, f);
    SpawnSafe(w.s, h, f);
  }

  lemma {:induction false} SpawnHolders(w: World, h: multiset<TaskId>, f: Future, w': World)
    requires Inv(w.s, h) && AllSound(w.pool) && HoldersAlive(w) && SpawnReads(w, f) == Ok(w')
    ensures HoldersAlive(w')
    decreases f
  {
    hide Inv, AllSound, Begin, Release, RunReads, Closed, HoldersAlive;
    var t, w1, h2 := w.s.nextId, w.(s := Begin(w.s, f).value), h + multiset{w.s.nextId, w.s.nextId};
    BeginInfo(w.s, f, w1.s);
    BeginKeeps(w.s, h, f);
    BeginHolders(w, f);
    var w2 := RunReads(w1, t, f.now).value;
    ScriptHolders(w1, h2, t, f.now, w2);
    ScriptWaits(w1, t, f.now, w2);
    ReleaseHeap(w2.s, t);
    ReleaseHeap(Release(w2.s, t).value.(current := w.s.current), t);
    EndHolders(w2, t, w'.s);
  }

  lemma BeginHolders(w: World, f: Future)
    requires HoldersAlive(w) && Begin(w.s, f).Ok?
    ensures HoldersAlive(w.(s := Begin(w.s, f).value))
  {
  }

  lemma ReleaseHeap(s: State, t: TaskId)
    requires Release(s, t).Ok?
    ensures forall u :: u in s.heap && u != t ==> u in Release(s, t).value.heap
  {
  }

  lemma DispatchHolders(w: World, h: multiset<TaskId>, t: TaskId, info: TaskInfo, w': World)
    requires Inv(w.s, h) && t in w.s.heap && t in h && w.s.heap[t].slabIdx == Some(info.taskIdx)
    requires AllSound(w.pool) && HoldersAlive(w) && DispatchReads(w, t, info) == Ok(w')
    ensures HoldersAlive(w') && AllSound(w'.pool)
  {
    assert LiveSlot(w.s, t) && Counted(w.s, h, t);
    VerdictMeaning(w.s.heap[t].syscallNb, info.syscallNb);
    hide Inv, RunReads, AllSound;
    if info.syscallNb == w.s.heap[t].syscallNb {
      var s1 := if info.syscallNb < 0x8000 then Armed(w.s, t, info) else w.s.(current := info);
      var w2, script := w.(s := Polled(s1, t)), w.s.heap[t].future.Now();
      HeaderKeeps(w.s, h, t, w2.s.heap[t], h);
      BystanderKeeps(SetTask(w.s, t, w2.s.heap[t]), w2.s, h);
      ScriptHolders(w2, h, t, script, w');
      ScriptWaits(w2, t, script, w');
    }
  }

  lemma HandleHolders(w: World, h: multiset<TaskId>, t: TaskId, cqe: Cqe, w': World)
    requires Inv(w.s, h) && Resolve(w.s, InfoOf(cqe).taskIdx) == Ok(t) && t in w.s.heap
    requires w.s.heap[t].slabIdx == Some(InfoOf(cqe).taskIdx)
    requires AllSound(w.pool) && HoldersAlive(w) && HandleReads(w, cqe) == Ok(w')
    ensures HoldersAlive(w') && (t !in w'.s.heap ==> HoldsNone(w'.pool, t))
  {
    hide Inv, DispatchReads, Judged, Release, AllSound, Closed, HoldersAlive, HoldsNone, InfoOf;
    var info, w1 := InfoOf(cqe), w.(s := Judged(w.s, t).value);
    JudgedKeeps(w, h, t);
    var w2 := DispatchReads(w1, t, info).value;
    DispatchHolders(w1, h + multiset{t}, t, info, w2);
    if More(cqe.flags) {
      ReleaseHeap(w2.s, t);
    } else {
      ReleaseHeap(w2.s, t);
      ReleaseHeap(Release(w2.s, t).value, t);
    }
    EndHolders(w2, t, w'.s);
    ClosedReturns(w2.pool, t, 0);
  }

  lemma JudgedKeeps(w: World, h: multiset<TaskId>, t: TaskId)
    requires Inv(w.s, h) && t in w.s.heap && HoldersAlive(w) && Judged(w.s, t).Ok?
    ensures var s1 := Judged(w.s, t).value;
      && Inv(s1, h + multiset{t}) && HoldersAlive(w.(s := s1)) && t in s1.heap
      && s1.heap[t].slabIdx == w.s.heap[t].slabIdx
  {
    var s0 := w.s.(history := w.s.history.(completed := w.s.history.completed + multiset{t}));
    BystanderKeeps(w.s, s0, h);
    CloneKeeps(s0, h, t);
  }

  /** Every step keeps the holders of buffers alive; a step that frees a task leaves it none. */
  lemma StepHolders(w: World, e: ReadEvent, w': World)
    requires WorldInv(w) && HoldersAlive(w) && ReadStep(w, e) == Ok(w')
    ensures HoldersAlive(w')
  {
    match e
    case Root(f) => SpawnHolders(w, multiset{}, f, w');
    case Flushed =>
    case Collected => CollectSafe(w.s, multiset{});
    case Select(_) =>
    case Posted(k, result, more) =>
      if CanPost(w, k, result, more) {
        var x, w0, cqe := w.s.kernel[k], Fetched(w, k, more), CqeOf(w, k, result, more);
        assert Addressed(w.s, x) && LiveSlot(w.s, x.owner);
        hide HandleReads, Inv, AllSound, InRange;
        if !more {
          TakeKeeps(w.s, multiset{}, k);
        }
        assert AllSound(w0.pool) by { SoundAside(w.pool, w0.pool); }
        HandleHolders(w0, if more then multiset{} else multiset{} + multiset{x.owner}, x.owner, cqe, w');
      }
  }

  /** A task that a step frees holds no buffer afterwards. */
  lemma FreedHoldsNothing(w: World, e: ReadEvent, w': World, t: TaskId)
    requires WorldInv(w) && HoldersAlive(w) && ReadStep(w, e) == Ok(w') && t in w.s.heap && t !in w'.s.heap
    ensures HoldsNone(w'.pool, t)
  {
    hide ReadStep, WorldInv;
    StepHolders(w, e, w');
  }

  // ---- Runs ----------------------------------------------------------------

  lemma {:induction false} RunHolders(w: World, events: seq<ReadEvent>, w': World)
    requires WorldInv(w) && HoldersAlive(w) && ReadRun(w, events) == Ok(w')
    ensures WorldInv(w') && HoldersAlive(w')
    decreases events
  {
    if events != [] {
      hide ReadStep, WorldInv, HoldersAlive;
      var w1 := ReadStep(w, events[0]).value;
      StepHolders(w, events[0], w1);
      StepWorldInv(w, events[0], w1);
      RunHolders(w1, events[1..], w');
    }
  }

  lemma NobodyHolds(held: seq<Handle>)
    ensures held == [] || exists y :: y in held
  {
    if held != [] {
      assert held[0] in held;
    }
  }

  /** In every run of a new runtime, whatever the futures do: when no task is left, which is when
      the loop exits, no buffer is in user space and no completion is posted, so every id is in the
      ring, leaked or lost. */
  lemma ExitHoldsNothing(w: World, events: seq<ReadEvent>, w': World)
    requires Fresh(w) && ReadRun(w, events) == Ok(w') && w'.s.heap == map[]
    ensures w'.pool.held == [] && w'.pool.posted == []
    ensures Places(w'.pool) == multiset(w'.pool.ring.window) + w'.pool.leaked
  {
    FreshInv(w);
    hide ReadRun, Fresh, AllSound, InRange;
    RunHolders(w, events, w');
    NobodyHolds(w'.pool.held);
    ExitTest(w'.s);
    assert HeldList([]) == [];
  }

  /** And if the futures await their reads and do not commit, every buffer is back in the ring. */
  lemma ExitReturnsAll(w: World, events: seq<ReadEvent>, w': World, quiet: bool)
    requires Fresh(w) && AwaitingRoots(events, quiet) && ReadRun(w, events) == Ok(w') && w'.s.heap == map[]
    ensures forall b: u32 :: multiset(w'.pool.ring.window)[b] == if b < w.pool.ring.Size() then 1 else 0
  {
    hide ReadRun, Fresh, AwaitingRoots;
    ExitHoldsNothing(w, events, w');
    SequentialReads(w, events, quiet);
    assert HeldList([]) == [];
  }
}
