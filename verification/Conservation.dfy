/**
 Where the buffer ids are. Every step moves ids between the ring, posted completions, buffers in
 user space and leaked ones; only a completion can change how often an id occurs, by the number
 of waiting reads that take it. So nothing is lost or duplicated exactly when every completion
 that carries an id is taken once.
 */
module Conservation {
  import opened Words
  import opened Indices
  import opened TaskSlab
  import opened Protocol
  import opened ProtocolSafety
  import opened Tags
  import opened BufRing
  import opened ReadBuffers
  import opened ReadRuns

  // ---- Places --------------------------------------------------------------

  ghost function PostedIds(q: seq<Option<u32>>): multiset<u32> {
    if q == [] then multiset{} else Copies(q[0], 1) + PostedIds(q[1..])
  }

  function HeldList(held: seq<Handle>): (r: seq<u32>)
    ensures |r| == |held| && forall i :: 0 <= i < |held| ==> r[i] == held[i].bid
  {
    seq(|held|, i requires 0 <= i < |held| => held[i].bid)
  }

  /** How often each id occurs: in the ring's window, in completions not yet processed, in
      buffers in user space, among the leaked. */
  ghost function Places(p: Pool): multiset<u32> {
    multiset(p.ring.window) + PostedIds(p.posted) + multiset(HeldList(p.held)) + p.leaked
  }

  ghost function Copies(selected: Option<u32>, n: nat): multiset<u32> {
    if selected.Some? then multiset{}[selected.value := n] else multiset{}
  }

  ghost predicate AllSound(p: Pool) {
    forall i :: 0 <= i < |p.held| ==> Sound(p.held[i].piece) && !p.held[i].piece.Gone?
  }

  /** From `p` to `q`, `n` more copies of the selected id and nothing else; and if that leaves no
      more occurrences than the ring has entries, its memory still encodes the window. */
  ghost predicate Moved(p: Pool, q: Pool, selected: Option<u32>, n: nat) {
    && Places(q) == Places(p) + Copies(selected, n)
    && AllSound(q) && q.posted == p.posted && q.ring.logN == p.ring.logN
    && (Holds(p.image, p.ring) && |Places(q)| <= p.ring.Size() ==> Holds(q.image, q.ring))
  }

  lemma MovedTrans(p: Pool, q: Pool, r: Pool, selected: Option<u32>, a: nat, b: nat)
    requires Moved(p, q, selected, a) && Moved(q, r, selected, b)
    ensures Moved(p, r, selected, a + b)
  {
    assert Copies(selected, a) + Copies(selected, b) == Copies(selected, a + b);
    assert |Places(r)| == |Places(q)| + |Copies(selected, b)|;
  }

  // ---- Buffer steps --------------------------------------------------------

  lemma WindowInPlaces(p: Pool)
    ensures |p.ring.window| + |p.held| <= |Places(p)|
  {
    assert |multiset(HeldList(p.held))| == |p.held|;
  }

  lemma HeldWithout(held: seq<Handle>, i: nat)
    requires i < |held|
    ensures multiset(HeldList(held)) == multiset(HeldList(Without(held, i))) + multiset{held[i].bid}
  {
    var r := HeldList(held);
    assert r == r[..i] + [r[i]] + r[i + 1..];
    assert HeldList(Without(held, i)) == r[..i] + r[i + 1..];
  }

  lemma HeldUpdate(held: seq<Handle>, i: nat, x: Handle)
    requires i < |held| && x.bid == held[i].bid
    ensures HeldList(held[i := x]) == HeldList(held)
  {
  }

  lemma GiveBackHolds(p: Pool, bid: u32)
    requires |p.ring.window| < p.ring.Size()
    ensures Holds(p.image, p.ring) ==> Holds(GiveBack(p, bid).image, GiveBack(p, bid).ring)
  {
    if Holds(p.image, p.ring) {
      ReleaseHolds(p.image, p.ring, bid);
    }
  }

  /** The last step of a buffer: its id moves from the holder to the window, or leaks. */
  ghost predicate LastStep(p: Pool, i: nat, q: Pool)
    requires i < |p.held|
  {
    var b := p.held[i].bid;
    && q.held == Without(p.held, i) && q.posted == p.posted
    && if q.leaked == p.leaked then q.image == GiveBack(p, b).image && q.ring == GiveBack(p, b).ring
       else q.image == p.image && q.ring == p.ring && q.leaked == p.leaked + multiset{b}
  }

  lemma LastStepPlaces(p: Pool, i: nat, q: Pool)
    requires i < |p.held| && LastStep(p, i, q)
    ensures Places(q) == Places(p)
  {
    var b := p.held[i].bid;
    HeldWithout(p.held, i);
    assert q.leaked == p.leaked ==> multiset(q.ring.window) == multiset(p.ring.window) + multiset{b};
  }

  lemma LastStepMoves(p: Pool, i: nat, q: Pool)
    requires AllSound(p) && i < |p.held| && LastStep(p, i, q)
    ensures Moved(p, q, None, 0)
  {
    LastStepPlaces(p, i, q);
    WindowInPlaces(p);
    hide Places, Holds, Released;
    if |Places(p)| <= p.ring.Size() {
      GiveBackHolds(p, p.held[i].bid);
    }
  }

  lemma HandledMoves(p: Pool, t: TaskId, i: nat, deed: Deed)
    requires AllSound(p)
    ensures Moved(p, Handled(p, t, i, deed), None, 0) && AllSound(Handled(p, t, i, deed))
    ensures Handled(p, t, i, deed).waiting == p.waiting
  {
    if Holding(p, t, i) {
      var x, q := p.held[i], Handled(p, t, i, deed);
      var e := After(x.piece, deed);
      SoundStep(x.piece, deed);
      assert GiveTimes(p, x.bid, 1) == GiveBack(p, x.bid);
      if e.piece.Gone? {
        LastStepMoves(p, i, q);
      } else {
        assert q == p.(held := p.held[i := x.(piece := e.piece)]);
        HeldUpdate(p.held, i, x.(piece := e.piece));
      }
    }
  }

  lemma {:induction false} ClosedMoves(p: Pool, t: TaskId)
    requires AllSound(p)
    ensures Moved(p, Closed(p, t), None, 0) && Closed(p, t).waiting == p.waiting[t := 0]
    decreases |p.held|
  {
    var i := FirstOf(p.held, t);
    if i < |p.held| {
      var q := Handled(p, t, i, DropIt);
      HandledMoves(p, t, i, DropIt);
      ClosedMoves(q, t);
      MovedTrans(p, q, Closed(q, t), None, 0, 0);
    }
  }

  lemma TakenMoves(p: Pool, t: TaskId, info: TaskInfo, q: Pool)
    requires AllSound(p) && Taken(p, t, info) == Ok(q)
    ensures Moved(p, q, BufferSelect(info.flags), 1) && AllSound(q) && q.waiting == p.waiting
  {
    var selected := BufferSelect(info.flags);
    if selected.Some? {
      var b := selected.value;
      assert Copies(selected, 1) == multiset{b};
      if info.result <= 0 {
        assert multiset(q.ring.window) == multiset(p.ring.window) + multiset{b};
        WindowInPlaces(p);
        if |Places(q)| <= p.ring.Size() {
          GiveBackHolds(p, b);
        }
      } else {
        assert HeldList(q.held) == HeldList(p.held) + [b];
      }
    }
  }

  /** Whether an act takes the current completion. */
  predicate TakesNow(p: Pool, t: TaskId, act: Act) { act.TakeRead? && t in p.waiting }

  lemma PassMoves(p: Pool, i: nat, to: TaskId)
    requires AllSound(p) && i < |p.held|
    ensures var q := p.(held := p.held[i := p.held[i].(holder := to)]); Moved(p, q, None, 0) && AllSound(q)
  {
    HeldUpdate(p.held, i, p.held[i].(holder := to));
  }

  lemma PerformMoves(p: Pool, t: TaskId, info: TaskInfo, act: Act, q: Pool)
    requires AllSound(p) && Perform(p, t, info, act) == Ok(q)
    ensures Moved(p, q, BufferSelect(info.flags), if TakesNow(p, t, act) then 1 else 0)
    ensures AllSound(q)
    ensures q.waiting == if act.TakeRead? || act.CancelRead? then p.waiting - multiset{t} else p.waiting
  {
    hide Moved, Handled, Taken, BufferSelect;
    var sel, p1 := BufferSelect(info.flags), p.(waiting := p.waiting - multiset{t});
    match act
    case TakeRead =>
      if t in p.waiting {
        TakenMoves(p1, t, info, q);
        WaitingAside(p, p1, q, sel, 1);
      } else {
        Still(p, sel);
      }
    case CancelRead =>
      Still(p1, sel);
      WaitingAside(p, p1, p1, sel, 0);
    case DropBuffer(i) =>
      HandledMoves(p, t, i, DropIt);
      NothingSelected(p, q, 0, sel);
    case CallCommit(i) =>
      HandledMoves(p, t, i, CallIt);
      NothingSelected(p, q, 0, sel);
    case PollCommit(i) =>
      HandledMoves(p, t, i, PollIt);
      NothingSelected(p, q, 0, sel);
    case PassBuffer(i, to) =>
      if Holding(p, t, i) {
        PassMoves(p, i, to);
        NothingSelected(p, q, 0, sel);
      } else {
        Still(p, sel);
      }
  }

  // ---- Polls ---------------------------------------------------------------

  /** How many of a task's reads, `waiting` of them pending, take the completion that polls it.
      Children are polled with another CURRENT_TASK, and so is what follows a rank advance. */
  function Takes(script: Script, waiting: nat): nat {
    match script
    case Return => 0
    case Submit(op, rest) => Takes(rest, if op.Read? then waiting + 1 else waiting)
    case Advance(_) => 0
    case Spawn(_, rest) => Takes(rest, waiting)
    case Use(act, rest) =>
      if waiting > 0 && act.TakeRead? then 1 + Takes(rest, waiting - 1)
      else if waiting > 0 && act.CancelRead? then Takes(rest, waiting - 1)
      else Takes(rest, waiting)
  }

  /** Tasks below `n` other than `t` wait for as many reads as before. */
  ghost predicate OthersWait(p: Pool, q: Pool, n: TaskId, t: TaskId) {
    forall u: TaskId :: u < n && u != t ==> q.waiting[u] == p.waiting[u]
  }

  lemma SubmitInfo(s: State, op: Op, s': State)
    requires SubmitOp(s, op) == Ok(s')
    ensures s'.current.flags == s.current.flags && s'.current.result == s.current.result && s'.nextId == s.nextId
  {
  }

  lemma AdvanceInfo(s: State, s': State)
    requires AdvanceRank(s) == Ok(s')
    ensures BufferSelect(s'.current.flags) == None && s'.nextId == s.nextId
  {
  }

  lemma BeginInfo(s: State, f: Future, s': State)
    requires Begin(s, f) == Ok(s')
    ensures BufferSelect(s'.current.flags) == None && s'.nextId == s.nextId + 1
  {
  }

  lemma JudgedInfo(w: World, t: TaskId, s': State, nb: u16)
    requires Judged(w.s, t) == Ok(s')
    ensures t in s'.heap && s'.nextId == w.s.nextId && Takers(w.(s := s'), t, nb) == Takers(w, t, nb)
  {
    hide Takes;
  }

  /** Who waits plays no part in where the ids are. */
  lemma WaitingAside(p: Pool, p1: Pool, q: Pool, selected: Option<u32>, n: nat)
    requires p1 == p.(waiting := p1.waiting) && Moved(p1, q, selected, n)
    ensures Moved(p, q, selected, n)
  {
    assert Places(p1) == Places(p);
  }

  lemma NothingSelected(p: Pool, q: Pool, n: nat, selected: Option<u32>)
    requires Moved(p, q, None, n)
    ensures Moved(p, q, selected, 0)
  {
    assert Copies(selected, 0) == Copies(None, n);
  }

  lemma Still(p: Pool, selected: Option<u32>)
    requires AllSound(p)
    ensures Moved(p, p, selected, 0)
  {
  }

  /** A poll's effect on the waiting reads of other tasks. */
  lemma {:induction false} ScriptWaits(w: World, t: TaskId, script: Script, w': World)
    requires t < w.s.nextId && AllSound(w.pool) && RunReads(w, t, script) == Ok(w')
    ensures AllSound(w'.pool)
    ensures OthersWait(w.pool, w'.pool, w.s.nextId, t) && w.s.nextId <= w'.s.nextId
    decreases script
  {
    hide Moved, SubmitOp, AdvanceRank, SpawnReads, Perform;
    match script
    case Return =>
    case Submit(op, rest) =>
      SubmitInfo(w.s, op, SubmitOp(w.s, op).value);
      var p := if op.Read? then w.pool.(waiting := w.pool.waiting + multiset{t}) else w.pool;
      ScriptWaits(World(SubmitOp(w.s, op).value, p), t, rest, w');
    case Advance(rest) =>
      AdvanceInfo(w.s, AdvanceRank(w.s).value);
      ScriptWaits(w.(s := AdvanceRank(w.s).value), t, rest, w');
    case Spawn(child, rest) =>
      SpawnWaits(w, child, SpawnReads(w, child).value);
      ScriptWaits(SpawnReads(w, child).value, t, rest, w');
    case Use(act, rest) =>
      var aimed := Aimed(w.s, t, act);
      var q := Perform(w.pool, t, w.s.current, aimed).value;
      PerformMoves(w.pool, t, w.s.current, aimed, q);
      ScriptWaits(w.(pool := q), t, rest, w');
  }

  lemma {:induction false} SpawnWaits(w: World, f: Future, w': World)
    requires AllSound(w.pool) && SpawnReads(w, f) == Ok(w')
    ensures AllSound(w'.pool) && w'.s.current == w.s.current
    ensures OthersWait(w.pool, w'.pool, w.s.nextId, w.s.nextId) && w.s.nextId <= w'.s.nextId
    decreases f
  {
    var t, w1 := w.s.nextId, w.(s := Begin(w.s, f).value);
    var w2 := RunReads(w1, t, f.now).value;
    ScriptWaits(w1, t, f.now, w2);
    Still(w2.pool, None);
    EndMoves(w2.pool, w2.pool, w'.s, t, None, 0);
  }

  /** A poll adds as many copies of the id in CURRENT_TASK as there are reads that take it. */
  lemma {:induction false} ScriptMoves(w: World, t: TaskId, script: Script, w': World)
    requires t < w.s.nextId && AllSound(w.pool) && RunReads(w, t, script) == Ok(w')
    ensures Moved(w.pool, w'.pool, BufferSelect(w.s.current.flags), Takes(script, w.pool.waiting[t]))
    decreases script
  {
    hide Moved, SubmitOp, AdvanceRank, SpawnReads, Perform, BufferSelect;
    var sel, p := BufferSelect(w.s.current.flags), w.pool;
    match script
    case Return => Still(p, sel);
    case Submit(op, rest) =>
      var s1 := SubmitOp(w.s, op).value;
      var p1 := if op.Read? then p.(waiting := p.waiting + multiset{t}) else p;
      SubmitInfo(w.s, op, s1);
      ScriptMoves(World(s1, p1), t, rest, w');
      WaitingAside(p, p1, w'.pool, sel, Takes(rest, p1.waiting[t]));
    case Advance(rest) =>
      var w1 := w.(s := AdvanceRank(w.s).value);
      AdvanceInfo(w.s, w1.s);
      ScriptMoves(w1, t, rest, w');
      NothingSelected(p, w'.pool, Takes(rest, p.waiting[t]), sel);
    case Spawn(child, rest) =>
      var w1 := SpawnReads(w, child).value;
      SpawnWaits(w, child, w1);
      SpawnMoves(w, child, w1);
      NothingSelected(p, w1.pool, 0, sel);
      ScriptMoves(w1, t, rest, w');
      MovedTrans(p, w1.pool, w'.pool, sel, 0, Takes(rest, p.waiting[t]));
    case Use(act, rest) =>
      var aimed := Aimed(w.s, t, act);
      var q := Perform(p, t, w.s.current, aimed).value;
      PerformMoves(p, t, w.s.current, aimed, q);
      ScriptMoves(w.(pool := q), t, rest, w');
      MovedTrans(p, q, w'.pool, sel, if TakesNow(p, t, aimed) then 1 else 0, Takes(rest, q.waiting[t]));
  }

  lemma {:induction false} SpawnMoves(w: World, f: Future, w': World)
    requires AllSound(w.pool) && SpawnReads(w, f) == Ok(w')
    ensures Moved(w.pool, w'.pool, None, 0)
    decreases f
  {
    hide Moved, AllSound, Begin, Release, RunReads, BufferSelect, AfterEnd, Takes;
    var t, w1 := w.s.nextId, w.(s := Begin(w.s, f).value);
    BeginInfo(w.s, f, w1.s);
    var w2 := RunReads(w1, t, f.now).value;
    ScriptMoves(w1, t, f.now, w2);
    NothingSelected(w.pool, w2.pool, Takes(f.now, w.pool.waiting[t]), None);
    EndMoves(w.pool, w2.pool, w'.s, t, None, 0);
  }

  lemma EndMoves(p: Pool, q: Pool, s: State, t: TaskId, selected: Option<u32>, n: nat)
    requires Moved(p, q, selected, n)
    ensures Moved(p, AfterEnd(q, s, t), selected, n)
    ensures forall u: TaskId :: u != t ==> AfterEnd(q, s, t).waiting[u] == q.waiting[u]
  {
    if t !in s.heap {
      ClosedMoves(q, t);
      assert Copies(selected, 0) == Copies(None, 0);
      MovedTrans(p, q, Closed(q, t), selected, n, 0);
    }
  }

  // ---- Completions ---------------------------------------------------------

  /** How many waiting reads take a completion of tag `nb` for task `t`: none unless it carries the
      stored tag, since only then is the task polled. */
  ghost function Takers(w: World, t: TaskId, nb: u16): nat {
    if t in w.s.heap && nb == w.s.heap[t].syscallNb then Takes(w.s.heap[t].future.Now(), w.pool.waiting[t]) else 0
  }

  lemma DispatchMoves(w: World, t: TaskId, info: TaskInfo, w': World)
    requires t in w.s.heap && t < w.s.nextId && AllSound(w.pool) && DispatchReads(w, t, info) == Ok(w')
    ensures Moved(w.pool, w'.pool, BufferSelect(info.flags), Takers(w, t, info.syscallNb))
  {
    VerdictMeaning(w.s.heap[t].syscallNb, info.syscallNb);
    var s1, s2, script := Polled(Armed(w.s, t, info), t), Polled(w.s.(current := info), t), w.s.heap[t].future.Now();
    hide Moved, RunReads, BufferSelect, Takes;
    match Evaluate(w.s.heap[t].syscallNb, info.syscallNb)
    case Error =>
    case Expired => Still(w.pool, BufferSelect(info.flags));
    case Normal => ScriptMoves(w.(s := s1), t, script, w');
    case Multiple => ScriptMoves(w.(s := s2), t, script, w');
  }

  lemma HandleMoves(w: World, t: TaskId, cqe: Cqe, w': World)
    requires Resolve(w.s, InfoOf(cqe).taskIdx) == Ok(t) && t < w.s.nextId && AllSound(w.pool)
    requires HandleReads(w, cqe) == Ok(w')
    ensures Moved(w.pool, w'.pool, BufferSelect(cqe.flags), Takers(w, t, InfoOf(cqe).syscallNb))
  {
    var info, w1 := InfoOf(cqe), w.(s := Judged(w.s, t).value);
    hide Moved, DispatchReads, Judged, Release, Takers, BufferSelect, AfterEnd;
    JudgedInfo(w, t, w1.s, info.syscallNb);
    var w2 := DispatchReads(w1, t, info).value;
    DispatchMoves(w1, t, info, w2);
    EndMoves(w.pool, w2.pool, w'.s, t, BufferSelect(cqe.flags), Takers(w, t, info.syscallNb));
  }

  // ---- Posted ids ----------------------------------------------------------

  lemma {:induction false} PostedConcat(a: seq<Option<u32>>, b: seq<Option<u32>>)
    ensures PostedIds(a + b) == PostedIds(a) + PostedIds(b)
  {
    if a == [] {
      assert a + b == b;
    } else {
      assert (a + b)[1..] == a[1..] + b;
      PostedConcat(a[1..], b);
    }
  }

  lemma {:induction false} PostedNones(n: nat)
    ensures PostedIds(Nones(n)) == multiset{}
  {
    if n > 0 {
      assert Nones(n)[1..] == Nones(n - 1);
      PostedNones(n - 1);
    }
  }

  lemma PostedAt(q: seq<Option<u32>>, k: nat)
    requires k < |q|
    ensures PostedIds(q) == PostedIds(Without(q, k)) + Copies(q[k], 1)
  {
    hide PostedIds, Copies;
    var a, b := q[..k], q[k + 1..];
    assert q == a + [q[k]] + b;
    PostedApart(a, q[k], b);
  }

  lemma PostedPut(q: seq<Option<u32>>, k: nat, x: Option<u32>)
    requires k < |q| && q[k].None?
    ensures PostedIds(q[k := x]) == PostedIds(q) + Copies(x, 1)
  {
    hide PostedIds;
    assert Without(q[k := x], k) == Without(q, k);
    PostedAt(q, k);
    PostedAt(q[k := x], k);
  }

  lemma PostedApart(a: seq<Option<u32>>, x: Option<u32>, b: seq<Option<u32>>)
    ensures PostedIds(a + [x] + b) == PostedIds(a + b) + Copies(x, 1)
  {
    PostedConcat(a + [x], b);
    PostedConcat(a, [x]);
    PostedConcat(a, b);
    assert PostedIds([x]) == Copies(x, 1) by { assert [x][1..] == []; }
    hide PostedIds, Copies;
  }

  // ---- Steps ---------------------------------------------------------------

  /** What every reachable world satisfies: the protocol's invariant, one entry per flushed SQE,
      and ids that fit the 16 bits of the flags. */
  ghost predicate WorldInv(w: World) {
    Inv(w.s, multiset{}) && Aligned(w) && AllSound(w.pool) && InRange(w.pool)
  }

  /** Ids are posted for flushed reads only. */
  ghost predicate Aligned(w: World) {
    && |w.pool.posted| == |w.s.kernel|
    && forall k :: 0 <= k < |w.pool.posted| && w.pool.posted[k].Some? ==> w.s.kernel[k].read
  }

  ghost predicate InRange(p: Pool) {
    p.ring.logN <= 15 && forall b :: b in Places(p) ==> b < p.ring.Size()
  }

  /** The event processes a completion that carries an id. */
  predicate Carries(w: World, e: ReadEvent) {
    e.Posted? && CanPost(w, e.k, e.result, e.more) && w.pool.posted[e.k].Some?
  }

  /** The number of waiting reads that take the completion of the k-th flushed SQE. */
  ghost function TakersOf(w: World, k: nat): nat
    requires k < |w.s.kernel|
  {
    Takers(w, w.s.kernel[k].owner, TagOf(w.s.kernel[k]))
  }

  /** From `p` to `q`, one occurrence of the selected id becomes `n`, nothing else changes; the
      memory encodes the window as long as there are no more occurrences than entries. */
  ghost predicate Became(p: Pool, q: Pool, selected: Option<u32>, n: nat) {
    && Places(q) + Copies(selected, 1) == Places(p) + Copies(selected, n)
    && AllSound(q) && q.ring.logN == p.ring.logN
    && (Holds(p.image, p.ring) && |Places(q)| <= p.ring.Size() ==> Holds(q.image, q.ring))
  }

  /** What a step does: only a completion that carries an id changes how often that id occurs. */
  ghost predicate Accounted(w: World, e: ReadEvent, w': World) {
    if Carries(w, e) then Became(w.pool, w'.pool, w.pool.posted[e.k], TakersOf(w, e.k))
    else Became(w.pool, w'.pool, None, 1)
  }

  lemma PostedRange(p: Pool, k: nat)
    requires InRange(p) && k < |p.posted| && p.posted[k].Some?
    ensures p.posted[k].value < p.ring.Size() <= 0x8000
  {
    PostedAt(p.posted, k);
    assert p.posted[k].value in Places(p);
    SizeDivides(p.ring.logN, 0);
  }

  lemma SelectedPlaces(p: Pool, k: nat)
    requires k < |p.posted| && p.posted[k].None? && p.ring.window != []
    ensures Places(Selected(p, k)) == Places(p)
  {
    hide PostedIds;
    var b := p.ring.window[0];
    PostedPut(p.posted, k, Some(b));
    assert p.ring.window == [b] + p.ring.window[1..];
  }

  lemma SelectedBecomes(p: Pool, k: nat)
    requires AllSound(p) && k < |p.posted| && p.posted[k].None? && p.ring.window != []
    ensures Became(p, Selected(p, k), None, 1)
  {
    hide Places, Holds;
    SelectedPlaces(p, k);
    if Holds(p.image, p.ring) {
      SelectHolds(p.image, p.ring);
    }
  }

  lemma FlushedBecomes(p: Pool, n: nat)
    requires AllSound(p)
    ensures Became(p, p.(posted := p.posted + Nones(n)), None, 1)
  {
    PostedConcat(p.posted, Nones(n));
    PostedNones(n);
  }

  lemma MovedBecomes(p: Pool, q: Pool)
    requires Moved(p, q, None, 0)
    ensures Became(p, q, None, 1)
  {
  }

  /** A completion's id leaves the queue, and as many copies appear as there are takers. */
  lemma FetchedBecomes(p: Pool, k: nat, q: Pool, n: nat)
    requires k < |p.posted| && Moved(p.(posted := Without(p.posted, k)), q, p.posted[k], n)
    ensures Became(p, q, p.posted[k], n)
  {
    var p0 := p.(posted := Without(p.posted, k));
    PostedAt(p.posted, k);
    assert Places(p) == Places(p0) + Copies(p.posted[k], 1);
  }

  lemma CompletionAccounted(w: World, e: ReadEvent, w': World)
    requires WorldInv(w) && e.Posted? && CanPost(w, e.k, e.result, e.more) && ReadStep(w, e) == Ok(w')
    ensures Accounted(w, e, w')
    ensures w'.pool.posted == Fetched(w, e.k, e.more).pool.posted
  {
    var k, x, m := e.k, w.s.kernel[e.k], w.pool.posted[e.k];
    var w0, cqe := Fetched(w, k, e.more), CqeOf(w, k, e.result, e.more);
    assert Addressed(w.s, x) && LiveSlot(w.s, x.owner);
    assert Resolve(w0.s, InfoOf(cqe).taskIdx) == Ok(x.owner);
    if m.Some? {
      PostedRange(w.pool, k);
    }
    FlagsDecode(m, e.more);
    hide Inv, Moved, Became, HandleReads, Places, Takes;
    HandleMoves(w0, x.owner, cqe, w');
    assert w'.pool.posted == w0.pool.posted by { MovedPosted(w0.pool, w'.pool, m, TakersOf(w, k)); }
    if e.more {
      NothingSelected(w.pool, w'.pool, TakersOf(w, k), None);
      MovedBecomes(w.pool, w'.pool);
    } else {
      FetchedBecomes(w.pool, k, w'.pool, TakersOf(w, k));
      if m.None? {
        NothingBecomes(w.pool, w'.pool, TakersOf(w, k));
      }
    }
  }

  lemma MovedPosted(p: Pool, q: Pool, selected: Option<u32>, n: nat)
    requires Moved(p, q, selected, n)
    ensures q.posted == p.posted
  {
  }

  lemma NothingBecomes(p: Pool, q: Pool, n: nat)
    requires Became(p, q, None, n)
    ensures Became(p, q, None, 1)
  {
  }

  lemma RangeKept(p: Pool, q: Pool, selected: Option<u32>, n: nat)
    requires InRange(p) && Became(p, q, selected, n) && (selected.Some? ==> selected.value in Places(p))
    ensures InRange(q)
  {
    forall b | b in Places(q)
      ensures b in Places(p)
    {
      assert (Places(q) + Copies(selected, 1))[b] == (Places(p) + Copies(selected, n))[b];
    }
  }

  lemma StepAccounted(w: World, e: ReadEvent, w': World)
    requires WorldInv(w) && ReadStep(w, e) == Ok(w')
    ensures Accounted(w, e, w') && Aligned(w')
  {
    hide Became, Moved, Places, Inv;
    match e
    case Root(f) =>
      SpawnMoves(w, f, w');
      MovedBecomes(w.pool, w'.pool);
      MovedPosted(w.pool, w'.pool, None, 0);
      SpawnErases(w, f);
      SpawnSafe(w.s, multiset{}, f);
    case Flushed => FlushedBecomes(w.pool, |w.s.pending|);
    case Collected =>
      CollectSafe(w.s, multiset{});
      Still(w.pool, None);
      MovedBecomes(w.pool, w.pool);
    case Select(k) =>
      if CanSelect(w, k) {
        SelectedBecomes(w.pool, k);
      } else {
        Still(w.pool, None);
        MovedBecomes(w.pool, w.pool);
      }
    case Posted(k, result, more) =>
      if CanPost(w, k, result, more) {
        CompletionAccounted(w, e, w');
        KernelAfter(w, e, w');
      } else {
        Still(w.pool, None);
        MovedBecomes(w.pool, w.pool);
      }
  }

  lemma KernelAfter(w: World, e: ReadEvent, w': World)
    requires WorldInv(w) && e.Posted? && CanPost(w, e.k, e.result, e.more) && ReadStep(w, e) == Ok(w')
    ensures w'.s.kernel == Fetched(w, e.k, e.more).s.kernel
  {
    var flags := FlagsOf(w.pool.posted[e.k], e.more);
    StepErases(w, e);
    FlagsMore(w.pool.posted[e.k], e.more);
    RunOne(w.s, Completion(e.k, e.result, flags));
    CompleteSafe(w.s, e.k, e.result, flags);
  }

  lemma StepWorldInv(w: World, e: ReadEvent, w': World)
    requires WorldInv(w) && ReadStep(w, e) == Ok(w')
    ensures WorldInv(w')
  {
    StepErases(w, e);
    RunKeeps(w.s, Erased(w, e));
    hide Inv, ReadStep, Places;
    StepAccounted(w, e, w');
    if Carries(w, e) {
      PostedAt(w.pool.posted, e.k);
      assert w.pool.posted[e.k].value in Places(w.pool) by { PostedPlaces(w.pool, e.k); }
      RangeKept(w.pool, w'.pool, w.pool.posted[e.k], TakersOf(w, e.k));
    } else {
      RangeKept(w.pool, w'.pool, None, 1);
    }
  }

  lemma PostedPlaces(p: Pool, k: nat)
    requires k < |p.posted| && p.posted[k].Some?
    ensures p.posted[k].value in Places(p)
  {
    PostedAt(p.posted, k);
  }

  // ---- Whole runs ----------------------------------------------------------

  /** Every id of the ring occurs exactly once, and nothing else does. */
  ghost predicate Conserved(p: Pool) {
    forall b: u32 :: Places(p)[b] == if b < p.ring.Size() then 1 else 0
  }

  /** A completion that carries an id, processed in `w`, is taken by exactly one waiting read. */
  ghost predicate TakenOnce(w: World, e: ReadEvent) { Carries(w, e) ==> TakersOf(w, e.k) == 1 }

  /** A step from a world in which every id occurs once: exactly the completions taken other than
      once break that. Taken by none, the id is lost; by several, it is in as many places. */
  lemma LostExactly(w: World, e: ReadEvent, w': World)
    requires WorldInv(w) && Conserved(w.pool) && ReadStep(w, e) == Ok(w')
    ensures Carries(w, e) ==> Places(w'.pool)[w.pool.posted[e.k].value] == TakersOf(w, e.k)
    ensures forall b: u32 :: !(Carries(w, e) && b == w.pool.posted[e.k].value) ==> Places(w'.pool)[b] == Places(w.pool)[b]
    ensures Conserved(w'.pool) <==> TakenOnce(w, e)
  {
    hide Places, ReadStep, Became, Inv, InRange, AllSound, Takers;
    StepAccounted(w, e, w');
    var m := if Carries(w, e) then w.pool.posted[e.k] else None;
    var n := if Carries(w, e) then TakersOf(w, e.k) else 1;
    forall b: u32
      ensures Places(w'.pool)[b] == if m == Some(b) then Places(w.pool)[b] - 1 + n else Places(w.pool)[b]
    {
      BecameCount(w.pool, w'.pool, m, n, b);
    }
    BecameSize(w.pool, w'.pool, m, n);
    if m.Some? {
      PostedPlaces(w.pool, e.k);
      assert Places(w.pool)[m.value] == 1;
    }
  }

  lemma BecameCount(p: Pool, q: Pool, selected: Option<u32>, n: nat, b: u32)
    requires Became(p, q, selected, n)
    ensures Places(q)[b] == if selected == Some(b) then Places(p)[b] - 1 + n else Places(p)[b]
  {
    hide Places;
    assert (Places(q) + Copies(selected, 1))[b] == (Places(p) + Copies(selected, n))[b];
  }

  lemma BecameSize(p: Pool, q: Pool, selected: Option<u32>, n: nat)
    requires Became(p, q, selected, n)
    ensures q.ring.Size() == p.ring.Size()
  {
  }

  /** An id leaks in a step of its holder if and only if that step drops a commit call that has
      been polled once. */
  lemma LeakedExactly(p: Pool, t: TaskId, i: nat, deed: Deed)
    requires AllSound(p) && Holding(p, t, i)
    ensures Handled(p, t, i, deed).leaked == p.leaked + multiset{p.held[i].bid} <==>
      p.held[i].piece.Suspended? && deed.DropIt?
    ensures Handled(p, t, i, deed).leaked != p.leaked ==> p.held[i].piece.Suspended? && deed.DropIt?
  {
    SoundStep(p.held[i].piece, deed);
    assert p.leaked + multiset{p.held[i].bid} != p.leaked by {
      assert (p.leaked + multiset{p.held[i].bid})[p.held[i].bid] == p.leaked[p.held[i].bid] + 1;
    }
  }

  /** A new runtime: the ring offers every buffer once. */
  ghost predicate Fresh(w: World) {
    && w.s == INIT && w.pool.ring.logN <= 15 && Holds(w.pool.image, w.pool.ring)
    && w.pool.ring.consumed == 0 && |w.pool.ring.window| == w.pool.ring.Size()
    && (forall k :: 0 <= k < |w.pool.ring.window| ==> w.pool.ring.window[k] == k)
    && w.pool == w.pool.(posted := [], waiting := multiset{}, held := [], leaked := multiset{})
  }

  lemma {:induction false} CountOnce(s: seq<u32>, b: u32)
    requires forall k :: 0 <= k < |s| ==> s[k] == k
    ensures multiset(s)[b] == if b < |s| then 1 else 0
  {
    if s != [] {
      var init := s[..|s| - 1];
      assert s == init + [|s| - 1];
      CountOnce(init, b);
    }
  }

  lemma FreshInv(w: World)
    requires Fresh(w)
    ensures WorldInv(w) && Conserved(w.pool)
  {
    InitInv();
    var p := w.pool;
    forall b: u32 ensures Places(p)[b] == if b < p.ring.Size() then 1 else 0 {
      CountOnce(p.ring.window, b);
    }
  }

  /** All along the run, every id occurs exactly once. */
  ghost predicate AlwaysConserved(w: World, events: seq<ReadEvent>)
    decreases events
  {
    && Conserved(w.pool)
    && (events != [] && ReadStep(w, events[0]).Ok? ==> AlwaysConserved(ReadStep(w, events[0]).value, events[1..]))
  }

  /** All along the run, every completion that carries an id is taken by exactly one read. */
  ghost predicate AlwaysTakenOnce(w: World, events: seq<ReadEvent>)
    decreases events
  {
    events != [] ==>
      && (ReadStep(w, events[0]).Ok? ==> TakenOnce(w, events[0]))
      && (ReadStep(w, events[0]).Ok? ==> AlwaysTakenOnce(ReadStep(w, events[0]).value, events[1..]))
  }

  lemma {:induction false} RunConserved(w: World, events: seq<ReadEvent>)
    requires WorldInv(w) && Conserved(w.pool)
    ensures AlwaysConserved(w, events) <==> AlwaysTakenOnce(w, events)
    decreases events
  {
    if events != [] && ReadStep(w, events[0]).Ok? {
      hide WorldInv, Conserved, TakenOnce, ReadStep;
      var w' := ReadStep(w, events[0]).value;
      LostExactly(w, events[0], w');
      StepWorldInv(w, events[0], w');
      if Conserved(w'.pool) {
        RunConserved(w', events[1..]);
      }
    }
  }

  /** Conservation: in every run of a new runtime, whatever the futures and the kernel do, each id
      is always in exactly one place if and only if every completion that carries one is taken by
      exactly one waiting read. */
  lemma ConservedExactly(w: World, events: seq<ReadEvent>)
    requires Fresh(w)
    ensures AlwaysConserved(w, events) <==> AlwaysTakenOnce(w, events)
  {
    FreshInv(w);
    RunConserved(w, events);
  }

  lemma {:induction false} ConservedSize(m: multiset<u32>, n: u32)
    requires forall b: u32 :: m[b] == if b < n then 1 else 0
    ensures |m| == n
    decreases n
  {
    if n == 0 {
      assert m == multiset{};
    } else {
      var m' := m - multiset{n - 1};
      assert m == m' + multiset{n - 1};
      ConservedSize(m', n - 1);
    }
  }

  /** While every completion is taken once, the ring's memory encodes its window, which has room
      for every release: no entry the kernel has not consumed is overwritten. */
  lemma {:induction false} RunHolds(w: World, events: seq<ReadEvent>, w': World)
    requires WorldInv(w) && Conserved(w.pool) && Holds(w.pool.image, w.pool.ring)
    requires AlwaysTakenOnce(w, events) && ReadRun(w, events) == Ok(w')
    ensures WorldInv(w') && Conserved(w'.pool) && Holds(w'.pool.image, w'.pool.ring)
    ensures w'.pool.ring.logN == w.pool.ring.logN
    decreases events
  {
    if events != [] {
      var w1 := ReadStep(w, events[0]).value;
      StepHolds(w, events[0], w1);
      hide ReadStep, WorldInv, Conserved, Holds, TakenOnce;
      RunHolds(w1, events[1..], w');
    }
  }

  lemma StepHolds(w: World, e: ReadEvent, w': World)
    requires WorldInv(w) && Conserved(w.pool) && Holds(w.pool.image, w.pool.ring)
    requires TakenOnce(w, e) && ReadStep(w, e) == Ok(w')
    ensures WorldInv(w') && Conserved(w'.pool) && Holds(w'.pool.image, w'.pool.ring)
    ensures w'.pool.ring.logN == w.pool.ring.logN
  {
    StepAccounted(w, e, w');
    StepWorldInv(w, e, w');
    LostExactly(w, e, w');
    SizeDivides(w.pool.ring.logN, 0);
    hide ReadStep, Places, Holds;
    ConservedSize(Places(w'.pool), w.pool.ring.Size());
  }
}
