/**
 Read buffers along whole runs of the executor. The kernel selects a buffer for a read and posts
 its id with the completion; the dispatcher's verdict decides whether the submitter is polled;
 whoever that poll finds waiting takes the completion. This module runs the protocol and the
 buffers together and says where every buffer id is.
 */
module ReadRuns {
  import opened Words
  import opened Indices
  import opened TaskSlab
  import opened Protocol
  import opened ProtocolSafety
  import opened Tags
  import opened BufRing
  import opened ReadBuffers

  // ---- Buffers -------------------------------------------------------------

  /** A read buffer in user space: its id, the task that holds it, how far it has got. */
  datatype Handle = Handle(bid: u32, holder: TaskId, piece: Piece)

  /** The ring and its memory; for each flushed SQE the id posted with its completion; how many
      pending `ReadFuture`s each task has; the buffers in user space; the ids whose buffer went
      without a release. */
  datatype Buffers = Buffers(
    ring: Ring,
    image: Image,
    posted: seq<Option<u32>>,
    waiting: multiset<TaskId>,
    held: seq<Handle>,
    leaked: multiset<u32>)

  /** The memory has the ring's number of entries. */
  type Pool = p: Buffers | |p.image.entries| == p.ring.Size()
    witness Buffers(Ring(0, 0, 0, []), Image([Entry(0, 0, 0)], 0), [], multiset{}, [], multiset{})

  /** `release_read_buf`. */
  function GiveBack(p: Pool, bid: u32): (q: Pool)
    ensures q == p.(image := q.image, ring := q.ring)
  {
    p.(image := Released(p.image, p.ring, bid), ring := p.ring.(window := p.ring.window + [bid]))
  }

  function GiveTimes(p: Pool, bid: u32, n: nat): (q: Pool)
    ensures q == p.(image := q.image, ring := q.ring)
    decreases n
  {
    if n == 0 then p else GiveTimes(GiveBack(p, bid), bid, n - 1)
  }

  predicate Holding(p: Pool, t: TaskId, i: nat) { i < |p.held| && p.held[i].holder == t }

  /** Task `t` does something with its i-th buffer. */
  function Handled(p: Pool, t: TaskId, i: nat, deed: Deed): Pool {
    if !Holding(p, t, i) then p
    else
      var x := p.held[i];
      var e := After(x.piece, deed);
      var q := GiveTimes(p, x.bid, e.releases);
      if !e.piece.Gone? then q.(held := q.held[i := x.(piece := e.piece)])
      else q.(held := Without(q.held, i), leaked := if e.releases == 0 then q.leaked + multiset{x.bid} else q.leaked)
  }

  /** A pending `ReadFuture` is polled: it takes the completion in CURRENT_TASK, whichever that is. */
  function Taken(p: Pool, t: TaskId, info: TaskInfo): Result<Pool> {
    var selected := BufferSelect(info.flags);
    if info.result <= 0 then Ok(if selected.Some? then GiveBack(p, selected.value) else p)
    else if selected.None? then Failed(NoBuffer)
    else Ok(p.(held := p.held + [Handle(selected.value, t, CHECKED_OUT)]))
  }

  function Perform(p: Pool, t: TaskId, info: TaskInfo, act: Act): Result<Pool> {
    match act
    case TakeRead => if t in p.waiting then Taken(p.(waiting := p.waiting - multiset{t}), t, info) else Ok(p)
    case CancelRead => Ok(p.(waiting := p.waiting - multiset{t}))
    case DropBuffer(i) => Ok(Handled(p, t, i, DropIt))
    case CallCommit(i) => Ok(Handled(p, t, i, CallIt))
    case PollCommit(i) => Ok(Handled(p, t, i, PollIt))
    case PassBuffer(i, to) => Ok(if Holding(p, t, i) then p.(held := p.held[i := p.held[i].(holder := to)]) else p)
  }

  /** The index of the first buffer of `t`. */
  function FirstOf(held: seq<Handle>, t: TaskId): (i: nat)
    ensures i <= |held| && (i < |held| ==> held[i].holder == t)
  {
    if held == [] || held[0].holder == t then 0 else 1 + FirstOf(held[1..], t)
  }

  /** A freed task's future is dropped, and with it the buffers and reads it holds. */
  function Closed(p: Pool, t: TaskId): Pool
    decreases |p.held|
  {
    var i := FirstOf(p.held, t);
    if i < |p.held| then Closed(Handled(p, t, i, DropIt), t) else p.(waiting := p.waiting[t := 0])
  }

  // ---- Protocol and buffers together ---------------------------------------

  datatype World = World(s: State, pool: Pool)

  /** A buffer passed to a task that is gone stays with its holder. */
  function Aimed(s: State, t: TaskId, act: Act): Act {
    if act.PassBuffer? && act.to !in s.heap then PassBuffer(act.i, t) else act
  }

  function RunReads(w: World, t: TaskId, script: Script): Result<World>
    decreases script
  {
    match script
    case Return => Ok(w)
    case Submit(op, rest) =>
      var s1 :- SubmitOp(w.s, op);
      var p := if op.Read? then w.pool.(waiting := w.pool.waiting + multiset{t}) else w.pool;
      RunReads(World(s1, p), t, rest)
    case Advance(rest) =>
      var s1 :- AdvanceRank(w.s);
      RunReads(w.(s := s1), t, rest)
    case Spawn(child, rest) =>
      var w1 :- SpawnReads(w, child);
      RunReads(w1, t, rest)
    case Use(act, rest) =>
      var p :- Perform(w.pool, t, w.s.current, Aimed(w.s, t, act));
      RunReads(w.(pool := p), t, rest)
  }

  /** The end of a spawn or completion: if the task is freed, so is what it holds. */
  function AfterEnd(p: Pool, s: State, t: TaskId): Pool { if t in s.heap then p else Closed(p, t) }

  function SpawnReads(w: World, f: Future): Result<World>
    decreases f
  {
    var t := w.s.nextId;
    var s1 :- Begin(w.s, f);
    var w2 :- RunReads(w.(s := s1), t, f.now);
    var s3 :- Release(w2.s, t);
    var s4 :- Release(s3.(current := w.s.current), t);
    Ok(World(s4, AfterEnd(w2.pool, s4, t)))
  }

  function PollReads(w: World, t: TaskId): Result<World>
    requires t in w.s.heap
  {
    if w.s.heap[t].future.Returned? then Failed(PolledAfterReturn)
    else RunReads(w.(s := Polled(w.s, t)), t, w.s.heap[t].future.Now())
  }

  function DispatchReads(w: World, t: TaskId, info: TaskInfo): Result<World>
    requires t in w.s.heap
  {
    match Evaluate(w.s.heap[t].syscallNb, info.syscallNb)
    case Error => Failed(NewerThanExpected)
    case Expired => Ok(w)
    case Normal => PollReads(w.(s := Armed(w.s, t, info)), t)
    case Multiple => PollReads(w.(s := w.s.(current := info)), t)
  }

  function HandleReads(w: World, cqe: Cqe): Result<World> {
    var info := InfoOf(cqe);
    var t :- Resolve(w.s, info.taskIdx);
    var s1 :- Judged(w.s, t);
    var w2 :- DispatchReads(w.(s := s1), t, info);
    var s3 :- if More(cqe.flags) then Ok(w2.s) else Release(w2.s, t);
    var s4 :- Release(s3, t);
    Ok(World(s4, AfterEnd(w2.pool, s4, t)))
  }

  // ---- Steps ---------------------------------------------------------------

  /** The protocol's steps, where the kernel selects a buffer for the k-th flushed SQE in a step
      of its own, before the completion that carries it is processed. */
  datatype ReadEvent =
    | Root(future: Future)
    | Flushed
    | Collected
    | Select(k: nat)
    | Posted(k: nat, result: int, more: bool)

  /** The kernel can select for a read that has no buffer yet, if the ring offers one. */
  predicate CanSelect(w: World, k: nat) {
    && k < |w.s.kernel| && k < |w.pool.posted| && w.s.kernel[k].read
    && w.pool.posted[k].None? && w.pool.ring.window != []
  }

  /** The first id of the window goes to the completion of the k-th flushed SQE. */
  function Selected(p: Pool, k: nat): Pool
    requires k < |p.posted| && p.ring.window != []
  {
    p.(ring := p.ring.(consumed := p.ring.consumed + 1, window := p.ring.window[1..]),
       posted := p.posted[k := Some(p.ring.window[0])])
  }

  /** The flags of a completion: F_BUFFER with the id, F_MORE. */
  function FlagsOf(selected: Option<u32>, more: bool): nat {
    (if selected.Some? then 1 + 0x1_0000 * selected.value else 0) + (if more then 2 else 0)
  }

  /** The kernel posts bytes only into a selected buffer, and selects for single-shot reads only. */
  predicate CanPost(w: World, k: nat, result: int, more: bool) {
    && k < |w.s.kernel| && k < |w.pool.posted|
    && (more ==> w.s.kernel[k].multishot && w.pool.posted[k].None?)
    && (w.s.kernel[k].read && result > 0 ==> w.pool.posted[k].Some?)
  }

  function CqeOf(w: World, k: nat, result: int, more: bool): Cqe
    requires CanPost(w, k, result, more)
  {
    Cqe(w.s.kernel[k].userData, result, FlagsOf(w.pool.posted[k], more))
  }

  /** The world without the k-th flushed SQE, unless more completions are to come. */
  function Fetched(w: World, k: nat, more: bool): World
    requires k < |w.s.kernel| && k < |w.pool.posted|
  {
    if more then w
    else World(w.s.(kernel := Without(w.s.kernel, k)), w.pool.(posted := Without(w.pool.posted, k)))
  }

  /** A completion reaches the dispatcher, with the id that was selected for it. */
  function CompleteReads(w: World, k: nat, result: int, more: bool): Result<World>
    requires CanPost(w, k, result, more)
  {
    HandleReads(Fetched(w, k, more), CqeOf(w, k, result, more))
  }

  function Nones(n: nat): (r: seq<Option<u32>>)
    ensures |r| == n && forall i :: 0 <= i < n ==> r[i] == None
  {
    seq(n, _ => None)
  }

  /** An event that cannot happen leaves the world alone. */
  function ReadStep(w: World, e: ReadEvent): Result<World> {
    match e
    case Root(f) => SpawnReads(w, f)
    case Flushed =>
      var s1 :- Step(w.s, FlushAll);
      Ok(World(s1, w.pool.(posted := w.pool.posted + Nones(|w.s.pending|))))
    case Collected =>
      var s1 :- Collect(w.s);
      Ok(w.(s := s1))
    case Select(k) =>
      Ok(if CanSelect(w, k) then w.(pool := Selected(w.pool, k)) else w)
    case Posted(k, result, more) => if CanPost(w, k, result, more) then CompleteReads(w, k, result, more) else Ok(w)
  }

  function ReadRun(w: World, events: seq<ReadEvent>): Result<World>
    decreases events
  {
    if events == [] then Ok(w)
    else
      var w1 :- ReadStep(w, events[0]);
      ReadRun(w1, events[1..])
  }

  // ---- The protocol does not notice the buffers ----------------------------

  /** The protocol's part of a joint result, unless a read panicked for want of a buffer. */
  ghost predicate Erases(r: Result<World>, plain: Result<State>) {
    match r
    case Ok(w) => plain == Ok(w.s)
    case Failed(why) => why.NoBuffer? || plain == Failed(why)
  }

  lemma {:induction false} ScriptErases(w: World, t: TaskId, script: Script)
    ensures Erases(RunReads(w, t, script), RunScript(w.s, script))
    decreases script
  {
    match script
    case Return =>
    case Submit(op, rest) =>
      var r := SubmitOp(w.s, op);
      if r.Ok? {
        ScriptErases(World(r.value, if op.Read? then w.pool.(waiting := w.pool.waiting + multiset{t}) else w.pool), t, rest);
      }
    case Advance(rest) =>
      var r := AdvanceRank(w.s);
      if r.Ok? {
        ScriptErases(w.(s := r.value), t, rest);
      }
    case Spawn(child, rest) =>
      SpawnErases(w, child);
      var r := SpawnReads(w, child);
      if r.Ok? {
        ScriptErases(r.value, t, rest);
      }
    case Use(act, rest) =>
      var r := Perform(w.pool, t, w.s.current, Aimed(w.s, t, act));
      if r.Ok? {
        ScriptErases(w.(pool := r.value), t, rest);
      }
  }

  lemma {:induction false} SpawnErases(w: World, f: Future)
    ensures Erases(SpawnReads(w, f), SpawnTask(w.s, f))
    decreases f
  {
    var r := Begin(w.s, f);
    if r.Ok? {
      ScriptErases(w.(s := r.value), w.s.nextId, f.now);
    }
  }

  lemma DispatchErases(w: World, t: TaskId, info: TaskInfo)
    requires t in w.s.heap
    ensures Erases(DispatchReads(w, t, info), Dispatch(w.s, t, info))
  {
    var s1, s2 := Armed(w.s, t, info), w.s.(current := info);
    ScriptErases(w.(s := Polled(s1, t)), t, s1.heap[t].future.Now());
    ScriptErases(w.(s := Polled(s2, t)), t, s2.heap[t].future.Now());
  }

  lemma HandleErases(w: World, cqe: Cqe)
    ensures Erases(HandleReads(w, cqe), HandleCqe(w.s, cqe))
  {
    var r := Resolve(w.s, InfoOf(cqe).taskIdx);
    if r.Ok? && Judged(w.s, r.value).Ok? {
      DispatchErases(w.(s := Judged(w.s, r.value).value), r.value, InfoOf(cqe));
    }
  }

  lemma FlagsDecode(selected: Option<u32>, more: bool)
    requires selected.Some? ==> selected.value < 0x1_0000
    ensures BufferSelect(FlagsOf(selected, more)) == selected && More(FlagsOf(selected, more)) == more
  {
    FlagsMore(selected, more);
    var low := (if selected.Some? then 1 else 0) + (if more then 2 else 0);
    hide More;
    if selected.Some? {
      var v: nat := selected.value;
      assert FlagsOf(selected, more) == 0x1_0000 * v + low;
      HighFlags(v, low);
      HalfFlags(0x8000 * v + (if more then 1 else 0), 1);
    }
  }

  lemma HighFlags(v: nat, low: nat)
    requires low < 0x1_0000
    ensures (0x1_0000 * v + low) / 0x1_0000 == v
  {
  }

  /** F_MORE is right whatever the id. */
  lemma FlagsMore(selected: Option<u32>, more: bool)
    ensures More(FlagsOf(selected, more)) == more
  {
    var v: nat, m := if selected.Some? then selected.value else 0, if more then 1 else 0;
    var low := if selected.Some? then 1 else 0;
    assert FlagsOf(selected, more) == 2 * (2 * (0x4000 * v) + m) + low;
    HalfFlags(2 * (0x4000 * v) + m, low);
    HalfFlags(0x4000 * v, m);
  }

  lemma HalfFlags(h: nat, low: nat)
    requires low < 2
    ensures (2 * h + low) / 2 == h && (2 * h + low) % 2 == low
  {
  }

  /** The protocol's event behind a joint one: none for a selection. */
  function Erased(w: World, e: ReadEvent): seq<Event> {
    match e
    case Root(f) => [SpawnRoot(f)]
    case Flushed => [FlushAll]
    case Collected => [CollectSlots]
    case Select(_) => []
    case Posted(k, result, more) =>
      if CanPost(w, k, result, more) then [Completion(k, result, FlagsOf(w.pool.posted[k], more))] else []
  }

  lemma StepErases(w: World, e: ReadEvent)
    ensures Erases(ReadStep(w, e), Run(w.s, Erased(w, e)))
  {
    match e
    case Root(f) =>
      SpawnErases(w, f);
      RunOne(w.s, SpawnRoot(f));
    case Flushed => RunOne(w.s, FlushAll);
    case Collected => RunOne(w.s, CollectSlots);
    case Posted(k, result, more) =>
      if CanPost(w, k, result, more) {
        FlagsMore(w.pool.posted[k], more);
        HandleErases(Fetched(w, k, more), CqeOf(w, k, result, more));
        RunOne(w.s, Completion(k, result, FlagsOf(w.pool.posted[k], more)));
      }
    case Select(_) =>
  }

  /** The events the protocol sees along a joint run. */
  ghost function ErasedRun(w: World, events: seq<ReadEvent>): seq<Event>
    decreases events
  {
    if events == [] then []
    else
      Erased(w, events[0])
      + (if ReadStep(w, events[0]).Ok? then ErasedRun(ReadStep(w, events[0]).value, events[1..]) else [])
  }

  /** A joint run is a run of the protocol, so all its theorems hold of it. */
  lemma {:induction false} RunErases(w: World, events: seq<ReadEvent>)
    ensures Erases(ReadRun(w, events), Run(w.s, ErasedRun(w, events)))
    decreases events
  {
    if events != [] {
      StepErases(w, events[0]);
      var r := ReadStep(w, events[0]);
      if r.Ok? {
        RunErases(r.value, events[1..]);
        RunConcat(w.s, Erased(w, events[0]), ErasedRun(r.value, events[1..]));
      } else {
        assert ErasedRun(w, events) == Erased(w, events[0]);
      }
    }
  }
}
