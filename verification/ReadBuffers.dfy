/**
 One read buffer: the `RwBuffer` that stands for it, the `commit` call it may move into, and
 when its slot goes back to the ring. The functions follow one buffer along a path of what its
 holder does and count the releases; the classes are the objects that perform the steps.
 */
module ReadBuffers {
  import opened Words
  import opened Indices
  import opened BufRing

  // ---- The pieces ----------------------------------------------------------

  /** `CommitFuture`: before and after its first poll. It keeps `Pending` when it is ready. */
  datatype CommitFuture = Init | Pending

  /** Where the buffer is: in its holder's hands; moved into a call of the `async fn commit` that
      has not been polled; inside that call at its `await`; or no longer anywhere. */
  datatype Piece =
    | Loose(committed: bool)
    | Unresumed(committed: bool)
    | Suspended(committed: bool, future: CommitFuture)
    | Gone

  /** What the holder does: drop the buffer, or the call it moved into; call `commit`; poll. */
  datatype Deed = DropIt | CallIt | PollIt

  /** A step's effect: what is left, and how often `release_read_buf` was called. */
  datatype Effect = Effect(piece: Piece, releases: nat)

  /** The destructor of `RwBuffer`: the slot goes back unless `commit` has taken charge. */
  function Destructor(committed: bool): nat { if committed then 0 else 1 }

  /** One poll at the `await`. A future that is ready has released the slot; the call then
      returns, which runs the destructor of the buffer it owns. */
  function Awaited(committed: bool, future: CommitFuture): Effect {
    match future
    case Init => Effect(Suspended(committed, Pending), 0)
    case Pending => Effect(Gone, 1 + Destructor(committed))
  }

  /** A holder that no longer has the value can do nothing with it. */
  function After(p: Piece, deed: Deed): Effect {
    match deed
    case DropIt => if p.Gone? then Effect(Gone, 0) else Effect(Gone, Destructor(p.committed))
    case CallIt => Effect(if p.Loose? then Unresumed(p.committed) else p, 0)
    case PollIt =>
      if p.Unresumed? then Awaited(true, Init)
      else if p.Suspended? then Awaited(p.committed, p.future)
      else Effect(p, 0)
  }

  /** A buffer as `checkout_read` makes it. */
  const CHECKED_OUT := Loose(false)

  /** The pieces a buffer goes through. */
  predicate Sound(p: Piece) {
    match p
    case Loose(committed) => !committed
    case Unresumed(committed) => !committed
    case Suspended(committed, future) => committed && future.Pending?
    case Gone => true
  }

  /** A step keeps to those pieces; it releases at most once, and only when it is the buffer's
      last. A last step that does not release is the drop of a suspended commit. */
  lemma SoundStep(p: Piece, deed: Deed)
    requires Sound(p)
    ensures var e := After(p, deed);
      && Sound(e.piece) && e.releases <= 1 && (e.releases == 1 ==> e.piece.Gone?)
      && (e.piece.Gone? && !p.Gone? ==> (e.releases == 0 <==> p.Suspended? && deed.DropIt?))
  {
  }

  // ---- Paths ---------------------------------------------------------------

  /** All calls of `release_read_buf` along a path. */
  function Releases(p: Piece, path: seq<Deed>): nat
    decreases path
  {
    if path == [] then 0 else After(p, path[0]).releases + Releases(After(p, path[0]).piece, path[1..])
  }

  /** The path up to its first drop. */
  function BeforeDrop(path: seq<Deed>): seq<Deed> {
    if path == [] || path[0].DropIt? then [] else [path[0]] + BeforeDrop(path[1..])
  }

  /** The path after the first call of `commit`. */
  function AfterCall(path: seq<Deed>): seq<Deed> {
    if path == [] then [] else if path[0].CallIt? then path[1..] else AfterCall(path[1..])
  }

  function Polls(path: seq<Deed>): nat {
    if path == [] then 0 else (if path[0].PollIt? then 1 else 0) + Polls(path[1..])
  }

  /** How often the commit call is polled before it is dropped. */
  function CommitPolls(path: seq<Deed>): nat { Polls(AfterCall(BeforeDrop(path))) }

  lemma {:induction false} GoneReleases(path: seq<Deed>)
    ensures Releases(Gone, path) == 0
  {
    if path != [] {
      GoneReleases(path[1..]);
    }
  }

  lemma {:induction false} SuspendedReleases(path: seq<Deed>)
    ensures Releases(Suspended(true, Pending), path) == if Polls(BeforeDrop(path)) >= 1 then 1 else 0
  {
    if path != [] {
      GoneReleases(path[1..]);
      SuspendedReleases(path[1..]);
      assert !path[0].DropIt? ==> BeforeDrop(path)[1..] == BeforeDrop(path[1..]);
    }
  }

  lemma {:induction false} UnresumedReleases(path: seq<Deed>)
    ensures Releases(Unresumed(false), path) ==
      var n := Polls(BeforeDrop(path)); if n >= 2 || (n == 0 && DropIt in path) then 1 else 0
  {
    if path != [] {
      GoneReleases(path[1..]);
      SuspendedReleases(path[1..]);
      UnresumedReleases(path[1..]);
      assert !path[0].DropIt? ==> BeforeDrop(path)[1..] == BeforeDrop(path[1..]);
    }
  }

  /** At most one release on every path, however long it goes on; exactly one if and only if the
      `CommitFuture` becomes ready (its second poll) or the buffer is dropped with no commit
      polled. A path that drops a commit polled once releases nothing. */
  lemma {:induction false} AtMostOneRelease(path: seq<Deed>)
    ensures Releases(CHECKED_OUT, path) <= 1
    ensures Releases(CHECKED_OUT, path) == 1 <==>
      CommitPolls(path) >= 2 || (CommitPolls(path) == 0 && DropIt in path)
  {
    if path != [] {
      GoneReleases(path[1..]);
      UnresumedReleases(path[1..]);
      AtMostOneRelease(path[1..]);
      assert !path[0].DropIt? ==> BeforeDrop(path)[1..] == BeforeDrop(path[1..]);
    }
  }

  // ---- The objects ---------------------------------------------------------

  /** The ring after `n` releases of `bid`, by a holder of it. */
  ghost predicate GaveBack(ring0: Ring, held0: set<u32>, ring: Ring, held: set<u32>, bid: u32, n: nat) {
    match n
    case 0 => ring == ring0 && held == held0
    case _ => n == 1 && ring == ring0.(window := ring0.window + [bid]) && held == held0 - {bid}
  }

  class RwBuffer {
    const ptr: nat
    const bufIdx: u32
    const fdIdx: u32
    const bytes: u32
    var committed: bool

    /** `checkout_read`: a buffer over the 4096 bytes of slot `bufIdx` of the pool at `base`. */
    constructor (base: nat, bufIdx: u32, fdIdx: u32, bytes: u32)
      ensures this.bufIdx == bufIdx && this.fdIdx == fdIdx && this.bytes == bytes
      ensures ptr == base + 4096 * (bufIdx as int) && Loose(committed) == CHECKED_OUT
    {
      this.ptr := base + (bufIdx as int) * BUF_SIZE;
      this.bufIdx, this.fdIdx, this.bytes := bufIdx, fdIdx, bytes;
      committed := false;
    }

    method Drop(pool: BufferRing)
      requires pool.Valid() && (!committed ==> bufIdx in pool.held)
      modifies pool`ring, pool`held, pool.bytes
      ensures pool.Valid()
      ensures GaveBack(old(pool.ring), old(pool.held), pool.ring, pool.held, bufIdx, After(Loose(committed), DropIt).releases)
    {
      if committed {
        return;
      }
      pool.ReleaseBuffer(bufIdx);
    }
  }

  /** The call `buffer.commit(len)`, which owns the buffer. `future` is set while it is suspended. */
  class CommitCall {
    const buffer: RwBuffer
    var resumed: bool
    var future: Option<CommitFuture>

    /** What the object stands for. */
    ghost function Piece(): Piece
      reads this, buffer
    {
      if !resumed then Unresumed(buffer.committed)
      else if future.Some? then Suspended(buffer.committed, future.value)
      else Gone
    }

    constructor (buffer: RwBuffer)
      requires !buffer.committed
      ensures this.buffer == buffer && Piece() == After(Loose(buffer.committed), CallIt).piece
    {
      this.buffer := buffer;
      resumed, future := false, None;
    }

    /** One poll. The first submits the write; the next, on its completion, returns the slot and
        ends, upon which the buffer is dropped: it is then committed, so not returned again. */
    method Poll(pool: BufferRing, result: int) returns (ready: Option<int>)
      requires Sound(Piece()) && !Piece().Gone? && pool.Valid() && buffer.bufIdx in pool.held
      modifies this, buffer, pool`ring, pool`held, pool.bytes
      ensures pool.Valid() && Piece() == After(old(Piece()), PollIt).piece
      ensures GaveBack(old(pool.ring), old(pool.held), pool.ring, pool.held, buffer.bufIdx, After(old(Piece()), PollIt).releases)
      ensures ready == if Piece().Gone? then Some(result) else None
    {
      if !resumed {
        buffer.committed := true;
        resumed, future := true, Some(Init);
      }
      if future == Some(Init) {
        // submit_commit_write
        future := Some(Pending);
        return None;
      }
      pool.ReleaseBuffer(buffer.bufIdx);
      future := None;
      buffer.Drop(pool);
      ready := Some(result);
    }

    /** Dropping the call before it completes drops the buffer inside it. */
    method Abandon(pool: BufferRing)
      requires Sound(Piece()) && !Piece().Gone? && pool.Valid() && buffer.bufIdx in pool.held
      modifies pool`ring, pool`held, pool.bytes
      ensures pool.Valid()
      ensures GaveBack(old(pool.ring), old(pool.held), pool.ring, pool.held, buffer.bufIdx, After(Piece(), DropIt).releases)
    {
      buffer.Drop(pool);
    }
  }

  // ---- ReadFuture ----------------------------------------------------------

  /** IORING_CQE_F_BUFFER is bit 0 of the flags; the id is in the upper 16 bits. */
  function BufferSelect(flags: nat): Option<u32> {
    if flags % 2 == 1 then Some((flags / 0x1_0000) % 0x1_0000) else None
  }

  datatype ReadOutcome = StillPending | ReadError(result: int) | Buffer(buffer: RwBuffer) | NoBufferPanic

  class ReadFuture {
    const fd: u32
    var pending: bool

    constructor (fd: u32)
      ensures this.fd == fd && !pending
    {
      this.fd := fd;
      pending := false;
    }

    /** The first poll submits. The second turns the completion that polled the task, whichever it
        is, into a buffer, or gives the selected slot straight back when the read failed or hit
        end of file. */
    method Poll(pool: BufferRing, result: int, flags: nat) returns (out: ReadOutcome)
      requires pool.Valid() && result < 0x8000_0000
      requires pending && BufferSelect(flags).Some? ==> BufferSelect(flags).value in pool.held
      modifies this, pool`ring, pool`held, pool.bytes
      ensures pool.Valid() && pending
      ensures !old(pending) <==> out.StillPending?
      ensures out.Buffer? <==> old(pending) && result > 0 && BufferSelect(flags).Some?
      ensures out.Buffer? ==>
        && fresh(out.buffer) && out.buffer.bufIdx == BufferSelect(flags).value
        && out.buffer.fdIdx == fd && out.buffer.bytes == result
        && out.buffer.ptr == pool.ring.EntryFor(out.buffer.bufIdx).addr && Loose(out.buffer.committed) == CHECKED_OUT
      ensures out.NoBufferPanic? <==> old(pending) && result > 0 && BufferSelect(flags).None?
      ensures out.ReadError? ==> out.result == result
      ensures var given := out.ReadError? && BufferSelect(flags).Some?;
        GaveBack(old(pool.ring), old(pool.held), pool.ring, pool.held,
                 if given then BufferSelect(flags).value else 0, if given then 1 else 0)
    {
      if !pending {
        // submit_read
        pending := true;
        return StillPending;
      }
      var selected := BufferSelect(flags);
      if result <= 0 {
        if selected.Some? {
          pool.ReleaseBuffer(selected.value);
        }
        return ReadError(result);
      }
      if selected.None? {
        return NoBufferPanic;
      }
      BufferMemory(pool.ring, selected.value, selected.value);
      var buffer := new RwBuffer(pool.base, selected.value, fd, result);
      out := Buffer(buffer);
    }
  }
}
