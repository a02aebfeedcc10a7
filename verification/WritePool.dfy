/**
 The write pool: `write_count` slots above the read slots, a queue of free slots, and one
 reference count per slot shared by the `WBuffer` handles on it.
 */
module WritePool {
  import opened Words
  import opened Indices

  /** `handles` records the live `WBuffer`s; no operation reads it. */
  datatype Pool = Pool(readCount: u32, rc: seq<u32>, free: seq<u32>, handles: multiset<u32>) {
    predicate InRange(i: u32) { readCount <= i < readCount + |rc| }
    function Rc(i: u32): u32 { if InRange(i) then rc[i - readCount] else 0 }
  }

  /** Slot `i` is free exactly when it is queued, and its count is its number of live handles. */
  ghost predicate SlotOk(p: Pool, i: u32) {
    && (i in p.free <==> p.InRange(i) && p.Rc(i) == 0)
    && p.handles[i] == p.Rc(i)
  }

  ghost predicate Inv(p: Pool) {
    && p.readCount + |p.rc| <= 0x1_0000_0000
    && Distinct(p.free)
    && forall i :: SlotOk(p, i)
  }

  // ---- Operations ----------------------------------------------------------

  function NewPool(readCount: u32, writeCount: u32): Pool
    requires readCount + writeCount < 0x1_0000_0000
  {
    Pool(readCount, seq(writeCount, _ => 0), Interval(readCount, readCount + writeCount), multiset{})
  }

  /** Takes the oldest free slot; `None` when the pool is exhausted. */
  function Alloc(p: Pool): Option<(Pool, u32)> {
    if p.free == [] || !p.InRange(p.free[0]) then None
    else
      var i := p.free[0];
      Some((p.(rc := p.rc[i - p.readCount := 1], free := p.free[1..], handles := p.handles + multiset{i}), i))
  }

  /** Another handle on slot `i`; `None` when its 32-bit count is full. */
  function Cloned(p: Pool, i: u32): Option<Pool>
    requires p.InRange(i)
  {
    var n := p.rc[i - p.readCount];
    if n == 0xFFFF_FFFF then None
    else Some(p.(rc := p.rc[i - p.readCount := n + 1], handles := p.handles + multiset{i}))
  }

  /** A handle on slot `i` is dropped; the last one queues the slot. */
  function Dropped(p: Pool, i: u32): Pool
    requires p.InRange(i) && 0 < p.Rc(i)
  {
    var n := p.rc[i - p.readCount] - 1;
    p.(rc := p.rc[i - p.readCount := n],
       free := if n == 0 then p.free + [i] else p.free,
       handles := p.handles - multiset{i})
  }

  lemma NewPoolInv(readCount: u32, writeCount: u32)
    requires readCount + writeCount < 0x1_0000_0000
    ensures Inv(NewPool(readCount, writeCount))
  {
    var p := NewPool(readCount, writeCount);
    forall i ensures SlotOk(p, i) { InInterval(readCount, readCount + writeCount, i); }
  }

  /** An allocated slot had no live handle; allocation fails exactly when no slot is free. */
  lemma AllocKeeps(p: Pool)
    requires Inv(p)
    ensures Alloc(p).None? <==> p.free == []
    ensures Alloc(p).Some? ==>
      var (q, i) := Alloc(p).value;
      && Inv(q) && p.InRange(i) && i !in p.handles && q.handles[i] == 1
      && p.free == [i] + q.free && q.handles == p.handles + multiset{i}
  {
    if p.free != [] {
      assert SlotOk(p, p.free[0]);
      var (q, i) := Alloc(p).value;
      forall j ensures SlotOk(q, j) {
        assert SlotOk(p, j);
        assert p.free == [i] + q.free;
      }
    }
  }

  lemma CloneKeeps(p: Pool, i: u32)
    requires Inv(p) && i in p.handles
    ensures p.InRange(i)
    ensures Cloned(p, i).Some? ==> Inv(Cloned(p, i).value)
  {
    assert SlotOk(p, i);
    if Cloned(p, i).Some? {
      var q := Cloned(p, i).value;
      forall j ensures SlotOk(q, j) { assert SlotOk(p, j); }
    }
  }

  lemma DropKeeps(p: Pool, i: u32)
    requires Inv(p) && i in p.handles
    ensures p.InRange(i) && 0 < p.Rc(i) && Inv(Dropped(p, i))
    ensures i in Dropped(p, i).free <==> p.handles[i] == 1
    ensures Dropped(p, i).free == (if p.handles[i] == 1 then p.free + [i] else p.free)
    ensures Dropped(p, i).handles == p.handles - multiset{i}
  {
    assert SlotOk(p, i);
    var q := Dropped(p, i);
    forall j ensures SlotOk(q, j) { assert SlotOk(p, j); }
  }

  /** Dropping a clone undoes it. */
  lemma CloneThenDrop(p: Pool, i: u32)
    requires Inv(p) && i in p.handles && p.InRange(i) && Cloned(p, i).Some?
    ensures 0 < Cloned(p, i).value.Rc(i) && Dropped(Cloned(p, i).value, i) == p
  {
    assert SlotOk(p, i);
    var q := Cloned(p, i).value;
    assert Dropped(q, i).rc == p.rc;
    assert Dropped(q, i).handles == p.handles;
  }

  // ---- Runs ----------------------------------------------------------------

  datatype Event = AllocOne | CloneOf(slot: u32) | DropOf(slot: u32)

  /** One step by holders of handles; acting on a handle nobody has does nothing. */
  function Step(p: Pool, e: Event): Pool {
    match e
    case AllocOne => if Alloc(p).Some? then Alloc(p).value.0 else p
    case CloneOf(i) => if i in p.handles && p.InRange(i) && Cloned(p, i).Some? then Cloned(p, i).value else p
    case DropOf(i) => if i in p.handles && p.InRange(i) && 0 < p.Rc(i) then Dropped(p, i) else p
  }

  function Run(p: Pool, events: seq<Event>): Pool
    decreases events
  {
    if events == [] then p else Run(Step(p, events[0]), events[1..])
  }

  lemma {:induction false} RunKeeps(p: Pool, events: seq<Event>)
    requires Inv(p)
    ensures Inv(Run(p, events)) && |Run(p, events).rc| == |p.rc|
    decreases events
  {
    if events != [] {
      match events[0] {
        case AllocOne => AllocKeeps(p);
        case CloneOf(i) => if i in p.handles { CloneKeeps(p, i); }
        case DropOf(i) => if i in p.handles { DropKeeps(p, i); }
      }
      RunKeeps(Step(p, events[0]), events[1..]);
    }
  }

  /** The slots with a live handle. */
  ghost function Used(p: Pool): set<u32> { set i | i in p.handles }

  /** Over any sequence of allocations, clones and drops: the free queue has no duplicates and is
      the slots of count zero, each count is its live handles, and free and used slots together
      are all of them. */
  lemma PoolRun(readCount: u32, writeCount: u32, events: seq<Event>)
    requires readCount + writeCount < 0x1_0000_0000
    ensures var p := Run(NewPool(readCount, writeCount), events);
      && Distinct(p.free)
      && (forall i :: i in p.free <==> p.InRange(i) && p.Rc(i) == 0)
      && (forall i :: p.handles[i] == p.Rc(i))
      && |p.free| + |Used(p)| == writeCount
  {
    NewPoolInv(readCount, writeCount);
    RunKeeps(NewPool(readCount, writeCount), events);
    RunReadCount(NewPool(readCount, writeCount), events);
    var p := Run(NewPool(readCount, writeCount), events);
    forall i
      ensures i in p.free <==> p.InRange(i) && p.Rc(i) == 0
      ensures p.handles[i] == p.Rc(i)
    {
      assert SlotOk(p, i);
    }
    FreePlusUsed(p);
  }

  lemma {:induction false} RunReadCount(p: Pool, events: seq<Event>)
    ensures Run(p, events).readCount == p.readCount
    decreases events
  {
    if events != [] {
      RunReadCount(Step(p, events[0]), events[1..]);
    }
  }

  lemma FreePlusUsed(p: Pool)
    requires Inv(p) && p.readCount + |p.rc| < 0x1_0000_0000
    ensures |p.free| + |Used(p)| == |p.rc|
  {
    var all := Interval(p.readCount, p.readCount + |p.rc|);
    DistinctCount(p.free);
    DistinctCount(all);
    forall i
      ensures i in Elements(all) <==> i in Elements(p.free) + Used(p)
      ensures !(i in Elements(p.free) && i in Used(p))
    {
      assert SlotOk(p, i);
      InInterval(p.readCount, p.readCount + |p.rc|, i);
    }
    assert Elements(all) == Elements(p.free) + Used(p);
    assert Elements(p.free) !! Used(p);
  }

  // ---- The pool itself -----------------------------------------------------

  class BufPool {
    const readCount: u32
    const writeRc: array<u32>
    var writeFree: seq<u32>
    ghost var handles: multiset<u32>

    ghost function Abs(): Pool
      reads this, writeRc
    {
      Pool(readCount, writeRc[..], writeFree, handles)
    }

    ghost predicate Valid()
      reads this, writeRc
    {
      Inv(Abs())
    }

    constructor (readCount: u32, writeCount: u32)
      requires 0 < readCount && 0 < writeCount && readCount + writeCount < 0x1_0000_0000
      ensures Valid() && fresh(writeRc) && Abs() == NewPool(readCount, writeCount)
    {
      this.readCount := readCount;
      writeRc := new u32[writeCount](_ => 0);
      writeFree := Interval(readCount, readCount + writeCount);
      handles := multiset{};
      new;
      assert writeRc[..] == seq(writeCount, _ => 0);
      NewPoolInv(readCount, writeCount);
    }

    /** `alloc_write`; `None` is its panic on an exhausted pool. */
    method AllocWrite() returns (slot: Option<u32>)
      requires Valid()
      modifies this, writeRc
      ensures Valid()
      ensures slot.None? <==> old(Abs()).free == []
      ensures slot.None? ==> Abs() == old(Abs())
      ensures slot.Some? ==> slot.value !in old(handles) && Alloc(old(Abs())) == Some((Abs(), slot.value))
    {
      AllocKeeps(Abs());
      if writeFree == [] {
        return None;
      }
      var i := writeFree[0];
      writeFree := writeFree[1..];
      writeRc[i - readCount] := 1;
      handles := handles + multiset{i};
      slot := Some(i);
    }

    /** `WBuffer::clone`; fails when the count is full. */
    method CloneHandle(i: u32) returns (ok: bool)
      requires Valid() && i in handles
      modifies this, writeRc
      ensures Valid() && old(Abs()).InRange(i)
      ensures ok ==> Cloned(old(Abs()), i) == Some(Abs())
      ensures !ok ==> Cloned(old(Abs()), i) == None && Abs() == old(Abs())
    {
      CloneKeeps(Abs(), i);
      ok := writeRc[i - readCount] < 0xFFFF_FFFF;
      if ok {
        writeRc[i - readCount] := writeRc[i - readCount] + 1;
        handles := handles + multiset{i};
      }
    }

    /** `WBuffer::drop`. */
    method DropHandle(i: u32)
      requires Valid() && i in handles
      modifies this, writeRc
      ensures Valid() && old(Abs()).InRange(i) && 0 < old(Abs()).Rc(i)
      ensures Abs() == Dropped(old(Abs()), i)
    {
      DropKeeps(Abs(), i);
      writeRc[i - readCount] := writeRc[i - readCount] - 1;
      handles := handles - multiset{i};
      if writeRc[i - readCount] == 0 {
        writeFree := writeFree + [i];
      }
    }

    /** The buffer side of `send_multiple_write`: each fd clones the handle into an SQE, whose
        construction consumes the clone; at the end the argument itself is dropped. The slot
        stays out of the free queue throughout, and after it unless this was its last handle. */
    method SendMultipleWrite(i: u32, fds: seq<u32>) returns (ok: bool)
      requires Valid() && i in handles
      modifies this, writeRc
      ensures Valid() && old(Abs()).InRange(i) && 0 < old(Abs()).Rc(i)
      ensures ok <==> fds == [] || old(Abs()).Rc(i) < 0xFFFF_FFFF
      ensures ok ==> Abs() == Dropped(old(Abs()), i)
      ensures ok ==> (i in writeFree <==> old(handles)[i] == 1)
    {
      DropKeeps(Abs(), i);
      for k := 0 to |fds|
        invariant Valid() && Abs() == old(Abs()) && i in handles
        invariant k == 0 || Abs().Rc(i) < 0xFFFF_FFFF
      {
        ok := CloneHandle(i);
        if !ok {
          return;
        }
        CloneThenDrop(old(Abs()), i);
        assert i in handles && i !in writeFree by { assert SlotOk(Abs(), i); }
        DropHandle(i);
      }
      DropHandle(i);
      ok := true;
    }
  }
}
