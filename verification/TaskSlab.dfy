/**
 The task slab: an array of 8-byte slots, each a task pointer or a link of the
 free list that runs through the unused slots. `View` is the abstract slab, a
 map of tasks beside a stack of free indices; `Encodes` says which array of
 words represents a view, and class `Slab` is the array algorithm.
 */
module TaskSlab {
  import opened Words
  import opened Indices

  /** A task's identity: the order of its allocation, so never reused. */
  type TaskId = nat

  /** First index that no longer fits the 31 bits of a free-list link. */
  const LINK_LIMIT: nat := 0x8000_0000

  // ---- Slot words ----------------------------------------------------------

  /** The pointer to task `t`: 32-byte aligned and not null. */
  function Addr(t: TaskId): nat { 32 * (t + 1) }

  predicate IsFree(word: nat) { word % 2 == 1 }

  /** `(next << 1) | 1` on 32 bits: the shift drops the top bit of `next`. */
  function FreeSlot(next: u32): nat { 2 * (next % LINK_LIMIT) + 1 }

  function NextFree(word: nat): u32 { (word / 2) % LINK_LIMIT }

  /** A link never looks like a pointer, and it decodes to what was stored exactly below 2^31. */
  lemma LinkSurvives(next: u32, t: TaskId)
    ensures IsFree(FreeSlot(next)) && !IsFree(Addr(t))
    ensures NextFree(FreeSlot(next)) == next % LINK_LIMIT
    ensures NextFree(FreeSlot(next)) == next <==> next < LINK_LIMIT
    ensures FreeSlot(next) == (next * 2) % 0x1_0000_0000 + 1
  {
  }

  // ---- Abstract slab -------------------------------------------------------

  datatype View = View(len: u32, tasks: map<u32, TaskId>, free: seq<u32>)

  ghost predicate WellFormed(v: View) {
    && 0 < v.len < LINK_LIMIT
    && (forall i :: i in v.tasks ==> i < v.len)
    && Distinct(v.free)
    && (forall k :: 0 <= k < |v.free| ==> v.free[k] < v.len && v.free[k] !in v.tasks)
    && (forall i :: 0 <= i < v.len ==> i in v.tasks || i in v.free)
  }

  function Empty(capacity: u32): View { View(capacity, map[], Interval(0, capacity)) }

  /** Inserting needs a free slot, or room to double the slab within the link encoding. */
  predicate CanInsert(v: View) { v.free != [] || 0 < 2 * v.len < LINK_LIMIT }

  function Grow(v: View): View
    requires 2 * v.len < LINK_LIMIT
  {
    View(2 * v.len, v.tasks, Interval(v.len, 2 * v.len))
  }

  function Room(v: View): View
    requires CanInsert(v)
  {
    if v.free == [] then Grow(v) else v
  }

  /** The index the next insertion returns: the top of the free stack. */
  function NextIndex(v: View): u32
    requires CanInsert(v)
  {
    Room(v).free[0]
  }

  function Inserted(v: View, t: TaskId): View
    requires CanInsert(v)
  {
    var r := Room(v);
    r.(tasks := r.tasks[r.free[0] := t], free := r.free[1..])
  }

  function Removed(v: View, i: u32): View
    requires i in v.tasks
  {
    v.(tasks := v.tasks - {i}, free := [i] + v.free)
  }

  lemma GrowKeeps(v: View)
    requires WellFormed(v) && v.free == [] && CanInsert(v)
    ensures WellFormed(Grow(v))
  {
    var g := Grow(v);
    forall i | 0 <= i < g.len
      ensures i in g.tasks || i in g.free
    {
      if v.len <= i {
        assert g.free[i - v.len] == i;
      }
    }
  }

  /** Insertion hands out an index nobody holds and keeps every other task in place. */
  lemma InsertKeeps(v: View, t: TaskId)
    requires WellFormed(v) && CanInsert(v)
    ensures WellFormed(Inserted(v, t))
    ensures NextIndex(v) !in v.tasks && NextIndex(v) < Inserted(v, t).len
    ensures Inserted(v, t).tasks == v.tasks[NextIndex(v) := t]
  {
    if v.free == [] {
      GrowKeeps(v);
    }
    PopKeeps(Room(v), t);
  }

  /** Moving the top of the free stack to the tasks. */
  lemma PopKeeps(v: View, t: TaskId)
    requires WellFormed(v) && v.free != []
    ensures WellFormed(v.(tasks := v.tasks[v.free[0] := t], free := v.free[1..]))
  {
    assert v.free == [v.free[0]] + v.free[1..];
  }

  lemma RemoveKeeps(v: View, i: u32)
    requires WellFormed(v) && i in v.tasks
    ensures WellFormed(Removed(v, i))
  {
    var r := Removed(v, i);
    assert i !in v.free;
    forall j | 0 <= j < r.len
      ensures j in r.tasks || j in r.free
    {
      if j in v.free {
        var k :| 0 <= k < |v.free| && v.free[k] == j;
        assert r.free[k + 1] == j;
      }
    }
  }

  /** A removed index is the next one handed out, and putting the task back restores the slab. */
  lemma RemoveThenInsert(v: View, i: u32, t: TaskId)
    requires WellFormed(v) && i in v.tasks
    ensures NextIndex(Removed(v, i)) == i
    ensures Inserted(Removed(v, i), t) == v.(tasks := v.tasks[i := t])
  {
    assert ([i] + v.free)[1..] == v.free;
    assert (v.tasks - {i})[i := t] == v.tasks[i := t];
  }

  /** Tasks and free indices partition the slots. */
  lemma TasksPlusFree(v: View)
    requires WellFormed(v)
    ensures |v.tasks| + |v.free| == v.len
  {
    DistinctCount(v.free);
    DistinctCount(Interval(0, v.len));
    SlotsCovered(v);
    assert |v.tasks.Keys + Elements(v.free)| == |v.tasks.Keys| + |Elements(v.free)|;
  }

  lemma SlotsCovered(v: View)
    requires WellFormed(v)
    ensures v.tasks.Keys + Elements(v.free) == Elements(Interval(0, v.len))
    ensures v.tasks.Keys !! Elements(v.free)
  {
    forall i: u32
      ensures i in Elements(Interval(0, v.len)) <==> i < v.len
    {
      InInterval(0, v.len, i);
    }
  }

  // ---- Representation ------------------------------------------------------

  /** The k-th link of the free chain: the k-th free index, or `len` at its end. */
  function Link(v: View, k: nat): u32
    requires k <= |v.free|
  {
    if k < |v.free| then v.free[k] else v.len
  }

  ghost predicate LinkedAt(words: seq<nat>, v: View, k: nat)
    requires k < |v.free|
  {
    v.free[k] < |words| && words[v.free[k]] == FreeSlot(Link(v, k + 1))
  }

  /** Each free slot holds the link to the next one. */
  ghost predicate Chained(words: seq<nat>, v: View) {
    forall k :: 0 <= k < |v.free| ==> LinkedAt(words, v, k)
  }

  ghost predicate Encodes(words: seq<nat>, head: nat, v: View) {
    && WellFormed(v)
    && |words| == v.len
    && head == Link(v, 0)
    && Chained(words, v)
    && (forall i :: i in v.tasks ==> words[i] == Addr(v.tasks[i]))
  }

  /** The slot reached from `from` after following `k` links. */
  ghost function Walk(words: seq<nat>, from: nat, k: nat): nat
    decreases k
  {
    if k == 0 || from >= |words| then from
    else Walk(words, NextFree(words[from]), k - 1)
  }

  lemma {:induction false} WalkFrom(words: seq<nat>, v: View, start: nat, k: nat)
    requires Chained(words, v) && |words| == v.len < LINK_LIMIT
    requires start + k <= |v.free|
    ensures Walk(words, Link(v, start), k) == Link(v, start + k)
    decreases k
  {
    if k > 0 {
      var here, next := v.free[start], Link(v, start + 1);
      assert LinkedAt(words, v, start);
      assert start + 1 < |v.free| ==> LinkedAt(words, v, start + 1);
      assert NextFree(FreeSlot(next)) == next by { LinkSurvives(next, 0); }
      WalkFrom(words, v, start + 1, k - 1);
    }
  }

  /** Following links from `head` visits the free slots once each, then `len`; a slot is
      tagged free exactly when the walk visits it. */
  lemma ChainVisitsFreeSlots(words: seq<nat>, head: nat, v: View)
    requires Encodes(words, head, v)
    ensures forall k :: 0 <= k < |v.free| ==> Walk(words, head, k) == v.free[k]
    ensures Walk(words, head, |v.free|) == |words|
    ensures forall i :: 0 <= i < |words| ==> (IsFree(words[i]) <==> i in v.free)
  {
    forall k | 0 <= k <= |v.free|
      ensures Walk(words, head, k) == Link(v, k)
    {
      WalkFrom(words, v, 0, k);
    }
    forall i | 0 <= i < |words|
      ensures IsFree(words[i]) <==> i in v.free
    {
      if i in v.free {
        var k :| 0 <= k < |v.free| && v.free[k] == i;
        assert LinkedAt(words, v, k);
        LinkSurvives(Link(v, k + 1), 0);
      } else {
        LinkSurvives(0, v.tasks[i]);
      }
    }
  }

  /** The words determine the view: two views of the same words and head are the same slab. */
  lemma WordsDetermineView(words: seq<nat>, head: nat, v: View, w: View)
    requires Encodes(words, head, v) && Encodes(words, head, w)
    ensures v == w
  {
    ChainVisitsFreeSlots(words, head, v);
    ChainVisitsFreeSlots(words, head, w);
    assert |v.free| == |w.free|;
    assert v.free == w.free;
    forall i | i in v.tasks
      ensures i in w.tasks && v.tasks[i] == w.tasks[i]
    {
      assert 0 <= i < v.len;
    }
    forall i | i in w.tasks
      ensures i in v.tasks
    {
      assert 0 <= i < w.len;
    }
    assert v.tasks == w.tasks;
  }

  lemma EncodesEmpty(words: seq<nat>)
    requires 0 < |words| < LINK_LIMIT && forall i :: 0 <= i < |words| ==> words[i] == FreeSlot(i + 1)
    ensures Encodes(words, 0, Empty(|words|))
  {
    var v := Empty(|words|);
    forall i | 0 <= i < v.len
      ensures i in v.free
    {
      assert v.free[i] == i;
    }
  }

  /** Chaining a second half onto a full slab grows the view. */
  lemma EncodesGrow(words: seq<nat>, v: View, more: seq<nat>)
    requires Encodes(words, v.len, v) && 2 * v.len < LINK_LIMIT
    requires |more| == v.len && forall k :: 0 <= k < v.len ==> more[k] == FreeSlot(v.len + k + 1)
    ensures Encodes(words + more, v.len, Grow(v))
  {
    assert v.free == [];
    GrowKeeps(v);
    var g := Grow(v);
    forall k | 0 <= k < |g.free|
      ensures LinkedAt(words + more, g, k)
    {
      assert (words + more)[g.free[k]] == more[k];
    }
  }

  /** Overwriting the head slot with a pointer pops the free stack. */
  lemma EncodesInsert(words: seq<nat>, head: nat, v: View, t: TaskId)
    requires Encodes(words, head, v) && v.free != []
    ensures head < |words|
    ensures Encodes(words[head := Addr(t)], NextFree(words[head]), Inserted(v, t))
  {
    InsertKeeps(v, t);
    assert LinkedAt(words, v, 0);
    assert NextFree(words[head]) == Link(v, 1) by { LinkSurvives(Link(v, 1), t); }
    var w, words' := Inserted(v, t), words[head := Addr(t)];
    forall k | 0 <= k < |w.free|
      ensures LinkedAt(words', w, k)
    {
      assert LinkedAt(words, v, k + 1);
      assert w.free[k] == v.free[k + 1];
      assert Link(w, k + 1) == Link(v, k + 2);
    }
  }

  /** Overwriting a task slot with a link to the old head pushes it on the free stack. */
  lemma EncodesRemove(words: seq<nat>, head: u32, v: View, i: u32)
    requires Encodes(words, head, v) && i in v.tasks
    ensures Encodes(words[i := FreeSlot(head)], i, Removed(v, i))
  {
    RemoveKeeps(v, i);
    var w, words' := Removed(v, i), words[i := FreeSlot(head)];
    forall k | 0 <= k < |w.free|
      ensures LinkedAt(words', w, k)
    {
      if k > 0 {
        assert LinkedAt(words, v, k - 1);
        assert w.free[k] == v.free[k - 1] && w.free[k] != i;
      }
      assert Link(w, k + 1) == Link(v, k);
    }
  }

  // ---- The slab itself -----------------------------------------------------

  class Slab {
    var slots: array<nat>
    var head: u32
    var len: u32
    var taskCount: u32
    ghost var view: View

    ghost predicate Valid()
      reads this, slots
    {
      && Encodes(slots[..], head, view)
      && len == view.len
      && taskCount == |view.tasks|
    }

    constructor (capacity: u32)
      requires 0 < capacity < LINK_LIMIT
      ensures Valid() && fresh(slots)
      ensures view == Empty(capacity)
    {
      slots := new nat[capacity];
      head, len, taskCount := 0, capacity, 0;
      view := Empty(capacity);
      new;
      ChainSlots(0, capacity);
      EncodesEmpty(slots[..]);
    }

    /** Links slots `lo..hi-1` in order; the last one points at `hi`. */
    method ChainSlots(lo: u32, hi: u32)
      requires lo < hi == slots.Length
      modifies slots
      ensures slots[..lo] == old(slots[..lo])
      ensures forall i :: lo <= i < hi ==> slots[i] == FreeSlot(i + 1)
    {
      for i := lo to hi - 1
        invariant slots[..lo] == old(slots[..lo])
        invariant forall j :: lo <= j < i ==> slots[j] == FreeSlot(j + 1)
      {
        slots[i] := FreeSlot(i + 1);
      }
      slots[hi - 1] := FreeSlot(hi);
    }

    /**
     Doubles a full slab (saturating at u32::MAX). Every old slot is kept and the new
     slots are chained in order; the abstract slab grows with it exactly while the
     final link, the new length, still fits its 31 bits.
     */
    method Growth() returns (ok: bool)
      requires head == len == slots.Length && 0 < len
      modifies this
      ensures ok <==> old(len) < 0xFFFF_FFFF
      ensures !ok ==> unchanged(this)
      ensures ok ==> fresh(slots) && head == old(len) && taskCount == old(taskCount)
      ensures ok ==> len == slots.Length == if 2 * old(len) < 0x1_0000_0000 then 2 * old(len) else 0xFFFF_FFFF
      ensures ok ==> slots[..old(len)] == old(slots[..])
      ensures ok ==> forall i :: old(len) <= i < len ==> slots[i] == FreeSlot(i + 1)
      ensures ok ==> (NextFree(slots[len - 1]) == len <==> 2 * old(len) < LINK_LIMIT)
      ensures ok && old(Valid()) && 2 * old(len) < LINK_LIMIT ==> Valid() && view == Grow(old(view))
    {
      if len == 0xFFFF_FFFF {
        return false;
      }
      ok := true;
      var newLen: u32 := if 2 * len < 0x1_0000_0000 then 2 * len else 0xFFFF_FFFF;
      var grown := new nat[newLen];
      for i := 0 to len
        modifies grown
        invariant forall j :: 0 <= j < i ==> grown[j] == slots[j]
      {
        grown[i] := slots[i];
      }
      ghost var before := slots[..];
      var oldLen := len;
      slots, len := grown, newLen;
      assert slots[..oldLen] == before;
      ChainSlots(oldLen, newLen);
      LinkSurvives(newLen, 0);
      if old(Valid()) && 2 * oldLen < LINK_LIMIT {
        EncodesGrow(before, view, slots[oldLen..]);
        view := Grow(view);
        assert slots[..] == before + slots[oldLen..];
      }
    }

    /** Stores a task and returns its index. The abstract slab is followed as long as a growth,
        if one is needed, stays below 2^31 slots. */
    method Insert(t: TaskId) returns (idx: u32)
      requires Valid()
      modifies this, slots
      ensures slots == old(slots) || fresh(slots)
      ensures CanInsert(old(view)) ==> Valid()
      ensures CanInsert(old(view)) ==> view == Inserted(old(view), t) && idx == NextIndex(old(view))
    {
      FullExactly();
      if CanInsert(view) {
        InsertKeeps(view, t);
      }
      if head == len {
        var grew := Growth();
      }
      ghost var before := slots[..];
      idx := head;
      TasksPlusFree(old(view));
      if CanInsert(old(view)) {
        EncodesInsert(before, head, view, t);
        view := Inserted(view, t);
      }
      head := NextFree(slots[idx]);
      slots[idx] := Addr(t);
      taskCount := taskCount + 1;
      assert slots[..] == before[idx := Addr(t)];
    }

    /** `head == len` is the test for a slab without a free slot. */
    lemma FullExactly()
      requires Valid()
      ensures view.free == [] <==> head == len
    {
      assert Link(view, 0) == head;
    }

    /** Whether the next insertion stays within the link encoding. */
    method HasRoom() returns (b: bool)
      requires Valid()
      ensures b <==> CanInsert(view)
    {
      FullExactly();
      b := head < len || 2 * len < LINK_LIMIT;
      assert head <= len by { assert Link(view, 0) == head; }
    }

    /** `remove_dropped_task`: recycles the slot of a task that is already gone.
        Fails on an index out of bounds or a free slot. */
    method RemoveDroppedTask(idx: u32) returns (ok: bool)
      requires Valid()
      modifies this, slots
      ensures Valid() && slots == old(slots)
      ensures ok <==> idx in old(view).tasks
      ensures ok ==> view == Removed(old(view), idx)
      ensures !ok ==> view == old(view)
    {
      ok := Holds(idx);
      if ok {
        EncodesRemove(slots[..], head, view, idx);
        slots[idx] := FreeSlot(head);
        assert slots[..] == old(slots[..])[idx := FreeSlot(head)];
        head := idx;
        taskCount := taskCount - 1;
        view := Removed(view, idx);
      }
    }

    /** The checks of the index operator: in bounds and not a free slot. */
    method Holds(idx: u32) returns (b: bool)
      requires Valid()
      ensures b <==> idx in view.tasks
    {
      ChainVisitsFreeSlots(slots[..], head, view);
      b := idx < len && !IsFree(slots[idx]);
      if idx < len {
        assert slots[..][idx] == slots[idx];
      }
    }

    /** The index operator: the task a slot points to. */
    method Get(idx: u32) returns (t: TaskId)
      requires Valid() && idx in view.tasks
      ensures t == view.tasks[idx]
    {
      t := slots[idx] / 32 - 1;
    }
  }
}
