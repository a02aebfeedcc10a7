/**
 The provided-buffer ring: `16 * n` bytes shared with the kernel, entry `i` holding the
 address, length and id of a read buffer, and the 16-bit tail stored inside entry 0, at
 bytes 14 and 15. User space appends entries, the kernel consumes them.
 */
module BufRing {
  import opened Words
  import opened Indices

  type byte = n: nat | n < 256

  const BUF_SIZE: nat := 4096

  // ---- Little-endian fields ------------------------------------------------

  /** The low `k` bytes of `v`, least significant first. */
  function Bytes(v: nat, k: nat): (s: seq<byte>)
    ensures |s| == k
  {
    if k == 0 then [] else [v % 256] + Bytes(v / 256, k - 1)
  }

  function Value(s: seq<byte>): nat {
    if s == [] then 0 else s[0] + 256 * Value(s[1..])
  }

  function Range(k: nat): (r: nat)
    ensures 0 < r
  {
    if k == 0 then 1 else 256 * Range(k - 1)
  }

  lemma {:induction false} BytesRoundTrip(v: nat, k: nat)
    requires v < Range(k)
    ensures Value(Bytes(v, k)) == v
    decreases k
  {
    if k > 0 {
      BytesRoundTrip(v / 256, k - 1);
      assert Bytes(v, k)[1..] == Bytes(v / 256, k - 1);
    }
  }

  lemma Ranges()
    ensures Range(2) == 0x1_0000 && Range(4) == 0x1_0000_0000 && Range(8) == 0x1_0000_0000_0000_0000
  {
    assert Range(2) == 0x1_0000;
    assert Range(4) == 0x1_0000_0000;
    assert Range(6) == 0x1_0000_0000_0000;
  }

  /** The bytes after storing the low `k` bytes of `v` at `off`. */
  function Stored(b: seq<byte>, off: nat, v: nat, k: nat): (r: seq<byte>)
    requires off + k <= |b|
    ensures |r| == |b|
  {
    b[..off] + Bytes(v, k) + b[off + k..]
  }

  /** The `k`-byte field at `off`. */
  function Field(b: seq<byte>, off: nat, k: nat): nat
    requires off + k <= |b|
  {
    Value(b[off..off + k])
  }

  /** A store is read back, and every field that does not overlap it is unchanged. */
  lemma StoreFrame(b: seq<byte>, off: nat, v: nat, k: nat)
    requires off + k <= |b| && v < Range(k)
    ensures Field(Stored(b, off, v, k), off, k) == v
    ensures forall lo: nat, w: nat :: lo + w <= |b| && (lo + w <= off || off + k <= lo) ==>
      Field(Stored(b, off, v, k), lo, w) == Field(b, lo, w)
  {
    BytesRoundTrip(v, k);
    var r := Stored(b, off, v, k);
    assert r[off..off + k] == Bytes(v, k);
    forall lo: nat, w: nat | lo + w <= |b| && (lo + w <= off || off + k <= lo)
      ensures Field(r, lo, w) == Field(b, lo, w)
    {
      assert r[lo..lo + w] == b[lo..lo + w];
    }
  }

  // ---- Entries -------------------------------------------------------------

  datatype Entry = Entry(addr: nat, len: nat, bid: nat)

  predicate Fits(e: Entry) {
    e.addr < 0x1_0000_0000_0000_0000 && e.len < 0x1_0000_0000 && e.bid < 0x1_0000
  }

  function EntryAt(b: seq<byte>, i: nat): Entry
    requires 16 * i + 16 <= |b|
  {
    Entry(Field(b, 16 * i, 8), Field(b, 16 * i + 8, 4), Field(b, 16 * i + 12, 2))
  }

  /** What the bytes of a ring of `n` entries say. */
  datatype Image = Image(entries: seq<Entry>, tail: nat)

  function ImageOf(b: seq<byte>, n: nat): (m: Image)
    requires 0 < n && |b| == 16 * n
    ensures |m.entries| == n
  {
    Image(seq(n, i requires 0 <= i < n => EntryAt(b, i)), Field(b, 14, 2))
  }

  function EntryStored(b: seq<byte>, i: nat, e: Entry): (r: seq<byte>)
    requires 16 * i + 16 <= |b|
    ensures |r| == |b|
  {
    Stored(Stored(Stored(b, 16 * i, e.addr, 8), 16 * i + 8, e.len, 4), 16 * i + 12, e.bid, 2)
  }

  function TailStored(b: seq<byte>, tail: nat): (r: seq<byte>)
    requires 16 <= |b|
    ensures |r| == |b|
  {
    Stored(b, 14, tail, 2)
  }

  /** The three stores of an entry keep every field outside its first 14 bytes. */
  lemma EntryElsewhere(b: seq<byte>, i: nat, e: Entry, lo: nat, w: nat)
    requires 16 * i + 16 <= |b| && Fits(e) && lo + w <= |b|
    requires lo + w <= 16 * i || 16 * i + 14 <= lo
    ensures Field(EntryStored(b, i, e), lo, w) == Field(b, lo, w)
  {
    Ranges();
    var b1 := Stored(b, 16 * i, e.addr, 8);
    var b2 := Stored(b1, 16 * i + 8, e.len, 4);
    StoreFrame(b, 16 * i, e.addr, 8);
    StoreFrame(b1, 16 * i + 8, e.len, 4);
    StoreFrame(b2, 16 * i + 12, e.bid, 2);
  }

  lemma EntryBack(b: seq<byte>, i: nat, e: Entry)
    requires 16 * i + 16 <= |b| && Fits(e)
    ensures EntryAt(EntryStored(b, i, e), i) == e
  {
    Ranges();
    var b1 := Stored(b, 16 * i, e.addr, 8);
    var b2 := Stored(b1, 16 * i + 8, e.len, 4);
    StoreFrame(b, 16 * i, e.addr, 8);
    StoreFrame(b1, 16 * i + 8, e.len, 4);
    StoreFrame(b2, 16 * i + 12, e.bid, 2);
    var b3 := EntryStored(b, i, e);
    assert Field(b3, 16 * i, 8) == Field(b2, 16 * i, 8) == Field(b1, 16 * i, 8);
    assert Field(b3, 16 * i + 8, 4) == Field(b2, 16 * i + 8, 4);
  }

  /** Writing an entry, entry 0 included, changes that entry alone and never the tail word. */
  lemma EntryFrame(b: seq<byte>, n: nat, i: nat, e: Entry)
    requires i < n && |b| == 16 * n && Fits(e)
    ensures var m := ImageOf(b, n); ImageOf(EntryStored(b, i, e), n) == m.(entries := m.entries[i := e])
  {
    var m, m' := ImageOf(b, n), ImageOf(EntryStored(b, i, e), n);
    forall j | 0 <= j < n
      ensures m'.entries[j] == m.entries[i := e][j]
    {
      if j == i {
        EntryBack(b, i, e);
      } else {
        EntryElsewhere(b, i, e, 16 * j, 8);
        EntryElsewhere(b, i, e, 16 * j + 8, 4);
        EntryElsewhere(b, i, e, 16 * j + 12, 2);
      }
    }
    assert m'.entries == m.entries[i := e];
    EntryElsewhere(b, i, e, 14, 2);
  }

  /** Writing the tail changes no entry, though it lies inside entry 0. */
  lemma TailFrame(b: seq<byte>, n: nat, tail: nat)
    requires 0 < n && |b| == 16 * n && tail < 0x1_0000
    ensures ImageOf(TailStored(b, tail), n) == ImageOf(b, n).(tail := tail)
  {
    Ranges();
    StoreFrame(b, 14, tail, 2);
    var m, m' := ImageOf(b, n), ImageOf(TailStored(b, tail), n);
    forall j | 0 <= j < n
      ensures m'.entries[j] == m.entries[j]
    {
      assert 16 * j + 14 <= |b|;
    }
    assert m'.entries == m.entries;
  }

  // ---- The abstract ring ---------------------------------------------------

  /** The ids between the kernel's head and the tail, `consumed` having been taken before. */
  datatype Ring = Ring(base: nat, logN: nat, consumed: nat, window: seq<u32>) {
    function Size(): (n: nat) ensures 0 < n { Pow2(logN) }
    function Produced(): nat { consumed + |window| }
    function EntryFor(bid: nat): Entry { Entry(base + bid * BUF_SIZE, BUF_SIZE, bid) }
    /** The ring's static limits: at most 2^15 entries, whose buffers lie in the address space. */
    predicate Sane() { logN <= 15 && base + Size() * BUF_SIZE < 0x1_0000_0000_0000_0000 }
  }

  /** Window and held ids are disjoint, without repetition, and together all ids. */
  ghost predicate Partitioned(r: Ring, held: set<u32>) {
    && Distinct(r.window)
    && (forall b :: b in r.window ==> b < r.Size() && b !in held)
    && (forall b :: b in held ==> b < r.Size())
    && (forall b: u32 :: b < r.Size() ==> b in r.window || b in held)
  }

  /** The entry that the k-th id of the window occupies. */
  function Position(r: Ring, k: nat): (p: nat)
    ensures p < r.Size()
  {
    (r.consumed + k) % r.Size()
  }

  ghost predicate WindowEntry(m: Image, r: Ring, k: nat)
    requires k < |r.window|
  {
    Position(r, k) < |m.entries| && m.entries[Position(r, k)] == r.EntryFor(r.window[k])
  }

  /** The image holds the ring: the tail word is the produced count modulo 2^16, and each id
      of the window is in the entry the kernel will read for it. */
  ghost predicate Holds(m: Image, r: Ring) {
    && r.Sane()
    && |m.entries| == r.Size()
    && m.tail == r.Produced() % 0x1_0000
    && forall k :: 0 <= k < |r.window| ==> WindowEntry(m, r, k)
  }

  /** The memory of buffer `bid`: 4096 bytes from the pointer that `checkout_read` computes, inside
      the ring's share of the pool, and disjoint from the memory of every other buffer. */
  lemma BufferMemory(r: Ring, bid: u32, other: u32)
    requires bid < r.Size() && other < r.Size()
    ensures var e := r.EntryFor(bid);
      && e.bid == bid && e.len == 4096 && e.addr == r.base + 4096 * (bid as int)
      && r.base <= e.addr && e.addr + e.len <= r.base + 4096 * r.Size()
    ensures var e, o := r.EntryFor(bid), r.EntryFor(other);
      bid != other ==> e.addr + e.len <= o.addr || o.addr + o.len <= e.addr
  {
    assert bid + 1 <= r.Size();
  }

  /** What the kernel finds: in memory that holds the ring, the entry of each id of the window names
      that id and its 4096 bytes, and the entries of two different ids name disjoint memory. */
  lemma EntriesApart(m: Image, r: Ring, k: nat, l: nat, e: Entry, o: Entry)
    requires Holds(m, r) && k < |r.window| && l < |r.window| && r.window[k] < r.Size() && r.window[l] < r.Size()
    requires e == m.entries[Position(r, k)] && o == m.entries[Position(r, l)]
    ensures e.bid == r.window[k] && e.len == 4096 && e.addr == r.base + 4096 * (r.window[k] as int)
    ensures r.base <= e.addr && e.addr + e.len <= r.base + 4096 * r.Size()
    ensures r.window[k] != r.window[l] ==> e.addr + e.len <= o.addr || o.addr + o.len <= e.addr
  {
    assert WindowEntry(m, r, k) && WindowEntry(m, r, l);
    BufferMemory(r, r.window[k], r.window[l]);
  }

  lemma SizeDivides(logN: nat, x: nat)
    requires logN <= 15
    ensures (x % 0x1_0000) % Pow2(logN) == x % Pow2(logN)
    ensures Pow2(logN) <= 0x8000
  {
    var n, m := Pow2(logN), Pow2(15 - logN);
    Pow2Sum(logN, 15 - logN);
    Pow2At15();
    MultipleAtLeast(n, m);
    Double(n, m);
    ModuloOfMultiple(x, 0x1_0000, n, 2 * m);
  }

  lemma Double(n: nat, m: nat)
    ensures n * (2 * m) == 2 * (n * m)
  {
  }

  // ---- Release and selection -----------------------------------------------

  /** The image after `release_buf_to_ring(bid)`. */
  function Released(m: Image, r: Ring, bid: u32): Image
    requires |m.entries| == r.Size()
  {
    Image(m.entries[m.tail % r.Size() := r.EntryFor(bid)], (m.tail + 1) % 0x1_0000)
  }

  lemma EntryForFits(r: Ring, bid: u32)
    requires r.Sane() && bid < r.Size()
    ensures Fits(r.EntryFor(bid))
  {
    SizeDivides(r.logN, 0);
    assert bid * BUF_SIZE <= r.Size() * BUF_SIZE;
  }

  /** The slot a release writes is none of the window's: the kernel has consumed it. */
  lemma TailSlotConsumed(r: Ring, tail: nat, k: nat)
    requires r.Sane() && tail == r.Produced() % 0x1_0000 && k < |r.window| < r.Size()
    ensures Position(r, k) != tail % r.Size()
  {
    SizeDivides(r.logN, r.Produced());
    ResiduesDiffer(r.consumed + k, r.Produced(), r.Size());
  }

  /** Releasing an id while the window is not full overwrites only a consumed entry and appends
      the id to the window, across any wrap of the tail. */
  lemma ReleaseHolds(m: Image, r: Ring, bid: u32)
    requires Holds(m, r) && |r.window| < r.Size()
    ensures Holds(Released(m, r, bid), r.(window := r.window + [bid]))
    ensures forall k :: 0 <= k < |r.window| ==> Position(r, k) != m.tail % r.Size()
  {
    var r', m' := r.(window := r.window + [bid]), Released(m, r, bid);
    var slot := m.tail % r.Size();
    assert slot == Position(r, |r.window|) by { SizeDivides(r.logN, r.Produced()); }
    forall k | 0 <= k < |r.window|
      ensures Position(r, k) != slot
    {
      TailSlotConsumed(r, m.tail, k);
    }
    AppendedWindow(m, r, bid, slot, m');
    TailStep(r.Produced());
  }

  lemma AppendedWindow(m: Image, r: Ring, bid: u32, slot: nat, m': Image)
    requires forall k :: 0 <= k < |r.window| ==> WindowEntry(m, r, k) && Position(r, k) != slot
    requires slot == Position(r, |r.window|) && slot < |m.entries| && m'.entries == m.entries[slot := r.EntryFor(bid)]
    ensures var r' := r.(window := r.window + [bid]); forall k :: 0 <= k < |r'.window| ==> WindowEntry(m', r', k)
  {
    var r' := r.(window := r.window + [bid]);
    forall k | 0 <= k < |r'.window|
      ensures WindowEntry(m', r', k)
    {
      assert Position(r', k) == Position(r, k);
      assert k < |r.window| ==> WindowEntry(m, r, k);
    }
  }

  lemma TailStep(produced: nat)
    ensures (produced % 0x1_0000 + 1) % 0x1_0000 == (produced + 1) % 0x1_0000
  {
  }

  /** The kernel's selection: the first id of the window leaves it, the bytes stay. */
  lemma SelectHolds(m: Image, r: Ring)
    requires Holds(m, r) && r.window != []
    ensures Holds(m, r.(consumed := r.consumed + 1, window := r.window[1..]))
    ensures m.entries[Position(r, 0)] == r.EntryFor(r.window[0])
  {
    var r' := r.(consumed := r.consumed + 1, window := r.window[1..]);
    assert WindowEntry(m, r, 0);
    forall k | 0 <= k < |r'.window|
      ensures WindowEntry(m, r', k)
    {
      assert WindowEntry(m, r, k + 1);
      assert r'.consumed + k == r.consumed + (k + 1);
    }
  }

  // ---- Ownership -----------------------------------------------------------

  /** A held id always finds room, and releasing it keeps window and holders disjoint. */
  lemma ReleaseOwned(r: Ring, held: set<u32>, bid: u32)
    requires r.Sane() && Partitioned(r, held) && bid in held
    ensures |r.window| < r.Size()
    ensures Partitioned(r.(window := r.window + [bid]), held - {bid})
  {
    SizeDivides(r.logN, 0);
    DistinctRoom(r.window, r.Size(), bid);
    var r' := r.(window := r.window + [bid]);
    forall b: u32 | b < r'.Size()
      ensures b in r'.window || b in held - {bid}
    {
      assert b in r.window || b in held;
      assert b in r.window ==> b in r'.window;
      assert r'.window[|r.window|] == bid;
    }
  }

  /** A release, from the ring's memory to the owners. */
  lemma ReleaseStep(m: Image, r: Ring, held: set<u32>, bid: u32)
    requires Holds(m, r) && Partitioned(r, held) && bid in held
    ensures Fits(r.EntryFor(bid))
    ensures var r' := r.(window := r.window + [bid]); Holds(Released(m, r, bid), r') && Partitioned(r', held - {bid})
  {
    ReleaseOwned(r, held, bid);
    ReleaseHolds(m, r, bid);
    EntryForFits(r, bid);
  }

  /** Releasing an id keeps memory, window and holders consistent if and only if it was held. */
  lemma ReleaseExactly(m: Image, r: Ring, held: set<u32>, bid: u32)
    requires Holds(m, r) && Partitioned(r, held) && bid < r.Size()
    ensures var r' := r.(window := r.window + [bid]);
      Holds(Released(m, r, bid), r') && Partitioned(r', held - {bid}) <==> bid in held
  {
    if bid in held {
      ReleaseStep(m, r, held, bid);
    } else {
      var k :| 0 <= k < |r.window| && r.window[k] == bid;
      var w := r.window + [bid];
      assert w[k] == w[|r.window|];
    }
  }

  lemma SelectOwned(r: Ring, held: set<u32>)
    requires Partitioned(r, held) && r.window != []
    ensures Partitioned(r.(consumed := r.consumed + 1, window := r.window[1..]), held + {r.window[0]})
  {
    var first, r' := r.window[0], r.(consumed := r.consumed + 1, window := r.window[1..]);
    assert first !in r'.window;
    forall b | b in r'.window
      ensures b < r'.Size() && b !in held + {first}
    {
      assert b in r.window;
    }
    forall b: u32 | b < r'.Size()
      ensures b in r'.window || b in held + {first}
    {
      if b in r.window {
        var k :| 0 <= k < |r.window| && r.window[k] == b;
        assert k > 0 ==> r'.window[k - 1] == b;
      }
    }
  }

  /** The window never holds more ids than the ring has entries. */
  lemma WindowBounded(r: Ring, held: set<u32>)
    requires r.Sane() && Partitioned(r, held)
    ensures |r.window| <= r.Size() <= 0x8000
  {
    SizeDivides(r.logN, 0);
    var all := Interval(0, r.Size());
    DistinctCount(r.window);
    DistinctCount(all);
    forall i | i in Elements(r.window) ensures i in Elements(all) { InInterval(0, r.Size(), i); }
    SubsetCount(Elements(r.window), Elements(all));
  }

  /** The kernel's emptiness test on 16-bit counters is exact. */
  lemma EmptyExactly(r: Ring, held: set<u32>)
    requires r.Sane() && Partitioned(r, held)
    ensures r.window == [] <==> r.consumed % 0x1_0000 == r.Produced() % 0x1_0000
  {
    WindowBounded(r, held);
    if r.window != [] {
      ResiduesDiffer(r.consumed, r.Produced(), 0x1_0000);
    }
  }

  // ---- The ring itself -----------------------------------------------------

  class BufferRing {
    const bytes: array<byte>
    const base: nat
    const logN: nat
    /** The kernel's private counter. */
    var kernelHead: u16
    ghost var ring: Ring
    ghost var held: set<u32>

    ghost predicate Valid()
      reads this, bytes
    {
      && ring.base == base && ring.logN == logN
      && Sized() && Holds(Memory(), ring)
      && kernelHead == ring.consumed % 0x1_0000
      && Partitioned(ring, held)
    }

    /** Ring set-up: every buffer is available, so the tail starts at the number of entries. */
    constructor (base: nat, logN: nat)
      requires Ring(base, logN, 0, []).Sane()
      ensures Valid() && fresh(bytes)
      ensures ring.base == base && ring.logN == logN && ring.consumed == 0 && held == {}
      ensures |ring.window| == Pow2(logN) && forall k :: 0 <= k < |ring.window| ==> ring.window[k] == k
    {
      this.base, this.logN := base, logN;
      SizeDivides(logN, 0);
      var n := Pow2(logN);
      bytes := new byte[16 * n](i => 0);
      kernelHead := 0;
      ring := Ring(base, logN, 0, Interval(0, n));
      held := {};
      new;
      FillEntries(ring);
      InitialRing(Memory(), ring);
    }

    /** The initialisation loop: entry `i` offers buffer `i`; then the tail covers them all. */
    method FillEntries(ghost r: Ring)
      requires r.base == base && r.logN == logN && r.Sane() && Sized()
      modifies bytes
      ensures (forall j :: 0 <= j < r.Size() ==> Memory().entries[j] == r.EntryFor(j)) && Memory().tail == r.Size()
    {
      SizeDivides(logN, 0);
      var n := Pow2(logN);
      for i := 0 to n
        modifies bytes
        invariant forall j :: 0 <= j < i ==> Memory().entries[j] == r.EntryFor(j)
      {
        EntryForFits(r, i);
        StoreEntry(i, Entry(base + i * BUF_SIZE, BUF_SIZE, i));
      }
      StoreTail(n);
    }

    /** Writes the low `k` bytes of `v` at `off`. */
    method Store(off: nat, v: nat, k: nat)
      requires off + k <= bytes.Length
      modifies bytes
      ensures bytes[..] == Stored(old(bytes[..]), off, v, k)
    {
      var rest := v;
      for i := 0 to k
        modifies bytes
        invariant Bytes(v, k) == bytes[off..off + i] + Bytes(rest, k - i)
        invariant bytes[..off] == old(bytes[..off]) && bytes[off + i..] == old(bytes[off + i..])
      {
        ghost var before := bytes[off..off + i];
        bytes[off + i] := rest % 256;
        assert bytes[off..off + i + 1] == before + [rest % 256];
        rest := rest / 256;
      }
      assert bytes[..] == bytes[..off] + bytes[off..off + k] + bytes[off + k..];
    }

    method Load(off: nat, k: nat) returns (v: nat)
      requires off + k <= bytes.Length
      ensures v == Field(bytes[..], off, k)
    {
      v := 0;
      for i := k downto 0
        invariant v == Value(bytes[off + i..off + k])
      {
        assert bytes[off + i..off + k] == [bytes[off + i]] + bytes[off + i + 1..off + k];
        v := bytes[off + i] + 256 * v;
      }
      assert bytes[..][off..off + k] == bytes[off..off + k];
    }

    ghost predicate Sized()
    {
      bytes.Length == 16 * Pow2(logN)
    }

    /** What the ring's memory says. */
    ghost function Memory(): (m: Image)
      requires Sized()
      reads bytes
      ensures |m.entries| == Pow2(logN)
    {
      ImageOf(bytes[..], Pow2(logN))
    }

    method StoreEntry(i: nat, e: Entry)
      requires Sized() && i < Pow2(logN) && Fits(e)
      modifies bytes
      ensures Memory() == old(Memory()).(entries := old(Memory()).entries[i := e])
    {
      EntryFrame(bytes[..], Pow2(logN), i, e);
      Store(16 * i, e.addr, 8);
      Store(16 * i + 8, e.len, 4);
      Store(16 * i + 12, e.bid, 2);
    }

    method StoreTail(tail: u16)
      requires Sized()
      modifies bytes
      ensures Memory() == old(Memory()).(tail := tail)
    {
      TailFrame(bytes[..], Pow2(logN), tail);
      Store(14, tail, 2);
    }

    /** The tail and the slot `tail & mask` it designates. */
    method TailSlot() returns (tail: nat, slot: nat)
      requires Sized()
      ensures tail == Memory().tail && slot == tail % Pow2(logN) && slot < Pow2(logN)
    {
      tail := Load(14, 2);
      AndLowMask(tail, logN);
      slot := And(tail, Pow2(logN) - 1);
    }

    /** The ring's static facts, whatever has been released into it. */
    ghost predicate Shaped()
      reads this
    {
      ring.base == base && ring.logN == logN && ring.Sane() && Sized()
    }

    /** `release_buf_to_ring`: the id is stored in the slot of the tail, which moves on. The ring
        stays valid if and only if the id was held, and then no entry of the window is touched. */
    method ReleaseBuffer(bid: u32)
      requires Shaped() && bid < Pow2(logN)
      modifies this`ring, this`held, bytes
      ensures Shaped() && Memory() == Released(old(Memory()), old(ring), bid)
      ensures ring == old(ring).(window := old(ring).window + [bid]) && held == old(held) - {bid}
      ensures old(Valid()) ==> (Valid() <==> bid in old(held))
    {
      EntryForFits(ring, bid);
      if Valid() {
        ReleaseExactly(Memory(), ring, held, bid);
      }
      var tail, slot := TailSlot();
      StoreEntry(slot, Entry(base + bid * BUF_SIZE, BUF_SIZE, bid));
      StoreTail((tail + 1) % 0x1_0000);
      held := held - {bid};
      ring := ring.(window := ring.window + [bid]);
    }

    /** The kernel takes the next buffer, if its counter says there is one. */
    method KernelSelect() returns (bid: Option<u32>)
      requires Valid()
      modifies this
      ensures Valid()
      ensures bid.None? <==> old(ring).window == []
      ensures bid.None? ==> ring == old(ring) && held == old(held)
      ensures bid.Some? ==> bid.value == old(ring).window[0] && held == old(held) + {bid.value}
      ensures bid.Some? ==> ring == old(ring).(consumed := old(ring).consumed + 1, window := old(ring).window[1..])
    {
      EmptyExactly(ring, held);
      var tail := Load(14, 2);
      if kernelHead == tail {
        return None;
      }
      SelectHolds(Memory(), ring);
      SelectOwned(ring, held);
      SizeDivides(logN, ring.consumed);
      var slot := kernelHead % Pow2(logN);
      var b := Load(16 * slot + 12, 2);
      assert b == Memory().entries[slot].bid;
      kernelHead := (kernelHead + 1) % 0x1_0000;
      TailStep(ring.consumed);
      held := held + {ring.window[0]};
      ring := ring.(consumed := ring.consumed + 1, window := ring.window[1..]);
      bid := Some(b);
    }
  }

  lemma SmallModulo(k: nat, n: nat)
    requires k < n
    ensures k % n == k
  {
  }

  lemma InitialRing(m: Image, r: Ring)
    requires r.Sane() && r.consumed == 0 && r.Size() < 0x1_0000_0000 && r.window == Interval(0, r.Size())
    requires |m.entries| == r.Size() && (forall j :: 0 <= j < r.Size() ==> m.entries[j] == r.EntryFor(j)) && m.tail == r.Size()
    ensures Holds(m, r) && Partitioned(r, {})
  {
    SizeDivides(r.logN, 0);
    forall k | 0 <= k < |r.window|
      ensures WindowEntry(m, r, k)
    {
      SmallModulo(k, r.Size());
    }
    SmallModulo(r.Size(), 0x1_0000);
    forall b: u32 | b < r.Size() ensures b in r.window { InInterval(0, r.Size(), b); }
  }
}
