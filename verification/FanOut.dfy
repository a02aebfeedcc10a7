/**
 The fan-out write: one buffer written to many fds, each submission told apart by its
 `response_gen`, and one future that collects the completions in whatever order they come.
 */
module FanOut {
  import opened Words
  import opened Indices
  import opened WritePool

  /** An fd whose completion has been consumed is overwritten with this. */
  const GONE: u32 := 0xFFFF_FFFF

  datatype WriteResult = FailedWrite(fd: u32) | Partial(fd: u32, len: u32)

  /** The future while it waits (`in_fligth_count`, `fds`, `faileds`, `len`). */
  datatype Fan = Fan(inFlight: u16, fds: seq<u32>, faileds: seq<WriteResult>, len: u32)

  datatype Progress = Waiting(fan: Fan) | Ready(faileds: seq<WriteResult>) | Panic

  /** `result as u32` for a 32-bit signed result. */
  function AsU32(result: int): u32 { result % 0x1_0000_0000 }

  /** What one completion adds to the report. */
  function Report(fd: u32, result: int, len: u32): seq<WriteResult> {
    (if result < 0 then [FailedWrite(fd)] else [])
    + (if AsU32(result) != len then [Partial(fd, AsU32(result))] else [])
  }

  /** One poll of the waiting future with completion `gen`. */
  function Deliver(f: Fan, gen: u16, result: int): Progress {
    if f.inFlight == 0 || gen >= |f.fds| || f.fds[gen] == GONE then Panic
    else
      var g := f.(inFlight := f.inFlight - 1, fds := f.fds[gen := GONE],
                  faileds := f.faileds + Report(f.fds[gen], result, f.len));
      if g.inFlight == 0 then Ready(g.faileds) else Waiting(g)
  }

  function Start(fds: seq<u32>, len: u32): Fan { Fan(|fds| % 0x1_0000, fds, [], len) }

  predicate Within(gens: seq<u16>, n: nat) { forall k :: 0 <= k < |gens| ==> gens[k] < n }

  /** Completions in the given order of generations, `results[g]` being the result of write `g`. */
  function DeliverAll(f: Fan, order: seq<u16>, results: seq<int>): Progress
    requires Within(order, |results|)
    decreases order
  {
    if order == [] then Waiting(f)
    else
      match Deliver(f, order[0], results[order[0]])
      case Waiting(g) => DeliverAll(g, order[1..], results)
      case Ready(faileds) => if |order| == 1 then Ready(faileds) else Panic
      case Panic => Panic
  }

  // ---- The report as a multiset --------------------------------------------

  /** The sum of `each[g]` over the given generations. */
  ghost function Sum(gens: seq<u16>, each: seq<multiset<WriteResult>>): multiset<WriteResult>
    requires Within(gens, |each|)
    decreases gens
  {
    if gens == [] then multiset{} else each[gens[0]] + Sum(gens[1..], each)
  }

  /** What each write of a batch reports. */
  ghost function Each(fds: seq<u32>, results: seq<int>, len: u32): (e: seq<multiset<WriteResult>>)
    requires |fds| == |results|
    ensures |e| == |fds|
  {
    seq(|fds|, i requires 0 <= i < |fds| => multiset(Report(fds[i], results[i], len)))
  }

  /** The reports of the given generations, regardless of order. */
  ghost function Reports(gens: seq<u16>, fds: seq<u32>, results: seq<int>, len: u32): multiset<WriteResult>
    requires |fds| == |results| && Within(gens, |fds|)
  {
    Sum(gens, Each(fds, results, len))
  }

  lemma {:induction false} SumTake(gens: seq<u16>, k: nat, each: seq<multiset<WriteResult>>)
    requires Within(gens, |each|) && k < |gens|
    ensures Sum(gens, each) == each[gens[k]] + Sum(gens[..k] + gens[k + 1..], each)
    decreases gens
  {
    var rest := gens[..k] + gens[k + 1..];
    if k > 0 {
      SumTake(gens[1..], k - 1, each);
      assert rest[1..] == gens[1..][..k - 1] + gens[1..][k..];
    } else {
      assert rest == gens[1..];
    }
  }

  lemma SamePermutation(a: seq<u16>, b: seq<u16>, k: nat)
    requires a != [] && k < |b| && b[k] == a[0] && multiset(a) == multiset(b)
    ensures multiset(a[1..]) == multiset(b[..k] + b[k + 1..])
  {
    assert b == b[..k] + [b[k]] + b[k + 1..];
    assert a == [a[0]] + a[1..];
    assert multiset(b[..k] + b[k + 1..]) == multiset(b[..k]) + multiset(b[k + 1..]);
    assert multiset(a[1..]) == multiset(a) - multiset{a[0]};
  }

  /** Two orders of the same generations have the same sum. */
  lemma {:induction false} SumPermuted(a: seq<u16>, b: seq<u16>, each: seq<multiset<WriteResult>>)
    requires Within(a, |each|) && Within(b, |each|) && multiset(a) == multiset(b)
    ensures Sum(a, each) == Sum(b, each)
    decreases a
  {
    assert |multiset(a)| == |a| && |multiset(b)| == |b|;
    if a != [] {
      assert a[0] in multiset(b);
      var k :| 0 <= k < |b| && b[k] == a[0];
      SamePermutation(a, b, k);
      SumPermuted(a[1..], b[..k] + b[k + 1..], each);
      SumTake(b, k, each);
    }
  }

  // ---- The fan over any order ----------------------------------------------

  /** What remains to be delivered is exactly `left`. */
  ghost predicate Awaiting(f: Fan, fds: seq<u32>, left: seq<u16>) {
    && |f.fds| == |fds|
    && Within(left, |fds|)
    && f.inFlight == |left|
    && (forall i, j :: 0 <= i < j < |left| ==> left[i] != left[j])
    && (forall i :: 0 <= i < |fds| ==> f.fds[i] == if i in left then fds[i] else GONE)
  }

  /** One completion of a waiting fan. */
  lemma DeliverNext(f: Fan, fds: seq<u32>, left: seq<u16>, result: int)
    requires Awaiting(f, fds, left) && GONE !in fds && left != []
    ensures var faileds := f.faileds + Report(fds[left[0]], result, f.len);
      match Deliver(f, left[0], result)
      case Waiting(g) => |left| > 1 && Awaiting(g, fds, left[1..]) && g.faileds == faileds && g.len == f.len
      case Ready(all) => |left| == 1 && all == faileds
      case Panic => false
  {
    var g, rest := left[0], left[1..];
    assert left == [g] + rest;
    assert f.fds[g] == fds[g] && fds[g] in fds;
    forall i | 0 <= i < |fds|
      ensures f.fds[g := GONE][i] == if i in rest then fds[i] else GONE
    {
      assert i == g ==> i !in rest;
    }
  }

  /** From any waiting state, delivering what is left in any order: no assertion fails, the future
      is ready on the last completion, and the reports add up. */
  lemma {:induction false} FanFrom(f: Fan, fds: seq<u32>, order: seq<u16>, results: seq<int>)
    requires Awaiting(f, fds, order) && |results| == |fds| && GONE !in fds && order != []
    ensures DeliverAll(f, order, results).Ready?
    ensures multiset(DeliverAll(f, order, results).faileds)
      == multiset(f.faileds) + Reports(order, fds, results, f.len)
    decreases order
  {
    var g, rest := order[0], order[1..];
    var here := Report(fds[g], results[g], f.len);
    DeliverNext(f, fds, order, results[g]);
    assert multiset(f.faileds + here) == multiset(f.faileds) + multiset(here);
    var each := Each(fds, results, f.len);
    assert each[g] == multiset(here);
    if |order| > 1 {
      FanFrom(Deliver(f, g, results[g]).fan, fds, rest, results);
    } else {
      assert rest == [] && Sum(rest, each) == multiset{};
      assert Sum(order, each) == each[g];
      assert DeliverAll(f, order, results) == Ready(f.faileds + here);
    }
  }

  function Gens(n: nat): (s: seq<u16>)
    requires n <= 0x1_0000
    ensures |s| == n && forall k :: 0 <= k < n ==> s[k] == k
  {
    seq(n, k requires 0 <= k < n => k)
  }

  lemma PermutationDistinct(order: seq<u16>, n: nat)
    requires n <= 0x1_0000 && multiset(order) == multiset(Gens(n))
    ensures |order| == n
    ensures forall i :: 0 <= i < n ==> i in order
    ensures Within(order, n)
    ensures forall i, j :: 0 <= i < j < |order| ==> order[i] != order[j]
  {
    assert |multiset(order)| == |order| && |multiset(Gens(n))| == n;
    forall k | 0 <= k < |order|
      ensures order[k] < n
    {
      assert order[k] in multiset(order);
      assert order[k] in multiset(Gens(n));
    }
    forall i | 0 <= i < n
      ensures i in order
    {
      assert Gens(n)[i] == i;
      assert i in multiset(order);
    }
    forall i, j | 0 <= i < j < |order|
      ensures order[i] != order[j]
    {
      if order[i] == order[j] {
        TwiceInSeq(order, i, j);
        OnceInGens(n, order[i]);
        assert false;
      }
    }
  }

  lemma TwiceInSeq(s: seq<u16>, i: nat, j: nat)
    requires i < j < |s| && s[i] == s[j]
    ensures multiset(s)[s[i]] >= 2
  {
    assert s == s[..i] + [s[i]] + s[i + 1..j] + [s[j]] + s[j + 1..];
  }

  lemma {:induction false} OnceInGens(n: nat, g: u16)
    requires n <= 0x1_0000
    ensures multiset(Gens(n))[g] <= 1
    decreases n
  {
    if n > 0 {
      OnceInGens(n - 1, g);
      assert Gens(n) == Gens(n - 1) + [n - 1];
      if g == n - 1 {
        assert g !in Gens(n - 1);
      }
    }
  }

  /** Order independence: whatever order the N completions come in, the future becomes ready on
      the N-th, and what it reports depends only on the result of each write. */
  lemma AnyOrder(fds: seq<u32>, len: u32, order: seq<u16>, results: seq<int>)
    requires 1 <= |fds| <= 0xFFFF && GONE !in fds && |results| == |fds|
    requires multiset(order) == multiset(Gens(|fds|))
    ensures |order| == |fds| && Within(order, |results|)
    ensures DeliverAll(Start(fds, len), order, results).Ready?
    ensures multiset(DeliverAll(Start(fds, len), order, results).faileds)
      == Reports(Gens(|fds|), fds, results, len)
  {
    var n := |fds|;
    PermutationDistinct(order, n);
    FanFrom(Start(fds, len), fds, order, results);
    SumPermuted(order, Gens(n), Each(fds, results, len));
  }

  /** Before the N-th completion the future waits, and its counter is the number of fds whose
      completion it has not consumed. */
  lemma {:induction false} NotBeforeLast(f: Fan, fds: seq<u32>, left: seq<u16>, k: nat, results: seq<int>)
    requires Awaiting(f, fds, left) && |results| == |fds| && GONE !in fds && k < |left|
    ensures DeliverAll(f, left[..k], results).Waiting?
    ensures DeliverAll(f, left[..k], results).fan.inFlight == |left| - k
    ensures Awaiting(DeliverAll(f, left[..k], results).fan, fds, left[k..])
    decreases k
  {
    if k == 0 {
      assert left[0..] == left && left[..0] == [];
    } else {
      var rest := left[1..];
      DeliverNext(f, fds, left, results[left[0]]);
      var p := Deliver(f, left[0], results[left[0]]);
      NotBeforeLast(p.fan, fds, rest, k - 1, results);
      assert left[..k][1..] == rest[..k - 1] && rest[k - 1..] == left[k..];
    }
  }

  // ---- Completions with their results --------------------------------------

  /** Completions as they come: a generation and a result each. */
  function DeliverEach(f: Fan, log: seq<(u16, int)>): Progress
    decreases log
  {
    if log == [] then Waiting(f)
    else
      match Deliver(f, log[0].0, log[0].1)
      case Waiting(g) => DeliverEach(g, log[1..])
      case Ready(faileds) => if |log| == 1 then Ready(faileds) else Panic
      case Panic => Panic
  }

  function GenList(log: seq<(u16, int)>): (r: seq<u16>)
    ensures |r| == |log| && forall i :: 0 <= i < |log| ==> r[i] == log[i].0
  {
    seq(|log|, i requires 0 <= i < |log| => log[i].0)
  }

  /** The result that came with generation `g`. */
  function ResultFor(log: seq<(u16, int)>, g: nat): int {
    if log == [] then 0 else if log[0].0 == g then log[0].1 else ResultFor(log[1..], g)
  }

  function ResultsOf(log: seq<(u16, int)>, n: nat): (r: seq<int>)
    ensures |r| == n && forall g :: 0 <= g < n ==> r[g] == ResultFor(log, g)
  {
    seq(n, g requires 0 <= g < n => ResultFor(log, g))
  }

  lemma {:induction false} EachIsAll(f: Fan, log: seq<(u16, int)>, results: seq<int>)
    requires Within(GenList(log), |results|) && forall i :: 0 <= i < |log| ==> log[i].1 == results[log[i].0]
    ensures DeliverEach(f, log) == DeliverAll(f, GenList(log), results)
    decreases log
  {
    if log != [] {
      assert GenList(log)[1..] == GenList(log[1..]);
      match Deliver(f, log[0].0, log[0].1)
      case Waiting(g) => EachIsAll(g, log[1..], results);
      case _ =>
    }
  }

  lemma {:induction false} ResultForAt(log: seq<(u16, int)>, i: nat)
    requires i < |log| && forall j, k :: 0 <= j < k < |log| ==> log[j].0 != log[k].0
    ensures ResultFor(log, log[i].0) == log[i].1
  {
    if i > 0 {
      ResultForAt(log[1..], i - 1);
    }
  }

  /** Completions that bring every generation once, in any order and with any results: ready on the
      last, with a report that depends only on the result of each write. */
  lemma EachOnce(fds: seq<u32>, len: u32, log: seq<(u16, int)>)
    requires 1 <= |fds| <= 0xFFFF && GONE !in fds && multiset(GenList(log)) == multiset(Gens(|fds|))
    ensures DeliverEach(Start(fds, len), log).Ready?
    ensures multiset(DeliverEach(Start(fds, len), log).faileds)
      == Reports(Gens(|fds|), fds, ResultsOf(log, |fds|), len)
  {
    var n, order, results := |fds|, GenList(log), ResultsOf(log, |fds|);
    PermutationDistinct(order, n);
    AnyOrder(fds, len, order, results);
    forall i | 0 <= i < |log|
      ensures log[i].1 == results[log[i].0]
    {
      assert order[i] == log[i].0;
      forall j, k | 0 <= j < k < |log| ensures log[j].0 != log[k].0 { assert order[j] != order[k]; }
      ResultForAt(log, i);
    }
    EachIsAll(Start(fds, len), log, results);
  }

  /** Some generation among `gens` reports `w`. */
  ghost predicate Reported(gens: seq<u16>, fds: seq<u32>, results: seq<int>, len: u32, w: WriteResult)
    requires |fds| == |results| && Within(gens, |fds|)
  {
    exists k :: 0 <= k < |gens| && ReportsAt(fds, results, len, gens[k], w)
  }

  predicate ReportsAt(fds: seq<u32>, results: seq<int>, len: u32, g: nat, w: WriteResult)
    requires g < |fds| == |results|
  {
    w in Report(fds[g], results[g], len)
  }

  lemma ReportedFirst(gens: seq<u16>, fds: seq<u32>, results: seq<int>, len: u32, w: WriteResult)
    requires |fds| == |results| && Within(gens, |fds|) && gens != []
    ensures Reported(gens, fds, results, len, w) <==>
      ReportsAt(fds, results, len, gens[0], w) || Reported(gens[1..], fds, results, len, w)
  {
    var rest := gens[1..];
    if k :| 0 <= k < |rest| && ReportsAt(fds, results, len, rest[k], w) {
      assert gens[k + 1] == rest[k];
    }
    if k :| 0 <= k < |gens| && ReportsAt(fds, results, len, gens[k], w) {
      assert k > 0 ==> rest[k - 1] == gens[k];
    }
  }

  lemma {:induction false} ReportsName(gens: seq<u16>, fds: seq<u32>, results: seq<int>, len: u32, w: WriteResult)
    requires |fds| == |results| && Within(gens, |fds|)
    ensures w in Reports(gens, fds, results, len) <==> Reported(gens, fds, results, len, w)
    decreases gens
  {
    if gens != [] {
      ReportsName(gens[1..], fds, results, len, w);
      ReportedFirst(gens, fds, results, len, w);
      assert w in Each(fds, results, len)[gens[0]] <==> ReportsAt(fds, results, len, gens[0], w);
    }
  }

  /** A 32-bit result differs from `len` exactly when its report is not empty; the report names its fd. */
  lemma ReportMeaning(fd: u32, result: int, len: u32)
    requires len < 0x8000_0000 && -0x8000_0000 <= result < 0x8000_0000
    ensures Report(fd, result, len) != [] <==> result != len
    ensures forall w :: w in Report(fd, result, len) ==> w.fd == fd
    ensures result != len ==> Partial(fd, AsU32(result)) in Report(fd, result, len)
  {
    assert AsU32(result) == if result < 0 then result + 0x1_0000_0000 else result;
  }

  // ---- Multiplicities ------------------------------------------------------

  /** Whether a write to `fd` with this result is to be reported as `w`: as failed if the result is
      negative, as partial with its 32-bit length if that is not `len`. */
  predicate Says(fd: u32, result: int, len: u32, w: WriteResult) {
    match w
    case FailedWrite(f) => f == fd && result < 0
    case Partial(f, l) => f == fd && l == result % 0x1_0000_0000 && l != len
  }

  /** One completion adds each report it calls for once, and no other. */
  lemma ReportCounts(fd: u32, result: int, len: u32, w: WriteResult)
    ensures multiset(Report(fd, result, len))[w] == if Says(fd, result, len, w) then 1 else 0
  {
  }

  /** The writes among the first `n` that call for the report `w`. */
  ghost function Saying(fds: seq<u32>, results: seq<int>, len: u32, w: WriteResult, n: nat): set<nat>
    requires n <= |fds| == |results|
  {
    set i: nat | i < n && Says(fds[i], results[i], len, w)
  }

  lemma {:induction false} SumCounts(fds: seq<u32>, results: seq<int>, len: u32, w: WriteResult, n: nat)
    requires n <= |fds| == |results| && |fds| <= 0xFFFF
    ensures Sum(Gens(n), Each(fds, results, len))[w] == |Saying(fds, results, len, w, n)|
    decreases n
  {
    if n == 0 {
      assert Saying(fds, results, len, w, 0) == {};
    } else {
      hide Sum, Saying, Says, Report;
      SumCounts(fds, results, len, w, n - 1);
      SumLast(n, Each(fds, results, len));
      ReportCounts(fds[n - 1], results[n - 1], len, w);
      SayingLast(fds, results, len, w, n);
    }
  }

  lemma SumLast(n: nat, each: seq<multiset<WriteResult>>)
    requires 0 < n <= |each| && n <= 0xFFFF
    ensures Sum(Gens(n), each) == each[n - 1] + Sum(Gens(n - 1), each)
  {
    hide Sum;
    SumTake(Gens(n), n - 1, each);
    assert Gens(n)[..n - 1] + Gens(n)[n..] == Gens(n - 1);
  }

  lemma SayingLast(fds: seq<u32>, results: seq<int>, len: u32, w: WriteResult, n: nat)
    requires 0 < n <= |fds| == |results|
    ensures |Saying(fds, results, len, w, n)|
         == |Saying(fds, results, len, w, n - 1)| + (if Says(fds[n - 1], results[n - 1], len, w) then 1 else 0)
  {
    hide Says;
    var before, now := Saying(fds, results, len, w, n - 1), Saying(fds, results, len, w, n);
    assert now == if Says(fds[n - 1], results[n - 1], len, w) then before + {n - 1} else before;
  }

  /** The report holds each entry as often as there are writes that call for it. */
  lemma ReportMultiplicity(fds: seq<u32>, results: seq<int>, len: u32, w: WriteResult)
    requires |fds| == |results| && |fds| <= 0xFFFF
    ensures Reports(Gens(|fds|), fds, results, len)[w] == |Saying(fds, results, len, w, |fds|)|
  {
    SumCounts(fds, results, len, w, |fds|);
  }

  /** A write is reported as failed exactly when its result is an error. */
  lemma FailuresReported(fds: seq<u32>, results: seq<int>, len: u32, fd: u32)
    requires |fds| == |results| && |fds| <= 0xFFFF
    ensures FailedWrite(fd) in Reports(Gens(|fds|), fds, results, len) <==>
      (exists i :: 0 <= i < |fds| && fds[i] == fd && results[i] < 0)
  {
    var gens, w := Gens(|fds|), FailedWrite(fd);
    ReportsName(gens, fds, results, len, w);
    if i :| 0 <= i < |fds| && fds[i] == fd && results[i] < 0 {
      assert gens[i] == i && ReportsAt(fds, results, len, gens[i], w);
    }
  }

  /** The report names an fd exactly when some write to it did not write `len` bytes. */
  lemma ReportNamesFailures(fds: seq<u32>, results: seq<int>, len: u32, fd: u32)
    requires |fds| == |results| && |fds| <= 0xFFFF && len < 0x8000_0000
    requires forall i :: 0 <= i < |results| ==> -0x8000_0000 <= results[i] < 0x8000_0000
    ensures (exists w :: w in Reports(Gens(|fds|), fds, results, len) && w.fd == fd) <==>
      (exists i :: 0 <= i < |fds| && fds[i] == fd && results[i] != len)
  {
    var gens := Gens(|fds|);
    if i :| 0 <= i < |fds| && fds[i] == fd && results[i] != len {
      var w := Partial(fd, AsU32(results[i]));
      ReportMeaning(fd, results[i], len);
      ReportsName(gens, fds, results, len, w);
      assert gens[i] == i && ReportsAt(fds, results, len, gens[i], w);
      assert w in Reports(gens, fds, results, len) && w.fd == fd;
    }
    if w :| w in Reports(gens, fds, results, len) && w.fd == fd {
      ReportsName(gens, fds, results, len, w);
      var k :| 0 <= k < |gens| && ReportsAt(fds, results, len, gens[k], w);
      ReportMeaning(fds[k], results[k], len);
    }
  }

  // ---- The future itself ---------------------------------------------------

  datatype FutureState = Init(fds: seq<u32>, len: u32) | Pending(fan: Fan)

  datatype PollResult = NotYet | Done(faileds: seq<WriteResult>) | Panicked

  /** `WriteMultipleFuture`, holding one handle on its slot from `Init` to its drop. */
  class WriteMultiple {
    const slot: u32
    var state: FutureState

    constructor (slot: u32, fds: seq<u32>, len: u32)
      ensures this.slot == slot && state == Init(fds, len)
    {
      this.slot := slot;
      state := Init(fds, len);
    }

    /** The first poll submits the batch and leaves every handle count as it was; later polls
        consume one completion each. In every case the slot stays out of the free queue. */
    method Poll(pool: BufPool, gen: u16, result: int) returns (out: PollResult)
      requires pool.Valid() && slot in pool.handles
      modifies this, pool, pool.writeRc
      ensures pool.Valid()
      ensures out != Panicked ==> pool.Abs() == old(pool.Abs()) && slot !in pool.writeFree
      ensures old(state).Init? && out != Panicked ==>
        out == NotYet && state == Pending(Start(old(state).fds, old(state).len))
      ensures old(state).Pending? ==>
        match Deliver(old(state).fan, gen, result)
        case Waiting(f) => out == NotYet && state == Pending(f)
        case Ready(faileds) => out == Done(faileds)
        case Panic => out == Panicked
    {
      assert SlotOk(pool.Abs(), slot);
      if state.Init? {
        var cloned := pool.CloneHandle(slot);
        if !cloned {
          return Panicked;
        }
        CloneThenDrop(old(pool.Abs()), slot);
        var sent := pool.SendMultipleWrite(slot, state.fds);
        if !sent {
          return Panicked;
        }
        state := Pending(Start(state.fds, state.len));
        return NotYet;
      }
      match Deliver(state.fan, gen, result) {
        case Waiting(f) =>
          state := Pending(f);
          out := NotYet;
        case Ready(faileds) =>
          state := Pending(state.fan.(inFlight := 0, fds := state.fan.fds[gen := GONE], faileds := []));
          out := Done(faileds);
        case Panic =>
          out := Panicked;
      }
    }

    /** Dropping the future drops its handle; only then may the slot become free. */
    method Drop(pool: BufPool)
      requires pool.Valid() && slot in pool.handles
      modifies pool, pool.writeRc
      ensures pool.Valid() && old(pool.Abs()).InRange(slot) && 0 < old(pool.Abs()).Rc(slot)
      ensures pool.Abs() == Dropped(old(pool.Abs()), slot)
    {
      pool.DropHandle(slot);
    }
  }
}
