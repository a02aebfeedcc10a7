/** Sequences of distinct 32-bit indices, as free lists and buffer windows use them. */
module Indices {
  import opened Words

  predicate Distinct(s: seq<u32>) {
    forall i, j :: 0 <= i < j < |s| ==> s[i] != s[j]
  }

  function Elements(s: seq<u32>): set<u32> { set i | i in s }

  /** The sequence from its end to its start. */
  function Backwards(s: seq<u32>): seq<u32> { if s == [] then [] else Backwards(s[1..]) + [s[0]] }

  function Interval(lo: u32, hi: u32): (s: seq<u32>)
    requires lo <= hi
    ensures |s| == hi - lo && forall k :: 0 <= k < |s| ==> s[k] == lo + k
  {
    seq(hi - lo, k requires 0 <= k < hi - lo => lo + k)
  }

  lemma InInterval(lo: u32, hi: u32, i: u32)
    requires lo <= hi
    ensures i in Interval(lo, hi) <==> lo <= i < hi
  {
    if lo <= i < hi {
      assert Interval(lo, hi)[i - lo] == i;
    }
  }

  lemma {:induction false} DistinctCount(s: seq<u32>)
    requires Distinct(s)
    ensures |Elements(s)| == |s|
  {
    if s != [] {
      var init, last := s[..|s| - 1], s[|s| - 1];
      DistinctCount(init);
      assert s == init + [last];
      assert last !in init;
      assert Elements(s) == Elements(init) + {last};
    }
  }

  lemma SubsetCount(a: set<u32>, b: set<u32>)
    requires a <= b
    ensures |a| <= |b|
  {
    assert b == a + (b - a);
  }

  /** Distinct indices below `n` that miss one of them are fewer than `n`. */
  lemma DistinctRoom(s: seq<u32>, n: u32, spare: u32)
    requires Distinct(s) && (forall i :: i in s ==> i < n) && spare < n && spare !in s
    ensures |s| < n
  {
    var all := Interval(0, n);
    DistinctCount(s);
    DistinctCount(all);
    forall i | i in Elements(s) + {spare} ensures i in Elements(all) { InInterval(0, n, i); }
    SubsetCount(Elements(s) + {spare}, Elements(all));
    assert |Elements(s) + {spare}| == |s| + 1;
  }
}
