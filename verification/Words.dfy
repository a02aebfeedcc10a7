/**
 Machine words as the runtime uses them: 16- and 32-bit ranges, the bit operations
 it applies to them, the `syscall_nb` tag (15-bit rank plus the MULTIPLE bit)
 and the 64-bit `user_data` word that travels through the kernel.
 */
module Words {

  datatype Option<+T> = None | Some(value: T)

  type u16 = n: nat | n < 0x1_0000
  type u32 = n: nat | n < 0x1_0000_0000

  /** Bit 15 of a tag: the operation may complete several times. */
  const MULTIPLE_MASK: u16 := 0x8000

  // ---- Bit operations ------------------------------------------------------

  /** Bitwise conjunction of two naturals. */
  function And(x: nat, y: nat): nat
  {
    if x == 0 || y == 0 then 0
    else 2 * And(x / 2, y / 2) + (x % 2) * (y % 2)
  }

  function Pow2(k: nat): (p: nat)
    ensures 0 < p
  {
    if k == 0 then 1 else 2 * Pow2(k - 1)
  }

  /** Splitting off the low bit commutes with reduction modulo twice a number. */
  lemma HalveModulo(x: nat, p: nat)
    requires 0 < p
    ensures x % (2 * p) == 2 * ((x / 2) % p) + x % 2
  {
    var h, q := x / 2, (x / 2) / p;
    assert h == p * q + h % p;
    assert x == (2 * p) * q + (2 * (h % p) + x % 2) by {
      assert 2 * (p * q) == (2 * p) * q;
    }
    RemainderUnique(x, 2 * p, q, 2 * (h % p) + x % 2);
  }

  lemma RemainderUnique(x: nat, d: nat, q: nat, r: nat)
    requires r < d && x == d * q + r
    ensures x % d == r
  {
    var q', r' := x / d, x % d;
    assert d * (q - q') == r' - r by { assert d * (q - q') == d * q - d * q'; }
    if q > q' {
      MultipleAtLeast(d, q - q');
      assert false;
    }
    if q' > q {
      assert d * (q' - q) == r - r' by { assert d * (q' - q) == d * q' - d * q; }
      MultipleAtLeast(d, q' - q);
      assert false;
    }
  }

  lemma MultipleAtLeast(d: nat, k: nat)
    requires 0 < k
    ensures d <= d * k
  {
    assert d * k == d + d * (k - 1);
  }

  /** Masking with a power of two minus one is reduction modulo that power. */
  lemma {:induction false} AndLowMask(x: nat, k: nat)
    ensures And(x, Pow2(k) - 1) == x % Pow2(k)
    decreases k
  {
    if k > 0 {
      var p := Pow2(k - 1);
      calc {
        And(x, 2 * p - 1);
      ==  { AndOdd(x, p - 1); }
        2 * And(x / 2, p - 1) + x % 2;
      ==  { AndLowMask(x / 2, k - 1); }
        2 * ((x / 2) % p) + x % 2;
      ==  { HalveModulo(x, p); }
        x % (2 * p);
      }
    }
  }

  lemma AndOdd(x: nat, y: nat)
    ensures And(x, 2 * y + 1) == 2 * And(x / 2, y) + x % 2
  {
    assert (2 * y + 1) / 2 == y && (2 * y + 1) % 2 == 1;
  }

  /** A residue modulo a multiple of `n` has the same residue modulo `n`. */
  lemma ModuloOfMultiple(x: nat, w: nat, n: nat, m: nat)
    requires 0 < n && 0 < w == n * m
    ensures (x % w) % n == x % n
  {
    var q, r := x / w, x % w;
    var k := r / n;
    assert x == w * q + r && r == n * k + r % n;
    Regroup(n, m, q, k);
    RemainderUnique(x, n, m * q + k, r % n);
  }

  lemma Regroup(n: nat, m: nat, q: nat, k: nat)
    ensures (n * m) * q + n * k == n * (m * q + k)
  {
    assert (n * m) * q == n * (m * q);
  }

  lemma {:induction false} Pow2Sum(a: nat, b: nat)
    ensures Pow2(a + b) == Pow2(a) * Pow2(b)
  {
    if a > 0 {
      calc {
        Pow2(a + b);
      ==
        2 * Pow2((a - 1) + b);
      ==  { Pow2Sum(a - 1, b); }
        2 * (Pow2(a - 1) * Pow2(b));
      ==
        Pow2(a) * Pow2(b);
      }
    }
  }

  lemma NoMultipleBetween(n: nat, k: int)
    ensures n * k <= 0 || n <= n * k
  {
    if k > 0 {
      MultipleAtLeast(n, k);
    }
  }

  /** Consecutive numbers fewer than `n` apart have different residues modulo `n`. */
  lemma ResiduesDiffer(x: nat, y: nat, n: nat)
    requires x < y < x + n
    ensures x % n != y % n
  {
    if x % n == y % n {
      var p, q := x / n, y / n;
      assert y - x == n * q - n * p;
      assert n * (q - p) == n * q - n * p;
      NoMultipleBetween(n, q - p);
      assert false;
    }
  }

  // ---- The syscall_nb tag --------------------------------------------------

  function Rank(nb: u16): (r: u16)
    ensures r < 0x8000
  {
    nb % 0x8000
  }

  predicate Masked(nb: u16) {
    nb >= 0x8000
  }

  function SetMask(nb: u16): (r: u16)
    ensures Rank(r) == Rank(nb) && Masked(r)
  {
    Rank(nb) + 0x8000
  }

  /** A tag is its rank plus its mask bit. */
  lemma TagSplits(nb: u16)
    ensures nb == Rank(nb) + (if Masked(nb) then 0x8000 else 0)
  {
  }

  lemma Pow2At15()
    ensures Pow2(15) == 0x8000
  {
    assert Pow2(5) == 32;
    assert Pow2(10) == 32 * 32 by { Pow2Sum(5, 5); }
    Pow2Sum(5, 10);
  }

  /** `Rank` is the code's `nb & !MULTIPLE_MASK`. */
  lemma RankIsLowBits(nb: u16)
    ensures And(nb, 0xFFFF - MULTIPLE_MASK) == Rank(nb)
  {
    Pow2At15();
    AndLowMask(nb, 15);
  }

  // ---- The user_data word --------------------------------------------------

  /** `UserDataPayload`, a `repr(C)` struct read back through a union as one u64. */
  datatype Payload = Payload(taskIdx: u32, responseGen: u16, syscallNb: u16)

  function IntoUserData(p: Payload): nat {
    p.taskIdx + p.responseGen * 0x1_0000_0000 + p.syscallNb * 0x1_0000_0000_0000
  }

  function FromUserData(u: nat): Payload {
    Payload(u % 0x1_0000_0000, (u / 0x1_0000_0000) % 0x1_0000, (u / 0x1_0000_0000_0000) % 0x1_0000)
  }

  /** Packing fits 64 bits and loses nothing; every 64-bit word is some payload's packing. */
  lemma UserDataRoundTrip(p: Payload, u: nat)
    requires u < 0x1_0000_0000_0000_0000
    ensures IntoUserData(p) < 0x1_0000_0000_0000_0000
    ensures FromUserData(IntoUserData(p)) == p
    ensures IntoUserData(FromUserData(u)) == u
  {
    PackedFields(p);
    UnpackedFields(u);
  }

  lemma UnpackedFields(u: nat)
    requires u < 0x1_0000_0000_0000_0000
    ensures IntoUserData(FromUserData(u)) == u
  {
    var low, high := u % 0x1_0000_0000, u / 0x1_0000_0000;
    assert high < 0x1_0000_0000 && u == low + high * 0x1_0000_0000;
    assert u / 0x1_0000_0000_0000 == high / 0x1_0000;
    assert high == high % 0x1_0000 + (high / 0x1_0000) * 0x1_0000;
  }

  lemma PackedFields(p: Payload)
    ensures FromUserData(IntoUserData(p)) == p
  {
    var w := IntoUserData(p);
    var high := p.responseGen + p.syscallNb * 0x1_0000;
    assert w == p.taskIdx + 0x1_0000_0000 * high;
    assert w / 0x1_0000_0000 == high && w % 0x1_0000_0000 == p.taskIdx;
    assert w / 0x1_0000_0000_0000 == high / 0x1_0000;
  }
}
