/** Byte-addressed memory with little-endian words, and the words the allocator keeps in it. */
module Memory {
  import L = LfStack

  type Ptr = L.Ptr

  newtype byte = x: int | 0 <= x < 256

  type Mem = int -> byte

  function Pow256(n: nat): nat {
    if n == 0 then 1 else 256 * Pow256(n - 1)
  }

  /** The little-endian number in the bytes of [lo, hi). */
  function ReadLE(m: Mem, lo: int, hi: int): nat
    decreases hi - lo
  {
    if hi <= lo then 0 else m(lo) as nat + 256 * ReadLE(m, lo + 1, hi)
  }

  function ByteOf(v: nat, k: nat): byte {
    if k == 0 then (v % 256) as byte else ByteOf(v / 256, k - 1)
  }

  function WriteLE(m: Mem, a: int, n: nat, v: nat): Mem {
    x => if a <= x < a + n then ByteOf(v, x - a) else m(x)
  }

  /** A pointer, a size or a fence word. */
  function Read64(m: Mem, a: int): nat {
    ReadLE(m, a, a + 8)
  }

  function Write64(m: Mem, a: int, v: nat): Mem {
    WriteLE(m, a, 8, v)
  }

  const WORD: nat := 0x1_0000_0000_0000_0000

  /** Memory as the stack sees it: the word at each address. */
  function Link(m: Mem): L.Links {
    p => Read64(m, p)
  }

  ghost predicate SameOn(m: Mem, m': Mem, lo: int, hi: int) {
    forall x | lo <= x < hi :: m'(x) == m(x)
  }

  /** Only bytes of [lo, hi) changed. */
  ghost predicate Touches(m: Mem, m': Mem, lo: int, hi: int) {
    forall x | x < lo || hi <= x :: m'(x) == m(x)
  }

  lemma {:induction false} ReadFrame(m: Mem, m': Mem, lo: int, hi: int)
    requires SameOn(m, m', lo, hi)
    ensures ReadLE(m', lo, hi) == ReadLE(m, lo, hi)
    decreases hi - lo
  {
    if lo < hi {
      ReadFrame(m, m', lo + 1, hi);
    }
  }

  lemma {:induction false} ReadsValue(m: Mem, a: int, n: nat, v: nat)
    requires forall i | 0 <= i < n :: m(a + i) == ByteOf(v, i)
    requires v < Pow256(n)
    ensures ReadLE(m, a, a + n) == v
    decreases n
  {
    if n > 0 {
      assert m(a + 0) == ByteOf(v, 0);
      forall i | 0 <= i < n - 1 ensures m(a + 1 + i) == ByteOf(v / 256, i) {
        assert m(a + (i + 1)) == ByteOf(v, i + 1);
      }
      ReadsValue(m, a + 1, n - 1, v / 256);
    }
  }

  /** What is written is read back, and nothing else changes. */
  lemma WriteSpec(m: Mem, a: int, n: nat, v: nat)
    requires v < Pow256(n)
    ensures ReadLE(WriteLE(m, a, n, v), a, a + n) == v
    ensures Touches(m, WriteLE(m, a, n, v), a, a + n)
  {
    ReadsValue(WriteLE(m, a, n, v), a, n, v);
  }

  /** A `uint16_t` keeps the low half word of what is stored in it. */
  lemma HalfWordSpec(m: Mem, a: int, v: nat)
    ensures ReadLE(WriteLE(m, a, 2, v), a, a + 2) == v % 0x1_0000
    ensures Touches(m, WriteLE(m, a, 2, v), a, a + 2)
  {
    var m' := WriteLE(m, a, 2, v);
    assert m'(a) == ByteOf(v, 0) && m'(a + 1) == ByteOf(v, 1) == ByteOf(v / 256, 0);
    assert ReadLE(m', a + 1, a + 2) == m'(a + 1) as nat + 256 * ReadLE(m', a + 2, a + 2);
    assert v % 0x1_0000 == v % 256 + 256 * (v / 256 % 256);
  }

  /** Two byte ranges hold the same number just when they hold the same bytes. */
  lemma {:induction false} SameNumber(m: Mem, m': Mem, lo: int, hi: int)
    ensures ReadLE(m', lo, hi) == ReadLE(m, lo, hi) <==> SameOn(m, m', lo, hi)
    decreases hi - lo
  {
    if lo < hi {
      SameNumber(m, m', lo + 1, hi);
      assert SameOn(m, m', lo, hi) <==> m'(lo) == m(lo) && SameOn(m, m', lo + 1, hi);
    }
  }

  /** A word is eight bytes, the lowest first. */
  lemma EightBytes(m: Mem, a: int)
    ensures Read64(m, a)
        == m(a) as nat + 0x100 * m(a + 1) as nat + 0x1_0000 * m(a + 2) as nat + 0x100_0000 * m(a + 3) as nat
         + 0x1_0000_0000 * m(a + 4) as nat + 0x100_0000_0000 * m(a + 5) as nat
         + 0x1_0000_0000_0000 * m(a + 6) as nat + 0x100_0000_0000_0000 * m(a + 7) as nat
  {
    assert ReadLE(m, a + 7, a + 8) == m(a + 7) as nat by { assert ReadLE(m, a + 8, a + 8) == 0; }
    assert ReadLE(m, a + 5, a + 8) == m(a + 5) as nat + 256 * (m(a + 6) as nat + 256 * m(a + 7) as nat);
    assert ReadLE(m, a + 3, a + 8) == m(a + 3) as nat + 256 * (m(a + 4) as nat + 256 * ReadLE(m, a + 5, a + 8));
    assert ReadLE(m, a + 1, a + 8) == m(a + 1) as nat + 256 * (m(a + 2) as nat + 256 * ReadLE(m, a + 3, a + 8));
  }

  lemma WriteTouches(m: Mem, a: int, v: nat)
    ensures Touches(m, Write64(m, a, v), a, a + 8)
  {
  }

  lemma WordIsPow256()
    ensures Pow256(8) == WORD
  {
  }

  lemma Write64Spec(m: Mem, a: int, v: nat)
    requires v < WORD
    ensures Read64(Write64(m, a, v), a) == v
    ensures Touches(m, Write64(m, a, v), a, a + 8)
  {
    WordIsPow256();
    WriteSpec(m, a, 8, v);
  }

  /** A word outside the touched bytes reads as before. */
  lemma ReadOutside(m: Mem, m': Mem, lo: int, hi: int, a: int)
    requires Touches(m, m', lo, hi) && (a + 8 <= lo || hi <= a)
    ensures Read64(m', a) == Read64(m, a)
  {
    ReadFrame(m, m', a, a + 8);
  }
}
