/**
 64-bit words as sets of bit positions, position 0 being the most significant.
 A position is a six-bit shift count.
 */
module Words {
  type Word = bv64
  type Pos = bv6

  const ONE: Word := 1
  const ONES: Word := 0xffff_ffff_ffff_ffff

  /** `1ll << (63 - pos)`. */
  function At(p: Pos): Word {
    ONE << (63 - p)
  }

  predicate BitAt(x: Word, p: Pos) {
    x & At(p) != 0
  }

  ghost predicate Has(x: Word, s: iset<Pos>) {
    forall p: Pos :: p in s <==> BitAt(x, p)
  }

  /** The positions set in a word. */
  ghost function Positions(x: Word): (s: iset<Pos>)
    ensures Has(x, s)
  {
    iset p: Pos | BitAt(x, p)
  }

  // ---------------------------------------------------------------- one bit

  lemma LastBit(p: Pos)
    ensures p != 63 ==> At(p) & At(63) == 0
    ensures p != 63 ==> At(p) == At(p + 1) << 1
  {
  }

  lemma ShiftAnd(x: Word, y: Word)
    ensures (x << 1) & (y << 1) == (x & y) << 1
  {
  }

  lemma {:induction false} Apart(p: Pos, q: Pos)
    requires p != q
    ensures At(p) & At(q) == 0
    decreases 63 - p
  {
    LastBit(p);
    LastBit(q);
    if p != 63 && q != 63 {
      Apart(p + 1, q + 1);
      ShiftAnd(At(p + 1), At(q + 1));
    }
  }

  lemma NotZero(p: Pos)
    ensures At(p) != 0
  {
  }

  lemma OrAnd(x: Word, m: Word, k: Word)
    ensures (x | m) & k == (x & k) | (m & k)
    ensures m == k ==> (x | m) & k == k
  {
  }

  lemma OrAt(x: Word, p: Pos, q: Pos)
    ensures BitAt(x | At(p), q) <==> p == q || BitAt(x, q)
  {
    OrAnd(x, At(p), At(q));
    if p == q {
      NotZero(p);
    } else {
      Apart(p, q);
    }
  }

  lemma AndNotAt(x: Word, p: Pos, q: Pos)
    ensures BitAt(x & !At(p), q) <==> p != q && BitAt(x, q)
  {
  }

  lemma CutBefore(x: Word, p: Pos, q: Pos)
    requires q < p
    ensures !BitAt((x << p) >> p, q)
  {
  }

  lemma CutOne(x: Word, p: Pos, q: Pos)
    requires q >= p && BitAt(x, q)
    ensures BitAt((x << p) >> p, q)
  {
  }

  lemma CutZero(x: Word, p: Pos, q: Pos)
    requires q >= p && !BitAt(x, q)
    ensures !BitAt((x << p) >> p, q)
  {
  }

  lemma CutAt(x: Word, p: Pos, q: Pos)
    ensures BitAt((x << p) >> p, q) <==> p <= q && BitAt(x, q)
  {
    if q < p {
      CutBefore(x, p, q);
    } else if BitAt(x, q) {
      CutOne(x, p, q);
    } else {
      CutZero(x, p, q);
    }
  }

  lemma AllAt(p: Pos)
    ensures BitAt(ONES, p) && !BitAt(0, p)
  {
  }

  // ---------------------------------------------------------------- operations on words as sets

  /** Setting a bit adds its position. */
  lemma SetBit(x: Word, p: Pos)
    ensures Positions(x | At(p)) == Positions(x) + iset{p}
  {
    forall q ensures q in Positions(x | At(p)) <==> q in Positions(x) + iset{p} { OrAt(x, p, q); }
  }

  /** Clearing a bit removes its position. */
  lemma ClearBit(x: Word, p: Pos)
    ensures Positions(x & !At(p)) == Positions(x) - iset{p}
  {
    forall q ensures q in Positions(x & !At(p)) <==> q in Positions(x) - iset{p} { AndNotAt(x, p, q); }
  }

  ghost predicate FromOn(s: iset<Pos>, s': iset<Pos>, p: Pos) {
    forall q :: q in s' <==> p <= q && q in s
  }

  /** Shifting left and back cuts off the positions before p. */
  lemma CutBits(x: Word, p: Pos)
    ensures FromOn(Positions(x), Positions((x << p) >> p), p)
  {
    forall q ensures q in Positions((x << p) >> p) <==> p <= q && q in Positions(x) { CutAt(x, p, q); }
  }

  lemma AllBits()
    ensures forall p: Pos :: p in Positions(ONES)
    ensures Positions(0) == iset{}
  {
    forall p: Pos ensures BitAt(ONES, p) && !BitAt(0, p) { AllAt(p); }
  }

  // ---------------------------------------------------------------- leading zeros

  /** The bits before p are zero. */
  predicate ZerosBefore(x: Word, p: Pos) {
    x >> (63 - p) <= 1
  }

  lemma FirstZero(x: Word)
    ensures ZerosBefore(x, 0)
  {
  }

  lemma NextZero(x: Word, p: Pos, q: Pos)
    requires ZerosBefore(x, p) && !BitAt(x, p) && p < 63 && q == p + 1
    ensures ZerosBefore(x, q)
  {
  }

  lemma LastZero(x: Word)
    requires ZerosBefore(x, 63) && !BitAt(x, 63)
    ensures x == 0
  {
  }
}
