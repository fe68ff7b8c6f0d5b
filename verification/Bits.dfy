/**
 A 64-bit word as a set of numbers below 64, and the intrinsics `clz` and
 `popcnt` of src/np_common.h.
 */
module Bits {
  import opened Words

  /** The number i as a shift count. */
  function AsPos(i: nat): Pos
    requires i < 64
  {
    i as Pos
  }

  /** The numbers of these positions. */
  ghost function Numbers(s: iset<Pos>): set<nat> {
    set i: nat | i < 64 && AsPos(i) in s
  }

  ghost function Elements(x: Word): set<nat> {
    Numbers(Positions(x))
  }

  predicate Bit(x: Word, i: nat) {
    i < 64 && BitAt(x, AsPos(i))
  }

  function ClzFrom(x: Word, i: nat): (c: nat)
    requires i <= 64
    ensures i <= c <= 64 && (c < 64 ==> Bit(x, c))
    ensures forall j | i <= j < c :: !Bit(x, j)
    decreases 64 - i
  {
    if i == 64 || Bit(x, i) then i else ClzFrom(x, i + 1)
  }

  /** `clz`: the number of zeros in front of the first one. */
  function Clz(x: Word): (c: nat)
    ensures c <= 64
  {
    if x != 0 then ClzFrom(x, 0) else 64
  }

  /** How many of the first n bits are set. */
  function Ones(x: Word, n: nat): nat {
    if n == 0 then 0 else Ones(x, n - 1) + if Bit(x, n - 1) then 1 else 0
  }

  /** `popcnt`. */
  function Popcnt(x: Word): nat {
    Ones(x, 64)
  }

  // ---------------------------------------------------------------- numbers and shift counts

  lemma PosRoundTrip(i: nat)
    requires i < 64
    ensures AsPos(i) as nat == i
  {
  }

  lemma PosOrder(p: Pos, q: Pos)
    ensures p <= q <==> p as nat <= q as nat
    ensures p == q <==> p as nat == q as nat
  {
  }

  lemma PosesApart(i: nat, j: nat)
    requires i < 64 && j < 64
    ensures AsPos(i) == AsPos(j) <==> i == j
    ensures AsPos(i) <= AsPos(j) <==> i <= j
  {
    PosRoundTrip(i);
    PosRoundTrip(j);
    PosOrder(AsPos(i), AsPos(j));
  }

  lemma PosStep(p: Pos, q: Pos)
    requires q as nat == p as nat + 1
    ensures p < 63 && q == p + 1
  {
  }

  lemma PosSucc(n: nat)
    requires 0 < n < 64
    ensures AsPos(n - 1) < 63 && AsPos(n) == AsPos(n - 1) + 1
  {
    PosRoundTrip(n);
    PosRoundTrip(n - 1);
    PosStep(AsPos(n - 1), AsPos(n));
  }

  // ---------------------------------------------------------------- words as sets of numbers

  lemma BitIsElement(x: Word, i: nat)
    ensures Bit(x, i) <==> i in Elements(x)
  {
    assert Has(x, Positions(x));
  }

  lemma NumbersPlus(s: iset<Pos>, i: nat)
    requires i < 64
    ensures Numbers(s + iset{AsPos(i)}) == Numbers(s) + {i}
    ensures Numbers(s - iset{AsPos(i)}) == Numbers(s) - {i}
  {
    forall j: nat | j < 64 ensures AsPos(j) == AsPos(i) <==> j == i { PosesApart(i, j); }
  }

  /** Setting a bit adds its number. */
  lemma SetElement(x: Word, i: nat)
    requires i < 64
    ensures Elements(x | At(AsPos(i))) == Elements(x) + {i}
  {
    SetBit(x, AsPos(i));
    NumbersPlus(Positions(x), i);
  }

  /** Clearing a bit removes its number. */
  lemma ClearElement(x: Word, i: nat)
    requires i < 64
    ensures Elements(x & !At(AsPos(i))) == Elements(x) - {i}
  {
    ClearBit(x, AsPos(i));
    NumbersPlus(Positions(x), i);
  }

  lemma NumbersFrom(s: iset<Pos>, s': iset<Pos>, i: nat)
    requires i < 64 && FromOn(s, s', AsPos(i))
    ensures Numbers(s') == set j | j in Numbers(s) && i <= j
  {
    forall j: nat | j < 64 ensures AsPos(i) <= AsPos(j) <==> i <= j { PosesApart(i, j); }
  }

  /** Shifting left and back cuts off the numbers below i. */
  lemma CutElements(x: Word, i: nat, p: Pos)
    requires i < 64 && p == AsPos(i)
    ensures Elements((x << p) >> p) == set j | j in Elements(x) && i <= j
  {
    CutBits(x, p);
    NumbersFrom(Positions(x), Positions((x << p) >> p), i);
  }

  lemma FullAndEmpty()
    ensures forall i: nat :: i in Elements(ONES) <==> i < 64
    ensures Elements(0) == {}
  {
    AllBits();
  }

  // ---------------------------------------------------------------- clz and popcnt

  lemma {:induction false} LeadingZeros(x: Word, n: nat)
    requires n < 64 && forall i | 0 <= i < n :: !Bit(x, i)
    ensures ZerosBefore(x, AsPos(n))
  {
    if n == 0 {
      FirstZero(x);
    } else {
      LeadingZeros(x, n - 1);
      assert !Bit(x, n - 1);
      PosSucc(n);
      NextZero(x, AsPos(n - 1), AsPos(n));
    }
  }

  /** A word without elements is zero. */
  lemma NoElements(x: Word)
    ensures Elements(x) == {} <==> x == 0
  {
    FullAndEmpty();
    if Elements(x) == {} {
      forall i: nat ensures !Bit(x, i) { BitIsElement(x, i); }
      LeadingZeros(x, 63);
      assert !Bit(x, 63);
      LastZero(x);
    }
  }

  /** `clz` is the least element, or 64. */
  lemma ClzIsFirst(x: Word)
    ensures x == 0 ==> Clz(x) == 64
    ensures x != 0 ==> Clz(x) in Elements(x) && forall j | j in Elements(x) :: Clz(x) <= j
  {
    NoElements(x);
    forall i: nat ensures Bit(x, i) <==> i in Elements(x) { BitIsElement(x, i); }
  }

  /** `popcnt` is the number of elements. */
  lemma PopcntCounts(x: Word)
    ensures Popcnt(x) == |Elements(x)|
  {
    OnesCount(x, 64);
    assert Elements(x) == Below(Elements(x), 64);
  }

  /** The elements below n. */
  ghost function Below(s: set<nat>, n: nat): set<nat> {
    set i | i in s && i < n
  }

  lemma OneMore(s: set<nat>, n: nat)
    ensures |Below(s, 0)| == 0
    ensures |Below(s, n + 1)| == |Below(s, n)| + if n in s then 1 else 0
  {
    assert Below(s, 0) == {};
    assert Below(s, n + 1) == if n in s then Below(s, n) + {n} else Below(s, n);
  }

  lemma {:induction false} OnesCount(x: Word, n: nat)
    ensures Ones(x, n) == |Below(Elements(x), n)|
  {
    if n > 0 {
      OnesCount(x, n - 1);
      BitIsElement(x, n - 1);
      OneMore(Elements(x), n - 1);
    } else {
      OneMore(Elements(x), 0);
    }
  }
}
