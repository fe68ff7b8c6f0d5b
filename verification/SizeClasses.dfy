/**
 The size classes of src/np_alloc.cpp: the generated list of block sizes, the
 table that finds a request's class in one step, and the sizes a request adds up to.
 */
module SizeClasses {

  const L1_CACHE_ALIGN: nat := 64
  const DEFAULT_ALIGN: nat := 16
  const MAX_BLOCK_SIZE: nat := 8192 + L1_CACHE_ALIGN - DEFAULT_ALIGN
  const SIZEOF_HEADER: nat := 24
  const FENCE: nat := 16

  /** The list must reach this size. */
  const LIMIT: nat := MAX_BLOCK_SIZE + DEFAULT_ALIGN

  /** `calc_aligned_size`. */
  function CalcAlignedSize(actual: nat, aligned: nat): nat
    requires aligned > 0
  {
    (actual + aligned - 1) / aligned * aligned
  }

  /** The aligned size of the header. */
  const HEADER: nat := 32

  lemma HeaderIsAligned()
    ensures HEADER == CalcAlignedSize(SIZEOF_HEADER, DEFAULT_ALIGN)
  {
  }

  /** What a request of `bytes` needs: header, a fence on each side, and the bytes. */
  function TotalSize(bytes: nat): nat {
    bytes + HEADER + 2 * FENCE
  }

  lemma DivBounds(x: nat, c: nat)
    requires c > 0
    ensures x / c * c <= x < x / c * c + c
  {
  }

  lemma {:induction false} MultiplesGrow(i: nat, j: nat, c: nat)
    requires i <= j
    ensures i * c <= j * c
    decreases j - i
  {
    if i < j {
      MultiplesGrow(i, j - 1, c);
      assert j * c == (j - 1) * c + c;
    }
  }

  lemma Ordered(i: nat, j: nat, c: nat)
    requires i * c < j * c + c
    ensures i * c <= j * c
  {
    assert (j + 1) * c == j * c + c;
    if i > j {
      MultiplesGrow(j + 1, i, c);
    } else {
      MultiplesGrow(i, j, c);
    }
  }

  /** For every alignment the aligned size is the least multiple of it that fits. */
  lemma AlignedIsLeastMultiple(actual: nat, aligned: nat, k: nat)
    requires aligned > 0
    ensures exists q: nat :: CalcAlignedSize(actual, aligned) == q * aligned
    ensures actual <= CalcAlignedSize(actual, aligned)
    ensures actual <= k * aligned ==> CalcAlignedSize(actual, aligned) <= k * aligned
  {
    var q := (actual + aligned - 1) / aligned;
    DivBounds(actual + aligned - 1, aligned);
    assert CalcAlignedSize(actual, aligned) == q * aligned;
    if actual <= k * aligned {
      Ordered(q, k, aligned);
    }
  }

  // ---------------------------------------------------------------- the generated list

  /** `j << i`. */
  function Shl(j: nat, i: nat): nat {
    if i == 0 then j else 2 * Shl(j, i - 1)
  }

  /** The k-th size: 64, 128, 192, 256, then four steps in each doubling. */
  function SizeAt(k: nat): nat {
    if k < 4 then L1_CACHE_ALIGN * (k + 1)
    else Shl(4 + (k - 4) % 4, (k - 4) / 4) * L1_CACHE_ALIGN + L1_CACHE_ALIGN
  }

  ghost predicate Generated(sizes: seq<nat>, limit: nat) {
    && |sizes| >= 5
    && (forall k | 0 <= k < |sizes| :: sizes[k] == SizeAt(k))
    && (forall k | 4 <= k < |sizes| - 1 :: sizes[k] < limit)
    && sizes[|sizes| - 1] >= limit
  }

  lemma {:induction false} ShlFacts(j: nat, i: nat)
    ensures Shl(j + 1, i) == Shl(j, i) + Shl(1, i)
    ensures Shl(2 * j, i) == Shl(j, i + 1)
    ensures i < Shl(1, i)
  {
    if i > 0 {
      ShlFacts(j, i - 1);
    }
  }

  lemma {:induction false} ShlLinear(j: nat, i: nat)
    ensures Shl(0, i) == 0 && (j >= 4 ==> Shl(j, i) >= Shl(1, i) + Shl(1, i) + Shl(1, i) + Shl(1, i))
    decreases j
  {
    ShlFacts(0, i);
    if j > 0 {
      ShlFacts(j - 1, i);
      ShlFacts(0, i);
      ShlFacts(1, i);
      ShlFacts(2, i);
      ShlFacts(3, i);
      ShlLinear(j - 1, i);
    }
  }

  /** `get_alloc_size_list`, for any limit: the unbounded nested loop ends. */
  method GetAllocSizeList(limit: nat) returns (sizes: seq<nat>)
    ensures Generated(sizes, limit)
  {
    sizes := [];
    for i := 0 to 4
      invariant |sizes| == i && forall k | 0 <= k < i :: sizes[k] == SizeAt(k)
    {
      sizes := sizes + [L1_CACHE_ALIGN * (i + 1)];
    }
    var i := 0;
    while true
      invariant |sizes| == 4 + 4 * i
      invariant forall k | 0 <= k < |sizes| :: sizes[k] == SizeAt(k)
      invariant forall k | 4 <= k < |sizes| :: sizes[k] < limit
      invariant i <= limit
      decreases limit - i
    {
      for j := 4 to 8
        invariant |sizes| == 4 * i + j
        invariant forall k | 0 <= k < |sizes| :: sizes[k] == SizeAt(k)
        invariant forall k | 4 <= k < |sizes| :: sizes[k] < limit
        invariant j > 4 ==> i + 64 <= limit
      {
        var size := Shl(j, i) * L1_CACHE_ALIGN + L1_CACHE_ALIGN;
        assert size == SizeAt(|sizes|) by {
          assert |sizes| - 4 == 4 * i + (j - 4);
        }
        sizes := sizes + [size];
        if size >= limit {
          return;
        }
        ShlFacts(0, i);
        ShlLinear(j, i);
      }
      i := i + 1;
    }
  }

  /** Sizes grow; above 256 a request wastes less than a quarter of what it needs. */
  lemma SizeStep(k: nat)
    ensures SizeAt(k) < SizeAt(k + 1)
    ensures SizeAt(k) % L1_CACHE_ALIGN == 0
    ensures k >= 3 ==> 4 * (SizeAt(k + 1) - SizeAt(k) - 1) < SizeAt(k) + 1
  {
    if k >= 4 {
      NextSize(k);
      FourSteps(k);
    }
  }

  /** A size above 256 is a cache line past at least four steps of its doubling. */
  lemma FourSteps(k: nat)
    requires k >= 4
    ensures exists n: nat :: SizeAt(k) == n * L1_CACHE_ALIGN + L1_CACHE_ALIGN && n >= 4 * Shl(1, (k - 4) / 4)
    ensures SizeAt(k) % L1_CACHE_ALIGN == 0 && Shl(1, (k - 4) / 4) > 0
  {
    var n := Shl(4 + (k - 4) % 4, (k - 4) / 4);
    ShlLinear(4 + (k - 4) % 4, (k - 4) / 4);
    ShlFacts(0, (k - 4) / 4);
    assert SizeAt(k) == n * L1_CACHE_ALIGN + L1_CACHE_ALIGN;
  }

  /** Within a doubling and across its end, the next size is one step of the doubling further. */
  lemma NextSize(k: nat)
    requires k >= 4
    ensures SizeAt(k + 1) == SizeAt(k) + Shl(1, (k - 4) / 4) * L1_CACHE_ALIGN
  {
    var i, j := (k - 4) / 4, 4 + (k - 4) % 4;
    assert SizeAt(k) == Shl(j, i) * L1_CACHE_ALIGN + L1_CACHE_ALIGN;
    ShlFacts(j, i);
    if j < 7 {
      assert (k + 1 - 4) / 4 == i && 4 + (k + 1 - 4) % 4 == j + 1;
    } else {
      assert (k + 1 - 4) / 4 == i + 1 && 4 + (k + 1 - 4) % 4 == 4;
      ShlFacts(4, i);
    }
  }

  lemma {:induction false} SizesIncrease(j: nat, k: nat)
    requires j < k
    ensures SizeAt(j) < SizeAt(k)
  {
    SizeStep(k - 1);
    if j < k - 1 {
      SizesIncrease(j, k - 1);
    }
  }

  ghost predicate StrictlyIncreasing(sizes: seq<nat>) {
    forall j, k | 0 <= j < k < |sizes| :: sizes[j] < sizes[k]
  }

  /** Whatever the limit: the list is strictly increasing, and all its sizes are multiples of a cache line. */
  lemma GeneratedSizes(sizes: seq<nat>, limit: nat)
    requires Generated(sizes, limit)
    ensures StrictlyIncreasing(sizes)
    ensures forall k | 0 <= k < |sizes| :: sizes[k] % L1_CACHE_ALIGN == 0
  {
    forall j, k | 0 <= j < k < |sizes| ensures sizes[j] < sizes[k] { SizesIncrease(j, k); }
    forall k | 0 <= k < |sizes| ensures sizes[k] % L1_CACHE_ALIGN == 0 { SizeStep(k); }
  }

  // ---------------------------------------------------------------- finding the class of a size

  ghost predicate IsClassOf(sizes: seq<nat>, n: nat, idx: nat) {
    idx < |sizes| && n <= sizes[idx] && forall k | 0 <= k < idx :: sizes[k] < n
  }

  /** A request above 256 that the list covers wastes less than a quarter of its size. */
  lemma WasteBound(sizes: seq<nat>, limit: nat, n: nat, idx: nat)
    requires Generated(sizes, limit) && IsClassOf(sizes, n, idx) && n > 256
    ensures 4 * (sizes[idx] - n) < n
  {
    assert sizes[idx] == SizeAt(idx) && sizes[3] == SizeAt(3) == 256;
    if idx > 0 {
      assert sizes[idx - 1] == SizeAt(idx - 1) < n;
      SizeStep(idx - 1);
    }
  }

  method MaxOf(sizes: seq<nat>) returns (max: nat)
    ensures sizes == [] ==> max == 0
    ensures sizes != [] ==> max in sizes
    ensures forall k | 0 <= k < |sizes| :: sizes[k] <= max
  {
    max := 0;
    for i := 0 to |sizes|
      invariant forall k | 0 <= k < i :: sizes[k] <= max
      invariant i == 0 ==> max == 0
      invariant i > 0 ==> max in sizes
    {
      if max < sizes[i] {
        max := sizes[i];
      }
    }
  }

  /**
   The table of `init`: one entry for each size up to the largest class, each
   the index of the least class that fits.
   */
  method BuildTable(sizes: seq<nat>) returns (table: array<nat>, max: nat)
    requires sizes != [] && StrictlyIncreasing(sizes)
    ensures fresh(table) && table.Length == max + 1 && max == sizes[|sizes| - 1]
    ensures forall n | 0 <= n <= max :: IsClassOf(sizes, n, table[n])
  {
    max := MaxOf(sizes);
    table := new nat[max + 1];
    var cur := 0;
    for idx := 0 to |sizes|
      invariant 0 <= cur <= max + 1
      invariant idx == 0 ==> cur == 0
      invariant idx > 0 ==> cur == sizes[idx - 1] + 1
      invariant forall n | 0 <= n < cur :: IsClassOf(sizes, n, table[n])
    {
      while sizes[idx] >= cur
        invariant cur <= sizes[idx] + 1
        invariant idx > 0 ==> sizes[idx - 1] < cur
        invariant forall n | 0 <= n < cur :: IsClassOf(sizes, n, table[n])
      {
        table[cur] := idx;
        cur := cur + 1;
      }
    }
  }

  // ---------------------------------------------------------------- the shipped list

  const CLASSES: seq<nat> := [
    64, 128, 192, 256,
    320, 384, 448, 512,
    576, 704, 832, 960,
    1088, 1344, 1600, 1856,
    2112, 2624, 3136, 3648,
    4160, 5184, 6208, 7232,
    8256]

  const MAX_ALLOC: nat := 8256

  lemma ShippedSizeAt(k: nat)
    requires k < 25
    ensures SizeAt(k) == CLASSES[k]
  {
    if k >= 4 {
      var i, j := (k - 4) / 4, 4 + (k - 4) % 4;
      assert i == 0 || i == 1 || i == 2 || i == 3 || i == 4 || i == 5;
      assert j == 4 || j == 5 || j == 6 || j == 7;
    }
  }

  /** With the shipped constants the generator yields exactly these 25 classes, within the asserted 32. */
  lemma ShippedList(sizes: seq<nat>)
    requires Generated(sizes, LIMIT)
    ensures sizes == CLASSES && |sizes| <= 32 && MAX_ALLOC == sizes[|sizes| - 1]
  {
    forall k: nat | k < 25 ensures SizeAt(k) == CLASSES[k] { ShippedSizeAt(k); }
    forall k: nat | k < 24 ensures SizeAt(k) < LIMIT { ShippedClass(k); }
    assert SizeAt(24) >= LIMIT;
  }

  lemma ShippedClass(i: nat)
    requires i < |CLASSES|
    ensures 64 <= CLASSES[i] <= MAX_ALLOC && CLASSES[i] % 64 == 0
    ensures i < 24 ==> CLASSES[i] < MAX_ALLOC
  {
  }

  predicate IsClassFrom(c: nat, i: nat)
    decreases |CLASSES| - i
  {
    i < |CLASSES| && (CLASSES[i] == c || IsClassFrom(c, i + 1))
  }

  /** c is one of the shipped classes. */
  predicate IsClass(c: nat) {
    IsClassFrom(c, 0)
  }

  lemma {:induction false} ClassInList(i: nat, k: nat)
    requires i <= k < |CLASSES|
    ensures IsClassFrom(CLASSES[k], i)
    decreases k - i
  {
    if i < k {
      ClassInList(i + 1, k);
    }
  }

  lemma {:induction false} ClassFromList(c: nat, i: nat)
    requires IsClassFrom(c, i)
    ensures c in CLASSES && 64 <= c <= MAX_ALLOC && c % 64 == 0
    decreases |CLASSES| - i
  {
    if CLASSES[i] == c {
      ShippedClass(i);
    } else {
      ClassFromList(c, i + 1);
    }
  }

  function ClassIndexFrom(n: nat, i: nat): (idx: nat)
    requires i < |CLASSES| && n <= MAX_ALLOC
    ensures i <= idx < |CLASSES| && n <= CLASSES[idx]
    ensures forall k | i <= k < idx :: CLASSES[k] < n
    decreases |CLASSES| - i
  {
    if n <= CLASSES[i] then i else ClassIndexFrom(n, i + 1)
  }

  /** The class that serves a total size: `mapping_pool_[n]`. */
  function ClassOf(n: nat): (c: nat)
    requires n <= MAX_ALLOC
    ensures n <= c <= MAX_ALLOC && 64 <= c && c % 64 == 0 && IsClass(c)
  {
    var i := ClassIndexFrom(n, 0);
    ShippedClass(i);
    ClassInList(0, i);
    CLASSES[i]
  }

  lemma {:induction false} ClassesGrow(i: nat, k: nat)
    requires i <= k < |CLASSES|
    ensures CLASSES[i] <= CLASSES[k]
    decreases k - i
  {
    if i < k {
      ClassesGrow(i, k - 1);
      assert CLASSES[k - 1] <= CLASSES[k];
    }
  }

  /** A class serves a size just when it is the least of all that fit it. */
  ghost predicate LeastFit(n: nat, c: nat) {
    c in CLASSES && n <= c && forall e | e in CLASSES && n <= e :: c <= e
  }

  lemma ClassIsLeast(n: nat, c: nat)
    requires n <= MAX_ALLOC
    ensures c == ClassOf(n) <==> LeastFit(n, c)
  {
    var i := ClassIndexFrom(n, 0);
    forall e | e in CLASSES && n <= e ensures ClassOf(n) <= e {
      var k :| 0 <= k < |CLASSES| && CLASSES[k] == e;
      ClassesGrow(i, k);
    }
    assert CLASSES[i] in CLASSES;
  }

  /** The table's class is the one `ClassOf` names. */
  lemma TableGivesClass(n: nat, idx: nat)
    requires n <= MAX_ALLOC && IsClassOf(CLASSES, n, idx)
    ensures idx == ClassIndexFrom(n, 0) && CLASSES[idx] == ClassOf(n)
  {
    var i := ClassIndexFrom(n, 0);
  }

  /** `init` with the shipped constants: the table sends each size to the class `ClassOf` names. */
  method InitTable() returns (sizes: seq<nat>, table: array<nat>, max: nat)
    ensures sizes == CLASSES && max == MAX_ALLOC && fresh(table) && table.Length == max + 1
    ensures forall n | 0 <= n <= max :: IsClassOf(sizes, n, table[n]) && sizes[table[n]] == ClassOf(n)
  {
    sizes := GetAllocSizeList(LIMIT);
    GeneratedSizes(sizes, LIMIT);
    ShippedList(sizes);
    table, max := BuildTable(sizes);
    forall n | 0 <= n <= max ensures sizes[table[n]] == ClassOf(n) { TableGivesClass(n, table[n]); }
  }
}
