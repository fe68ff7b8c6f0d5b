/**
 The per-size pool of src/np_alloc.cpp on values: what each operation of
 `tls_ps_pool` does to the pool's fields and to memory, and where slots lie.
 */
module Pool {
  import opened Memory
  import M = Mmap
  import SizeClasses

  /** sizeof(pool): the words `next` and `pool_curr` at the start of a chunk. */
  const POOL_HEADER: nat := 16

  /**
   The fields of a `tls_ps_pool`; `inUse` is `allocated_`, a uint64. `net` and
   `peak` are history: what `allocated_` would be without wrapping, which is
   negative after enough frees of other threads' blocks, and the most it has been.
   */
  datatype CPool = CPool(head: Ptr, free: Ptr, inUse: nat, net: int, peak: nat)

  /** Where a chunk keeps `pool_curr`. */
  function CurrOf(p: Ptr): Ptr {
    p + 8
  }

  /** `get_free_count`, for the chunk at the head. */
  function FreeCount(p: CPool, m: Mem, cls: nat): nat
    requires cls > 0
  {
    var freeSize := p.head + M.CHUNK_SIZE - Read64(m, CurrOf(p.head));
    if freeSize <= 0 then 0 else freeSize / cls
  }

  /** Whether `alloc_from_local_pool` can carve without a new chunk. */
  predicate HasRoom(p: CPool, m: Mem, cls: nat)
    requires cls > 0
  {
    p.head != 0 && FreeCount(p, m, cls) != 0
  }

  function Inc(n: nat): nat {
    (n + 1) % WORD
  }

  function Dec(n: nat): nat {
    (n + WORD - 1) % WORD
  }

  /** `++allocated_`. */
  function Counted(p: CPool): CPool {
    p.(inUse := Inc(p.inUse), net := p.net + 1, peak := if p.peak < p.net + 1 then p.net + 1 else p.peak)
  }

  /** `alloc` from the free list: the block is `p.free`. */
  function TakeFree(p: CPool, m: Mem): CPool {
    Counted(p.(free := Read64(m, p.free)))
  }

  /** `alloc_from_local_pool` with room: the block is the old `pool_curr`. */
  function CarvePtr(p: CPool, m: Mem): Ptr {
    Read64(m, CurrOf(p.head))
  }

  function CarveMem(p: CPool, m: Mem, cls: nat): Mem {
    Write64(m, CurrOf(p.head), CarvePtr(p, m) + cls)
  }

  /** `alloc_from_global` once it has the chunk. */
  function InstallMem(p: CPool, m: Mem, chunk: Ptr): Mem {
    Write64(Write64(m, CurrOf(chunk), chunk + POOL_HEADER), chunk, p.head)
  }

  function Installed(p: CPool, chunk: Ptr): CPool {
    p.(head := chunk)
  }

  /** `dealloc`. */
  function GiveBackMem(p: CPool, m: Mem, ptr: Ptr): Mem {
    Write64(m, ptr, p.free)
  }

  function GaveBack(p: CPool, ptr: Ptr): CPool {
    p.(free := ptr, inUse := Dec(p.inUse), net := p.net - 1)
  }

  /** One round of the loop of `deinit`: the next head, read before the chunk is handed back. */
  function Unlinked(p: CPool, m: Mem): CPool {
    p.(head := Read64(m, p.head))
  }

  // ---------------------------------------------------------------- where slots lie

  /** How many times c fits in a room: a division, by repeated subtraction. */
  function Fit(room: nat, c: nat): nat
    requires c > 0
  {
    if room < c then 0 else 1 + Fit(room - c, c)
  }

  /** How many blocks of a class a chunk holds. */
  function Cap(cls: nat): nat
    requires cls > 0
  {
    Fit(M.CHUNK_SIZE - POOL_HEADER, cls)
  }

  /** The i-th block of the chunk at p. */
  function Slot(p: Ptr, cls: nat, i: nat): Ptr {
    if i == 0 then p + POOL_HEADER else Slot(p, cls, i - 1) + cls
  }

  predicate GoodClass(cls: nat) {
    64 <= cls <= M.CHUNK_SIZE - POOL_HEADER && cls % 64 == 0
  }

  lemma MulStep(q: nat, c: nat)
    ensures (q + 1) * c == q * c + c
  {
  }

  lemma {:induction false} FitBounds(room: nat, c: nat)
    requires c > 0
    ensures Fit(room, c) * c <= room < Fit(room, c) * c + c
  {
    if room >= c {
      FitBounds(room - c, c);
      MulStep(Fit(room - c, c), c);
    }
  }

  lemma MulMono(i: nat, j: nat, c: nat)
    requires i < j
    ensures i * c + c <= j * c
  {
    assert j * c == i * c + (j - i) * c;
    assert (j - i) * c == c + (j - i - 1) * c;
  }

  lemma DivUnique(x: nat, c: nat, q: nat)
    requires c > 0 && q * c <= x < q * c + c
    ensures x / c == q
  {
    SizeClasses.DivBounds(x, c);
    var d := x / c;
    if d < q {
      MulMono(d, q, c);
    } else if q < d {
      MulMono(q, d, c);
    }
  }

  lemma FitIsDiv(room: nat, c: nat)
    requires c > 0
    ensures Fit(room, c) == room / c
  {
    FitBounds(room, c);
    DivUnique(room, c, Fit(room, c));
  }

  lemma {:induction false} SlotIs(p: Ptr, cls: nat, i: nat)
    ensures Slot(p, cls, i) == p + POOL_HEADER + i * cls
  {
    if i > 0 {
      SlotIs(p, cls, i - 1);
      assert i * cls == (i - 1) * cls + cls;
    }
  }

  /** In numbers: a chunk is 1 MiB, its blocks start after 16 bytes, one beside the other. */
  lemma SlotNumbers(p: Ptr, cls: nat, i: nat)
    requires GoodClass(cls)
    ensures Slot(p, cls, i) == p + 16 + i * cls
    ensures Cap(cls) == (0x10_0000 - 16) / cls
    ensures i < Cap(cls) <==> Slot(p, cls, i) + cls <= p + 0x10_0000
  {
    SlotIs(p, cls, i);
    FitIsDiv(0x10_0000 - 16, cls);
    FitBounds(0x10_0000 - 16, cls);
    var n := Cap(cls);
    if i < n {
      MulMono(i, n, cls);
    } else if n < i {
      MulMono(n, i, cls);
    }
  }

  /** Later slots lie further. */
  lemma {:induction false} SlotsApart(p: Ptr, cls: nat, i: nat, j: nat)
    requires i < j
    ensures Slot(p, cls, i) + cls <= Slot(p, cls, j)
  {
    if i < j - 1 {
      SlotsApart(p, cls, i, j - 1);
    }
  }

  lemma {:induction false} FitLeaves(p: Ptr, cls: nat, i: nat, room: nat)
    requires cls > 0 && i <= Fit(room, cls)
    ensures Slot(p, cls, i) - p - POOL_HEADER <= room
    ensures Fit(room - (Slot(p, cls, i) - p - POOL_HEADER), cls) == Fit(room, cls) - i
  {
    if i > 0 {
      FitLeaves(p, cls, i - 1, room);
    }
  }

  /** A slot below the capacity lies inside its chunk, past the pool header. */
  lemma SlotInside(p: Ptr, cls: nat, i: nat)
    requires GoodClass(cls) && i < Cap(cls)
    ensures p + POOL_HEADER <= Slot(p, cls, i) && Slot(p, cls, i) + cls <= p + M.CHUNK_SIZE
    ensures Slot(p, cls, i) + cls == Slot(p, cls, i + 1)
  {
    FitLeaves(p, cls, i + 1, M.CHUNK_SIZE - POOL_HEADER);
    if i > 0 {
      SlotsApart(p, cls, 0, i);
    }
  }

  /** `pool_curr` stays within the chunk. */
  lemma CurrInside(p: Ptr, cls: nat, k: nat)
    requires GoodClass(cls) && k <= Cap(cls)
    ensures p < Slot(p, cls, k) <= p + M.CHUNK_SIZE
  {
    FitLeaves(p, cls, k, M.CHUNK_SIZE - POOL_HEADER);
    if k > 0 {
      SlotsApart(p, cls, 0, k);
    }
  }

  /** Slots of a class that is a multiple of 64 are congruent modulo 64. */
  lemma {:induction false} SlotAligned(p: Ptr, cls: nat, i: nat)
    requires cls % 64 == 0
    ensures (Slot(p, cls, i) - p - POOL_HEADER) % 64 == 0
  {
    if i > 0 {
      SlotAligned(p, cls, i - 1);
    }
  }

  /** With `pool_curr` at the k-th slot, `get_free_count` is the number of slots left. */
  lemma FreeCountIs(p: CPool, m: Mem, cls: nat, k: nat)
    requires GoodClass(cls) && k <= Cap(cls) && Read64(m, CurrOf(p.head)) == Slot(p.head, cls, k)
    ensures FreeCount(p, m, cls) == Cap(cls) - k
  {
    CurrInside(p.head, cls, k);
    FitLeaves(p.head, cls, k, M.CHUNK_SIZE - POOL_HEADER);
    FitIsDiv(p.head + M.CHUNK_SIZE - Slot(p.head, cls, k), cls);
  }

  /** The next slot of the current chunk fits. */
  predicate NextFits(p: CPool, m: Mem, cls: nat) {
    p.head != 0 && Read64(m, CurrOf(p.head)) + cls <= p.head + M.CHUNK_SIZE
  }

  /** `get_free_count` is zero just when the next slot would pass the end of the chunk. */
  lemma RoomIffNextFits(p: CPool, m: Mem, cls: nat)
    requires cls > 0
    ensures HasRoom(p, m, cls) <==> NextFits(p, m, cls)
  {
    var x := p.head + M.CHUNK_SIZE - Read64(m, CurrOf(p.head));
    if x > 0 {
      SizeClasses.DivBounds(x, cls);
      if x / cls > 0 {
        MulMono(0, x / cls, cls);
      }
    }
  }
}
