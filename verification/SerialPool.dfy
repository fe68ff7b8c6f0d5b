/**
 `tls_ps_pool` and the block layer of `thread_local_pool` as the source writes
 them: methods that update the pool's fields and memory. Each is proved to do
 what the function of the same step in `Pool` or `Blocks` says, which is what
 the machine of the whole allocator does.
 */
module SerialPool {
  import L = LfStack
  import LT = LfStackTheorems
  import M = Mmap
  import opened Memory
  import opened SizeClasses
  import opened Blocks
  import opened Pool
  import opened SerialStack
  import opened SerialMmap

  /** b has room for a link inside a held chunk, past the chunk's header. */
  ghost predicate InBlockSpace(held: set<Ptr>, b: Ptr) {
    exists p :: p in held && p + POOL_HEADER <= b && b + 8 <= p + M.CHUNK_SIZE
  }

  /** Nothing of the chain lies in the bytes touched. */
  lemma ChainUntouched(s: seq<Ptr>, m: Mem, m': Mem, lo: int, hi: int, head: Ptr)
    requires L.Chain(s, Link(m), head) && Touches(m, m', lo, hi)
    requires forall q | q in s :: q + 8 <= lo || hi <= q
    ensures L.Chain(s, Link(m'), head)
  {
    forall q | q in s ensures Link(m')(q) == Link(m)(q) { ReadOutside(m, m', lo, hi, q); }
    L.ChainFrame(s, Link(m), Link(m'), head);
  }

  lemma DoneOne(all: seq<Ptr>, done: seq<Ptr>, rest: seq<Ptr>, p: Ptr, base: seq<Ptr>, held: set<Ptr>)
    requires all == done + rest && rest != [] && rest[0] == p
    ensures all == (done + [p]) + rest[1..]
    ensures [p] + (Reversed(done) + base) == Reversed(done + [p]) + base
    ensures held - LT.ToSet(done) - {p} == held - LT.ToSet(done + [p])
  {
    ReversedAppend(done, [p]);
  }

  /** What `alloc_from_local_pool` does to pool p and memory m. */
  ghost predicate CarvedLocally(p: CPool, m: Mem, cls: nat, p': CPool, m': Mem, ptr: Ptr) {
    if NextFits(p, m, cls) then p' == p && ptr == CarvePtr(p, m) && m' == CarveMem(p, m, cls)
    else
      var m1 := InstallMem(p, m, p'.head);
      p' == Installed(p, p'.head) && ptr == CarvePtr(p', m1) && m' == CarveMem(p', m1, cls)
  }

  /** What `alloc` does: the free list first, then the current chunk, then a new one. */
  ghost predicate Served(p: CPool, m: Mem, cls: nat, p': CPool, m': Mem, ptr: Ptr) {
    if p.free != 0 then p' == TakeFree(p, m) && m' == m && ptr == p.free
    else exists q :: CarvedLocally(p, m, cls, q, m', ptr) && p' == Counted(q)
  }

  class TlsPsPool {
    const ram: Ram
    const mgr: ChunkManager
    const cls: nat
    var head: Ptr
    var free: Ptr
    var inUse: nat
    ghost var net: int
    ghost var peak: nat
    /** The chunk list and the free list. */
    ghost var chunks: seq<Ptr>
    ghost var frees: seq<Ptr>

    ghost function AsPool(): CPool
      reads this
    {
      CPool(head, free, inUse, net, peak)
    }

    ghost predicate Valid()
      reads this, mgr, mgr.free, ram
    {
      && mgr.ram == ram && mgr.Valid() && GoodClass(cls)
      && L.Chain(chunks, Link(ram.m), head) && L.NoDup(chunks) && (forall p | p in chunks :: p in mgr.held)
      && L.Chain(frees, Link(ram.m), free) && NodesOk(frees) && (forall b | b in frees :: InBlockSpace(mgr.held, b))
    }

    constructor (mgr: ChunkManager, cls: nat)
      requires mgr.Valid() && GoodClass(cls)
      ensures Valid() && this.mgr == mgr && this.cls == cls && AsPool() == CPool(0, 0, 0, 0, 0)
    {
      this.mgr, ram, this.cls := mgr, mgr.ram, cls;
      head, free, inUse, net, peak := 0, 0, 0, 0, 0;
      chunks, frees := [], [];
    }

    /** A write to the header of a held chunk is seen by no free list and by no free chunk. */
    lemma HeaderWrite(m': Mem, p: Ptr, lo: int, hi: int)
      requires Valid() && p in mgr.held && p <= lo && hi <= p + POOL_HEADER && Touches(ram.m, m', lo, hi)
      ensures L.Chain(frees, Link(m'), free) && L.Chain(mgr.free.items, Link(m'), mgr.free.head.ptr)
    {
      forall b | b in frees ensures b + 8 <= lo || hi <= b {
        var q :| q in mgr.held && q + POOL_HEADER <= b && b + 8 <= q + M.CHUNK_SIZE;
        if p != q { M.ChunksApart(mgr.base, p, q); }
      }
      ChainUntouched(frees, ram.m, m', lo, hi, free);
      forall q | q in mgr.free.items ensures q + 8 <= lo || hi <= q { M.ChunksApart(mgr.base, p, q); }
      ChainUntouched(mgr.free.items, ram.m, m', lo, hi, mgr.free.head.ptr);
    }

    /** Nor by the chunk list, if the chunk is not on it or its link is spared. */
    lemma ListWrite(m': Mem, p: Ptr, lo: int, hi: int)
      requires Valid() && p in mgr.held && p <= lo && hi <= p + POOL_HEADER && Touches(ram.m, m', lo, hi)
      requires p in chunks ==> p + 8 <= lo
      ensures L.Chain(chunks, Link(m'), head)
    {
      forall q | q in chunks ensures q + 8 <= lo || hi <= q {
        if p != q { M.ChunksApart(mgr.base, p, q); }
      }
      ChainUntouched(chunks, ram.m, m', lo, hi, head);
    }

    /** What the two writes of alloc_from_global leave behind. */
    lemma InstallKeeps(m': Mem, chunk: Ptr)
      requires Valid() && chunk in mgr.held && chunk !in chunks && m' == InstallMem(AsPool(), ram.m, chunk)
      ensures 0 < chunk && L.Chain([chunk] + chunks, Link(m'), chunk) && L.NoDup([chunk] + chunks)
      ensures L.Chain(frees, Link(m'), free) && L.Chain(mgr.free.items, Link(m'), mgr.free.head.ptr)
    {
      HeadFits();
      var m1 := Write64(ram.m, CurrOf(chunk), chunk + POOL_HEADER);
      WriteTouches(ram.m, CurrOf(chunk), chunk + POOL_HEADER);
      Write64Spec(m1, chunk, head);
      HeaderWrite(m', chunk, chunk, chunk + POOL_HEADER);
      ListWrite(m', chunk, chunk, chunk + POOL_HEADER);
      L.Cons(chunk, chunks);
      assert ([chunk] + chunks)[1..] == chunks;
    }

    /** Not ok: alloc_chunk failed an assert, or returned the null that the source would write through. */
    method AllocFromGlobal(fails: nat) returns (ok: bool)
      requires Valid()
      modifies this, mgr, mgr.free, ram
      ensures Valid() && frees == old(frees) && (ok <==> !old(mgr.Exhausted()))
      ensures ok ==>
                && head !in old(mgr.held) && mgr.held == old(mgr.held) + {head} && chunks == [head] + old(chunks)
                && AsPool() == Installed(old(AsPool()), head) && ram.m == InstallMem(old(AsPool()), old(ram.m), head)
      ensures !ok ==> AsPool() == old(AsPool()) && ram.m == old(ram.m)
      ensures !ok ==> chunks == old(chunks) && mgr.held == old(mgr.held)
    {
      var chunk;
      ok, chunk := GetChunk(fails);
      if !ok {
        return;
      }
      Install(chunk);
    }

    /** The new chunk heads the list, with `pool_curr` after its header. */
    method Install(chunk: Ptr)
      requires Valid() && chunk in mgr.held && chunk !in chunks
      modifies this, ram
      ensures Valid() && frees == old(frees) && head == chunk && chunks == [chunk] + old(chunks)
      ensures AsPool() == Installed(old(AsPool()), chunk) && ram.m == InstallMem(old(AsPool()), old(ram.m), chunk)
    {
      InstallKeeps(InstallMem(AsPool(), ram.m, chunk), chunk);
      ram.m := Write64(ram.m, CurrOf(chunk), chunk + POOL_HEADER);
      ram.m := Write64(ram.m, chunk, head);
      mgr.Survives();
      head, chunks := chunk, [chunk] + chunks;
    }

    /** alloc_chunk, as the pool sees it. */
    method GetChunk(fails: nat) returns (ok: bool, chunk: Ptr)
      requires Valid()
      modifies mgr, mgr.free
      ensures Valid() && (ok <==> !old(mgr.Exhausted()))
      ensures ok ==> chunk !in old(mgr.held) && mgr.held == old(mgr.held) + {chunk}
      ensures !ok ==> mgr.held == old(mgr.held)
    {
      var r := mgr.AllocChunk(fails);
      ok := r.Chunk?;
      chunk := if ok then r.p else 0;
      forall b | b in frees ensures InBlockSpace(mgr.held, b) {
        var p :| p in old(mgr.held) && p + POOL_HEADER <= b && b + 8 <= p + M.CHUNK_SIZE;
        assert p in mgr.held;
      }
    }

    /** With `pool_curr` at the k-th slot, the count is what is left of the chunk's capacity. */
    lemma SlotsLeft()
      requires cls > 0
      ensures GoodClass(cls) ==>
                forall k: nat | k <= Cap(cls) && Read64(ram.m, CurrOf(head)) == Slot(head, cls, k) ::
                  FreeCount(AsPool(), ram.m, cls) == Cap(cls) - k
    {
      if GoodClass(cls) {
        forall k: nat | k <= Cap(cls) && Read64(ram.m, CurrOf(head)) == Slot(head, cls, k)
          ensures FreeCount(AsPool(), ram.m, cls) == Cap(cls) - k
        {
          FreeCountIs(AsPool(), ram.m, cls, k);
        }
      }
    }

    /** `get_free_count`, the difference of pointers taken as signed. */
    method GetFreeCount() returns (n: nat)
      requires cls > 0
      ensures n == FreeCount(AsPool(), ram.m, cls)
      ensures GoodClass(cls) ==>
                forall k: nat | k <= Cap(cls) && Read64(ram.m, CurrOf(head)) == Slot(head, cls, k) :: n == Cap(cls) - k
    {
      SlotsLeft();
      var freeSize := head + M.CHUNK_SIZE - Read64(ram.m, CurrOf(head));
      if freeSize <= 0 {
        return 0;
      }
      n := freeSize / cls;
    }

    /** Carving writes `pool_curr` of the current chunk. */
    lemma CarveKeeps(m': Mem)
      requires Valid() && head != 0 && m' == CarveMem(AsPool(), ram.m, cls)
      ensures L.Chain(chunks, Link(m'), head) && L.Chain(frees, Link(m'), free)
      ensures L.Chain(mgr.free.items, Link(m'), mgr.free.head.ptr)
    {
      HeadFits();
      WriteTouches(ram.m, CurrOf(head), CarvePtr(AsPool(), ram.m) + cls);
      HeaderWrite(m', head, CurrOf(head), head + POOL_HEADER);
      ListWrite(m', head, CurrOf(head), head + POOL_HEADER);
    }

    method Carve() returns (ptr: Ptr)
      requires Valid() && head != 0
      modifies ram
      ensures Valid() && ptr == CarvePtr(AsPool(), old(ram.m)) && ram.m == CarveMem(AsPool(), old(ram.m), cls)
    {
      CarveKeeps(CarveMem(AsPool(), ram.m, cls));
      ptr := Read64(ram.m, CurrOf(head));
      ram.m := Write64(ram.m, CurrOf(head), ptr + cls);
      mgr.Survives();
    }

    method AllocFromLocalPool(fails: nat) returns (ok: bool, ptr: Ptr)
      requires Valid()
      modifies this, mgr, mgr.free, ram
      ensures Valid() && frees == old(frees)
      ensures ok <==> old(NextFits(AsPool(), ram.m, cls)) || !old(mgr.Exhausted())
      ensures ok ==> CarvedLocally(old(AsPool()), old(ram.m), cls, AsPool(), ram.m, ptr)
      ensures !ok ==> AsPool() == old(AsPool()) && ram.m == old(ram.m)
      ensures if !ok || old(NextFits(AsPool(), ram.m, cls)) then chunks == old(chunks) && mgr.held == old(mgr.held)
              else chunks == [head] + old(chunks) && head !in old(mgr.held) && mgr.held == old(mgr.held) + {head}
    {
      ok, ptr := true, 0;
      var room := head != 0;
      RoomIffNextFits(AsPool(), ram.m, cls);
      if room {
        var n := GetFreeCount();
        room := n != 0;
      }
      if !room {
        ok := AllocFromGlobal(fails);
        if !ok {
          return;
        }
      }
      HeadFits();
      ptr := Carve();
    }

    lemma TakeKeeps()
      requires Valid() && free != 0
      ensures frees != [] && [free] + frees[1..] == frees && NodesOk(frees[1..])
      ensures L.Chain(frees[1..], Link(ram.m), Read64(ram.m, free))
    {
      TailNodes(frees);
    }

    /** Unlinks the first block of the free list. */
    method TakeFirst() returns (ptr: Ptr)
      requires Valid() && free != 0
      modifies this`free, this`frees
      ensures Valid() && ptr == old(free) && free == Read64(ram.m, ptr) && [ptr] + frees == old(frees)
    {
      TakeKeeps();
      ptr := free;
      free := Read64(ram.m, free);
      frees := frees[1..];
    }

    /** `alloc`: the free list first, then the current chunk, then a new one; not ok as above. */
    method Alloc(fails: nat) returns (ok: bool, ptr: Ptr)
      requires Valid()
      modifies this, mgr, mgr.free, ram
      ensures Valid()
      ensures ok <==> old(free) != 0 || old(NextFits(AsPool(), ram.m, cls)) || !old(mgr.Exhausted())
      ensures ok ==> Served(old(AsPool()), old(ram.m), cls, AsPool(), ram.m, ptr)
      ensures !ok ==> AsPool() == old(AsPool()) && ram.m == old(ram.m)
      ensures if ok && old(free) != 0 then [ptr] + frees == old(frees) else frees == old(frees)
      ensures if !ok || old(free) != 0 || old(NextFits(AsPool(), ram.m, cls))
              then chunks == old(chunks) && mgr.held == old(mgr.held)
              else chunks == [head] + old(chunks) && head !in old(mgr.held) && mgr.held == old(mgr.held) + {head}
    {
      ok := true;
      if free != 0 {
        ptr := TakeFirst();
      } else {
        ok, ptr := AllocFromLocalPool(fails);
        if !ok {
          return;
        }
      }
      CountUp();
    }

    /** `++allocated_`. */
    method CountUp()
      requires Valid()
      modifies this`inUse, this`net, this`peak
      ensures Valid() && AsPool() == Counted(old(AsPool()))
    {
      inUse := (inUse + 1) % WORD;
      net := net + 1;
      peak := if peak < net then net else peak;
    }

    /** A write into a block is seen by no list that the block is not on. */
    lemma BlockWrite(m': Mem, ptr: Ptr)
      requires Valid() && InBlockSpace(mgr.held, ptr) && ApartFrom(ptr, frees) && Touches(ram.m, m', ptr, ptr + 8)
      ensures L.Chain(chunks, Link(m'), head) && L.Chain(frees, Link(m'), free)
      ensures L.Chain(mgr.free.items, Link(m'), mgr.free.head.ptr)
    {
      var p :| p in mgr.held && p + POOL_HEADER <= ptr && ptr + 8 <= p + M.CHUNK_SIZE;
      forall q | q in chunks ensures q + 8 <= ptr || ptr + 8 <= q { if p != q { M.ChunksApart(mgr.base, p, q); } }
      forall q | q in mgr.free.items ensures q + 8 <= ptr || ptr + 8 <= q { M.ChunksApart(mgr.base, p, q); }
      ChainUntouched(chunks, ram.m, m', ptr, ptr + 8, head);
      ChainUntouched(frees, ram.m, m', ptr, ptr + 8, free);
      ChainUntouched(mgr.free.items, ram.m, m', ptr, ptr + 8, mgr.free.head.ptr);
    }

    lemma BlockFits(b: Ptr)
      requires Valid() && InBlockSpace(mgr.held, b)
      ensures 0 < b < WORD
    {
    }

    lemma GiveKeeps(m': Mem, ptr: Ptr)
      requires Valid() && InBlockSpace(mgr.held, ptr) && ApartFrom(ptr, frees)
          && m' == GiveBackMem(AsPool(), ram.m, ptr)
      ensures L.Chain(chunks, Link(m'), head) && L.Chain([ptr] + frees, Link(m'), ptr) && NodesOk([ptr] + frees)
      ensures L.Chain(mgr.free.items, Link(m'), mgr.free.head.ptr)
    {
      BlockFits(ptr);
      assert free != 0 ==> free in frees;
      Write64Spec(ram.m, ptr, free);
      BlockWrite(m', ptr);
      ConsNodes(ptr, frees);
      assert ([ptr] + frees)[1..] == frees;
    }

    /** `dealloc` of a block that is on no free list. */
    method Dealloc(ptr: Ptr)
      requires Valid() && InBlockSpace(mgr.held, ptr) && ApartFrom(ptr, frees)
      modifies this, ram
      ensures Valid() && frees == [ptr] + old(frees) && chunks == old(chunks)
      ensures AsPool() == GaveBack(old(AsPool()), ptr) && ram.m == GiveBackMem(old(AsPool()), old(ram.m), ptr)
    {
      GiveKeeps(GiveBackMem(AsPool(), ram.m, ptr), ptr);
      inUse := (inUse + WORD - 1) % WORD;
      net := net - 1;
      ram.m := Write64(ram.m, ptr, free);
      mgr.Survives();
      free, frees := ptr, [ptr] + frees;
    }

    /**
     `deinit`: walks the free list to count it, then hands each chunk back, reading
     its link before the push overwrites it.
     */
    method Deinit(fails: nat) returns (leaked: bool, freeCount: nat)
      requires Valid()
      modifies this, mgr, mgr.free, ram
      ensures leaked == (old(inUse) != 0) && freeCount == |old(frees)|
      ensures head == 0 && mgr.Valid() && mgr.free.items == Reversed(old(chunks)) + old(mgr.free.items)
      ensures mgr.held == old(mgr.held) - LT.ToSet(old(chunks))
    {
      freeCount := CountFree();
      leaked := inUse != 0;
      ReturnAll(fails);
    }

    /** The loop over the chunk list. */
    method ReturnAll(fails: nat)
      requires Leaving()
      modifies this`head, this`chunks, mgr, mgr.free, ram
      ensures head == 0 && mgr.Valid() && mgr.free.items == Reversed(old(chunks)) + old(mgr.free.items)
      ensures mgr.held == old(mgr.held) - LT.ToSet(old(chunks))
    {
      ghost var all, items, held := chunks, mgr.free.items, mgr.held;
      ghost var done := [];
      while head != 0
        invariant Leaving() && all == done + chunks
        invariant mgr.free.items == Reversed(done) + items && mgr.held == held - LT.ToSet(done)
        decreases |chunks|
      {
        HeadChunk();
        DoneOne(all, done, chunks, head, items, held);
        done := done + [head];
        ReturnHead(fails);
      }
      assert done == all;
    }

    /** While the chunk list is taken apart: the pool's blocks are nobody's any more. */
    ghost predicate Leaving()
      reads this, mgr, mgr.free, ram
    {
      && mgr.ram == ram && mgr.Valid()
      && L.Chain(chunks, Link(ram.m), head) && L.NoDup(chunks) && (forall p | p in chunks :: p in mgr.held)
    }

    lemma HeadChunk()
      requires Leaving() && head != 0
      ensures chunks != [] && head == chunks[0] && head in mgr.held && chunks == [head] + chunks[1..]
      ensures head !in chunks[1..] && L.NoDup(chunks[1..])
      ensures L.Chain(chunks[1..], Link(ram.m), Read64(ram.m, head))
    {
      L.Cons(head, chunks[1..]);
      assert head in chunks;
    }

    /** One round of the loop. */
    method ReturnHead(fails: nat)
      requires Leaving() && head != 0
      modifies this`head, this`chunks, mgr, mgr.free, ram
      ensures Leaving() && chunks == old(chunks[1..])
      ensures mgr.free.items == [old(head)] + old(mgr.free.items) && mgr.held == old(mgr.held) - {old(head)}
    {
      HeadChunk();
      ghost var m := ram.m;
      var p := head;
      head := Read64(ram.m, head);
      mgr.FreeChunk(p, fails);
      RestKept(chunks[1..], m, ram.m, p, head);
      chunks := chunks[1..];
    }

    /** The walk over the free list. */
    method CountFree() returns (c: nat)
      requires L.Chain(frees, Link(ram.m), free)
      ensures c == |frees|
    {
      c := 0;
      var f := free;
      ghost var rest := frees;
      while f != 0
        invariant L.Chain(rest, Link(ram.m), f) && c + |rest| == |frees|
        decreases |rest|
      {
        c := c + 1;
        f := Read64(ram.m, f);
        rest := rest[1..];
      }
    }

    lemma RestKept(rest: seq<Ptr>, m: Mem, m': Mem, p: Ptr, head: Ptr)
      requires L.Chain(rest, Link(m), head) && Touches(m, m', p, p + 8) && p !in rest
      requires M.IsChunk(mgr.base, p) && forall q | q in rest :: M.IsChunk(mgr.base, q)
      ensures L.Chain(rest, Link(m'), head)
    {
      forall q | q in rest ensures q + 8 <= p || p + 8 <= q { M.ChunksApart(mgr.base, p, q); }
      ChainUntouched(rest, m, m', p, p + 8, head);
    }

    lemma HeadFits()
      requires Valid()
      ensures head < WORD && (head != 0 ==> head in chunks)
    {
      if chunks != [] {
        assert head in chunks;
      }
    }
  }

  // ---------------------------------------------------------------- the block layer

  /** `thread_local_pool::alloc` after it has its block: header, fences and the pointer for the caller. */
  method StampBlock(ram: Ram, b: Ptr, bytes: nat, d: Debug) returns (u: Ptr)
    modifies ram
    ensures ram.m == Stamp(old(ram.m), b, bytes, d) && u == UserPtr(b)
    ensures u == b + 48
    ensures bytes < WORD && GoodDebug(d) ==>
        StampedAs(old(ram.m), ram.m, b, bytes, d) && Framed(ram.m, b, bytes)
  {
    if bytes < WORD && GoodDebug(d) {
      Stamped(ram.m, b, bytes, d);
      StampIsAs(ram.m, b, bytes, d);
    }
    ram.m := Write64(ram.m, b, bytes);
    ram.m := WriteLE(ram.m, b + 8, 2, d.line);
    ram.m := Write64(ram.m, b + 16, d.file);
    ram.m := WriteLE(ram.m, b + 10, 2, d.thread);
    var p := b + HEADER;
    var post := p + FENCE + Read64(ram.m, b);
    ram.m := Write64(ram.m, p, FENCE_0);
    ram.m := Write64(ram.m, p + 8, FENCE_1);
    ram.m := Write64(ram.m, post, FENCE_0);
    ram.m := Write64(ram.m, post + 8, FENCE_1);
    u := p + FENCE;
  }

  lemma FramesRouteBack(m: Mem, u: Ptr)
    ensures forall a: nat, bytes: nat | u == UserPtr(a) && Framed(m, a, bytes) ::
              HeaderOf(u) == a && FencesOk(m, a, Read64(m, a)) && DeallocRoute(m, u) == AllocRoute(bytes)
  {
    forall a: nat, bytes: nat | u == UserPtr(a) && Framed(m, a, bytes)
      ensures HeaderOf(u) == a && FencesOk(m, a, Read64(m, a)) && DeallocRoute(m, u) == AllocRoute(bytes)
    {
      RoutesBack(m, a, bytes);
    }
  }

  /** `thread_local_pool::dealloc` up to the pool's dealloc: find the block, check the fences, choose the way back. */
  method InspectBlock(ram: Ram, u: Ptr) returns (b: int, whole: bool, route: Route)
    ensures b == HeaderOf(u) && whole == FencesOk(ram.m, b, Read64(ram.m, b)) && route == DeallocRoute(ram.m, u)
    ensures b == u - 48
    ensures whole <==> FenceAt(ram.m, u - 16) && FenceAt(ram.m, u + ReadLE(ram.m, u - 48, u - 40))
    ensures var size := ReadLE(ram.m, u - 48, u - 40);
            size + 64 < 0x1_0000_0000_0000_0000 ==> RouteIs(size, route)
    ensures forall a: nat, bytes: nat | u == UserPtr(a) && Framed(ram.m, a, bytes) ::
              b == a && whole && route == AllocRoute(bytes)
  {
    FramesRouteBack(ram.m, u);
    b := u - HEADER - FENCE;
    var size := Read64(ram.m, b);
    FencesAreBytes(ram.m, b, size);
    if size + 64 < WORD {
      RouteOfRequest(size, RouteOf(SizeSum(size)));
    }
    var total := SizeSum(size);
    var pre, post := b + HEADER, b + HEADER + FENCE + size;
    whole := Read64(ram.m, pre) == FENCE_0 && Read64(ram.m, pre + 8) == FENCE_1
             && Read64(ram.m, post) == FENCE_0 && Read64(ram.m, post + 8) == FENCE_1;
    route := RouteOf(total);
  }

  /** A block stamped by one call and given to the other comes back whole, to the pool or malloc it came from. */
  method RoundTrip(ram: Ram, b: Ptr, bytes: nat, d: Debug) returns (whole: bool, route: Route)
    requires bytes + 64 < 0x1_0000_0000_0000_0000 && GoodDebug(d)
    modifies ram
    ensures whole && route == AllocRoute(bytes) && RouteIs(bytes, route) && Holds(route, bytes)
  {
    var u := StampBlock(ram, b, bytes, d);
    var c;
    c, whole, route := InspectBlock(ram, u);
    HoldsUnlessWrapped(bytes);
    RouteOfRequest(bytes, route);
  }
}
