/** What holds of the whole allocator in every reachable state: over every run of any number of threads. */
module AllocatorTheorems {
  import opened Runs
  import L = LfStack
  import M = Mmap
  import C = MmapCounters
  import MT = MmapTheorems
  import LT = LfStackTheorems
  import opened Memory
  import opened SizeClasses
  import opened Blocks
  import opened Pool
  import opened Allocator
  import opened AllocatorInv
  import opened AllocatorAlloc
  import opened AllocatorRun

  type Event = (Tid, Label)

  ghost predicate Step(s: State, e: Event, s': State) {
    Next(s, e.0, e.1, s')
  }

  ghost predicate Reached(s: State) {
    Reachable(Init, Step, s)
  }

  function EmptyView(pools: map<Key, CPool>): View {
    View(map k | k in pools :: [], map k | k in pools :: [], map[], map[], map[])
  }

  lemma InitLocal(s: State)
    requires Init(s)
    ensures Local(s, EmptyView(s.pools))
  {
  }

  lemma InitTallied(s: State)
    requires Init(s)
    ensures Tallied(s.pools, s.phase, EmptyView(s.pools))
  {
    var v := EmptyView(s.pools);
    forall k | k in s.pools && k.0 in s.phase ensures KeyTally(s.pools[k], s.phase[k.0], k, v) {
      ClassFromList(k.1, 0);
      NothingCarved(k, v);
    }
  }

  lemma NothingCarved(k: Key, v: View)
    requires k in v.chunks && k in v.frees && v.chunks[k] == [] && v.frees[k] == [] && k.1 > 0
    ensures KeyTally(CPool(0, 0, 0, 0, 0), Idle, k, v)
  {
  }

  lemma InitHeld(s: State)
    requires Init(s)
    ensures Held(s)
  {
    InitTallied(s);
    var a := MT.InitInv(MT.Config(s.mm, Link(s.mem)));
    InitLocal(s);
    assert Inv(s, a, EmptyView(s.pools));
  }

  lemma StepHeld(s: State, e: Event, s': State)
    requires Held(s) && Step(s, e, s')
    ensures Held(s')
  {
    var a, v :| Inv(s, a, v);
    EveryLabelKeeps(e.1);
  }

  lemma HasInv(s: State)
    requires Reached(s)
    ensures Held(s)
  {
    forall s | Init(s) ensures Held(s) { InitHeld(s); }
    forall s, e, s' | Held(s) && Step(s, e, s') ensures Held(s') { StepHeld(s, e, s'); }
    Invariant(Init, Step, Held, s);
  }

  // ---------------------------------------------------------------- no overlap, end to end

  lemma LiveInside(base: Ptr, m: Mem, log: map<Ptr, BlockState>, v: View, b: Ptr)
    requires Geometry(base, v) && LivesOk(m, log, v) && b in log && log[b].Live?
    ensures b in v.at && v.at[b].chunk in v.home && TotalSize(log[b].bytes) <= ClassAt(v, b)
  {
    assert LiveOk(m, b, log[b], v);
  }

  /** Where the blocks of a reachable state lie. */
  lemma Layout(s: State) returns (v: View)
    requires Reached(s)
    ensures Geometry(s.mm.base, v) && LivesOk(s.mem, s.log, v)
    ensures forall p | p in v.home :: p in s.mm.held && p in s.mm.lf.nodes
    ensures M.Frontier(s.mm)
  {
    HasInv(s);
    var a;
    a, v :| Inv(s, a, v);
    HeldAreNodes(s.mm, Link(s.mem), a);
  }

  /** How the pools of a reachable state hang together. */
  lemma Lists(s: State) returns (v: View)
    requires Reached(s)
    ensures PoolsOk(s.mm.held, s.pools, v) && LeavesOk(s.mm.held, s.phase, s.log, v) && PhasesOk(s)
    ensures FreesOk(s.mem, s.pools, s.phase, s.log, v) && SlotsOk(v) && s.log.Keys == v.at.Keys
    ensures HeadersOk(s.mem, s.pools, v) && ChunksOk(s.mm.base, v) && ListedOnce(v) && Tallied(s.pools, s.phase, v)
  {
    HasInv(s);
    var a;
    a, v :| Inv(s, a, v);
  }

  lemma HeldAreNodes(s: M.State, l: L.Links, a: L.Abs)
    requires L.R(s.lf, l, a) && M.Holdings(s)
    ensures forall p | p in s.held :: p in s.lf.nodes
  {
    assert forall p | p in s.held :: p in s.lf.client;
  }

  lemma LivesApart(base: Ptr, m: Mem, log: map<Ptr, BlockState>, v: View, b: Ptr, c: Ptr)
    requires Geometry(base, v) && LivesOk(m, log, v) && b in log && c in log && b != c && log[b].Live? && log[c].Live?
    ensures b + TotalSize(log[b].bytes) <= c || c + TotalSize(log[c].bytes) <= b
  {
    LiveInside(base, m, log, v, b);
    LiveInside(base, m, log, v, c);
    BlocksApart(base, v, b, c);
  }

  /** No two blocks in use overlap, whichever threads hold them and whichever threads allocated them. */
  lemma NoOverlap(s: State, b: Ptr, c: Ptr)
    requires Reached(s) && b in s.log && c in s.log && b != c && s.log[b].Live? && s.log[c].Live?
    ensures b + TotalSize(s.log[b].bytes) <= c || c + TotalSize(s.log[c].bytes) <= b
  {
    var v := Layout(s);
    LivesApart(s.mm.base, s.mem, s.log, v, b, c);
  }

  /** The block at b, of this total size, lies in the chunk at p, past its header and inside the reservation. */
  ghost predicate Inside(s: M.State, b: Ptr, total: nat, p: Ptr) {
    && p in s.held && M.IsChunk(s.base, p)
    && p + POOL_HEADER <= b && b + total <= p + M.CHUNK_SIZE
    && p + M.CHUNK_SIZE <= s.head <= M.ChunkPtr(s.base, M.CHUNK_COUNT)
  }

  lemma LiveChunk(s: M.State, m: Mem, log: map<Ptr, BlockState>, v: View, b: Ptr)
    requires Geometry(s.base, v) && LivesOk(m, log, v) && M.Frontier(s) && b in log && log[b].Live?
    requires forall p | p in v.home :: p in s.held && p in s.lf.nodes
    ensures exists p :: Inside(s, b, TotalSize(log[b].bytes), p)
  {
    LiveInside(s.base, m, log, v, b);
    BlockInside(s.base, v, b);
    NodeIsChunk(s, v.at[b].chunk);
    assert Inside(s, b, TotalSize(log[b].bytes), v.at[b].chunk);
  }

  /** Every block in use lies inside one chunk that a pool holds, past the chunk's header and inside the reservation. */
  lemma InsideOneChunk(s: State, b: Ptr)
    requires Reached(s) && b in s.log && s.log[b].Live?
    ensures exists p :: Inside(s.mm, b, TotalSize(s.log[b].bytes), p)
  {
    var v := Layout(s);
    LiveChunk(s.mm, s.mem, s.log, v, b);
  }

  lemma LiveApartFromFree(base: Ptr, m: Mem, log: map<Ptr, BlockState>, v: View, b: Ptr, q: Ptr)
    requires Geometry(base, v) && LivesOk(m, log, v) && b in log && log[b].Live? && q in log && log[q].Freed?
    ensures b + TotalSize(log[b].bytes) <= q || q + 8 <= b
  {
    LiveInside(base, m, log, v, b);
    BlocksApart(base, v, b, q);
    BlockInside(base, v, q);
  }

  /** No block in use overlaps the free-list link of a freed block, whichever thread freed it. */
  lemma DisjointFromLinks(s: State, b: Ptr, q: Ptr)
    requires Reached(s) && b in s.log && s.log[b].Live? && q in s.log && s.log[q].Freed?
    ensures b + TotalSize(s.log[b].bytes) <= q || q + 8 <= b
  {
    var v := Layout(s);
    LiveApartFromFree(s.mm.base, s.mem, s.log, v, b, q);
  }

  lemma LiveApartFromHeader(base: Ptr, m: Mem, log: map<Ptr, BlockState>, v: View, b: Ptr, q: Ptr)
    requires Geometry(base, v) && LivesOk(m, log, v) && b in log && log[b].Live? && M.IsChunk(base, q)
    ensures b + TotalSize(log[b].bytes) <= q || q + POOL_HEADER <= b
  {
    LiveInside(base, m, log, v, b);
    BlockApartFromHeader(base, v, b, q);
  }

  /** No block in use overlaps the header of any chunk: in a pool, on the free stack or on its way between them. */
  lemma DisjointFromHeaders(s: State, b: Ptr, q: Ptr)
    requires Reached(s) && b in s.log && s.log[b].Live? && M.IsChunk(s.mm.base, q)
    ensures b + TotalSize(s.log[b].bytes) <= q || q + POOL_HEADER <= b
  {
    var v := Layout(s);
    LiveApartFromHeader(s.mm.base, s.mem, s.log, v, b, q);
  }

  lemma Multiples(x: int, y: int)
    requires x % M.CHUNK_SIZE == 0 && y % 64 == 0
    ensures (x + y) % 64 == 0
  {
    assert x == M.CHUNK_SIZE * (x / M.CHUNK_SIZE) == 64 * (0x4000 * (x / M.CHUNK_SIZE));
  }

  lemma BlockAligned(base: Ptr, v: View, b: Ptr)
    requires Geometry(base, v) && b in v.at && base % 64 == 0
    ensures UserPtr(b) % 64 == 0
  {
    var p := v.at[b].chunk;
    SlotAligned(p, v.home[p].1, v.at[b].i);
    PtrAligned(base, p, b);
  }

  lemma PtrAligned(base: int, p: int, b: nat)
    requires base % 64 == 0 && (p - base) % M.CHUNK_SIZE == 0 && (b - p - POOL_HEADER) % 64 == 0
    ensures UserPtr(b) % 64 == 0
  {
    Multiples(p - base, b - p - POOL_HEADER);
    var x := p - base + (b - p - POOL_HEADER);
    assert UserPtr(b) == base + x + 64;
  }

  /** If the reservation is 64-aligned, so is every pointer given to a client. */
  lemma UserPointersAligned(s: State, b: Ptr)
    requires Reached(s) && b in s.log && s.mm.base % 64 == 0
    ensures UserPtr(b) % 64 == 0
  {
    var v := Layout(s);
    BlockAligned(s.mm.base, v, b);
  }

  /** In every chunk that a pool holds, `pool_curr` is at a slot of the pool's class or just past the last, never past
      the end. */
  ghost predicate CurrAtSlot(m: Mem, p: Ptr, cls: nat, n: nat) {
    GoodClass(cls) && n <= Cap(cls) && Read64(m, CurrOf(p)) == Slot(p, cls, n) <= p + M.CHUNK_SIZE
  }

  lemma PoolCurrStaysInside(s: State, p: Ptr)
    requires Reached(s) && p in s.mm.held
    ensures exists k: Key, n :: k.0 == s.mm.held[p] && ChunkIsAt(s, p, InPool(k)) && CurrAtSlot(s.mem, p, k.1, n)
  {
    var v := Lists(s);
    HeldChunkCurr(s, v, p);
  }

  lemma HeldChunkCurr(s: State, v: View, p: Ptr)
    requires PoolsOk(s.mm.held, s.pools, v) && HeadersOk(s.mem, s.pools, v) && ChunksOk(s.mm.base, v) && p in s.mm.held
    ensures exists k: Key, n :: k.0 == s.mm.held[p] && ChunkIsAt(s, p, InPool(k)) && CurrAtSlot(s.mem, p, k.1, n)
  {
    var k := v.home[p];
    PoolListed(s, v, p, k);
    CurrInside(p, k.1, v.used[p]);
    assert CurrOk(s.mem, p, k.1, v.used[p]);
    assert ChunkIsAt(s, p, InPool(k)) && CurrAtSlot(s.mem, p, k.1, v.used[p]);
  }

  // ---------------------------------------------------------------- frames

  /** At every moment every block in use has its size and its four fences in place, and the line, thread and file of
      the request it answers. */
  lemma FramesHold(s: State, b: Ptr)
    requires Reached(s) && b in s.log && s.log[b].Live?
    ensures Framed(s.mem, b, s.log[b].bytes) && TotalSize(s.log[b].bytes) <= MAX_ALLOC
    ensures FrameIs(s.mem, b, s.log[b].bytes, s.log[b].debug) && s.log[b].bytes <= 8192
  {
    var v := Layout(s);
    assert LiveOk(s.mem, b, s.log[b], v);
    FrameBytes(s.mem, b, s.log[b].bytes, s.log[b].debug);
  }

  lemma FreeByFrames(s: State, t: Tid, b: Ptr, s': State)
    requires b in s.log && s.log[b].Live? && Framed(s.mem, b, s.log[b].bytes) && TotalSize(s.log[b].bytes) <= MAX_ALLOC
    requires DeallocStep(s, t, UserPtr(b), s')
    ensures s'.phase == s.phase && s'.log == s.log[b := Freed(t)]
    ensures var k := (t, ClassOf(TotalSize(s.log[b].bytes)));
            && k in s.pools && s'.pools == s.pools[k := GaveBack(s.pools[k], b)]
            && s'.mem == GiveBackMem(s.pools[k], s.mem, b)
  {
    assert HeaderOf(UserPtr(b)) == b && Read64(s.mem, b) == s.log[b].bytes;
  }

  /** No fence assert ever fails: a free by any thread goes to that thread's pool of the class the block was allocated
      for. */
  lemma FreeNeverFails(s: State, t: Tid, b: Ptr, s': State)
    requires Reached(s) && b in s.log && s.log[b].Live? && DeallocStep(s, t, UserPtr(b), s')
    ensures TotalSize(s.log[b].bytes) <= MAX_ALLOC
    ensures s'.phase == s.phase && s'.log == s.log[b := Freed(t)]
    ensures var k := (t, ClassOf(TotalSize(s.log[b].bytes)));
            && k in s.pools && s'.pools == s.pools[k := GaveBack(s.pools[k], b)]
            && s'.mem == GiveBackMem(s.pools[k], s.mem, b)
  {
    FramesHold(s, b);
    FreeByFrames(s, t, b, s');
  }

  // ---------------------------------------------------------------- every chunk and every block in one place

  /** Where a chunk below the bump pointer is: free, in the chunk list of a pool, or inside one thread's operation. */
  datatype ChunkPlace = OnFreeStack | InPool(k: Key) | InOperation(t: Tid)

  function Manager(s: State): MT.Config {
    MT.Config(s.mm, Link(s.mem))
  }

  ghost predicate ChunkIsAt(s: State, p: Ptr, w: ChunkPlace) {
    match w
    case OnFreeStack => MT.IsAt(Manager(s), p, MT.FreeStack)
    case InPool(k) => k in s.pools && MT.InChain(Link(s.mem), s.pools[k].head, p)
    case InOperation(t) => MT.IsAt(Manager(s), p, MT.InOp(t))
  }

  /** The held chunks are exactly those on the pools' lists, each on one. */
  lemma PoolListed(s: State, v: View, p: Ptr, k: Key)
    requires PoolsOk(s.mm.held, s.pools, v) && HeadersOk(s.mem, s.pools, v) && k in s.pools
    ensures MT.InChain(Link(s.mem), s.pools[k].head, p) <==> p in s.mm.held && p in v.home && v.home[p] == k
  {
    MT.InChainIs(v.chunks[k], Link(s.mem), s.pools[k].head, p);
  }

  function HeldPlace(v: View, w: MT.Place, p: Ptr): ChunkPlace
    requires w.HeldBy? ==> p in v.home
  {
    match w
    case FreeStack => OnFreeStack
    case HeldBy(_) => InPool(v.home[p])
    case InOp(t) => InOperation(t)
  }

  lemma ChunkPlaced(s: State, v: View, p: Ptr, w: MT.Place)
    requires PoolsOk(s.mm.held, s.pools, v) && HeadersOk(s.mem, s.pools, v)
    requires MT.IsAt(Manager(s), p, w) && forall w' | MT.IsAt(Manager(s), p, w') :: w' == w
    ensures w.HeldBy? ==> p in v.home
    ensures ChunkIsAt(s, p, HeldPlace(v, w, p)) && forall w' | ChunkIsAt(s, p, w') :: w' == HeldPlace(v, w, p)
  {
    if w.HeldBy? {
      PoolListed(s, v, p, v.home[p]);
    }
    forall w' | ChunkIsAt(s, p, w') ensures w' == HeldPlace(v, w, p) {
      match w'
      case OnFreeStack => assert MT.IsAt(Manager(s), p, MT.FreeStack);
      case InOperation(t) => assert MT.IsAt(Manager(s), p, MT.InOp(t));
      case InPool(k) =>
        PoolListed(s, v, p, k);
        HeldIsAt(s, p, k.0);
    }
  }

  lemma HeldIsAt(s: State, p: Ptr, t: Tid)
    requires p in s.mm.held && s.mm.held[p] == t
    ensures MT.IsAt(Manager(s), p, MT.HeldBy(t))
  {
  }

  lemma ManagerPlaces(s: State, a: L.Abs, p: Ptr)
    requires L.R(s.mm.lf, Link(s.mem), a) && M.Holdings(s.mm) && s.mm.lf.pc.Keys == s.mm.pc.Keys && M.Frontier(s.mm)
    requires M.IsChunk(s.mm.base, p) && p < s.mm.head
    ensures exists w :: MT.IsAt(Manager(s), p, w) && forall w' | MT.IsAt(Manager(s), p, w') :: w' == w
  {
    MT.PlaceExists(Manager(s), a, p);
  }

  /** Every chunk below the bump pointer is in exactly one place, pools' chunk lists included; none is lost or
      duplicated. */
  lemma GlobalPartition(s: State, p: Ptr)
    requires Reached(s) && M.IsChunk(s.mm.base, p) && p < s.mm.head
    ensures exists w :: ChunkIsAt(s, p, w) && forall w' | ChunkIsAt(s, p, w') :: w' == w
  {
    HasInv(s);
    var a, v :| Inv(s, a, v);
    ManagerPlaces(s, a, p);
    var w :| MT.IsAt(Manager(s), p, w) && forall w' | MT.IsAt(Manager(s), p, w') :: w' == w;
    ChunkPlaced(s, v, p, w);
  }

  /** The chunks on the pools' lists. */
  ghost predicate ArePooled(s: State, pooled: set<Ptr>) {
    forall p :: p in pooled <==> exists k :: ChunkIsAt(s, p, InPool(k))
  }

  lemma HeldArePooled(s: State, v: View)
    requires PoolsOk(s.mm.held, s.pools, v) && HeadersOk(s.mem, s.pools, v)
    ensures ArePooled(s, s.mm.held.Keys)
  {
    forall p ensures p in s.mm.held <==> exists k :: ChunkIsAt(s, p, InPool(k)) {
      if p in s.mm.held {
        PoolListed(s, v, p, v.home[p]);
        assert ChunkIsAt(s, p, InPool(v.home[p]));
      }
      if k :| ChunkIsAt(s, p, InPool(k)) {
        PoolListed(s, v, p, k);
      }
    }
  }

  /** What the manager's counters say, with these chunks free and these on the pools' lists. */
  ghost predicate CountersAgree(s: M.State, free: nat, pooled: nat) {
    && s.perfAlloc == (s.head - s.base) / M.CHUNK_SIZE
    && free == s.perfDealloc - s.perfFromFree
    && pooled == s.perfAlloc + s.perfFromFree - s.perfDealloc
  }

  lemma ManagerCounts(s: State, a: L.Abs, stack: seq<Ptr>)
    requires L.R(s.mm.lf, Link(s.mem), a) && M.Phases(s.mm) && M.Holdings(s.mm) && M.Frontier(s.mm)
    requires C.Counted(s.mm, a) && MT.Quiescent(Manager(s)) && L.Chain(stack, Link(s.mem), s.mm.lf.head.ptr)
    ensures CountersAgree(s.mm, |stack|, |s.mm.held.Keys|)
  {
    MT.QuietCounts(Manager(s), a);
    LT.ChainUnique(stack, a.stack, Link(s.mem), s.mm.lf.head.ptr);
  }

  lemma PooledCounts(s: State, a: L.Abs, v: View, stack: seq<Ptr>)
    requires L.R(s.mm.lf, Link(s.mem), a) && M.Phases(s.mm) && M.Holdings(s.mm) && M.Frontier(s.mm)
    requires C.Counted(s.mm, a) && MT.Quiescent(Manager(s)) && L.Chain(stack, Link(s.mem), s.mm.lf.head.ptr)
    requires PoolsOk(s.mm.held, s.pools, v) && HeadersOk(s.mem, s.pools, v)
    ensures exists pooled :: ArePooled(s, pooled) && CountersAgree(s.mm, |stack|, |pooled|)
  {
    HeldArePooled(s, v);
    ManagerCounts(s, a, stack);
  }

  /** When no thread is inside the chunk manager, its counters tell the chunks reserved, the length of the free stack,
      and the chunks on the pools' lists. */
  lemma QuietManager(s: State, stack: seq<Ptr>)
    requires Reached(s) && MT.Quiescent(Manager(s)) && L.Chain(stack, Link(s.mem), s.mm.lf.head.ptr)
    ensures exists pooled :: ArePooled(s, pooled) && CountersAgree(s.mm, |stack|, |pooled|)
  {
    HasInv(s);
    var a, v :| Inv(s, a, v);
    PooledCounts(s, a, v, stack);
  }

  /** A thread that has left holds no chunk. */
  lemma ExitedHoldsNothing(s: State, t: Tid, p: Ptr)
    requires Reached(s) && t in s.phase && s.phase[t] == Exited && p in s.mm.held
    ensures s.mm.held[p] != t
  {
    var v := Lists(s);
    LeftNothing(s, v, t, p);
  }

  lemma LeftNothing(s: State, v: View, t: Tid, p: Ptr)
    requires PoolsOk(s.mm.held, s.pools, v) && LeavesOk(s.mm.held, s.phase, s.log, v)
    requires t in s.phase && s.phase[t] == Exited && p in s.mm.held
    ensures s.mm.held[p] != t
  {
    assert v.home[p] in v.chunks && p in v.chunks[v.home[p]];
  }

  /** The block at b is on the free list of pool k. */
  ghost predicate OnFreeList(s: State, b: Ptr, k: Key) {
    k in s.pools && MT.InChain(Link(s.mem), s.pools[k].free, b)
  }

  lemma ListedFree(s: State, v: View, b: Ptr, k: Key)
    requires FreesOk(s.mem, s.pools, s.phase, s.log, v) && k in s.pools && k.0 in s.phase && Keeps(s.phase[k.0], k.1)
    ensures OnFreeList(s, b, k) <==> b in s.log && s.log[b] == Freed(k.0) && OfClass(v, b, k.1)
  {
    assert FreeListOk(s.mem, k, s.pools[k], v.frees[k], s.log, v);
    MT.InChainIs(v.frees[k], Link(s.mem), s.pools[k].free, b);
  }

  /** The chunk around b is on the chunk list of its holder's pool of this class. */
  ghost predicate InChunkOfClass(s: State, b: Ptr, cls: nat) {
    exists p :: p in s.mm.held && InChunk(b, p) && ChunkIsAt(s, p, InPool((s.mm.held[p], cls)))
  }

  lemma BlockOfClass(s: State, v: View, b: Ptr)
    requires Geometry(s.mm.base, v) && PoolsOk(s.mm.held, s.pools, v) && HeadersOk(s.mem, s.pools, v) && b in v.at
    ensures v.at[b].chunk in v.home && InChunkOfClass(s, b, ClassAt(v, b))
  {
    BlockInside(s.mm.base, v, b);
    var p := v.at[b].chunk;
    PoolListed(s, v, p, v.home[p]);
    assert v.home[p] == (s.mm.held[p], ClassAt(v, b));
  }

  /** Of all lists that their threads may still walk, b is at most on that of pool k, and there if it is one of them. */
  ghost predicate OnlyOn(s: State, b: Ptr, k: Key) {
    && k in s.pools && k.0 in s.phase
    && (Keeps(s.phase[k.0], k.1) ==> OnFreeList(s, b, k))
    && forall j: Key | OnFreeList(s, b, j) && j.0 in s.phase && Keeps(s.phase[j.0], j.1) :: j == k
  }

  lemma FreedIsListed(s: State, v: View, b: Ptr)
    requires FreesOk(s.mem, s.pools, s.phase, s.log, v) && PoolsOk(s.mm.held, s.pools, v) && PhasesOk(s)
    requires SlotsOk(v) && s.log.Keys == v.at.Keys
    requires b in s.log && s.log[b].Freed? && s.log[b].who in s.phase
    ensures v.at[b].chunk in v.home && OnlyOn(s, b, (s.log[b].who, ClassAt(v, b)))
  {
    var k := (s.log[b].who, ClassAt(v, b));
    assert v.home[v.at[b].chunk] in s.pools;
    if Keeps(s.phase[k.0], k.1) {
      ListedFree(s, v, b, k);
    }
    forall j: Key | OnFreeList(s, b, j) && j.0 in s.phase && Keeps(s.phase[j.0], j.1) ensures j == k {
      ListedFree(s, v, b, j);
    }
  }

  /** Who freed a block is one of the threads. */
  ghost predicate FreersKnown(s: State) {
    forall b | b in s.log && s.log[b].Freed? :: s.log[b].who in s.phase
  }

  lemma FreersStayKnown(s: State, e: Event, s': State)
    requires FreersKnown(s) && Step(s, e, s')
    ensures FreersKnown(s')
  {
    match e.1
    case AllocLocal(_, _) =>
    case AllocNew =>
    case Dealloc(_) =>
    case ReturnChunk =>
    case _ => assert s'.log == s.log;
  }

  lemma HasFreers(s: State)
    requires Reached(s)
    ensures FreersKnown(s)
  {
    forall s, e, s' | FreersKnown(s) && Step(s, e, s') ensures FreersKnown(s') { FreersStayKnown(s, e, s'); }
    Invariant(Init, Step, FreersKnown, s);
  }

  /**
   A freed block is on exactly one free list: that of the thread that freed it
   last, of the block's own class, until that thread has walked it on its way out.
   */
  lemma FreedOnOneList(s: State, b: Ptr)
    requires Reached(s) && b in s.log && s.log[b].Freed?
    ensures exists k: Key :: k.0 == s.log[b].who && InChunkOfClass(s, b, k.1) && OnlyOn(s, b, k)
  {
    HasFreers(s);
    var v := Lists(s);
    FreedIsListed(s, v, b);
    BlockOfClass(s, v, b);
  }

  /** No block in use is on a free list that its thread may still walk. */
  lemma LiveIsNotListed(s: State, b: Ptr, k: Key)
    requires Reached(s) && b in s.log && s.log[b].Live? && k.0 in s.phase && Keeps(s.phase[k.0], k.1)
    ensures !OnFreeList(s, b, k)
  {
    var v := Lists(s);
    if k in s.pools { ListedFree(s, v, b, k); }
  }
}
