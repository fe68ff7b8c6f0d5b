/** Carving a block from a chunk, and installing a chunk, keep the invariant of the whole allocator. */
module AllocatorCarve {
  import L = LfStack
  import M = Mmap
  import opened Memory
  import opened SizeClasses
  import opened Blocks
  import opened Pool
  import opened Allocator
  import opened AllocatorInv
  import opened AllocatorAlloc

  // ---------------------------------------------------------------- carving

  /** The structure after the next slot of chunk p has been carved. */
  function CarvedView(v: View, p: Ptr, b: Ptr): View
    requires p in v.used
  {
    v.(used := v.used[p := v.used[p] + 1], at := v.at[b := Spot(p, v.used[p])])
  }

  /** The next slot is new, and carving it keeps the geometry. */
  lemma CarveGeometry(base: Ptr, v: View, p: Ptr, b: Ptr)
    requires Geometry(base, v) && p in v.home && v.used[p] < Cap(v.home[p].1)
    requires b == Slot(p, v.home[p].1, v.used[p])
    ensures b !in v.at
    ensures Geometry(base, CarvedView(v, p, b)) && OfClass(CarvedView(v, p, b), b, v.home[p].1)
  {
    NextSlotIsNew(base, v, p, b);
    CarveSlots(v, p, b);
  }

  lemma NextSlotIsNew(base: Ptr, v: View, p: Ptr, b: Ptr)
    requires Geometry(base, v) && p in v.home && v.used[p] < Cap(v.home[p].1)
    requires b == Slot(p, v.home[p].1, v.used[p])
    ensures b !in v.at
  {
    SlotInside(p, v.home[p].1, v.used[p]);
    if b in v.at {
      var q := v.at[b].chunk;
      BlockInside(base, v, b);
      if p == q {
        SlotsApart(p, v.home[p].1, v.at[b].i, v.used[p]);
      } else if p < q {
        M.ChunksApart(base, p, q);
      } else {
        M.ChunksApart(base, q, p);
      }
    }
  }

  lemma CarveSlots(v: View, p: Ptr, b: Ptr)
    requires SlotsOk(v) && p in v.home && b !in v.at && b == Slot(p, v.home[p].1, v.used[p])
    ensures SlotsOk(CarvedView(v, p, b))
  {
    var v' := CarvedView(v, p, b);
    forall q, i: nat | q in v.home && i < v'.used[q]
      ensures Slot(q, v.home[q].1, i) in v'.at && v'.at[Slot(q, v.home[q].1, i)] == Spot(q, i)
    {
      SlotAt(v, p, b, q, i);
    }
  }

  lemma SlotAt(v: View, p: Ptr, b: Ptr, q: Ptr, i: nat)
    requires SlotsOk(v) && p in v.home && b !in v.at && b == Slot(p, v.home[p].1, v.used[p])
    requires q in v.home && i < CarvedView(v, p, b).used[q]
    ensures var c := Slot(q, v.home[q].1, i);
            c in CarvedView(v, p, b).at && CarvedView(v, p, b).at[c] == Spot(q, i)
  {
    if i < v.used[q] {
      assert Slot(q, v.home[q].1, i) in v.at;
    }
  }

  /** A block lies in only one of the held chunks. */
  lemma OneChunk(base: Ptr, v: View, b: Ptr, q: Ptr)
    requires Geometry(base, v) && b in v.at && q in v.home && InChunk(b, q)
    ensures q == v.at[b].chunk
  {
    BlockInside(base, v, b);
    var p := v.at[b].chunk;
    if p < q {
      M.ChunksApart(base, p, q);
    } else if q < p {
      M.ChunksApart(base, q, p);
    }
  }

  /** Advancing `pool_curr` in the head chunk. */
  lemma CurrAdvanced(base: Ptr, v: View, m: Mem, p: Ptr, x: nat, m': Mem)
    requires Geometry(base, v) && M.IsChunk(base, p) && x < WORD && m' == Write64(m, CurrOf(p), x)
    ensures Read64(m', CurrOf(p)) == x && LinkKept(m, m', p)
    ensures OtherHeadersKept(base, m, m', p) && AllBlocksKept(m, m', v)
  {
    Write64Spec(m, CurrOf(p), x);
    ReadOutside(m, m', CurrOf(p), CurrOf(p) + 8, p);
    WriteInHeader(base, v, p, m, m');
  }

  /** The headers of all held chunks but p's read as before, and p's link too. */
  ghost predicate OthersKept(m: Mem, m': Mem, v: View, p: Ptr) {
    LinkKept(m, m', p) && forall q | q in v.home && q != p :: HeaderKept(m, m', q)
  }

  lemma HeadersCarve(m: Mem, m': Mem, pools: map<Key, CPool>, v: View, p: Ptr, v': View)
    requires HeadersOk(m, pools, v) && ListsInHome(v) && p in v.home
    requires v'.chunks == v.chunks && v'.home == v.home && v'.used.Keys == v.used.Keys && p in v'.used
    requires forall q | q in v.used && q != p :: v'.used[q] == v.used[q]
    requires CurrOk(m', p, v.home[p].1, v'.used[p]) && OthersKept(m, m', v, p)
    ensures HeadersOk(m', pools, v')
  {
    forall q | q in v.home ensures LinkKept(m, m', q) { assert q != p ==> HeaderKept(m, m', q); }
    ChunkLists(m, m', pools, v);
    forall q | q in v.home ensures CurrOk(m', q, v'.home[q].1, v'.used[q]) {
      assert q != p ==> HeaderKept(m, m', q);
    }
  }

  /** The chunk lists survive writes that keep the link of every held chunk. */
  lemma ChunkLists(m: Mem, m': Mem, pools: map<Key, CPool>, v: View)
    requires v.chunks.Keys == pools.Keys
    requires forall k | k in pools :: L.Chain(v.chunks[k], Link(m), pools[k].head)
    requires ListsInHome(v)
    requires forall q | q in v.home :: LinkKept(m, m', q)
    ensures forall k | k in pools :: L.Chain(v.chunks[k], Link(m'), pools[k].head)
  {
    forall k | k in pools ensures L.Chain(v.chunks[k], Link(m'), pools[k].head) {
      forall p | p in v.chunks[k] ensures Link(m')(p) == Link(m)(p) { assert LinkKept(m, m', p); }
      L.ChainFrame(v.chunks[k], Link(m), Link(m'), pools[k].head);
    }
  }

  /** A new block is on no free list; the lists survive writes that keep all earlier blocks. */
  lemma FreesAdd(m: Mem, m': Mem, pools: map<Key, CPool>, phase: map<Tid, Phase>, log: map<Ptr, BlockState>,
                 v: View, k: Key, p: CPool, b: Ptr, st: BlockState, v': View)
    requires FreesOk(m, pools, phase, log, v) && k in pools && p.free == pools[k].free && st.Live?
    requires b !in log && forall c | c in log :: LinkKept(m, m', c)
    requires v'.frees == v.frees && v'.home == v.home
    requires forall c | c in log :: c in v.at && c in v'.at && v'.at[c] == v.at[c]
    ensures FreesOk(m', pools[k := p], phase, log[b := st], v')
  {
    forall j | j in pools && j.0 in phase && Keeps(phase[j.0], j.1)
      ensures FreeListOk(m', j, pools[k := p][j], v'.frees[j], log[b := st], v')
    {
      assert FreeListOk(m, j, pools[j], v.frees[j], log, v);
      forall x | x in v.frees[j] ensures Link(m')(x) == Link(m)(x) { assert LinkKept(m, m', x); }
      L.ChainFrame(v.frees[j], Link(m), Link(m'), pools[j].free);
    }
  }

  lemma LivesAdd(base: Ptr, m: Mem, m1: Mem, m': Mem, log: map<Ptr, BlockState>, v: View, b: Ptr, st: BlockState,
                 v': View)
    requires LivesOk(m, log, v) && b !in v.at
    requires v'.home == v.home && b in v'.at && v'.at == v.at[b := v'.at[b]]
    requires AllBlocksKept(m, m1, v)
    requires OnlyBlock(base, m1, m', v', b) && LiveOk(m', b, st, v')
    ensures LivesOk(m', log[b := st], v')
  {
    forall c | c in log && log[c].Live? ensures LiveOk(m', c, log[c], v') {
      assert c in v.at && c != b;
      LiveThroughTwo(m, m1, m', c, log[c], v, v');
    }
    LivesBut(m', log, v.at.Keys, b, st, v');
  }

  lemma LivesBut(m: Mem, log: map<Ptr, BlockState>, at: set<Ptr>, b: Ptr, st: BlockState, v: View)
    requires log.Keys == at && v.at.Keys == at + {b} && LiveOk(m, b, st, v)
    requires forall c | c in log && log[c].Live? :: LiveOk(m, c, log[c], v)
    ensures LivesOk(m, log[b := st], v)
  {
  }

  lemma LiveThroughTwo(m: Mem, m1: Mem, m': Mem, c: Ptr, st: BlockState, v: View, v': View)
    requires LiveOk(m, c, st, v) && v'.home == v.home && c in v'.at && v'.at[c] == v.at[c]
    requires BlockKept(m, m1, v, c) && BlockKept(m1, m', v', c)
    ensures LiveOk(m', c, st, v')
  {
    LiveFrame(m, m1, c, st, v);
    LiveFrame(m1, m', c, st, v');
  }

  lemma TwoWrites(base: Ptr, m: Mem, m1: Mem, m': Mem, v: View, b: Ptr, v': View)
    requires Geometry(base, v) && Geometry(base, v') && b !in v.at
    requires v'.home == v.home && b in v'.at && v'.at == v.at[b := v'.at[b]]
    requires AllBlocksKept(m, m1, v)
    requires OnlyBlock(base, m1, m', v', b)
    ensures forall c | c in v.at :: LinkKept(m, m', c)
  {
    forall c | c in v.at ensures LinkKept(m, m', c) {
      BlockKeptWord(base, m, m1, v, c);
      BlockKeptWord(base, m1, m', v', c);
    }
  }

  /** The head of a pool's chunk list is its current chunk. */
  lemma HeadChunk(s: State, v: View, k: Key)
    requires ChunksOk(s.mm.base, v) && PoolsOk(s.mm.held, s.pools, v) && HeadersOk(s.mem, s.pools, v) && k in s.pools
    requires s.pools[k].head != 0
    ensures v.chunks[k] != [] && s.pools[k].head == v.chunks[k][0]
    ensures s.pools[k].head in v.home && v.home[s.pools[k].head] == k
    ensures M.IsChunk(s.mm.base, s.pools[k].head) && GoodClass(k.1)
    ensures CurrOk(s.mem, s.pools[k].head, k.1, v.used[s.pools[k].head])
    ensures v.used[s.pools[k].head] <= Cap(k.1)
    ensures s.pools[k].head in s.mm.held && s.mm.held[s.pools[k].head] == k.0
  {
    assert L.Chain(v.chunks[k], Link(s.mem), s.pools[k].head);
    assert s.pools[k].head in v.chunks[k];
  }

  /** The head chunk of pool p has a slot left, and `pool_curr` is at it. */
  ghost predicate Carvable(m: Mem, v: View, k: Key, p: CPool) {
    && p.head in v.home && p.head in v.used && v.home[p.head] == k && GoodClass(k.1)
    && v.used[p.head] < Cap(k.1) && CarvePtr(p, m) == Slot(p.head, k.1, v.used[p.head])
  }

  /** Room in the head chunk means that not all its slots are carved. */
  lemma RoomMeansSlots(s: State, v: View, k: Key)
    requires ChunksOk(s.mm.base, v) && PoolsOk(s.mm.held, s.pools, v) && HeadersOk(s.mem, s.pools, v) && k in s.pools
    requires k.1 > 0
    requires HasRoom(s.pools[k], s.mem, k.1)
    ensures Carvable(s.mem, v, k, s.pools[k])
  {
    HeadChunk(s, v, k);
    FreeCountIs(s.pools[k], s.mem, k.1, v.used[s.pools[k].head]);
  }

  /** The two writes of a carve, to `pool_curr` and then into the new block b of chunk p. */
  ghost predicate CarveWrites(base: Ptr, v: View, m: Mem, m1: Mem, m': Mem, p: Ptr, b: Ptr, st: BlockState)
    requires p in v.used && p in v.home
  {
    var v' := CarvedView(v, p, b);
    && CurrOk(m1, p, v.home[p].1, v'.used[p]) && LinkKept(m, m1, p)
    && OtherHeadersKept(base, m, m1, p) && AllBlocksKept(m, m1, v)
    && OnlyBlock(base, m1, m', v', b) && LiveOk(m', b, st, v')
  }

  lemma NextCurr(base: Ptr, v: View, p: Ptr, cls: nat)
    requires ChunksOk(base, v) && p in v.home && v.home[p].1 == cls && v.used[p] < Cap(cls)
    ensures Slot(p, cls, v.used[p]) + cls == Slot(p, cls, v.used[p] + 1) < WORD
  {
    SlotInside(p, cls, v.used[p]);
  }

  lemma CarveCurr(base: Ptr, v: View, m: Mem, m1: Mem, p: Ptr, b: Ptr, cls: nat)
    requires Geometry(base, v) && p in v.home && v.home[p].1 == cls && v.used[p] < Cap(cls)
    requires b == Slot(p, cls, v.used[p]) && m1 == Write64(m, CurrOf(p), b + cls)
    ensures CurrOk(m1, p, cls, v.used[p] + 1) && LinkKept(m, m1, p)
    ensures OtherHeadersKept(base, m, m1, p) && AllBlocksKept(m, m1, v)
  {
    NextCurr(base, v, p, cls);
    CurrAdvanced(base, v, m, p, b + cls, m1);
  }

  /** Every chunk's link reads as before. */
  ghost predicate AllLinksKept(base: Ptr, m: Mem, m': Mem) {
    forall q: Ptr | M.IsChunk(base, q) :: LinkKept(m, m', q)
  }

  lemma CarveLinks(base: Ptr, v: View, m: Mem, m1: Mem, m': Mem, p: Ptr, b: Ptr, st: BlockState)
    requires ChunksOk(base, v) && p in v.home && CarveWrites(base, v, m, m1, m', p, b, st)
    ensures CurrOk(m', p, v.home[p].1, v.used[p] + 1) && OthersKept(m, m', v, p)
    ensures AllLinksKept(base, m, m')
  {
    forall q: Ptr | M.IsChunk(base, q) ensures LinkKept(m, m', q) && (q != p ==> HeaderKept(m, m', q)) {
      assert HeaderKept(m1, m', q);
      assert q != p ==> HeaderKept(m, m1, q);
    }
    assert HeaderKept(m1, m', p);
  }

  /** A carve's two writes, as `alloc_from_local_pool` and then `alloc` make them. */
  lemma CarveSteps(base: Ptr, m: Mem, v: View, k: Key, p: CPool, b: Ptr, m1: Mem, bytes: nat, d: Debug)
    requires Geometry(base, v) && Carvable(m, v, k, p)
    requires TotalSize(bytes) <= MAX_ALLOC && GoodDebug(d) && k.1 == ClassOf(TotalSize(bytes))
    requires b == CarvePtr(p, m) && m1 == CarveMem(p, m, k.1)
    ensures CarveWrites(base, v, m, m1, Stamp(m1, b, bytes, d), p.head, b, Live(bytes, d))
    ensures Geometry(base, CarvedView(v, p.head, b)) && b !in v.at
  {
    CarveFirst(base, m, v, k, p, b, m1);
    CarveGeometry(base, v, p.head, b);
    StampInBlock(base, CarvedView(v, p.head, b), m1, b, bytes, d);
  }

  lemma CarveFirst(base: Ptr, m: Mem, v: View, k: Key, p: CPool, b: Ptr, m1: Mem)
    requires Geometry(base, v) && Carvable(m, v, k, p) && b == CarvePtr(p, m) && m1 == CarveMem(p, m, k.1)
    ensures CurrOk(m1, p.head, k.1, v.used[p.head] + 1) && LinkKept(m, m1, p.head)
    ensures OtherHeadersKept(base, m, m1, p.head) && AllBlocksKept(m, m1, v)
  {
    CarveMemIs(p, m, k.1, b);
    CarveCurr(base, v, m, m1, p.head, b, k.1);
  }

  lemma CarveMemIs(p: CPool, m: Mem, cls: nat, b: Ptr)
    requires b == CarvePtr(p, m)
    ensures CarveMem(p, m, cls) == Write64(m, CurrOf(p.head), b + cls)
  {
  }

  lemma CarveLists(base: Ptr, m: Mem, m1: Mem, m': Mem, pools: map<Key, CPool>, phase: map<Tid, Phase>,
                   log: map<Ptr, BlockState>, v: View, k: Key, p: CPool, b: Ptr, st: BlockState)
    requires p.head in v.home && p.head in v.used && CarveWrites(base, v, m, m1, m', p.head, b, st)
    requires Geometry(base, v) && Geometry(base, CarvedView(v, p.head, b)) && b !in v.at
    requires FreesOk(m, pools, phase, log, v) && LivesOk(m, log, v) && k in pools && p.free == pools[k].free
    ensures FreesOk(m', pools[k := p], phase, log[b := st], CarvedView(v, p.head, b))
    ensures LivesOk(m', log[b := st], CarvedView(v, p.head, b))
  {
    var v' := CarvedView(v, p.head, b);
    TwoWrites(base, m, m1, m', v, b, v');
    FreesAdd(m, m', pools, phase, log, v, k, p, b, st, v');
    LivesAdd(base, m, m1, m', log, v, b, st, v');
  }

  lemma CarveContents(s: State, v: View, k: Key, bytes: nat, d: Debug) returns (v': View)
    requires Structure(s, v) && Contents(s, v) && k in s.pools
    requires TotalSize(bytes) <= MAX_ALLOC && GoodDebug(d) && k.1 == ClassOf(TotalSize(bytes))
    requires Carvable(s.mem, v, k, s.pools[k])
    ensures var p := s.pools[k];
            var b := CarvePtr(p, s.mem);
            var s' := Hand(s, k, Counted(p), CarveMem(p, s.mem, k.1), b, bytes, d);
            && Structure(s', v') && Contents(s', v')
            && v' == CarvedView(v, p.head, b)
            && AllLinksKept(s.mm.base, s.mem, s'.mem)
            && p.head in v.home && v.home[p.head] == k && b in v'.at && v'.at[b].chunk == p.head
  {
    var p := s.pools[k];
    var b := CarvePtr(p, s.mem);
    var m1 := CarveMem(p, s.mem, k.1);
    var s' := Hand(s, k, Counted(p), m1, b, bytes, d);
    CarveSteps(s.mm.base, s.mem, v, k, p, b, m1, bytes, d);
    v' := CarvedView(v, p.head, b);
    CarveLinks(s.mm.base, v, s.mem, m1, s'.mem, p.head, b, Live(bytes, d));
    CarveHeaders(s.mem, s'.mem, s.pools, v, k, b, Counted(p));
    CarveLists(s.mm.base, s.mem, m1, s'.mem, s.pools, s.phase, s.log, v, k, Counted(p), b, Live(bytes, d));
    CarvePools(s.mm.held, s.pools, v, s'.pools, v');
  }

  lemma CarveHeaders(m: Mem, m': Mem, pools: map<Key, CPool>, v: View, k: Key, b: Ptr, p: CPool)
    requires HeadersOk(m, pools, v) && ListsInHome(v) && k in pools
    requires p.head == pools[k].head && p.head in v.home
    requires CurrOk(m', p.head, v.home[p.head].1, v.used[p.head] + 1) && OthersKept(m, m', v, p.head)
    ensures HeadersOk(m', pools[k := p], CarvedView(v, p.head, b))
  {
    HeadersCarve(m, m', pools, v, p.head, CarvedView(v, p.head, b));
    SameHeads(m', pools, k, p, CarvedView(v, p.head, b));
  }

  lemma SameHeads(m: Mem, pools: map<Key, CPool>, k: Key, p: CPool, v: View)
    requires HeadersOk(m, pools, v) && k in pools && p.head == pools[k].head
    ensures HeadersOk(m, pools[k := p], v)
  {
  }

  lemma CarvePools(held: map<Ptr, Tid>, pools: map<Key, CPool>, v: View, pools': map<Key, CPool>, v': View)
    requires PoolsOk(held, pools, v) && pools'.Keys == pools.Keys
    requires v'.chunks == v.chunks && v'.frees == v.frees && v'.home == v.home
    ensures PoolsOk(held, pools', v')
  {
  }

  /** The chunk of a new block belongs to the carving thread. */
  lemma NewBlockHolder(base: Ptr, held: map<Ptr, Tid>, pools: map<Key, CPool>, v: View, b: Ptr, k: Key,
      phase: map<Tid, Phase>)
    requires Geometry(base, v) && PoolsOk(held, pools, v) && OfClass(v, b, k.1) && v.home[v.at[b].chunk] == k
    requires k.0 in phase && Active(phase[k.0])
    ensures forall q | q in held && InChunk(b, q) :: held[q] in phase && Active(phase[held[q]])
  {
    forall q | q in held && InChunk(b, q) ensures held[q] in phase && Active(phase[held[q]]) {
      OneChunk(base, v, b, q);
    }
  }

  lemma CarveLeaves(base: Ptr, held: map<Ptr, Tid>, pools: map<Key, CPool>, phase: map<Tid, Phase>,
                    log: map<Ptr, BlockState>, v: View, k: Key, p: Ptr, b: Ptr, st: BlockState)
    requires LeavesOk(held, phase, log, v) && p in v.used && k.0 in phase && Active(phase[k.0])
    requires var v' := CarvedView(v, p, b);
        Geometry(base, v') && PoolsOk(held, pools, v') && OfClass(v', b, k.1) && v'.home[v'.at[b].chunk] == k
    ensures LeavesOk(held, phase, log[b := st], CarvedView(v, p, b))
  {
    var v' := CarvedView(v, p, b);
    NewBlockHolder(base, held, pools, v', b, k, phase);
    LeavesHand(held, phase, log, v, b, st, v');
  }

  lemma CarveLocal(s: State, v: View, k: Key, bytes: nat, d: Debug) returns (v': View)
    requires Local(s, v) && k in s.pools && k.0 in s.phase && s.phase[k.0] == Idle
    requires TotalSize(bytes) <= MAX_ALLOC && GoodDebug(d) && k.1 == ClassOf(TotalSize(bytes))
    requires Carvable(s.mem, v, k, s.pools[k])
    ensures var p := s.pools[k];
            var s' := Hand(s, k, Counted(p), CarveMem(p, s.mem, k.1), CarvePtr(p, s.mem), bytes, d);
            Local(s', v') && AllLinksKept(s.mm.base, s.mem, s'.mem)
    ensures v' == CarvedView(v, s.pools[k].head, CarvePtr(s.pools[k], s.mem))
  {
    var p := s.pools[k];
    var b := CarvePtr(p, s.mem);
    var s' := Hand(s, k, Counted(p), CarveMem(p, s.mem, k.1), b, bytes, d);
    v' := CarveContents(s, v, k, bytes, d);
    CarveLeaves(s.mm.base, s.mm.held, s'.pools, s.phase, s.log, v, k, p.head, b, Live(bytes, d));
    PhasesHand(s, s');
  }
}
