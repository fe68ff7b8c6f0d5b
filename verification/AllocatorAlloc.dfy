/** `alloc` and `dealloc` keep the invariant of the whole allocator. */
module AllocatorAlloc {
  import L = LfStack
  import M = Mmap
  import C = MmapCounters
  import opened Memory
  import opened SizeClasses
  import opened Blocks
  import opened Pool
  import opened Allocator
  import opened AllocatorInv

  // ---------------------------------------------------------------- the chunk manager's side

  lemma NodeIsChunk(s: M.State, p: Ptr)
    requires M.Frontier(s) && p in s.lf.nodes
    ensures M.IsChunk(s.base, p) && p + M.CHUNK_SIZE <= s.head && p + M.CHUNK_SIZE < WORD
    ensures s.base != 0 ==> 0 < p
  {
    M.NextChunk(s.base, p);
  }

  /** Writes that change only the words of chunks that thread t holds are invisible to the chunk manager. */
  lemma ManagerUndisturbed(s: M.State, l: L.Links, a: L.Abs, t: Tid, l': L.Links)
    requires C.Inv(s, l, a) && t in s.pc
    requires forall p | p in s.lf.nodes && !(p in s.held && s.held[p] == t) :: l'(p) == l(p)
    ensures C.Inv(s, l', a)
  {
    C.StackFacts(s.lf, l, a, t);
    C.InvStep(s, l, a, t, M.Scribble, s, l');
  }

  ghost predicate HeadersKept(base: Ptr, m: Mem, m': Mem) {
    forall p: Ptr | M.IsChunk(base, p) :: HeaderKept(m, m', p)
  }

  /** Nodes of the stack are chunks, so keeping every chunk's header keeps the stack's links. */
  lemma LinksKept(s: M.State, m: Mem, m': Mem)
    requires M.Frontier(s) && HeadersKept(s.base, m, m')
    ensures forall p | p in s.lf.nodes :: Link(m')(p) == Link(m)(p)
  {
    forall p | p in s.lf.nodes ensures Link(m')(p) == Link(m)(p) { assert HeaderKept(m, m', p); }
  }

  lemma ManagerKept(s: M.State, m: Mem, m': Mem, a: L.Abs, t: Tid)
    requires C.Inv(s, Link(m), a) && t in s.pc && HeadersKept(s.base, m, m')
    ensures C.Inv(s, Link(m'), a)
  {
    LinksKept(s, m, m');
    ManagerUndisturbed(s, Link(m), a, t, Link(m'));
  }

  // ---------------------------------------------------------------- alloc from the free list

  lemma Tail(b: Ptr, free: seq<Ptr>, tail: seq<Ptr>)
    requires free != [] && free[0] == b && tail == free[1..] && L.NoDup(free)
    ensures L.NoDup(tail) && forall x :: x in tail <==> x in free && x != b
  {
    assert free == [b] + tail;
    L.Cons(b, tail);
  }

  /** The pool the block came from. */
  lemma TakeFreeList(m: Mem, m': Mem, k: Key, p: CPool, free: seq<Ptr>,
                     log: map<Ptr, BlockState>, v: View, st: BlockState)
    requires FreeListOk(m, k, p, free, log, v) && p.free != 0 && st.Live?
    requires forall c | c in free && c != p.free :: LinkKept(m, m', c)
    ensures free != [] && free[0] == p.free
    ensures FreeListOk(m', k, TakeFree(p, m), free[1..], log[p.free := st], v)
  {
    var b := p.free;
    Tail(b, free, free[1..]);
    assert L.Chain(free[1..], Link(m), Link(m)(b));
    forall x | x in free[1..] ensures Link(m')(x) == Link(m)(x) { assert LinkKept(m, m', x); }
    L.ChainFrame(free[1..], Link(m), Link(m'), Read64(m, b));
  }

  /** The other running pools' free lists, when block b of this pool changes hands. */
  lemma OtherFreeList(m: Mem, m': Mem, k: Key, p: CPool, free: seq<Ptr>,
                      log: map<Ptr, BlockState>, v: View, b: Ptr, st: BlockState, v': View)
    requires FreeListOk(m, k, p, free, log, v)
    requires forall c | c in free && c != b :: LinkKept(m, m', c)
    requires !(b in log && log[b] == Freed(k.0) && OfClass(v, b, k.1))
    requires !(st == Freed(k.0) && OfClass(v', b, k.1))
    requires forall c, cls | c in log && c != b :: OfClass(v', c, cls) <==> OfClass(v, c, cls)
    ensures FreeListOk(m', k, p, free, log[b := st], v')
  {
    assert b !in free;
    forall x | x in free ensures Link(m')(x) == Link(m)(x) { assert LinkKept(m, m', x); }
    L.ChainFrame(free, Link(m), Link(m'), p.free);
  }

  /** What a hand-over of block b needs from the writes: only b's own bytes changed. */
  ghost predicate OnlyBlock(base: Ptr, m: Mem, m': Mem, v: View, b: Ptr) {
    && HeadersKept(base, m, m')
    && (forall c | c in v.at && c != b :: v.at[c].chunk in v.home && BlockKept(m, m', v, c))
  }

  lemma OtherWords(base: Ptr, m: Mem, m': Mem, v: View, b: Ptr)
    requires Geometry(base, v) && OnlyBlock(base, m, m', v, b)
    ensures forall c | c in v.at && c != b :: LinkKept(m, m', c)
  {
    forall c | c in v.at && c != b ensures LinkKept(m, m', c) {
      BlockKeptWord(base, m, m', v, c);
    }
  }

  lemma LivesHand(base: Ptr, m: Mem, m': Mem, log: map<Ptr, BlockState>, v: View, b: Ptr, st: BlockState, v': View)
    requires LivesOk(m, log, v) && b in v.at && v'.at == v.at && v'.home == v.home
    requires OnlyBlock(base, m, m', v, b)
    requires st.Live? ==> LiveOk(m', b, st, v)
    ensures LivesOk(m', log[b := st], v')
  {
    forall c | c in log && c != b && log[c].Live? ensures LiveOk(m', c, log[c], v') {
      LiveFrame(m, m', c, log[c], v);
    }
  }

  /** Handing over a block from an exiting thread's chunk is impossible, so the leaving threads notice nothing. */
  lemma LeavesHand(held: map<Ptr, Tid>, phase: map<Tid, Phase>, log: map<Ptr, BlockState>, v: View,
                   b: Ptr, st: BlockState, v': View)
    requires LeavesOk(held, phase, log, v) && v'.chunks == v.chunks && v'.home == v.home
    requires forall c | c in v.at && c != b :: c in v'.at && v'.at[c] == v.at[c]
    requires forall p | p in held && InChunk(b, p) :: held[p] in phase && Active(phase[held[p]])
    ensures LeavesOk(held, phase, log[b := st], v')
  {
  }

  lemma PhasesHand(s: State, s': State)
    requires PhasesOk(s) && s'.mm == s.mm && s'.phase == s.phase && s'.pools.Keys == s.pools.Keys
    ensures PhasesOk(s')
  {
  }

  /** A chunk's holder runs a pool, so it is one of the threads. */
  lemma HolderIsThread(s: State, v: View, p: Ptr)
    requires PoolsOk(s.mm.held, s.pools, v) && PhasesOk(s) && p in s.mm.held
    ensures s.mm.held[p] in s.phase
  {
    assert v.home[p] in s.pools;
  }

  /** A block that a running thread freed last is not in the chunk of a thread that leaves. */
  lemma NotLeaving(s: State, v: View, b: Ptr, t: Tid)
    requires LeavesOk(s.mm.held, s.phase, s.log, v) && PoolsOk(s.mm.held, s.pools, v) && PhasesOk(s)
    requires b in s.log && t in s.phase && Active(s.phase[t])
    requires s.log[b].Live? || s.log[b] == Freed(t)
    ensures forall p | p in s.mm.held && InChunk(b, p) :: s.mm.held[p] in s.phase && Active(s.phase[s.mm.held[p]])
  {
    forall p | p in s.mm.held && InChunk(b, p) ensures s.mm.held[p] in s.phase && Active(s.phase[s.mm.held[p]]) {
      HolderIsThread(s, v, p);
    }
  }

  /** When block b of pool k changes hands, the other running pools keep their free lists. */
  lemma OtherFreeLists(base: Ptr, m: Mem, m': Mem, pools: map<Key, CPool>, phase: map<Tid, Phase>,
                       log: map<Ptr, BlockState>, v: View, k: Key, b: Ptr, st: BlockState, v': View)
    requires FreesOk(m, pools, phase, log, v) && Geometry(base, v) && log.Keys == v.at.Keys
    requires b in log && OfClass(v, b, k.1) && (log[b].Live? || log[b] == Freed(k.0))
    requires st.Live? || st == Freed(k.0)
    requires OnlyBlock(base, m, m', v, b) && v'.at == v.at && v'.home == v.home
    ensures forall j | j in pools && j != k && j.0 in phase && Keeps(phase[j.0], j.1) ::
              FreeListOk(m', j, pools[j], v.frees[j], log[b := st], v')
  {
    OtherWords(base, m, m', v, b);
    forall j | j in pools && j != k && j.0 in phase && Keeps(phase[j.0], j.1)
      ensures FreeListOk(m', j, pools[j], v.frees[j], log[b := st], v')
    {
      assert FreeListOk(m, j, pools[j], v.frees[j], log, v);
      OtherFreeList(m, m', j, pools[j], v.frees[j], log, v, b, st, v');
    }
  }

  lemma FreesTake(base: Ptr, m: Mem, m': Mem, pools: map<Key, CPool>, phase: map<Tid, Phase>,
                  log: map<Ptr, BlockState>, v: View, k: Key, st: BlockState)
    requires st.Live?
    requires FreesOk(m, pools, phase, log, v) && Geometry(base, v) && log.Keys == v.at.Keys
    requires k in pools && k.0 in phase && Active(phase[k.0]) && pools[k].free != 0
    requires OnlyBlock(base, m, m', v, pools[k].free)
    ensures v.frees[k] != []
    ensures FreesOk(m', pools[k := TakeFree(pools[k], m)], phase, log[pools[k].free := st],
                    v.(frees := v.frees[k := v.frees[k][1..]]))
  {
    var b := pools[k].free;
    var v' := v.(frees := v.frees[k := v.frees[k][1..]]);
    assert FreeListOk(m, k, pools[k], v.frees[k], log, v);
    OtherWords(base, m, m', v, b);
    TakeFreeList(m, m', k, pools[k], v.frees[k], log, v, st);
    assert b in v.frees[k];
    OtherFreeLists(base, m, m', pools, phase, log, v, k, b, st, v');
  }

  /** Stamping a block's header and fences stays inside the block. */
  lemma StampInBlock(base: Ptr, v: View, m: Mem, b: Ptr, bytes: nat, d: Debug)
    requires Geometry(base, v) && TotalSize(bytes) <= MAX_ALLOC && GoodDebug(d)
    requires OfClass(v, b, ClassOf(TotalSize(bytes)))
    ensures OnlyBlock(base, m, Stamp(m, b, bytes, d), v, b)
    ensures LiveOk(Stamp(m, b, bytes, d), b, Live(bytes, d), v)
  {
    Stamped(m, b, bytes, d);
    WriteInBlock(base, v, b, m, Stamp(m, b, bytes, d));
  }

  lemma HeadersHand(base: Ptr, m: Mem, m': Mem, pools: map<Key, CPool>, held: map<Ptr, Tid>, v: View, k: Key,
      p: CPool, v': View)
    requires v' == v.(frees := v'.frees)
    requires HeadersOk(m, pools, v) && PoolsOk(held, pools, v) && ChunksOk(base, v)
    requires HeadersKept(base, m, m')
    requires k in pools && p.head == pools[k].head
    ensures HeadersOk(m', pools[k := p], v')
  {
    HeadersFrame(m, m', pools, v);
  }

  lemma HeadersWrite(base: Ptr, m: Mem, m': Mem, pools: map<Key, CPool>, held: map<Ptr, Tid>, v: View)
    requires HeadersOk(m, pools, v) && PoolsOk(held, pools, v) && ChunksOk(base, v)
    requires HeadersKept(base, m, m')
    ensures HeadersOk(m', pools, v)
  {
    HeadersFrame(m, m', pools, v);
  }

  /** The block at the head of the free list, before it is taken. */
  lemma FreeHead(s: State, v: View, k: Key)
    requires FreesOk(s.mem, s.pools, s.phase, s.log, v) && s.log.Keys == v.at.Keys
    requires k in s.pools && k.0 in s.phase && Active(s.phase[k.0]) && s.pools[k].free != 0
    ensures s.pools[k].free in s.log && s.log[s.pools[k].free] == Freed(k.0) && OfClass(v, s.pools[k].free, k.1)
  {
    assert FreeListOk(s.mem, k, s.pools[k], v.frees[k], s.log, v);
    assert s.pools[k].free in v.frees[k];
  }

  /** A step that moves no chunk and carves nothing keeps the structure. */
  lemma SameStructure(base: Ptr, held: map<Ptr, Tid>, pools: map<Key, CPool>, v: View,
                      pools': map<Key, CPool>, v': View)
    requires Geometry(base, v) && PoolsOk(held, pools, v)
    requires pools'.Keys == pools.Keys && v'.frees.Keys == v.frees.Keys
    requires v' == v.(frees := v'.frees)
    ensures Geometry(base, v') && PoolsOk(held, pools', v')
  {
  }

  /** The structure without the first block of pool k's free list. */
  function TakenView(v: View, k: Key): View
    requires k in v.frees && v.frees[k] != []
  {
    v.(frees := v.frees[k := v.frees[k][1..]])
  }

  /** The structure with block b first on pool k's free list. */
  function GivenView(v: View, k: Key, b: Ptr): View
    requires k in v.frees
  {
    v.(frees := v.frees[k := [b] + v.frees[k]])
  }

  lemma TakeFreeContents(s: State, v: View, k: Key, bytes: nat, d: Debug) returns (v': View)
    requires Structure(s, v) && Contents(s, v)
    requires k in s.pools && s.pools[k].free != 0 && k.0 in s.phase && Active(s.phase[k.0])
    requires TotalSize(bytes) <= MAX_ALLOC && GoodDebug(d) && k.1 == ClassOf(TotalSize(bytes))
    ensures var s' := Hand(s, k, TakeFree(s.pools[k], s.mem), s.mem, s.pools[k].free, bytes, d);
            Structure(s', v') && Contents(s', v') && HeadersKept(s.mm.base, s.mem, s'.mem)
    ensures v.frees[k] != [] && v' == TakenView(v, k)
  {
    var p := s.pools[k];
    var b := p.free;
    var s' := Hand(s, k, TakeFree(p, s.mem), s.mem, b, bytes, d);
    v' := v.(frees := v.frees[k := v.frees[k][1..]]);
    FreeHead(s, v, k);
    StampInBlock(s.mm.base, v, s.mem, b, bytes, d);
    HeadersHand(s.mm.base, s.mem, s'.mem, s.pools, s.mm.held, v, k, TakeFree(p, s.mem), v');
    FreesTake(s.mm.base, s.mem, s'.mem, s.pools, s.phase, s.log, v, k, Live(bytes, d));
    LivesHand(s.mm.base, s.mem, s'.mem, s.log, v, b, Live(bytes, d), v');
    SameStructure(s.mm.base, s.mm.held, s.pools, v, s'.pools, v');
  }

  lemma TakeFreeLocal(s: State, v: View, k: Key, bytes: nat, d: Debug) returns (v': View)
    requires Local(s, v) && k in s.pools && k.0 in s.phase && s.phase[k.0] == Idle && s.pools[k].free != 0
    requires TotalSize(bytes) <= MAX_ALLOC && GoodDebug(d) && k.1 == ClassOf(TotalSize(bytes))
    ensures var s' := Hand(s, k, TakeFree(s.pools[k], s.mem), s.mem, s.pools[k].free, bytes, d);
            Local(s', v') && HeadersKept(s.mm.base, s.mem, s'.mem)
    ensures v.frees[k] != [] && v' == TakenView(v, k)
  {
    var b := s.pools[k].free;
    var s' := Hand(s, k, TakeFree(s.pools[k], s.mem), s.mem, b, bytes, d);
    v' := TakeFreeContents(s, v, k, bytes, d);
    FreeHead(s, v, k);
    NotLeaving(s, v, b, k.0);
    LeavesHand(s.mm.held, s.phase, s.log, v, b, Live(bytes, d), v');
    PhasesHand(s, s');
  }

  // ---------------------------------------------------------------- dealloc

  /** The pool the block goes to: the freeing thread's own pool of its class. */
  lemma GiveBackList(m: Mem, m': Mem, k: Key, p: CPool, free: seq<Ptr>, log: map<Ptr, BlockState>, v: View, b: Ptr,
      v': View)
    requires FreeListOk(m, k, p, free, log, v) && b in log && log[b].Live? && b != 0 && OfClass(v, b, k.1)
    requires Read64(m', b) == p.free && forall c | c in free :: LinkKept(m, m', c)
    requires v'.at == v.at && v'.home == v.home
    ensures FreeListOk(m', k, GaveBack(p, b), [b] + free, log[b := Freed(k.0)], v')
  {
    assert b !in free;
    L.Cons(b, free);
    forall x | x in free ensures Link(m')(x) == Link(m)(x) { assert LinkKept(m, m', x); }
    L.ChainFrame(free, Link(m), Link(m'), p.free);
    assert ([b] + free)[1..] == free;
  }

  lemma FreesGive(base: Ptr, m: Mem, m': Mem, pools: map<Key, CPool>, phase: map<Tid, Phase>,
                  log: map<Ptr, BlockState>, v: View, k: Key, b: Ptr)
    requires FreesOk(m, pools, phase, log, v) && Geometry(base, v) && log.Keys == v.at.Keys
    requires k in pools && k.0 in phase && Active(phase[k.0])
    requires b in log && log[b].Live? && b != 0 && OfClass(v, b, k.1)
    requires OnlyBlock(base, m, m', v, b) && Read64(m', b) == pools[k].free
    ensures FreesOk(m', pools[k := GaveBack(pools[k], b)], phase, log[b := Freed(k.0)],
                    v.(frees := v.frees[k := [b] + v.frees[k]]))
  {
    var v' := v.(frees := v.frees[k := [b] + v.frees[k]]);
    OtherWords(base, m, m', v, b);
    assert FreeListOk(m, k, pools[k], v.frees[k], log, v);
    GiveBackList(m, m', k, pools[k], v.frees[k], log, v, b, v');
    OtherFreeLists(base, m, m', pools, phase, log, v, k, b, Freed(k.0), v');
  }

  /** A running pool's `free_` is null or a block, so it fits a word. */
  lemma FreeFits(s: State, v: View, k: Key)
    requires Structure(s, v) && Contents(s, v)
    requires k in s.pools && k.0 in s.phase && Active(s.phase[k.0])
    ensures s.pools[k].free < WORD
  {
    if s.pools[k].free != 0 {
      FreeHead(s, v, k);
      BlockInside(s.mm.base, v, s.pools[k].free);
    }
  }

  lemma LinkInBlock(base: Ptr, v: View, m: Mem, b: Ptr, x: nat)
    requires Geometry(base, v) && b in v.at && x < WORD
    ensures b != 0 && OnlyBlock(base, m, Write64(m, b, x), v, b) && Read64(Write64(m, b, x), b) == x
  {
    BlockInside(base, v, b);
    Write64Spec(m, b, x);
    WriteInBlock(base, v, b, m, Write64(m, b, x));
  }

  lemma GiveBackContents(s: State, v: View, k: Key, b: Ptr) returns (v': View)
    requires Structure(s, v) && Contents(s, v)
    requires k in s.pools && k.0 in s.phase && Active(s.phase[k.0])
    requires b in s.log && s.log[b].Live? && OfClass(v, b, k.1)
    ensures var s' := s.(pools := s.pools[k := GaveBack(s.pools[k], b)],
                         mem := GiveBackMem(s.pools[k], s.mem, b), log := s.log[b := Freed(k.0)]);
            Structure(s', v') && Contents(s', v') && HeadersKept(s.mm.base, s.mem, s'.mem)
    ensures v' == GivenView(v, k, b)
  {
    var p := s.pools[k];
    var s' := s.(pools := s.pools[k := GaveBack(p, b)], mem := GiveBackMem(p, s.mem, b), log := s.log[b := Freed(k.0)]);
    v' := v.(frees := v.frees[k := [b] + v.frees[k]]);
    FreeFits(s, v, k);
    LinkInBlock(s.mm.base, v, s.mem, b, p.free);
    HeadersHand(s.mm.base, s.mem, s'.mem, s.pools, s.mm.held, v, k, GaveBack(p, b), v');
    FreesGive(s.mm.base, s.mem, s'.mem, s.pools, s.phase, s.log, v, k, b);
    LivesHand(s.mm.base, s.mem, s'.mem, s.log, v, b, Freed(k.0), v');
    SameStructure(s.mm.base, s.mm.held, s.pools, v, s'.pools, v');
  }

  lemma GiveBackLocal(s: State, v: View, k: Key, b: Ptr) returns (v': View)
    requires Local(s, v) && k in s.pools && k.0 in s.phase && s.phase[k.0] == Idle
    requires b in s.log && s.log[b].Live? && OfClass(v, b, k.1)
    ensures var s' := s.(pools := s.pools[k := GaveBack(s.pools[k], b)],
                         mem := GiveBackMem(s.pools[k], s.mem, b), log := s.log[b := Freed(k.0)]);
            Local(s', v') && HeadersKept(s.mm.base, s.mem, s'.mem)
    ensures v' == GivenView(v, k, b)
  {
    var s' := s.(pools := s.pools[k := GaveBack(s.pools[k], b)],
                 mem := GiveBackMem(s.pools[k], s.mem, b), log := s.log[b := Freed(k.0)]);
    v' := GiveBackContents(s, v, k, b);
    NotLeaving(s, v, b, k.0);
    LeavesHand(s.mm.held, s.phase, s.log, v, b, Freed(k.0), v');
    PhasesHand(s, s');
  }

  /** At every free of a block in use the header still holds the requested size, all four fences are whole, and the
      class is the block's own. */
  lemma FreeChecksPass(s: State, v: View, b: Ptr)
    requires LivesOk(s.mem, s.log, v) && b in s.log && s.log[b].Live?
    ensures Read64(s.mem, b) == s.log[b].bytes && FencesOk(s.mem, b, s.log[b].bytes)
    ensures TotalSize(s.log[b].bytes) <= MAX_ALLOC
    ensures OfClass(v, b, ClassOf(TotalSize(s.log[b].bytes)))
  {
    assert LiveOk(s.mem, b, s.log[b], v);
  }

  // ---------------------------------------------------------------- clients

  lemma ClientWriteContents(s: State, v: View, b: Ptr, i: nat, m': Mem)
    requires Structure(s, v) && Contents(s, v)
    requires b in s.log && s.log[b].Live? && i < s.log[b].bytes
    requires Touches(s.mem, m', UserPtr(b) + i, UserPtr(b) + i + 1)
    ensures Contents(s.(mem := m'), v) && HeadersKept(s.mm.base, s.mem, m')
  {
    ByteInBlock(s.mm.base, s.mem, m', v, b, s.log[b], i);
    HeadersWrite(s.mm.base, s.mem, m', s.pools, s.mm.held, v);
    FreesWrite(s, v, b, m');
    LivesWrite(s.mm.base, s.mem, m', s.log, v, b);
  }

  lemma ByteInBlock(base: Ptr, m: Mem, m': Mem, v: View, b: Ptr, st: BlockState, i: nat)
    requires Geometry(base, v) && LiveOk(m, b, st, v) && i < st.bytes
    requires Touches(m, m', UserPtr(b) + i, UserPtr(b) + i + 1)
    ensures OnlyBlock(base, m, m', v, b) && LiveOk(m', b, st, v)
  {
    WriteInBlock(base, v, b, m, m');
    FrameKept(m, m', b, st.bytes);
    LabelKept(m, m', b, st.debug);
  }

  lemma FreesWrite(s: State, v: View, b: Ptr, m': Mem)
    requires FreesOk(s.mem, s.pools, s.phase, s.log, v) && Geometry(s.mm.base, v) && s.log.Keys == v.at.Keys
    requires b in s.log && s.log[b].Live? && OnlyBlock(s.mm.base, s.mem, m', v, b)
    ensures FreesOk(m', s.pools, s.phase, s.log, v)
  {
    OtherWords(s.mm.base, s.mem, m', v, b);
    forall k | k in s.pools && k.0 in s.phase && Keeps(s.phase[k.0], k.1)
      ensures FreeListOk(m', k, s.pools[k], v.frees[k], s.log, v)
    {
      FreeListFrame(s.mem, m', k, s.pools[k], v.frees[k], s.log, v);
    }
  }

  lemma LivesWrite(base: Ptr, m: Mem, m': Mem, log: map<Ptr, BlockState>, v: View, b: Ptr)
    requires LivesOk(m, log, v) && b in log && OnlyBlock(base, m, m', v, b)
    requires log[b].Live? ==> LiveOk(m', b, log[b], v)
    ensures LivesOk(m', log, v)
  {
    LivesHand(base, m, m', log, v, b, log[b], v);
    assert log[b := log[b]] == log;
  }
}
