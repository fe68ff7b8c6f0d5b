/** Installing a chunk at the head of a pool's list keeps the invariant of the whole allocator. */
module AllocatorInstall {
  import L = LfStack
  import M = Mmap
  import opened Memory
  import opened Pool
  import opened Allocator
  import opened AllocatorInv
  import opened AllocatorCarve

  /** The structure once chunk p heads the list of pool k. */
  function InstalledView(v: View, k: Key, p: Ptr): View
    requires k in v.chunks
  {
    v.(chunks := v.chunks[k := [p] + v.chunks[k]], home := v.home[p := k], used := v.used[p := 0])
  }

  lemma InstallGeometry(base: Ptr, v: View, k: Key, p: Ptr)
    requires Geometry(base, v) && k in v.chunks && p !in v.home
    requires M.IsChunk(base, p) && 0 < p && p + M.CHUNK_SIZE < WORD && GoodClass(k.1)
    ensures Geometry(base, InstalledView(v, k, p))
  {
  }

  lemma InstallListed(v: View, k: Key, p: Ptr)
    requires ListedOnce(v) && ListsInHome(v) && k in v.chunks && p !in v.home
    ensures ListedOnce(InstalledView(v, k, p))
  {
    L.Cons(p, v.chunks[k]);
  }

  lemma InstallLists(v: View, k: Key, p: Ptr)
    requires ListsInHome(v) && k in v.chunks && p !in v.home
    ensures ListsInHome(InstalledView(v, k, p))
  {
    var v' := InstalledView(v, k, p);
    forall j, q | j in v'.chunks && q in v'.chunks[j] ensures q in v'.home && v'.home[q] == j {
      assert j == k && q != p ==> q in v.chunks[k];
    }
  }

  lemma InstallPools(held: map<Ptr, Tid>, pools: map<Key, CPool>, v: View, k: Key, p: Ptr, pools': map<Key, CPool>)
    requires PoolsOk(held, pools, v) && k in pools && p !in v.home && pools'.Keys == pools.Keys
    ensures PoolsOk(held[p := k.0], pools', InstalledView(v, k, p))
  {
    InstallLists(v, k, p);
    var v' := InstalledView(v, k, p);
    assert p in v'.chunks[k];
    forall q | q in v.home ensures v.home[q] in v'.chunks && q in v'.chunks[v.home[q]] {
      assert q in v.chunks[v.home[q]];
    }
  }

  /** What the two writes of `alloc_from_global` do. */
  ghost predicate InstallWrites(base: Ptr, v: View, m: Mem, m': Mem, p: Ptr, cls: nat, head: Ptr) {
    && Read64(m', p) == head && CurrOk(m', p, cls, 0)
    && OtherHeadersKept(base, m, m', p) && AllBlocksKept(m, m', v)
  }

  lemma InstallMemory(base: Ptr, v: View, m: Mem, pool: CPool, p: Ptr, cls: nat, m': Mem)
    requires Geometry(base, v) && M.IsChunk(base, p) && p + M.CHUNK_SIZE < WORD && pool.head < WORD
    requires m' == InstallMem(pool, m, p)
    ensures InstallWrites(base, v, m, m', p, cls, pool.head)
  {
    var m1 := Write64(m, CurrOf(p), p + POOL_HEADER);
    Write64Spec(m, CurrOf(p), p + POOL_HEADER);
    Write64Spec(m1, p, pool.head);
    ReadOutside(m1, m', p, p + 8, CurrOf(p));
    WriteInHeader(base, v, p, m, m');
  }

  lemma InstallHeaders(base: Ptr, m: Mem, m': Mem, pools: map<Key, CPool>, v: View, k: Key, p: Ptr)
    requires HeadersOk(m, pools, v) && ListsInHome(v) && ChunksOk(base, v)
    requires k in pools && p !in v.home && 0 < p
    requires InstallWrites(base, v, m, m', p, k.1, pools[k].head)
    ensures HeadersOk(m', pools[k := Installed(pools[k], p)], InstalledView(v, k, p))
  {
    var v' := InstalledView(v, k, p);
    forall q | q in v.home ensures HeaderKept(m, m', q) { assert M.IsChunk(base, q); }
    HeadersFrame(m, m', pools, v);
    assert ([p] + v.chunks[k])[1..] == v.chunks[k];
    assert L.Chain(v'.chunks[k], Link(m'), p);
  }

  /** The lists of freed blocks survive writes that keep every block, while chunks are added. */
  lemma FreesKept(m: Mem, m': Mem, pools: map<Key, CPool>, phase: map<Tid, Phase>, log: map<Ptr, BlockState>,
                  v: View, k: Key, p: CPool, phase': map<Tid, Phase>, v': View)
    requires FreesOk(m, pools, phase, log, v) && k in pools && p.free == pools[k].free
    requires log.Keys == v.at.Keys && forall c | c in v.at :: LinkKept(m, m', c)
    requires v'.frees == v.frees && v'.at == v.at
    requires forall c | c in v.at :: v.at[c].chunk in v.home && v.at[c].chunk in v'.home
                                     && v'.home[v.at[c].chunk] == v.home[v.at[c].chunk]
    requires phase'.Keys == phase.Keys && forall t, cls: nat | t in phase' && Keeps(phase'[t], cls) ::
        Keeps(phase[t], cls)
    ensures FreesOk(m', pools[k := p], phase', log, v')
  {
    forall j | j in pools && j.0 in phase && Keeps(phase'[j.0], j.1)
      ensures FreeListOk(m', j, pools[k := p][j], v'.frees[j], log, v')
    {
      assert FreeListOk(m, j, pools[j], v.frees[j], log, v);
      FreeListFrame(m, m', j, pools[j], v.frees[j], log, v);
    }
  }

  lemma LivesKept(m: Mem, m': Mem, log: map<Ptr, BlockState>, v: View, v': View)
    requires LivesOk(m, log, v) && AllBlocksKept(m, m', v) && v'.at == v.at
    requires forall c | c in v.at :: v.at[c].chunk in v.home && v.at[c].chunk in v'.home
                                     && v'.home[v.at[c].chunk] == v.home[v.at[c].chunk]
    ensures LivesOk(m', log, v')
  {
    forall b | b in log && log[b].Live? ensures LiveOk(m', b, log[b], v') {
      LiveFrame(m, m', b, log[b], v);
    }
  }

  lemma BlockWords(base: Ptr, v: View, m: Mem, m': Mem)
    requires Geometry(base, v) && AllBlocksKept(m, m', v)
    ensures forall c | c in v.at :: LinkKept(m, m', c)
  {
    forall c | c in v.at ensures LinkKept(m, m', c) { BlockKeptWord(base, m, m', v, c); }
  }

  lemma InstallLeaves(held: map<Ptr, Tid>, phase: map<Tid, Phase>, log: map<Ptr, BlockState>, v: View, k: Key,
      p: Ptr, ph: Phase)
    requires LeavesOk(held, phase, log, v) && k in v.chunks && k.0 in phase && p !in v.home
    requires Active(phase[k.0]) && Active(ph)
    ensures LeavesOk(held[p := k.0], phase[k.0 := ph], log, InstalledView(v, k, p))
  {
  }

  lemma HeadFits(s: State, v: View, k: Key)
    requires ChunksOk(s.mm.base, v) && PoolsOk(s.mm.held, s.pools, v) && HeadersOk(s.mem, s.pools, v) && k in s.pools
    ensures s.pools[k].head < WORD
  {
    if s.pools[k].head != 0 {
      HeadChunk(s, v, k);
    }
  }

  lemma InstallPhases(s: State, t: Tid, mm: M.State, s': State)
    requires PhasesOk(s) && t in s.phase && mm.pc == s.mm.pc[t := M.Idle]
    requires s'.mm == mm && s'.phase == s.phase[t := Idle] && s'.pools.Keys == s.pools.Keys
    ensures PhasesOk(s')
  {
  }

  /** The state after `alloc_from_global` has installed chunk p, whose holder alloc_chunk's return made t. */
  function InstalledState(s: State, k: Key, p: Ptr, mm: M.State): State
    requires k in s.pools
  {
    State(mm, InstallMem(s.pools[k], s.mem, p), s.pools[k := Installed(s.pools[k], p)], s.phase[k.0 := Idle], s.log)
  }

  lemma InstallStructure(s: State, v: View, k: Key, p: Ptr, mm: M.State)
    requires Structure(s, v) && k in s.pools && p !in v.home
    requires M.IsChunk(s.mm.base, p) && 0 < p && p + M.CHUNK_SIZE < WORD && GoodClass(k.1)
    requires mm.base == s.mm.base && mm.held == s.mm.held[p := k.0]
    ensures k in v.chunks && Structure(InstalledState(s, k, p, mm), InstalledView(v, k, p))
  {
    InstallGeometry(s.mm.base, v, k, p);
    InstallListed(v, k, p);
    InstallPools(s.mm.held, s.pools, v, k, p, InstalledState(s, k, p, mm).pools);
  }

  /** The free lists and the blocks in use, under writes that keep every block. */
  lemma BlocksSurvive(base: Ptr, m: Mem, m': Mem, pools: map<Key, CPool>, phase: map<Tid, Phase>,
                      log: map<Ptr, BlockState>, v: View, k: Key, pool: CPool, phase': map<Tid, Phase>, v': View)
    requires SlotsOk(v) && Geometry(base, v) && AllBlocksKept(m, m', v)
    requires FreesOk(m, pools, phase, log, v) && LivesOk(m, log, v) && k in pools && pool.free == pools[k].free
    requires v'.frees == v.frees && v'.at == v.at
    requires forall c | c in v.at ::
        v.at[c].chunk in v'.home && (v.at[c].chunk in v.home ==> v'.home[v.at[c].chunk] == v.home[v.at[c].chunk])
    requires phase'.Keys == phase.Keys && forall t, cls: nat | t in phase' && Keeps(phase'[t], cls) ::
        Keeps(phase[t], cls)
    ensures FreesOk(m', pools[k := pool], phase', log, v') && LivesOk(m', log, v')
  {
    BlockWords(base, v, m, m');
    FreesKept(m, m', pools, phase, log, v, k, pool, phase', v');
    LivesKept(m, m', log, v, v');
  }

  lemma InstallHeaderWrites(s: State, v: View, k: Key, p: Ptr, m': Mem)
    requires ChunksOk(s.mm.base, v) && SlotsOk(v) && PoolsOk(s.mm.held, s.pools, v) && HeadersOk(s.mem, s.pools, v)
        && k in s.pools
    requires p !in v.home && M.IsChunk(s.mm.base, p) && 0 < p && p + M.CHUNK_SIZE < WORD
    requires m' == InstallMem(s.pools[k], s.mem, p)
    ensures HeadersOk(m', s.pools[k := Installed(s.pools[k], p)], InstalledView(v, k, p))
    ensures InstallWrites(s.mm.base, v, s.mem, m', p, k.1, s.pools[k].head)
  {
    HeadFits(s, v, k);
    InstallMemory(s.mm.base, v, s.mem, s.pools[k], p, k.1, m');
    InstallHeaders(s.mm.base, s.mem, m', s.pools, v, k, p);
  }

  lemma InstallBlocks(base: Ptr, m: Mem, m': Mem, pools: map<Key, CPool>, phase: map<Tid, Phase>,
                      log: map<Ptr, BlockState>, v: View, k: Key, p: Ptr)
    requires Geometry(base, v) && AllBlocksKept(m, m', v) && p !in v.home && k in v.chunks
    requires FreesOk(m, pools, phase, log, v) && LivesOk(m, log, v) && k in pools
    requires k.0 in phase && Active(phase[k.0])
    ensures FreesOk(m', pools[k := Installed(pools[k], p)], phase[k.0 := Idle], log, InstalledView(v, k, p))
    ensures LivesOk(m', log, InstalledView(v, k, p))
  {
    BlocksSurvive(base, m, m', pools, phase, log, v, k, Installed(pools[k], p), phase[k.0 := Idle],
      InstalledView(v, k, p));
  }

  lemma InstallContents(s: State, v: View, k: Key, p: Ptr, m': Mem)
    requires Structure(s, v) && Contents(s, v) && k in s.pools && k.0 in s.phase && Active(s.phase[k.0])
    requires p !in v.home && M.IsChunk(s.mm.base, p) && 0 < p && p + M.CHUNK_SIZE < WORD
    requires m' == InstallMem(s.pools[k], s.mem, p)
    ensures k in v.chunks
    ensures var pools' := s.pools[k := Installed(s.pools[k], p)];
            var v' := InstalledView(v, k, p);
            HeadersOk(m', pools', v') && FreesOk(m', pools', s.phase[k.0 := Idle], s.log, v') && LivesOk(m', s.log, v')
    ensures InstallWrites(s.mm.base, v, s.mem, m', p, k.1, s.pools[k].head)
  {
    InstallHeaderWrites(s, v, k, p, m');
    InstallBlocks(s.mm.base, s.mem, m', s.pools, s.phase, s.log, v, k, p);
  }

  lemma InstallLocal(s: State, v: View, k: Key, p: Ptr, mm: M.State)
    requires Local(s, v) && k in s.pools && k.0 in s.phase && Active(s.phase[k.0])
    requires p !in v.home && M.IsChunk(s.mm.base, p) && 0 < p && p + M.CHUNK_SIZE < WORD && GoodClass(k.1)
    requires mm.base == s.mm.base && mm.held == s.mm.held[p := k.0] && mm.pc == s.mm.pc[k.0 := M.Idle]
    ensures Local(InstalledState(s, k, p, mm), InstalledView(v, k, p))
    ensures OtherHeadersKept(s.mm.base, s.mem, InstalledState(s, k, p, mm).mem, p)
    ensures Carvable(InstalledState(s, k, p, mm).mem, InstalledView(v, k, p), k, Installed(s.pools[k], p))
  {
    InstallStructure(s, v, k, p, mm);
    InstallContents(s, v, k, p, InstalledState(s, k, p, mm).mem);
    InstallLeaves(s.mm.held, s.phase, s.log, v, k, p, Idle);
    InstallPhases(s, k.0, mm, InstalledState(s, k, p, mm));
  }
}
