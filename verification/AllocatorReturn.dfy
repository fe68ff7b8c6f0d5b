/** Handing a chunk back while a thread leaves keeps the invariant of the whole allocator. */
module AllocatorReturn {
  import L = LfStack
  import M = Mmap
  import opened Memory
  import opened Pool
  import opened Allocator
  import opened AllocatorInv
  import opened AllocatorAlloc
  import opened AllocatorCarve

  /** The structure once the first chunk p of pool k is gone, and its blocks with it. */
  function ReturnedView(v: View, k: Key, p: Ptr): View
    requires k in v.chunks && v.chunks[k] != []
  {
    v.(chunks := v.chunks[k := v.chunks[k][1..]], home := v.home - {p}, used := v.used - {p},
       at := map b | b in v.at && v.at[b].chunk != p :: v.at[b])
  }

  /** The history without the blocks of chunk p. */
  function Forgotten(log: map<Ptr, BlockState>, p: Ptr): map<Ptr, BlockState> {
    map b | b in log && !InChunk(b, p) :: log[b]
  }

  ghost predicate IsHead(v: View, k: Key, p: Ptr) {
    k in v.chunks && v.chunks[k] != [] && v.chunks[k][0] == p && p in v.home && v.home[p] == k
  }

  lemma ReturnGeometry(base: Ptr, v: View, k: Key, p: Ptr)
    requires Geometry(base, v) && IsHead(v, k, p)
    ensures Geometry(base, ReturnedView(v, k, p))
  {
  }

  /** The blocks in chunk p are those carved from it. */
  lemma BlocksOf(base: Ptr, v: View, p: Ptr, b: Ptr)
    requires Geometry(base, v) && b in v.at && p in v.home
    ensures InChunk(b, p) <==> v.at[b].chunk == p
  {
    BlockInside(base, v, b);
    if InChunk(b, p) {
      OneChunk(base, v, b, p);
    }
  }

  lemma RestOf(v: View, k: Key, p: Ptr, rest: seq<Ptr>)
    requires ListedOnce(v) && IsHead(v, k, p) && rest == v.chunks[k][1..]
    ensures L.NoDup(rest) && forall q :: q in rest <==> q in v.chunks[k] && q != p
  {
    Tail(p, v.chunks[k], rest);
  }

  lemma ReturnListed(v: View, k: Key, p: Ptr)
    requires ListedOnce(v) && IsHead(v, k, p)
    ensures ListedOnce(ReturnedView(v, k, p))
  {
    RestOf(v, k, p, v.chunks[k][1..]);
  }

  lemma ReturnPools(held: map<Ptr, Tid>, pools: map<Key, CPool>, v: View, k: Key, p: Ptr, pools': map<Key, CPool>)
    requires PoolsOk(held, pools, v) && ListedOnce(v) && IsHead(v, k, p) && pools'.Keys == pools.Keys
    ensures PoolsOk(held - {p}, pools', ReturnedView(v, k, p))
  {
    RestOf(v, k, p, v.chunks[k][1..]);
    ReturnLists(v, k, p);
    var v' := ReturnedView(v, k, p);
    forall q | q in v'.home ensures v'.home[q] in v'.chunks && q in v'.chunks[v'.home[q]] {
      assert q in v.chunks[v.home[q]];
    }
  }

  lemma ReturnLists(v: View, k: Key, p: Ptr)
    requires ListsInHome(v) && IsHead(v, k, p)
    requires forall q :: q in v.chunks[k][1..] <==> q in v.chunks[k] && q != p
    ensures ListsInHome(ReturnedView(v, k, p))
  {
    var v' := ReturnedView(v, k, p);
    forall j, q | j in v'.chunks && q in v'.chunks[j] ensures q in v'.home && v'.home[q] == j {
      assert j == k ==> q in v.chunks[k] && q != p;
    }
  }

  lemma ReturnHeaders(m: Mem, pools: map<Key, CPool>, v: View, k: Key, p: Ptr)
    requires HeadersOk(m, pools, v) && IsHead(v, k, p) && pools[k].head == p
    ensures HeadersOk(m, pools[k := Unlinked(pools[k], m)], ReturnedView(v, k, p))
  {
    assert L.Chain(v.chunks[k], Link(m), p);
  }

  lemma ReturnFreeList(m: Mem, j: Key, pool: CPool, free: seq<Ptr>, log: map<Ptr, BlockState>, v: View, k: Key, p: Ptr)
    requires FreeListOk(m, j, pool, free, log, v) && IsHead(v, k, p)
    requires forall b | b in v.at :: InChunk(b, p) <==> v.at[b].chunk == p
    requires forall b | b in log && InChunk(b, p) && OfClass(v, b, j.1) :: log[b] != Freed(j.0)
    ensures FreeListOk(m, j, pool, free, Forgotten(log, p), ReturnedView(v, k, p))
  {
  }

  /** Every block of chunk p was freed last by thread t or by one that is past its list. */
  ghost predicate Quiet(log: map<Ptr, BlockState>, phase: map<Tid, Phase>, v: View, p: Ptr, t: Tid) {
    forall b | b in log && InChunk(b, p) :: log[b].Freed? && (log[b].who == t || Past(phase, log[b].who, v, b))
  }

  /** A free list still in use has none of the chunk's blocks. */
  lemma NotOnList(v: View, k: Key, p: Ptr, log: map<Ptr, BlockState>, phase: map<Tid, Phase>, cs: seq<nat>, j: Key)
    requires IsHead(v, k, p) && Quiet(log, phase, v, p, k.0) && L.NoDup(cs) && cs != [] && k.1 == cs[0]
    requires forall b | b in v.at :: InChunk(b, p) <==> v.at[b].chunk == p
    requires k.0 in phase && j.0 in phase && Keeps(phase[k.0 := Returning(cs)][j.0], j.1)
    ensures forall b | b in log && InChunk(b, p) && OfClass(v, b, j.1) :: log[b] != Freed(j.0)
  {
    Tail(cs[0], cs, cs[1..]);
  }

  lemma ReturnFrees(base: Ptr, m: Mem, pools: map<Key, CPool>, phase: map<Tid, Phase>, log: map<Ptr, BlockState>,
                    v: View, k: Key, p: Ptr, cs: seq<nat>)
    requires FreesOk(m, pools, phase, log, v) && Geometry(base, v) && log.Keys == v.at.Keys
    requires k in pools && IsHead(v, k, p) && k.0 in phase && phase[k.0] == Emptying(cs)
    requires L.NoDup(cs) && cs != [] && k.1 == cs[0] && Quiet(log, phase, v, p, k.0)
    ensures FreesOk(m, pools[k := Unlinked(pools[k], m)], phase[k.0 := Returning(cs)], Forgotten(log, p),
        ReturnedView(v, k, p))
  {
    Tail(cs[0], cs, cs[1..]);
    forall b | b in v.at ensures InChunk(b, p) <==> v.at[b].chunk == p { BlocksOf(base, v, p, b); }
    forall j | j in pools && j.0 in phase && Keeps(phase[k.0 := Returning(cs)][j.0], j.1)
      ensures j != k && FreeListOk(m, j, pools[j], v.frees[j], Forgotten(log, p), ReturnedView(v, k, p))
    {
      NotOnList(v, k, p, log, phase, cs, j);
      ReturnFreeList(m, j, pools[j], v.frees[j], log, v, k, p);
    }
  }

  lemma ReturnLives(base: Ptr, m: Mem, log: map<Ptr, BlockState>, v: View, k: Key, p: Ptr)
    requires LivesOk(m, log, v) && Geometry(base, v) && IsHead(v, k, p)
    ensures LivesOk(m, Forgotten(log, p), ReturnedView(v, k, p))
  {
    forall b | b in v.at ensures InChunk(b, p) <==> v.at[b].chunk == p { BlocksOf(base, v, p, b); }
  }

  lemma ReturnLeaves(held: map<Ptr, Tid>, phase: map<Tid, Phase>, log: map<Ptr, BlockState>, v: View, k: Key, p: Ptr,
      cs: seq<nat>)
    requires LeavesOk(held, phase, log, v) && IsHead(v, k, p)
    requires k.0 in phase && phase[k.0] == Emptying(cs) && cs != [] && k.1 == cs[0]
    requires forall b | b in v.at :: InChunk(b, p) <==> v.at[b].chunk == p
    ensures LeavesOk(held - {p}, phase[k.0 := Returning(cs)], Forgotten(log, p), ReturnedView(v, k, p))
  {
    var v' := ReturnedView(v, k, p);
    forall b | b in Forgotten(log, p) && log[b].Freed? && Past(phase, log[b].who, v, b)
      ensures Past(phase[k.0 := Returning(cs)], log[b].who, v', b)
    {
      assert b in v.at ==> v.at[b].chunk != p;
    }
  }

  lemma EmptyingPhase(s: State, t: Tid)
    requires PhasesOk(s) && t in s.phase && s.phase[t].Emptying?
    ensures L.NoDup(s.phase[t].classes)
  {
  }

  lemma ReturnPhases(s: State, t: Tid, cs: seq<nat>, s': State)
    requires PhasesOk(s) && t in s.phase && s.phase[t] == Emptying(cs) && s'.pools.Keys == s.pools.Keys
    requires s'.mm.pc == s.mm.pc[t := M.FreePush] && s'.phase == s.phase[t := Returning(cs)]
    ensures PhasesOk(s')
  {
  }

  /** The chunk at the head of a leaving thread's pool holds no block that anybody may touch. */
  lemma HeadIsQuiet(s: State, v: View, k: Key, p: Ptr)
    requires LeavesOk(s.mm.held, s.phase, s.log, v) && k.0 in s.phase && !Active(s.phase[k.0])
    requires p in s.mm.held && s.mm.held[p] == k.0
    ensures Quiet(s.log, s.phase, v, p, k.0)
  {
  }

  /** The state after `deinit` has unlinked chunk p from pool k and passed it to free_chunk. */
  function ReturnedState(s: State, k: Key, p: Ptr, mm: M.State, cs: seq<nat>): State
    requires k in s.pools
  {
    State(mm, s.mem, s.pools[k := Unlinked(s.pools[k], s.mem)], s.phase[k.0 := Returning(cs)], Forgotten(s.log, p))
  }

  lemma ReturnStructure(s: State, v: View, k: Key, p: Ptr, mm: M.State, cs: seq<nat>)
    requires Structure(s, v) && k in s.pools && IsHead(v, k, p)
    requires mm.base == s.mm.base && mm.held == s.mm.held - {p}
    ensures Structure(ReturnedState(s, k, p, mm, cs), ReturnedView(v, k, p))
  {
    ReturnGeometry(s.mm.base, v, k, p);
    ReturnListed(v, k, p);
    ReturnPools(s.mm.held, s.pools, v, k, p, ReturnedState(s, k, p, mm, cs).pools);
  }

  lemma ReturnContents(s: State, v: View, k: Key, p: Ptr, mm: M.State, cs: seq<nat>)
    requires Geometry(s.mm.base, v) && Contents(s, v) && k in s.pools && IsHead(v, k, p) && s.pools[k].head == p
    requires k.0 in s.phase && s.phase[k.0] == Emptying(cs) && L.NoDup(cs) && cs != [] && k.1 == cs[0]
    requires Quiet(s.log, s.phase, v, p, k.0)
    ensures Contents(ReturnedState(s, k, p, mm, cs), ReturnedView(v, k, p))
  {
    ReturnHeaders(s.mem, s.pools, v, k, p);
    ReturnFrees(s.mm.base, s.mem, s.pools, s.phase, s.log, v, k, p, cs);
    ReturnLives(s.mm.base, s.mem, s.log, v, k, p);
  }

  lemma ReturnLocal(s: State, v: View, k: Key, p: Ptr, mm: M.State, cs: seq<nat>)
    requires Local(s, v) && k in s.pools && s.pools[k].head == p && p != 0
    requires k.0 in s.phase && s.phase[k.0] == Emptying(cs) && cs != [] && k.1 == cs[0]
    requires mm.base == s.mm.base && mm.held == s.mm.held - {p} && mm.pc == s.mm.pc[k.0 := M.FreePush]
    ensures IsHead(v, k, p) && Local(ReturnedState(s, k, p, mm, cs), ReturnedView(v, k, p))
  {
    HeadChunk(s, v, k);
    EmptyingPhase(s, k.0);
    HeadIsQuiet(s, v, k, p);
    ReturnStructure(s, v, k, p, mm, cs);
    ReturnContents(s, v, k, p, mm, cs);
    forall b | b in v.at ensures InChunk(b, p) <==> v.at[b].chunk == p { BlocksOf(s.mm.base, v, p, b); }
    ReturnLeaves(s.mm.held, s.phase, s.log, v, k, p, cs);
    ReturnPhases(s, k.0, cs, ReturnedState(s, k, p, mm, cs));
  }
}
