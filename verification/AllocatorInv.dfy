/** The invariant of the whole allocator, its geometry, and what writes to one place leave alone. */
module AllocatorInv {
  import L = LfStack
  import M = Mmap
  import C = MmapCounters
  import opened Memory
  import opened SizeClasses
  import opened Blocks
  import opened Pool
  import opened Allocator

  /** A block's place: the i-th slot of a chunk. */
  datatype Spot = Spot(chunk: Ptr, i: nat)

  /**
   The structure behind the pointers: each pool's chunk list and free list, each
   held chunk's pool and number of carved slots, and each block's place.
   */
  datatype View = View(
    chunks: map<Key, seq<Ptr>>, frees: map<Key, seq<Ptr>>,
    home: map<Ptr, Key>, used: map<Ptr, nat>, at: map<Ptr, Spot>)

  // ---------------------------------------------------------------- geometry

  ghost predicate ChunksOk(base: Ptr, v: View) {
    && v.used.Keys == v.home.Keys
    && forall p | p in v.home ::
         && M.IsChunk(base, p) && 0 < p && p + M.CHUNK_SIZE < WORD
         && GoodClass(v.home[p].1) && v.used[p] <= Cap(v.home[p].1)
  }

  /** The blocks are exactly the carved slots of the held chunks. */
  ghost predicate SlotsOk(v: View) {
    && v.used.Keys == v.home.Keys
    && (forall b | b in v.at ::
          && v.at[b].chunk in v.home && v.at[b].i < v.used[v.at[b].chunk]
          && b == Slot(v.at[b].chunk, v.home[v.at[b].chunk].1, v.at[b].i))
    && (forall p, i: nat | p in v.home && i < v.used[p] ::
          Slot(p, v.home[p].1, i) in v.at && v.at[Slot(p, v.home[p].1, i)] == Spot(p, i))
  }

  ghost predicate Geometry(base: Ptr, v: View) {
    ChunksOk(base, v) && SlotsOk(v)
  }

  function ClassAt(v: View, b: Ptr): nat
    requires b in v.at && v.at[b].chunk in v.home
  {
    v.home[v.at[b].chunk].1
  }

  lemma BlockInside(base: Ptr, v: View, b: Ptr)
    requires Geometry(base, v) && b in v.at
    ensures v.at[b].chunk in v.home
    ensures var p := v.at[b].chunk; p + POOL_HEADER <= b && b + ClassAt(v, b) <= p + M.CHUNK_SIZE
    ensures 64 <= ClassAt(v, b) && 0 < b < b + ClassAt(v, b) < WORD
  {
    var p := v.at[b].chunk;
    SlotInside(p, v.home[p].1, v.at[b].i);
  }

  /** No two blocks overlap, whatever their chunks and classes. */
  lemma BlocksApart(base: Ptr, v: View, b: Ptr, c: Ptr)
    requires Geometry(base, v) && b in v.at && c in v.at && b != c
    ensures v.at[b].chunk in v.home && v.at[c].chunk in v.home
    ensures b + ClassAt(v, b) <= c || c + ClassAt(v, c) <= b
  {
    BlockInside(base, v, b);
    BlockInside(base, v, c);
    var p, q := v.at[b].chunk, v.at[c].chunk;
    if p == q {
      if v.at[b].i < v.at[c].i {
        SlotsApart(p, v.home[p].1, v.at[b].i, v.at[c].i);
      } else if v.at[c].i < v.at[b].i {
        SlotsApart(p, v.home[p].1, v.at[c].i, v.at[b].i);
      }
    } else if p < q {
      M.ChunksApart(base, p, q);
    } else {
      M.ChunksApart(base, q, p);
    }
  }

  /** No block overlaps the first words of any chunk, held or free. */
  lemma BlockApartFromHeader(base: Ptr, v: View, b: Ptr, q: Ptr)
    requires Geometry(base, v) && b in v.at && M.IsChunk(base, q)
    ensures v.at[b].chunk in v.home
    ensures b + ClassAt(v, b) <= q || q + POOL_HEADER <= b
  {
    BlockInside(base, v, b);
    var p := v.at[b].chunk;
    if p < q {
      M.ChunksApart(base, p, q);
    } else if q < p {
      M.ChunksApart(base, q, p);
    }
  }

  // ---------------------------------------------------------------- what writes leave alone

  /** The word at p reads as before. */
  ghost predicate LinkKept(m: Mem, m': Mem, p: Ptr) {
    Read64(m', p) == Read64(m, p)
  }

  /** The words at the start of a chunk read as before. */
  ghost predicate HeaderKept(m: Mem, m': Mem, p: Ptr) {
    LinkKept(m, m', p) && LinkKept(m, m', CurrOf(p))
  }

  /** Every byte of a block is as before. */
  ghost predicate BlockKept(m: Mem, m': Mem, v: View, b: Ptr)
    requires b in v.at && v.at[b].chunk in v.home
  {
    SameOn(m, m', b, b + ClassAt(v, b))
  }

  /** The headers of all chunks but q read as before. */
  ghost predicate OtherHeadersKept(base: Ptr, m: Mem, m': Mem, q: Ptr) {
    forall p: Ptr | M.IsChunk(base, p) && p != q :: HeaderKept(m, m', p)
  }

  ghost predicate AllBlocksKept(m: Mem, m': Mem, v: View) {
    forall c | c in v.at :: v.at[c].chunk in v.home && BlockKept(m, m', v, c)
  }

  lemma HeaderFrame(m: Mem, m': Mem, lo: int, hi: int, p: Ptr)
    requires Touches(m, m', lo, hi) && (p + POOL_HEADER <= lo || hi <= p)
    ensures HeaderKept(m, m', p)
  {
    ReadOutside(m, m', lo, hi, p);
    ReadOutside(m, m', lo, hi, CurrOf(p));
  }

  /** Writing inside one block keeps every chunk header and every other block. */
  lemma WriteInBlock(base: Ptr, v: View, b: Ptr, m: Mem, m': Mem)
    requires Geometry(base, v) && b in v.at && v.at[b].chunk in v.home
    requires Touches(m, m', b, b + ClassAt(v, b))
    ensures forall p: Ptr | M.IsChunk(base, p) :: HeaderKept(m, m', p)
    ensures forall c | c in v.at && c != b :: v.at[c].chunk in v.home && BlockKept(m, m', v, c)
  {
    forall p: Ptr | M.IsChunk(base, p) ensures HeaderKept(m, m', p) {
      BlockApartFromHeader(base, v, b, p);
      HeaderFrame(m, m', b, b + ClassAt(v, b), p);
    }
    forall c | c in v.at && c != b ensures v.at[c].chunk in v.home && BlockKept(m, m', v, c) {
      BlocksApart(base, v, b, c);
    }
  }

  /** Writing in one chunk's header keeps every other header and every block. */
  lemma WriteInHeader(base: Ptr, v: View, q: Ptr, m: Mem, m': Mem)
    requires Geometry(base, v) && M.IsChunk(base, q)
    requires Touches(m, m', q, q + POOL_HEADER)
    ensures OtherHeadersKept(base, m, m', q) && AllBlocksKept(m, m', v)
  {
    forall p: Ptr | M.IsChunk(base, p) && p != q ensures HeaderKept(m, m', p) {
      if p < q { M.ChunksApart(base, p, q); } else { M.ChunksApart(base, q, p); }
      HeaderFrame(m, m', q, q + POOL_HEADER, p);
    }
    forall c | c in v.at ensures v.at[c].chunk in v.home && BlockKept(m, m', v, c) {
      BlockApartFromHeader(base, v, c, q);
    }
  }

  // ---------------------------------------------------------------- the invariant

  ghost predicate ListsInHome(v: View) {
    forall k, p | k in v.chunks && p in v.chunks[k] :: p in v.home && v.home[p] == k
  }

  /** Each held chunk is in exactly one chunk list, that of its home: its holder's pool of its class. */
  ghost predicate PoolsOk(held: map<Ptr, Tid>, pools: map<Key, CPool>, v: View) {
    && v.chunks.Keys == pools.Keys && v.frees.Keys == pools.Keys && v.home.Keys == held.Keys
    && ListsInHome(v)
    && (forall p | p in v.home ::
          held[p] == v.home[p].0 && v.home[p] in v.chunks && p in v.chunks[v.home[p]])
  }

  /** The chunk at p keeps `pool_curr` at its n-th slot. */
  ghost predicate CurrOk(m: Mem, p: Ptr, cls: nat, n: nat) {
    Read64(m, CurrOf(p)) == Slot(p, cls, n)
  }

  /** The chunk lists and every `pool_curr` are in memory. */
  ghost predicate HeadersOk(m: Mem, pools: map<Key, CPool>, v: View) {
    && v.chunks.Keys == pools.Keys && v.used.Keys == v.home.Keys
    && (forall k | k in pools :: L.Chain(v.chunks[k], Link(m), pools[k].head))
    && (forall p | p in v.home :: CurrOk(m, p, v.home[p].1, v.used[p]))
  }

  predicate OfClass(v: View, b: Ptr, cls: nat) {
    b in v.at && v.at[b].chunk in v.home && ClassAt(v, b) == cls
  }

  /** A thread's free list, until it has walked it for the last time, holds, once each, the blocks of its class that
      it freed last. */
  ghost predicate FreeListOk(m: Mem, k: Key, p: CPool, free: seq<Ptr>, log: map<Ptr, BlockState>, v: View) {
    && L.Chain(free, Link(m), p.free) && L.NoDup(free)
    && forall b :: b in free <==> b in log && log[b] == Freed(k.0) && OfClass(v, b, k.1)
  }

  ghost predicate FreesOk(
    m: Mem, pools: map<Key, CPool>, phase: map<Tid, Phase>, log: map<Ptr, BlockState>, v: View)
  {
    && v.frees.Keys == pools.Keys
    && forall k | k in pools && k.0 in phase && Keeps(phase[k.0], k.1) ::
         FreeListOk(m, k, pools[k], v.frees[k], log, v)
  }

  /** Every block in use has its header and fences in place, and lies in a chunk of its class. */
  ghost predicate LiveOk(m: Mem, b: Ptr, st: BlockState, v: View) {
    && st.Live? && TotalSize(st.bytes) <= MAX_ALLOC
    && Framed(m, b, st.bytes) && Labelled(m, b, st.debug) && OfClass(v, b, ClassOf(TotalSize(st.bytes)))
  }

  ghost predicate LivesOk(m: Mem, log: map<Ptr, BlockState>, v: View) {
    && log.Keys == v.at.Keys
    && forall b | b in log && log[b].Live? :: LiveOk(m, b, log[b], v)
  }

  /** Where a thread is in the chunk manager. */
  ghost predicate PhaseOk(p: Phase, pc: M.PC) {
    match p
    case Fetching(cls, bytes, d) =>
      && (pc.AllocPop? || pc.AllocGotFree? || pc.BumpLoad? || pc.BumpCas? || pc.BumpGot? || pc.AllocDone?
        || pc.Aborted?)
      && TotalSize(bytes) <= MAX_ALLOC && cls == ClassOf(TotalSize(bytes)) && GoodDebug(d)
    case Listing => pc.Listing?
    case Exiting(cs) => pc.Idle? && L.NoDup(cs)
    case Emptying(cs) => pc.Idle? && L.NoDup(cs) && cs != []
    case Returning(cs) => (pc.FreePush? || pc.FreeCount? || pc.FreeDone?) && L.NoDup(cs) && cs != []
    case _ => pc.Idle?
  }

  /** Thread u has walked its list of block b's class for the last time. */
  predicate Past(phase: map<Tid, Phase>, u: Tid, v: View, b: Ptr) {
    u in phase ==> b in v.at && v.at[b].chunk in v.home && !Keeps(phase[u], ClassAt(v, b))
  }

  /** A thread that exits has emptied the pools it is past, and its chunks hold no block anybody may touch. */
  ghost predicate LeavesOk(held: map<Ptr, Tid>, phase: map<Tid, Phase>, log: map<Ptr, BlockState>, v: View) {
    && (forall k | k in v.chunks && k.0 in phase ::
          match phase[k.0]
          case Exiting(cs) => k.1 in cs || v.chunks[k] == []
          case Emptying(cs) => k.1 in cs || v.chunks[k] == []
          case Returning(cs) => k.1 in cs || v.chunks[k] == []
          case Exited => v.chunks[k] == []
          case _ => true)
    && (forall b, p | b in log && p in held && InChunk(b, p) && held[p] in phase && !Active(phase[held[p]]) ::
          log[b].Freed? && (log[b].who == held[p] || Past(phase, log[b].who, v, b)))
  }

  ghost predicate PhasesOk(s: State) {
    && s.phase.Keys == s.mm.pc.Keys
    && (forall t | t in s.phase :: PhaseOk(s.phase[t], s.mm.pc[t]))
    && (forall k :: k in s.pools <==> k.0 in s.phase && IsClass(k.1))
  }

  /** No chunk is twice in a list. */
  ghost predicate ListedOnce(v: View) {
    forall k | k in v.chunks :: L.NoDup(v.chunks[k])
  }

  /** How many blocks have been carved from these chunks. */
  function Carved(cs: seq<Ptr>, used: map<Ptr, nat>): nat {
    if cs == [] then 0 else (if cs[0] in used then used[cs[0]] else 0) + Carved(cs[1..], used)
  }

  /** All chunks but the current one are fully carved. */
  ghost predicate Packed(cs: seq<Ptr>, used: map<Ptr, nat>, cap: nat) {
    forall i | 1 <= i < |cs| :: cs[i] in used && used[cs[i]] == cap
  }

  /** A pool has carved as many blocks as its counter has ever reached, and each is counted or on its free list. */
  ghost predicate TallyOk(p: CPool, k: Key, chunks: seq<Ptr>, free: nat, used: map<Ptr, nat>) {
    && k.1 > 0 && Packed(chunks, used, Cap(k.1))
    && Carved(chunks, used) == p.peak && free + p.net == p.peak
    && p.inUse == p.net % WORD
  }

  /** Nothing on the free list, and no slot left in the current chunk. */
  ghost predicate Full(chunks: seq<Ptr>, free: nat, used: map<Ptr, nat>, cap: nat) {
    free == 0 && (chunks != [] ==> chunks[0] in used && used[chunks[0]] == cap)
  }

  /** The tally of a running thread's pool, which is full while the thread gets a chunk for it. */
  ghost predicate KeyTally(p: CPool, ph: Phase, k: Key, v: View)
    requires k in v.chunks && k in v.frees
  {
    && TallyOk(p, k, v.chunks[k], |v.frees[k]|, v.used)
    && (ph.Fetching? && ph.cls == k.1 ==> Full(v.chunks[k], |v.frees[k]|, v.used, Cap(k.1)))
  }

  ghost predicate TalliesOk(pools: map<Key, CPool>, phase: map<Tid, Phase>, v: View) {
    && v.frees.Keys == pools.Keys && v.chunks.Keys == pools.Keys
    && forall k | k in pools && k.0 in phase && Active(phase[k.0]) :: KeyTally(pools[k], phase[k.0], k, v)
  }

  /** The pools' counters agree with the slots carved, and every held chunk has had one carved. */
  ghost predicate Tallied(pools: map<Key, CPool>, phase: map<Tid, Phase>, v: View) {
    TalliesOk(pools, phase, v) && forall p | p in v.used :: v.used[p] > 0
  }

  ghost predicate Structure(s: State, v: View) {
    Geometry(s.mm.base, v) && PoolsOk(s.mm.held, s.pools, v) && ListedOnce(v)
  }

  /** What the pools must agree on with memory and with the clients' log. */
  ghost predicate Contents(s: State, v: View) {
    && HeadersOk(s.mem, s.pools, v)
    && FreesOk(s.mem, s.pools, s.phase, s.log, v)
    && LivesOk(s.mem, s.log, v)
  }

  /** All but the chunk manager's own invariant and the tallies. */
  ghost predicate Local(s: State, v: View) {
    && Structure(s, v)
    && Contents(s, v)
    && PhasesOk(s)
    && LeavesOk(s.mm.held, s.phase, s.log, v)
  }

  ghost predicate Inv(s: State, a: L.Abs, v: View) {
    C.Inv(s.mm, Link(s.mem), a) && Local(s, v) && Tallied(s.pools, s.phase, v)
  }

  // ---------------------------------------------------------------- frames of the parts

  lemma HeadersFrame(m: Mem, m': Mem, pools: map<Key, CPool>, v: View)
    requires HeadersOk(m, pools, v)
    requires ListsInHome(v)
    requires forall p | p in v.home :: HeaderKept(m, m', p)
    ensures HeadersOk(m', pools, v)
  {
    forall k | k in pools ensures L.Chain(v.chunks[k], Link(m'), pools[k].head) {
      forall p | p in v.chunks[k] ensures Link(m')(p) == Link(m)(p) { assert HeaderKept(m, m', p); }
      L.ChainFrame(v.chunks[k], Link(m), Link(m'), pools[k].head);
    }
  }

  lemma FreeListFrame(m: Mem, m': Mem, k: Key, p: CPool, free: seq<Ptr>, log: map<Ptr, BlockState>, v: View)
    requires FreeListOk(m, k, p, free, log, v)
    requires forall b | b in free :: LinkKept(m, m', b)
    ensures FreeListOk(m', k, p, free, log, v)
  {
    forall x | x in free ensures Link(m')(x) == Link(m)(x) { assert LinkKept(m, m', x); }
    L.ChainFrame(free, Link(m), Link(m'), p.free);
  }

  lemma BlockKeptWord(base: Ptr, m: Mem, m': Mem, v: View, b: Ptr)
    requires Geometry(base, v) && b in v.at && v.at[b].chunk in v.home && BlockKept(m, m', v, b)
    ensures LinkKept(m, m', b)
  {
    BlockInside(base, v, b);
    ReadFrame(m, m', b, b + 8);
  }

  lemma LiveFrame(m: Mem, m': Mem, b: Ptr, st: BlockState, v: View)
    requires LiveOk(m, b, st, v) && BlockKept(m, m', v, b)
    ensures LiveOk(m', b, st, v)
  {
    FrameKept(m, m', b, st.bytes);
    LabelKept(m, m', b, st.debug);
  }
}
