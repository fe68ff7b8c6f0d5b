/** A block in use belongs to its clients: no step of the allocator, of any thread, changes one of its bytes; so what a
    client stores it reads back. */
module AllocatorBytes {
  import opened Runs
  import L = LfStack
  import M = Mmap
  import C = MmapCounters
  import opened Memory
  import opened SizeClasses
  import opened Blocks
  import opened Pool
  import opened Allocator
  import opened AllocatorInv
  import opened AllocatorAlloc
  import opened AllocatorCarve
  import opened AllocatorInstall
  import opened AllocatorSteps
  import opened AllocatorRun
  import opened AllocatorTheorems
  import AllocatorProgress

  // ---------------------------------------------------------------- one step

  /** Block b stays in use for the same request, and no byte of it has changed. */
  ghost predicate Untouched(s: State, s': State, b: Ptr)
    requires b in s.log && s.log[b].Live?
  {
    && b in s'.log && s'.log[b] == s.log[b]
    && SameOn(s.mem, s'.mem, b, b + 64 + s.log[b].bytes)
  }

  /** The step is a free of b, or a client's write into it. */
  predicate Uses(lbl: Label, b: Ptr) {
    (lbl.Dealloc? && lbl.u == b + 48) || (lbl.ClientWrite? && lbl.b == b)
  }

  lemma WholeBlock(s: State, v: View, s': State, b: Ptr)
    requires Geometry(s.mm.base, v) && LivesOk(s.mem, s.log, v) && b in s.log && s.log[b].Live?
    requires b in s'.log && s'.log[b] == s.log[b]
    requires b in v.at && v.at[b].chunk in v.home ==> BlockKept(s.mem, s'.mem, v, b)
    ensures Untouched(s, s', b)
  {
    LiveInside(s.mm.base, s.mem, s.log, v, b);
  }

  lemma LiveHere(s: State, v: View, b: Ptr)
    requires Geometry(s.mm.base, v) && LivesOk(s.mem, s.log, v) && b in s.log && s.log[b].Live?
    ensures b in v.at && v.at[b].chunk in v.home
  {
    LiveInside(s.mm.base, s.mem, s.log, v, b);
    BlockInside(s.mm.base, v, b);
  }

  /** A block is handed out, and b is another one. */
  lemma HandKeeps(s: State, v: View, k: Key, q: CPool, m: Mem, c: Ptr, bytes: nat, d: Debug, b: Ptr)
    requires Geometry(s.mm.base, v) && LivesOk(s.mem, s.log, v) && b in s.log && s.log[b].Live? && b != c
    requires b in v.at && v.at[b].chunk in v.home && BlockKept(s.mem, Stamp(m, c, bytes, d), v, b)
    ensures Untouched(s, Hand(s, k, q, m, c, bytes, d), b)
  {
    WholeBlock(s, v, Hand(s, k, q, m, c, bytes, d), b);
  }

  lemma TakeKeeps(s: State, v: View, k: Key, bytes: nat, d: Debug, b: Ptr)
    requires Structure(s, v) && Contents(s, v) && k in s.pools && k.0 in s.phase && Active(s.phase[k.0])
    requires TotalSize(bytes) <= MAX_ALLOC && GoodDebug(d) && k.1 == ClassOf(TotalSize(bytes)) && s.pools[k].free != 0
    requires b in s.log && s.log[b].Live?
    ensures Untouched(s, Hand(s, k, TakeFree(s.pools[k], s.mem), s.mem, s.pools[k].free, bytes, d), b)
  {
    FreeHead(s, v, k);
    LiveHere(s, v, b);
    StampInBlock(s.mm.base, v, s.mem, s.pools[k].free, bytes, d);
    HandKeeps(s, v, k, TakeFree(s.pools[k], s.mem), s.mem, s.pools[k].free, bytes, d, b);
  }

  /** A carve's two writes keep every earlier block. */
  lemma CarveKeeps(base: Ptr, v: View, m: Mem, m1: Mem, m': Mem, p: Ptr, c: Ptr, st: BlockState, b: Ptr)
    requires p in v.used && p in v.home && CarveWrites(base, v, m, m1, m', p, c, st) && c !in v.at
    requires b in v.at && v.at[b].chunk in v.home
    ensures BlockKept(m, m', v, b)
  {
    assert BlockKept(m, m1, v, b);
    assert BlockKept(m1, m', CarvedView(v, p, c), b);
  }

  lemma CarvedKeeps(base: Ptr, m: Mem, v: View, k: Key, p: CPool, bytes: nat, d: Debug, b: Ptr)
    requires Geometry(base, v) && Carvable(m, v, k, p)
    requires TotalSize(bytes) <= MAX_ALLOC && GoodDebug(d) && k.1 == ClassOf(TotalSize(bytes))
    requires b in v.at && v.at[b].chunk in v.home
    ensures b != CarvePtr(p, m)
    ensures BlockKept(m, Stamp(CarveMem(p, m, k.1), CarvePtr(p, m), bytes, d), v, b)
  {
    var c, m1 := CarvePtr(p, m), CarveMem(p, m, k.1);
    CarveSteps(base, m, v, k, p, c, m1, bytes, d);
    CarveKeeps(base, v, m, m1, Stamp(m1, c, bytes, d), p.head, c, Live(bytes, d), b);
  }

  lemma RoomKeeps(s: State, v: View, k: Key, bytes: nat, d: Debug, b: Ptr)
    requires Structure(s, v) && Contents(s, v) && k in s.pools && Carvable(s.mem, v, k, s.pools[k])
    requires TotalSize(bytes) <= MAX_ALLOC && GoodDebug(d) && k.1 == ClassOf(TotalSize(bytes))
    requires b in s.log && s.log[b].Live?
    ensures var p := s.pools[k];
            Untouched(s, Hand(s, k, Counted(p), CarveMem(p, s.mem, k.1), CarvePtr(p, s.mem), bytes, d), b)
  {
    var p := s.pools[k];
    LiveHere(s, v, b);
    CarvedKeeps(s.mm.base, s.mem, v, k, p, bytes, d, b);
    HandKeeps(s, v, k, Counted(p), CarveMem(p, s.mem, k.1), CarvePtr(p, s.mem), bytes, d, b);
  }

  lemma AllocLocalKeeps(s: State, v: View, t: Tid, bytes: nat, d: Debug, s': State, b: Ptr)
    requires Structure(s, v) && Contents(s, v) && t in s.phase && s.phase[t] == Idle
    requires AllocLocalStep(s, t, bytes, d, s') && b in s.log && s.log[b].Live?
    ensures Untouched(s, s', b)
  {
    var k := (t, ClassOf(TotalSize(bytes)));
    if s.pools[k].free != 0 {
      TakeKeeps(s, v, k, bytes, d, b);
    } else {
      RoomMeansSlots(s, v, k);
      RoomKeeps(s, v, k, bytes, d, b);
    }
  }

  // ---------------------------------------------------------------- the other steps

  lemma LinkKeeps(base: Ptr, v: View, m: Mem, c: Ptr, x: nat, b: Ptr)
    requires Geometry(base, v) && c in v.at && x < WORD && b in v.at && v.at[b].chunk in v.home && b != c
    ensures BlockKept(m, Write64(m, c, x), v, b)
  {
    LinkInBlock(base, v, m, c, x);
  }

  lemma GivenKeeps(s: State, v: View, k: Key, c: Ptr, b: Ptr)
    requires Structure(s, v) && Contents(s, v) && k in s.pools && k.0 in s.phase && Active(s.phase[k.0])
    requires c in s.log && s.log[c].Live? && c != b && b in s.log && s.log[b].Live?
    ensures Untouched(s, GivenState(s, k, c), b)
  {
    LiveHere(s, v, b);
    LiveHere(s, v, c);
    FreeFits(s, v, k);
    LinkKeeps(s.mm.base, v, s.mem, c, s.pools[k].free, b);
    GivenBlock(s, v, k, c, b);
  }

  lemma GivenBlock(s: State, v: View, k: Key, c: Ptr, b: Ptr)
    requires Geometry(s.mm.base, v) && LivesOk(s.mem, s.log, v) && k in s.pools && c != b
    requires b in s.log && s.log[b].Live? && b in v.at && v.at[b].chunk in v.home
    requires BlockKept(s.mem, Write64(s.mem, c, s.pools[k].free), v, b)
    ensures Untouched(s, GivenState(s, k, c), b)
  {
    WholeBlock(s, v, GivenState(s, k, c), b);
  }

  lemma FreeKeeps(s: State, v: View, t: Tid, u: Ptr, s': State, b: Ptr)
    requires Local(s, v) && Next(s, t, Dealloc(u), s') && b in s.log && s.log[b].Live? && u != b + 48
    ensures Untouched(s, s', b)
  {
    var k, c := DeallocGives(s, v, t, u, s');
    if c == b {
      FreesThat(s, v, t, u, s', b);
    } else {
      GivenKeeps(s, v, k, c, b);
    }
  }

  /** A free of another block leaves b in use. */
  lemma FreesThat(s: State, v: View, t: Tid, u: Ptr, s': State, b: Ptr)
    requires LivesOk(s.mem, s.log, v) && t in s.phase && s.phase[t] == Idle
    requires DeallocStep(s, t, u, s') && b in s.log && s.log[b].Live? && u != b + 48
    ensures b in s'.log && s'.log[b] == s.log[b]
  {
    var c: Ptr := HeaderOf(u);
    FreeChecksPass(s, v, c);
  }

  lemma ClientKeeps(s: State, v: View, t: Tid, c: Ptr, i: nat, x: byte, s': State, b: Ptr)
    requires Local(s, v)
    requires Next(s, t, ClientWrite(c, i, x), s') && b in s.log && s.log[b].Live? && b != c
    ensures Untouched(s, s', b)
  {
    LiveHere(s, v, b);
    ByteInBlock(s.mm.base, s.mem, s'.mem, v, c, s.log[c], i);
    WholeBlock(s, v, s', b);
  }

  lemma StoreKeeps(s: State, v: View, t: Tid, s': State, b: Ptr)
    requires Local(s, v) && Next(s, t, Chunk, s') && StoresOutside(s.mm, t) && b in s.log && s.log[b].Live?
    ensures Untouched(s, s', b)
  {
    LiveHere(s, v, b);
    StoreKept(s.mm.base, v, s, t, b);
    WholeBlock(s, v, s', b);
  }

  lemma StoreKept(base: Ptr, v: View, s: State, t: Tid, b: Ptr)
    requires Geometry(base, v) && base == s.mm.base && t in s.mm.lf.pc && StoresOutside(s.mm, t)
    requires b in v.at && v.at[b].chunk in v.home
    ensures BlockKept(s.mem, TauMem(s, t), v, b)
  {
    match s.mm.lf.pc[t]
    case PushWrite(n, curr, _) =>
      WriteTouches(s.mem, n, curr.ptr);
      WriteInHeader(base, v, n, s.mem, TauMem(s, t));
    case _ =>
  }

  /** Handing back a chunk takes only blocks that nobody uses with it. */
  lemma ReturnKeeps(s: State, v: View, t: Tid, s': State, b: Ptr)
    requires Local(s, v) && Next(s, t, ReturnChunk, s') && b in s.log && s.log[b].Live?
    ensures Untouched(s, s', b)
  {
    HeadChunk(s, v, (t, s.phase[t].classes[0]));
    NotInReturned(s, v, t, s.pools[(t, s.phase[t].classes[0])].head, b);
  }

  lemma NotInReturned(s: State, v: View, t: Tid, p: Ptr, b: Ptr)
    requires LeavesOk(s.mm.held, s.phase, s.log, v) && t in s.phase && s.phase[t].Emptying?
    requires p in s.mm.held && s.mm.held[p] == t && b in s.log && s.log[b].Live?
    ensures !InChunk(b, p)
  {
  }

  lemma StillKeeps(s: State, s': State, b: Ptr)
    requires s'.mem == s.mem && s'.log == s.log && b in s.log && s.log[b].Live?
    ensures Untouched(s, s', b)
  {
  }

  lemma QuietLabels(s: State, t: Tid, lbl: Label, s': State)
    requires Next(s, t, lbl, s') && !lbl.AllocLocal? && !lbl.AllocNew? && !lbl.Dealloc? && !lbl.ClientWrite?
    requires !lbl.ReturnChunk? && !lbl.Chunk?
    ensures s'.mem == s.mem && s'.log == s.log
  {
  }

  // ---------------------------------------------------------------- a chunk arrives

  lemma InstallKeeps(s: State, v: View, k: Key, p: Ptr, b: Ptr)
    requires ChunksOk(s.mm.base, v) && SlotsOk(v) && PoolsOk(s.mm.held, s.pools, v) && HeadersOk(s.mem, s.pools, v)
        && k in s.pools
    requires p !in v.home && M.IsChunk(s.mm.base, p) && 0 < p && p + M.CHUNK_SIZE < WORD
    requires b in v.at && v.at[b].chunk in v.home
    ensures BlockKept(s.mem, InstallMem(s.pools[k], s.mem, p), v, b)
  {
    InstallHeaderWrites(s, v, k, p, InstallMem(s.pools[k], s.mem, p));
  }

  /** The new chunk is installed and its first block carved, and b is an earlier block. */
  lemma NewChunkKeeps(s: State, v: View, k: Key, p: Ptr, mm: M.State, bytes: nat, d: Debug, b: Ptr)
    requires Local(s, v) && k in s.pools && k.0 in s.phase && s.phase[k.0].Fetching?
    requires TotalSize(bytes) <= MAX_ALLOC && GoodDebug(d) && k.1 == ClassOf(TotalSize(bytes))
    requires p !in v.home && M.IsChunk(s.mm.base, p) && 0 < p && p + M.CHUNK_SIZE < WORD
    requires mm.base == s.mm.base && mm.held == s.mm.held[p := k.0] && mm.pc == s.mm.pc[k.0 := M.Idle]
    requires b in s.log && s.log[b].Live?
    ensures Untouched(s, AfterArrival(s, k, p, mm, bytes, d), b)
  {
    InstallsFirst(s, v, k, p, mm);
    LiveHere(s, v, b);
    InstallKeeps(s, v, k, p, b);
    BothKeep(s, v, k, p, mm, bytes, d, b);
  }

  /** The state after a chunk has arrived for this request. */
  function AfterArrival(s: State, k: Key, p: Ptr, mm: M.State, bytes: nat, d: Debug): State
    requires k in s.pools
  {
    var pool, m := Installed(s.pools[k], p), InstallMem(s.pools[k], s.mem, p);
    Hand(s, k, Counted(pool), CarveMem(pool, m, k.1), CarvePtr(pool, m), bytes, d)
      .(mm := mm, phase := s.phase[k.0 := Idle])
  }

  lemma InstallsFirst(s: State, v: View, k: Key, p: Ptr, mm: M.State)
    requires Local(s, v) && k in s.pools && k.0 in s.phase && Active(s.phase[k.0])
    requires p !in v.home && M.IsChunk(s.mm.base, p) && 0 < p && p + M.CHUNK_SIZE < WORD && GoodClass(k.1)
    requires mm.base == s.mm.base && mm.held == s.mm.held[p := k.0] && mm.pc == s.mm.pc[k.0 := M.Idle]
    ensures k in v.chunks && Geometry(s.mm.base, InstalledView(v, k, p))
    ensures Carvable(InstallMem(s.pools[k], s.mem, p), InstalledView(v, k, p), k, Installed(s.pools[k], p))
  {
    InstallLocal(s, v, k, p, mm);
  }

  lemma BothKeep(s: State, v: View, k: Key, p: Ptr, mm: M.State, bytes: nat, d: Debug, b: Ptr)
    requires Geometry(s.mm.base, v) && LivesOk(s.mem, s.log, v) && b in s.log && s.log[b].Live?
    requires k in s.pools && k in v.chunks && p !in v.home
    requires TotalSize(bytes) <= MAX_ALLOC && GoodDebug(d) && k.1 == ClassOf(TotalSize(bytes))
    requires b in v.at && v.at[b].chunk in v.home && Geometry(s.mm.base, InstalledView(v, k, p))
    requires var m := InstallMem(s.pools[k], s.mem, p);
        BlockKept(s.mem, m, v, b) && Carvable(m, InstalledView(v, k, p), k, Installed(s.pools[k], p))
    ensures Untouched(s, AfterArrival(s, k, p, mm, bytes, d), b)
  {
    ThenCarve(s.mm.base, s.mem, InstallMem(s.pools[k], s.mem, p), v, InstalledView(v, k, p), k,
      Installed(s.pools[k], p), bytes, d, b);
    var pool, m := Installed(s.pools[k], p), InstallMem(s.pools[k], s.mem, p);
    HandKeeps(s, v, k, Counted(pool), CarveMem(pool, m, k.1), CarvePtr(pool, m), bytes, d, b);
  }

  lemma ThenCarve(base: Ptr, m0: Mem, m: Mem, v: View, v': View, k: Key, p: CPool, bytes: nat, d: Debug, b: Ptr)
    requires Geometry(base, v') && Carvable(m, v', k, p)
    requires TotalSize(bytes) <= MAX_ALLOC && GoodDebug(d) && k.1 == ClassOf(TotalSize(bytes))
    requires b in v.at && v.at[b].chunk in v.home && BlockKept(m0, m, v, b)
    requires b in v'.at && v'.at[b] == v.at[b] && v.at[b].chunk in v'.home
    requires v'.home[v.at[b].chunk] == v.home[v.at[b].chunk]
    ensures b != CarvePtr(p, m)
    ensures BlockKept(m0, Stamp(CarveMem(p, m, k.1), CarvePtr(p, m), bytes, d), v, b)
  {
    CarvedKeeps(base, m, v', k, p, bytes, d, b);
  }

  lemma ArrivalKeeps(s: State, v: View, t: Tid, s': State, b: Ptr)
    requires Local(s, v) && t in s.phase && t in s.mm.pc && AllocNewStep(s, t, s')
    requires s.mm.pc[t].p != 0 ==> var p := s.mm.pc[t].p;
               p !in s.mm.held && M.IsChunk(s.mm.base, p) && 0 < p && p + M.CHUNK_SIZE < WORD
    requires b in s.log && s.log[b].Live?
    ensures Untouched(s, s', b)
  {
    var Fetching(cls, bytes, d) := s.phase[t];
    var p := s.mm.pc[t].p;
    var k := (t, cls);
    if p != 0 {
      FetchFacts(s, t);
      NotHome(s, v, p);
      RetAllocShape(s.mm, Link(s.mem), t, p, s'.mm, Link(s.mem));
      NewChunkKeeps(s, v, k, p, s'.mm, bytes, d, b);
    }
  }

  // ---------------------------------------------------------------- every step

  /** Steps with this label leave alone every block in use that they are not about. */
  ghost predicate Leaves(lbl: Label) {
    forall s, a, v, t, s', b | Inv(s, a, v) && Next(s, t, lbl, s') && b in s.log && s.log[b].Live? && !Uses(lbl, b) ::
      Untouched(s, s', b)
  }

  lemma HandLeaves(bytes: nat, d: Debug)
    ensures Leaves(AllocLocal(bytes, d))
  {
    forall s, a, v, t, s', b | Inv(s, a, v) && Next(s, t, AllocLocal(bytes, d), s') && b in s.log && s.log[b].Live?
      ensures Untouched(s, s', b)
    {
      AllocLocalKeeps(s, v, t, bytes, d, s', b);
    }
  }

  lemma ArrivalCase(s: State, a: L.Abs, v: View, t: Tid, s': State, b: Ptr)
    requires Inv(s, a, v) && Next(s, t, AllocNew, s') && b in s.log && s.log[b].Live?
    ensures Untouched(s, s', b)
  {
    ArrivesNew(s.mm, Link(s.mem), a, t);
    NewLeaves(s, v, t, s', b);
  }

  lemma ArrivalLeaves()
    ensures Leaves(AllocNew)
  {
    forall s, a, v, t, s', b | Inv(s, a, v) && Next(s, t, AllocNew, s') && b in s.log && s.log[b].Live?
      ensures Untouched(s, s', b)
    {
      ArrivalCase(s, a, v, t, s', b);
    }
  }

  /** The chunk that alloc_chunk is about to return to t, if any, is new to the pools. */
  ghost predicate NewToPools(s: M.State, t: Tid) {
    t in s.pc && s.pc[t].AllocDone? && s.pc[t].p != 0 ==>
      var p := s.pc[t].p;
      p !in s.held && M.IsChunk(s.base, p) && 0 < p && p + M.CHUNK_SIZE < WORD
  }

  lemma ArrivesNew(s: M.State, l: L.Links, a: L.Abs, t: Tid)
    requires C.Inv(s, l, a)
    ensures NewToPools(s, t)
  {
    if t in s.pc && s.pc[t].AllocDone? && s.pc[t].p != 0 {
      GotChunk(s, l, a, t);
    }
  }

  lemma NewLeaves(s: State, v: View, t: Tid, s': State, b: Ptr)
    requires Local(s, v) && NewToPools(s.mm, t) && Next(s, t, AllocNew, s') && b in s.log && s.log[b].Live?
    ensures Untouched(s, s', b)
  {
    ArrivalKeeps(s, v, t, s', b);
  }

  lemma FreeCase(s: State, a: L.Abs, v: View, t: Tid, u: Ptr, s': State, b: Ptr)
    requires Inv(s, a, v) && Next(s, t, Dealloc(u), s') && b in s.log && s.log[b].Live? && !Uses(Dealloc(u), b)
    ensures Untouched(s, s', b)
  {
    FreeKeeps(s, v, t, u, s', b);
  }

  lemma FreeLeaves(u: Ptr)
    ensures Leaves(Dealloc(u))
  {
    forall s, a, v, t, s', b | Inv(s, a, v) && Next(s, t, Dealloc(u), s') && b in s.log && s.log[b].Live?
          && !Uses(Dealloc(u), b)
      ensures Untouched(s, s', b)
    {
      FreeCase(s, a, v, t, u, s', b);
    }
  }

  lemma WriteCase(s: State, a: L.Abs, v: View, t: Tid, c: Ptr, i: nat, x: byte, s': State, b: Ptr)
    requires Inv(s, a, v) && Next(s, t, ClientWrite(c, i, x), s') && b in s.log && s.log[b].Live?
    requires !Uses(ClientWrite(c, i, x), b)
    ensures Untouched(s, s', b)
  {
    ClientKeeps(s, v, t, c, i, x, s', b);
  }

  lemma WriteLeaves(c: Ptr, i: nat, x: byte)
    ensures Leaves(ClientWrite(c, i, x))
  {
    forall s, a, v, t, s', b | Inv(s, a, v) && Next(s, t, ClientWrite(c, i, x), s') && b in s.log && s.log[b].Live?
          && !Uses(ClientWrite(c, i, x), b)
      ensures Untouched(s, s', b)
    {
      WriteCase(s, a, v, t, c, i, x, s', b);
    }
  }

  lemma ReturnCase(s: State, a: L.Abs, v: View, t: Tid, s': State, b: Ptr)
    requires Inv(s, a, v) && Next(s, t, ReturnChunk, s') && b in s.log && s.log[b].Live?
    ensures Untouched(s, s', b)
  {
    ReturnKeeps(s, v, t, s', b);
  }

  lemma ReturnLeaves()
    ensures Leaves(ReturnChunk)
  {
    forall s, a, v, t, s', b | Inv(s, a, v) && Next(s, t, ReturnChunk, s') && b in s.log && s.log[b].Live?
      ensures Untouched(s, s', b)
    {
      ReturnCase(s, a, v, t, s', b);
    }
  }

  lemma ChunkCase(s: State, a: L.Abs, v: View, t: Tid, s': State, b: Ptr)
    requires Inv(s, a, v) && Next(s, t, Chunk, s') && b in s.log && s.log[b].Live?
    ensures Untouched(s, s', b)
  {
    PushedIsNotHeld(s.mm, Link(s.mem), a, t);
    StoreKeeps(s, v, t, s', b);
  }

  lemma ChunkLeaves()
    ensures Leaves(Chunk)
  {
    forall s, a, v, t, s', b | Inv(s, a, v) && Next(s, t, Chunk, s') && b in s.log && s.log[b].Live?
      ensures Untouched(s, s', b)
    {
      ChunkCase(s, a, v, t, s', b);
    }
  }

  lemma QuietLeaves(lbl: Label)
    requires !lbl.AllocLocal? && !lbl.AllocNew? && !lbl.Dealloc? && !lbl.ClientWrite?
    requires !lbl.ReturnChunk? && !lbl.Chunk?
    ensures Leaves(lbl)
  {
    forall s, a, v, t, s', b | Inv(s, a, v) && Next(s, t, lbl, s') && b in s.log && s.log[b].Live?
      ensures Untouched(s, s', b)
    {
      QuietLabels(s, t, lbl, s');
      StillKeeps(s, s', b);
    }
  }

  lemma EveryLabelLeaves(lbl: Label)
    ensures Leaves(lbl)
  {
    match lbl
    case AllocLocal(bytes, d) => HandLeaves(bytes, d);
    case AllocNew => ArrivalLeaves();
    case Dealloc(u) => FreeLeaves(u);
    case ClientWrite(c, i, x) => WriteLeaves(c, i, x);
    case ReturnChunk => ReturnLeaves();
    case Chunk => ChunkLeaves();
    case _ => QuietLeaves(lbl);
  }

  /**
   In every reachable state, no step of any thread changes a byte of a block in use,
   its header and fences included, or ends its use, but a client's write into it and
   its own free.
   */
  lemma NobodyElseWrites(s: State, t: Tid, lbl: Label, s': State, b: Ptr)
    requires Reached(s) && Next(s, t, lbl, s') && b in s.log && s.log[b].Live? && !Uses(lbl, b)
    ensures Untouched(s, s', b)
  {
    HasInv(s);
    EveryLabelLeaves(lbl);
    var a, v :| Inv(s, a, v);
  }

  /** Every idle thread may write each byte that was asked for, and its write changes that byte and nothing else. */
  lemma ClientsWrite(s: State, t: Tid, b: Ptr, i: nat, x: byte)
    requires Reached(s) && t in s.phase && s.phase[t] == Idle && b in s.log && s.log[b].Live? && i < s.log[b].bytes
    ensures exists r :: Next(s, t, ClientWrite(b, i, x), r)
    ensures forall r | Next(s, t, ClientWrite(b, i, x), r) ::
        && r == s.(mem := r.mem) && r.mem(b + 48 + i) == x
        && Touches(s.mem, r.mem, b + 48 + i, b + 48 + i + 1)
  {
    AllocatorProgress.RestHere(s, t, 64);
    assert Next(s, t, ClientWrite(b, i, x), s.(mem := y => if y == UserPtr(b) + i then x else s.mem(y)));
  }

  // ---------------------------------------------------------------- every run

  /** Block b is in use, and its i-th byte is x. */
  ghost predicate HasByte(s: State, b: Ptr, i: nat, x: byte) {
    b in s.log && s.log[b].Live? && i < s.log[b].bytes && s.mem(b + 48 + i) == x
  }

  ghost predicate Passes(s: State, s': State, b: Ptr, i: nat, x: byte) {
    HasByte(s, b, i, x) ==> HasByte(s', b, i, x)
  }

  /** The step ends what a store into the i-th byte of b has done: another such store, or the free of b. */
  predicate Ends(lbl: Label, b: Ptr, i: nat) {
    (lbl.Dealloc? && lbl.u == b + 48) || (lbl.ClientWrite? && lbl.b == b && lbl.i == i)
  }

  lemma ByteStep(s: State, e: Event, s': State, b: Ptr, i: nat, x: byte)
    requires Reached(s) && Step(s, e, s') && !Ends(e.1, b, i)
    ensures Passes(s, s', b, i, x)
  {
    if HasByte(s, b, i, x) {
      if Uses(e.1, b) {
        OtherByte(s, e.0, b, e.1.i, e.1.v, s', i);
      } else {
        NobodyElseWrites(s, e.0, e.1, s', b);
      }
    }
  }

  lemma OtherByte(s: State, t: Tid, b: Ptr, i: nat, x: byte, s': State, j: nat)
    requires Next(s, t, ClientWrite(b, i, x), s') && i != j
    ensures s'.log == s.log && s'.mem(b + 48 + j) == s.mem(b + 48 + j)
  {
  }

  lemma StoreStep(s: State, e: Event, s': State, t: Tid, b: Ptr, i: nat, x: byte)
    requires Step(s, e, s') && e == (t, ClientWrite(b, i, x))
    ensures HasByte(s', b, i, x)
  {
  }

  lemma {:induction false} AllPass(ss: seq<State>, k: nat, j: nat, b: Ptr, i: nat, x: byte)
    requires k <= j < |ss| && HasByte(ss[k], b, i, x)
    requires forall n | k <= n < j :: Passes(ss[n], ss[n + 1], b, i, x)
    ensures HasByte(ss[j], b, i, x)
    decreases j
  {
    if k < j {
      AllPass(ss, k, j - 1, b, i, x);
      assert Passes(ss[j - 1], ss[j - 1 + 1], b, i, x);
    }
  }

  lemma PassesAt(ss: seq<State>, evs: seq<Event>, n: nat, b: Ptr, i: nat, x: byte)
    requires Run(Init, Step, ss, evs) && n < |evs| && !Ends(evs[n].1, b, i)
    ensures Passes(ss[n], ss[n + 1], b, i, x)
  {
    Prefix(Init, Step, ss, evs, n);
    ReachableByRun(Init, Step, ss[..n + 1], evs[..n]);
    ByteStep(ss[n], evs[n], ss[n + 1], b, i, x);
  }

  /**
   Over every run of all threads, what a client stores in a byte of its block is
   what is there, until the next store into that byte or the free of the block.
   */
  lemma ReadsBack(ss: seq<State>, evs: seq<Event>, k: nat, j: nat, t: Tid, b: Ptr, i: nat, x: byte)
    requires Run(Init, Step, ss, evs) && k < j <= |evs| && evs[k] == (t, ClientWrite(b, i, x))
    requires forall n | k < n < j :: !Ends(evs[n].1, b, i)
    ensures ss[j].mem(b + 48 + i) == x && b in ss[j].log && ss[j].log[b].Live?
  {
    StoreStep(ss[k], evs[k], ss[k + 1], t, b, i, x);
    forall n | k + 1 <= n < j ensures Passes(ss[n], ss[n + 1], b, i, x) {
      PassesAt(ss, evs, n, b, i, x);
    }
    AllPass(ss, k + 1, j, b, i, x);
  }
}
