/** Every step of the whole allocator, whatever its label, keeps the invariant. */
module AllocatorRun {
  import L = LfStack
  import M = Mmap
  import C = MmapCounters
  import opened Memory
  import opened SizeClasses
  import opened Blocks
  import opened Pool
  import opened Allocator
  import opened AllocatorInv
  import opened AllocatorAlloc
  import opened AllocatorCarve
  import opened AllocatorInstall
  import opened AllocatorReturn
  import opened AllocatorSteps
  import opened AllocatorTally

  // ---------------------------------------------------------------- a new chunk

  /** The chunk alloc_chunk returns is a chunk in nobody else's hands. */
  lemma GotChunk(s: M.State, l: L.Links, a: L.Abs, t: Tid)
    requires L.R(s.lf, l, a) && M.Holdings(s) && M.Frontier(s)
    requires t in s.pc && s.pc[t].AllocDone? && s.pc[t].p != 0
    ensures var p := s.pc[t].p;
            p !in s.held && M.IsChunk(s.base, p) && 0 < p && p + M.CHUNK_SIZE < WORD
  {
    assert M.Mid(s.pc[t]) == s.pc[t].p;
    NodeIsChunk(s, s.pc[t].p);
  }

  lemma RetAllocShape(s: M.State, l: L.Links, t: Tid, p: Ptr, s': M.State, l': L.Links)
    requires M.Next(s, l, t, M.RetAlloc(p), s', l')
    ensures s'.base == s.base && s'.pc == s.pc[t := M.Idle]
    ensures s'.held == if p == 0 then s.held else s.held[p := t]
  {
  }

  lemma AfterInstall(s: M.State, m: Mem, m': Mem, a: L.Abs, t: Tid, p: Ptr)
    requires C.Inv(s, Link(m), a) && t in s.pc && p in s.held && s.held[p] == t
    requires OtherHeadersKept(s.base, m, m', p)
    ensures C.Inv(s, Link(m'), a)
  {
    forall q: Ptr | M.IsChunk(s.base, q) && !(q in s.held && s.held[q] == t) ensures LinkKept(m, m', q) {
      assert HeaderKept(m, m', q);
    }
    ManagerIgnores(s, m, m', a, t);
  }

  /** Installing the chunk and then carving is the whole of the step. */
  lemma InstallThenCarve(s: State, k: Key, p: Ptr, mm: M.State, bytes: nat, d: Debug)
    requires k in s.pools
    ensures var s1 := InstalledState(s, k, p, mm);
            var pool := Installed(s.pools[k], p);
            var m := InstallMem(s.pools[k], s.mem, p);
            k in s1.pools && s1.pools[k] == pool
            && Hand(s1, k, Counted(s1.pools[k]), CarveMem(s1.pools[k], s1.mem, k.1), CarvePtr(s1.pools[k], s1.mem),
              bytes, d)
               == Hand(s, k, Counted(pool), CarveMem(pool, m, k.1), CarvePtr(pool, m), bytes, d)
                  .(mm := mm, phase := s.phase[k.0 := Idle])
  {
    var pool := Installed(s.pools[k], p);
    assert s.pools[k := pool][k := Counted(pool)] == s.pools[k := Counted(pool)];
  }

  /** The state once a new chunk p is installed and its first block carved. */
  function NewChunkState(s: State, k: Key, p: Ptr, mm: M.State, bytes: nat, d: Debug): State
    requires k in s.pools
  {
    var s1 := InstalledState(s, k, p, mm);
    Hand(s1, k, Counted(s1.pools[k]), CarveMem(s1.pools[k], s1.mem, k.1), CarvePtr(s1.pools[k], s1.mem), bytes, d)
  }

  /** The structure once a new chunk p is installed and its first block carved. */
  function NewChunkView(s: State, v: View, k: Key, p: Ptr): View
    requires k in s.pools && k in v.chunks
  {
    CarvedView(InstalledView(v, k, p), p, CarvePtr(Installed(s.pools[k], p), InstallMem(s.pools[k], s.mem, p)))
  }

  lemma NewChunkLocal(s: State, v: View, k: Key, p: Ptr, mm: M.State, bytes: nat, d: Debug) returns (v': View)
    requires Local(s, v) && k in s.pools && k.0 in s.phase && s.phase[k.0].Fetching?
    requires TotalSize(bytes) <= MAX_ALLOC && GoodDebug(d) && k.1 == ClassOf(TotalSize(bytes))
    requires p !in v.home && M.IsChunk(s.mm.base, p) && 0 < p && p + M.CHUNK_SIZE < WORD
    requires mm.base == s.mm.base && mm.held == s.mm.held[p := k.0] && mm.pc == s.mm.pc[k.0 := M.Idle]
    ensures Local(NewChunkState(s, k, p, mm, bytes, d), v')
    ensures v' == NewChunkView(s, v, k, p)
    ensures OtherHeadersKept(s.mm.base, s.mem, InstalledState(s, k, p, mm).mem, p)
    ensures AllLinksKept(s.mm.base, InstalledState(s, k, p, mm).mem, NewChunkState(s, k, p, mm, bytes, d).mem)
  {
    InstallLocal(s, v, k, p, mm);
    v' := CarveLocal(InstalledState(s, k, p, mm), InstalledView(v, k, p), k, bytes, d);
  }

  lemma NewChunkManager(mm: M.State, m: Mem, m1: Mem, m': Mem, a: L.Abs, t: Tid, p: Ptr)
    requires C.Inv(mm, Link(m), a) && t in mm.pc && p in mm.held && mm.held[p] == t
    requires OtherHeadersKept(mm.base, m, m1, p) && AllLinksKept(mm.base, m1, m')
    ensures C.Inv(mm, Link(m'), a)
  {
    AfterInstall(mm, m, m1, a, t, p);
    ManagerKeepsLinks(mm, m1, m', a, t);
  }

  /** The structure after alloc_chunk has returned to thread t. */
  function ArrivedView(s: State, v: View, t: Tid): View
    requires t in s.phase && t in s.mm.pc && s.mm.pc[t].AllocDone? && s.phase[t].Fetching?
    requires (t, s.phase[t].cls) in s.pools && (t, s.phase[t].cls) in v.chunks
  {
    if s.mm.pc[t].p == 0 then v else NewChunkView(s, v, (t, s.phase[t].cls), s.mm.pc[t].p)
  }

  lemma AllocNewTallied(s: State, v: View, t: Tid, s': State)
    requires Structure(s, v) && Tallied(s.pools, s.phase, v) && t in s.phase && t in s.mm.pc && AllocNewStep(s, t, s')
    requires s.mm.pc[t].p !in s.mm.held || s.mm.pc[t].p == 0
    ensures Tallied(s'.pools, s'.phase, ArrivedView(s, v, t))
  {
    var p := s.mm.pc[t].p;
    var k := (t, s.phase[t].cls);
    if p == 0 {
      PhaseTallied(s.pools, s.phase, v, t, Crashed);
    } else {
      NewChunkTallied(s.pools, s.phase, v, k, p, CarvePtr(Installed(s.pools[k], p), InstallMem(s.pools[k], s.mem, p)));
    }
  }

  /** The chunk's arrival, seen from the pools. */
  lemma AllocNewLocal(s: State, v: View, t: Tid, s': State) returns (m1: Mem, v': View)
    requires Local(s, v) && t in s.phase && t in s.mm.pc && AllocNewStep(s, t, s')
    requires s.mm.pc[t].p != 0 ==> var p := s.mm.pc[t].p;
               p !in s.mm.held && M.IsChunk(s.mm.base, p) && 0 < p && p + M.CHUNK_SIZE < WORD
    ensures Local(s', v') && v' == ArrivedView(s, v, t)
    ensures s.mm.pc[t].p == 0 ==> s'.mem == s.mem
    ensures s.mm.pc[t].p != 0 ==>
              OtherHeadersKept(s.mm.base, s.mem, m1, s.mm.pc[t].p) && AllLinksKept(s.mm.base, m1, s'.mem)
  {
    var Fetching(cls, bytes, d) := s.phase[t];
    var p := s.mm.pc[t].p;
    var k := (t, cls);
    RetAllocShape(s.mm, Link(s.mem), t, p, s'.mm, Link(s.mem));
    if p == 0 {
      m1, v' := s.mem, v;
      CrashLocal(s, v, t, s'.mm);
    } else {
      FetchFacts(s, t);
      NotHome(s, v, p);
      v' := NewChunkLocal(s, v, k, p, s'.mm, bytes, d);
      m1 := InstalledState(s, k, p, s'.mm).mem;
      InstallThenCarve(s, k, p, s'.mm, bytes, d);
    }
  }

  lemma NotHome(s: State, v: View, p: Ptr)
    requires PoolsOk(s.mm.held, s.pools, v) && p !in s.mm.held
    ensures p !in v.home
  {
  }

  lemma AllocNewManager(s: State, a: L.Abs, t: Tid, p: Ptr, m1: Mem, s': State) returns (a': L.Abs)
    requires C.Inv(s.mm, Link(s.mem), a) && M.Next(s.mm, Link(s.mem), t, M.RetAlloc(p), s'.mm, Link(s.mem))
    requires p == 0 ==> s'.mem == s.mem
    requires p != 0 ==> OtherHeadersKept(s.mm.base, s.mem, m1, p) && AllLinksKept(s.mm.base, m1, s'.mem)
    ensures C.Inv(s'.mm, Link(s'.mem), a')
  {
    RetAllocShape(s.mm, Link(s.mem), t, p, s'.mm, Link(s.mem));
    a' := ManagerStep(s.mm, Link(s.mem), a, t, M.RetAlloc(p), s'.mm, Link(s.mem));
    if p != 0 {
      NewChunkManager(s'.mm, s.mem, m1, s'.mem, a', t, p);
    }
  }

  lemma AllocNewInv(s: State, a: L.Abs, v: View, t: Tid, s': State) returns (a': L.Abs, v': View)
    requires C.Inv(s.mm, Link(s.mem), a) && Local(s, v) && t in s.phase && t in s.mm.pc && AllocNewStep(s, t, s')
    ensures C.Inv(s'.mm, Link(s'.mem), a') && Local(s', v')
    ensures v' == ArrivedView(s, v, t) && (s.mm.pc[t].p !in s.mm.held || s.mm.pc[t].p == 0)
  {
    if s.mm.pc[t].p != 0 {
      GotChunk(s.mm, Link(s.mem), a, t);
    }
    var m1;
    m1, v' := AllocNewLocal(s, v, t, s');
    a' := AllocNewManager(s, a, t, s.mm.pc[t].p, m1, s');
  }

  lemma FetchFacts(s: State, t: Tid)
    requires PhasesOk(s) && t in s.phase && s.phase[t].Fetching?
    ensures TotalSize(s.phase[t].bytes) <= MAX_ALLOC && GoodDebug(s.phase[t].debug)
    ensures s.phase[t].cls == ClassOf(TotalSize(s.phase[t].bytes))
  {
  }

  /** alloc_chunk returned null, and the source dereferences it. */
  lemma CrashLocal(s: State, v: View, t: Tid, mm: M.State)
    requires Local(s, v) && t in s.phase && s.phase[t].Fetching?
    requires mm.base == s.mm.base && mm.held == s.mm.held && mm.pc == s.mm.pc[t := M.Idle]
    ensures Local(s.(mm := mm, phase := s.phase[t := Crashed]), v)
  {
    LeavesMove(s.mm.held, s.phase, s.log, v, t, Crashed);
    MoveOn(s, v, t, mm, Crashed);
  }

  // ---------------------------------------------------------------- the other steps

  lemma CallFreeShape(s: M.State, l: L.Links, t: Tid, p: Ptr, s': M.State, l': L.Links)
    requires M.Next(s, l, t, M.CallFree(p), s', l')
    ensures s'.base == s.base && s'.pc == s.pc[t := M.FreePush] && s'.held == s.held - {p}
  {
  }

  lemma ReturnChunkLocal(s: State, v: View, t: Tid, s': State) returns (v': View)
    requires Local(s, v) && t in s.phase && ReturnChunkStep(s, t, s')
    ensures Local(s', v')
    ensures Tallied(s.pools, s.phase, v) ==> Tallied(s'.pools, s'.phase, v')
  {
    var cs := s.phase[t].classes;
    var k := (t, cs[0]);
    var p := s.pools[k].head;
    CallFreeShape(s.mm, Link(s.mem), t, p, s'.mm, Link(s.mem));
    ReturnLocal(s, v, k, p, s'.mm, cs);
    v' := ReturnedView(v, k, p);
    if Tallied(s.pools, s.phase, v) {
      ReturnTallied(s.pools, s.phase, v, k, p, Unlinked(s.pools[k], s.mem), Returning(cs));
    }
  }

  lemma ReturnChunkInv(s: State, a: L.Abs, v: View, t: Tid, s': State) returns (a': L.Abs, v': View)
    requires C.Inv(s.mm, Link(s.mem), a) && Local(s, v) && t in s.phase && ReturnChunkStep(s, t, s')
    ensures C.Inv(s'.mm, Link(s'.mem), a') && Local(s', v')
    ensures Tallied(s.pools, s.phase, v) ==> Tallied(s'.pools, s'.phase, v')
  {
    v' := ReturnChunkLocal(s, v, t, s');
    a' := ManagerStep(s.mm, Link(s.mem), a, t, M.CallFree(s.pools[(t, s.phase[t].classes[0])].head), s'.mm,
      Link(s.mem));
  }

  lemma ChunkInv(s: State, a: L.Abs, v: View, t: Tid, s': State) returns (a': L.Abs)
    requires C.Inv(s.mm, Link(s.mem), a) && Local(s, v) && t in s.phase && t in s.mm.lf.pc
    requires s.phase[t].Fetching? || s.phase[t].Listing? || s.phase[t].Returning?
    requires M.Next(s.mm, Link(s.mem), t, M.Tau, s'.mm, Link(TauMem(s, t)))
    requires s' == s.(mm := s'.mm, mem := TauMem(s, t))
    ensures C.Inv(s'.mm, Link(s'.mem), a') && Local(s', v)
  {
    PushedIsNotHeld(s.mm, Link(s.mem), a, t);
    ChunkLocal(s, v, t, s'.mm);
    a' := ManagerStep(s.mm, Link(s.mem), a, t, M.Tau, s'.mm, Link(TauMem(s, t)));
  }

  lemma AroundInv(s: State, a: L.Abs, v: View, t: Tid, lbl: M.Label, ph: Phase, s': State) returns (a': L.Abs)
    requires C.Inv(s.mm, Link(s.mem), a) && Local(s, v) && t in s.phase && Around(s.phase[t], lbl, ph)
    requires M.Next(s.mm, Link(s.mem), t, lbl, s'.mm, Link(s.mem)) && s' == s.(mm := s'.mm, phase := s.phase[t := ph])
    ensures C.Inv(s'.mm, Link(s'.mem), a') && Local(s', v)
  {
    AroundLocal(s, v, t, lbl, ph, s'.mm);
    a' := ManagerStep(s.mm, Link(s.mem), a, t, lbl, s'.mm, Link(s.mem));
  }

  // ---------------------------------------------------------------- one lemma a label

  ghost predicate Held(s: State) {
    exists a, v :: Inv(s, a, v)
  }

  /** Steps with this label, by any thread in any state, keep the invariant. */
  ghost predicate KeptBy(lbl: Label) {
    forall s, a, v, t, s' | Inv(s, a, v) && Next(s, t, lbl, s') :: Held(s')
  }

  /** A call or return of the chunk manager between two phases. */
  lemma AroundHeld(s: State, a: L.Abs, v: View, t: Tid, lbl: M.Label, ph: Phase, s': State)
    requires Inv(s, a, v) && t in s.phase && Around(s.phase[t], lbl, ph)
    requires M.Next(s.mm, Link(s.mem), t, lbl, s'.mm, Link(s.mem)) && s' == s.(mm := s'.mm, phase := s.phase[t := ph])
    requires ph.Fetching? ==> Filled(s.pools, v, (t, ph.cls))
    ensures Held(s')
  {
    var a' := AroundInv(s, a, v, t, lbl, ph, s');
    PhaseTallied(s.pools, s.phase, v, t, ph);
    assert Inv(s', a', v);
  }

  lemma FetchFills(s: State, v: View, t: Tid, bytes: nat, d: Debug, s': State)
    requires Structure(s, v) && Contents(s, v)
    requires t in s.phase && s.phase[t] == Idle && AllocFetchStep(s, t, bytes, d, s')
    ensures Filled(s.pools, v, (t, ClassOf(TotalSize(bytes))))
  {
    var k := (t, ClassOf(TotalSize(bytes)));
    NoneFree(s.mem, s.pools, s.phase, s.log, v, k);
    NoRoomFills(s.mm.base, s.mem, s.pools, v, k);
  }

  lemma AllocLocalCase(s: State, a: L.Abs, v: View, t: Tid, bytes: nat, d: Debug, s': State)
    requires Inv(s, a, v) && Next(s, t, AllocLocal(bytes, d), s')
    ensures Held(s')
  {
    var v' := AllocLocalInv(s, a, v, t, bytes, d, s');
    AllocLocalTallied(s, v, t, bytes, d, s');
    assert Inv(s', a, v');
  }

  lemma AllocLocalKeeps(bytes: nat, d: Debug)
    ensures KeptBy(AllocLocal(bytes, d))
  {
    forall s, a, v, t, s' | Inv(s, a, v) && Next(s, t, AllocLocal(bytes, d), s') ensures Held(s') {
      AllocLocalCase(s, a, v, t, bytes, d, s');
    }
  }

  lemma AllocFetchCase(s: State, a: L.Abs, v: View, t: Tid, bytes: nat, d: Debug, s': State)
    requires Inv(s, a, v) && Next(s, t, AllocFetch(bytes, d), s')
    ensures Held(s')
  {
    FetchFills(s, v, t, bytes, d, s');
    AroundHeld(s, a, v, t, M.CallAlloc, Fetching(ClassOf(TotalSize(bytes)), bytes, d), s');
  }

  lemma AllocFetchKeeps(bytes: nat, d: Debug)
    ensures KeptBy(AllocFetch(bytes, d))
  {
    forall s, a, v, t, s' | Inv(s, a, v) && Next(s, t, AllocFetch(bytes, d), s') ensures Held(s') {
      AllocFetchCase(s, a, v, t, bytes, d, s');
    }
  }

  lemma AllocNewCase(s: State, a: L.Abs, v: View, t: Tid, s': State)
    requires Inv(s, a, v) && Next(s, t, AllocNew, s')
    ensures Held(s')
  {
    var a', v' := AllocNewInv(s, a, v, t, s');
    AllocNewTallied(s, v, t, s');
    assert Inv(s', a', v');
  }

  lemma AllocNewKeeps()
    ensures KeptBy(AllocNew)
  {
    forall s, a, v, t, s' | Inv(s, a, v) && Next(s, t, AllocNew, s') ensures Held(s') {
      AllocNewCase(s, a, v, t, s');
    }
  }

  lemma DeallocCase(s: State, a: L.Abs, v: View, t: Tid, u: Ptr, s': State)
    requires Inv(s, a, v) && Next(s, t, Dealloc(u), s')
    ensures Held(s')
  {
    var k, b := DeallocGives(s, v, t, u, s');
    var v' := DeallocInv(s, a, v, k, b);
    GiveTallied(s.pools, s.phase, v, k, b);
    assert Inv(s', a, v');
  }

  lemma DeallocKeeps(u: Ptr)
    ensures KeptBy(Dealloc(u))
  {
    forall s, a, v, t, s' | Inv(s, a, v) && Next(s, t, Dealloc(u), s') ensures Held(s') {
      DeallocCase(s, a, v, t, u, s');
    }
  }

  lemma ClientWriteCase(s: State, a: L.Abs, v: View, t: Tid, b: Ptr, i: nat, x: byte, s': State)
    requires Inv(s, a, v) && Next(s, t, ClientWrite(b, i, x), s')
    ensures Held(s')
  {
    ClientWriteInv(s, a, v, t, b, i, x, s');
    assert Inv(s', a, v);
  }

  lemma ClientWriteKeeps(b: Ptr, i: nat, x: byte)
    ensures KeptBy(ClientWrite(b, i, x))
  {
    forall s, a, v, t, s' | Inv(s, a, v) && Next(s, t, ClientWrite(b, i, x), s') ensures Held(s') {
      ClientWriteCase(s, a, v, t, b, i, x, s');
    }
  }

  lemma PrintCase(s: State, a: L.Abs, v: View, t: Tid, s': State)
    requires Inv(s, a, v) && Next(s, t, Print, s')
    ensures Held(s')
  {
    AroundHeld(s, a, v, t, M.CallList, Listing, s');
  }

  lemma PrintKeeps()
    ensures KeptBy(Print)
  {
    forall s, a, v, t, s' | Inv(s, a, v) && Next(s, t, Print, s') ensures Held(s') {
      PrintCase(s, a, v, t, s');
    }
  }

  lemma PrintedCase(s: State, a: L.Abs, v: View, t: Tid, count: nat, s': State)
    requires Inv(s, a, v) && Next(s, t, Printed(count), s')
    ensures Held(s')
  {
    AroundHeld(s, a, v, t, M.RetList(count), Idle, s');
  }

  lemma PrintedKeeps(count: nat)
    ensures KeptBy(Printed(count))
  {
    forall s, a, v, t, s' | Inv(s, a, v) && Next(s, t, Printed(count), s') ensures Held(s') {
      PrintedCase(s, a, v, t, count, s');
    }
  }

  lemma ExitCase(s: State, a: L.Abs, v: View, t: Tid, s': State)
    requires Inv(s, a, v) && Next(s, t, Exit, s')
    ensures Held(s')
  {
    ExitLocal(s, v, t);
    PhaseTallied(s.pools, s.phase, v, t, s'.phase[t]);
    assert Inv(s', a, v);
  }

  lemma ExitKeeps()
    ensures KeptBy(Exit)
  {
    forall s, a, v, t, s' | Inv(s, a, v) && Next(s, t, Exit, s') ensures Held(s') {
      ExitCase(s, a, v, t, s');
    }
  }

  lemma CountFreeCase(s: State, a: L.Abs, v: View, t: Tid, units: nat, s': State)
    requires Inv(s, a, v) && Next(s, t, CountFree(units), s')
    ensures Held(s')
  {
    CountFreeLocal(s, v, t, s.phase[t].classes);
    PhaseTallied(s.pools, s.phase, v, t, s'.phase[t]);
    assert Inv(s', a, v);
  }

  lemma CountFreeKeeps(units: nat)
    ensures KeptBy(CountFree(units))
  {
    forall s, a, v, t, s' | Inv(s, a, v) && Next(s, t, CountFree(units), s') ensures Held(s') {
      CountFreeCase(s, a, v, t, units, s');
    }
  }

  lemma ReturnChunkCase(s: State, a: L.Abs, v: View, t: Tid, s': State)
    requires Inv(s, a, v) && Next(s, t, ReturnChunk, s')
    ensures Held(s')
  {
    var a', v' := ReturnChunkInv(s, a, v, t, s');
    assert Inv(s', a', v');
  }

  lemma ReturnChunkKeeps()
    ensures KeptBy(ReturnChunk)
  {
    forall s, a, v, t, s' | Inv(s, a, v) && Next(s, t, ReturnChunk, s') ensures Held(s') {
      ReturnChunkCase(s, a, v, t, s');
    }
  }

  lemma ChunkReturnedCase(s: State, a: L.Abs, v: View, t: Tid, s': State)
    requires Inv(s, a, v) && Next(s, t, ChunkReturned, s')
    ensures Held(s')
  {
    AroundHeld(s, a, v, t, M.RetFree, Emptying(s.phase[t].classes), s');
  }

  lemma ChunkReturnedKeeps()
    ensures KeptBy(ChunkReturned)
  {
    forall s, a, v, t, s' | Inv(s, a, v) && Next(s, t, ChunkReturned, s') ensures Held(s') {
      ChunkReturnedCase(s, a, v, t, s');
    }
  }

  lemma NextClassCase(s: State, a: L.Abs, v: View, t: Tid, s': State)
    requires Inv(s, a, v) && Next(s, t, NextClass, s')
    ensures Held(s')
  {
    NextClassLocal(s, v, t, s.phase[t].classes);
    PhaseTallied(s.pools, s.phase, v, t, s'.phase[t]);
    assert Inv(s', a, v);
  }

  lemma NextClassKeeps()
    ensures KeptBy(NextClass)
  {
    forall s, a, v, t, s' | Inv(s, a, v) && Next(s, t, NextClass, s') ensures Held(s') {
      NextClassCase(s, a, v, t, s');
    }
  }

  lemma ExitDoneCase(s: State, a: L.Abs, v: View, t: Tid, s': State)
    requires Inv(s, a, v) && Next(s, t, ExitDone, s')
    ensures Held(s')
  {
    ExitDoneLocal(s, v, t);
    PhaseTallied(s.pools, s.phase, v, t, s'.phase[t]);
    assert Inv(s', a, v);
  }

  lemma ExitDoneKeeps()
    ensures KeptBy(ExitDone)
  {
    forall s, a, v, t, s' | Inv(s, a, v) && Next(s, t, ExitDone, s') ensures Held(s') {
      ExitDoneCase(s, a, v, t, s');
    }
  }

  lemma ChunkCase(s: State, a: L.Abs, v: View, t: Tid, s': State)
    requires Inv(s, a, v) && Next(s, t, Chunk, s')
    ensures Held(s')
  {
    var a' := ChunkInv(s, a, v, t, s');
    assert Inv(s', a', v);
  }

  lemma ChunkKeeps()
    ensures KeptBy(Chunk)
  {
    forall s, a, v, t, s' | Inv(s, a, v) && Next(s, t, Chunk, s') ensures Held(s') {
      ChunkCase(s, a, v, t, s');
    }
  }

  lemma EveryLabelKeeps(lbl: Label)
    ensures KeptBy(lbl)
  {
    match lbl
    case AllocLocal(bytes, d) => AllocLocalKeeps(bytes, d);
    case AllocFetch(bytes, d) => AllocFetchKeeps(bytes, d);
    case AllocNew => AllocNewKeeps();
    case Dealloc(u) => DeallocKeeps(u);
    case ClientWrite(b, i, x) => ClientWriteKeeps(b, i, x);
    case Print => PrintKeeps();
    case Printed(count) => PrintedKeeps(count);
    case Exit => ExitKeeps();
    case CountFree(units) => CountFreeKeeps(units);
    case ReturnChunk => ReturnChunkKeeps();
    case ChunkReturned => ChunkReturnedKeeps();
    case NextClass => NextClassKeeps();
    case ExitDone => ExitDoneKeeps();
    case Chunk => ChunkKeeps();
  }
}
