/** Calls of the allocator, clients' writes, and a thread's way through the chunk manager and out, each against the
    invariant. */
module AllocatorSteps {
  import L = LfStack
  import M = Mmap
  import C = MmapCounters
  import opened Memory
  import opened SizeClasses
  import opened Blocks
  import opened Pool
  import opened Allocator
  import opened AllocatorInv
  import opened AllocatorAlloc
  import opened AllocatorCarve
  import opened AllocatorInstall
  import opened AllocatorTally

  // ---------------------------------------------------------------- the chunk manager's side

  lemma ManagerStep(s: M.State, l: L.Links, a: L.Abs, t: Tid, lbl: M.Label, s': M.State, l': L.Links)
      returns (a': L.Abs)
    requires C.Inv(s, l, a) && M.Next(s, l, t, lbl, s', l')
    ensures C.Inv(s', l', a')
  {
    C.StackFacts(s.lf, l, a, t);
    M.IsStackStep(s, l, t, lbl, s', l');
    C.InvStep(s, l, a, t, lbl, s', l');
    a' := C.Shadow(s, a, t, lbl, s');
  }

  /** Writes that keep the link of every chunk but those t holds are invisible to the chunk manager. */
  lemma ManagerIgnores(s: M.State, m: Mem, m': Mem, a: L.Abs, t: Tid)
    requires C.Inv(s, Link(m), a) && t in s.pc
    requires forall p: Ptr | M.IsChunk(s.base, p) && !(p in s.held && s.held[p] == t) :: LinkKept(m, m', p)
    ensures C.Inv(s, Link(m'), a)
  {
    forall p | p in s.lf.nodes && !(p in s.held && s.held[p] == t) ensures Link(m')(p) == Link(m)(p) {
      NodeIsChunk(s, p);
      assert LinkKept(m, m', p);
    }
    ManagerUndisturbed(s, Link(m), a, t, Link(m'));
  }

  lemma ManagerKeepsLinks(s: M.State, m: Mem, m': Mem, a: L.Abs, t: Tid)
    requires C.Inv(s, Link(m), a) && t in s.pc && AllLinksKept(s.base, m, m')
    ensures C.Inv(s, Link(m'), a)
  {
    ManagerIgnores(s, m, m', a, t);
  }

  // ---------------------------------------------------------------- np_alloc without a new chunk

  /** The structure after an alloc that needs no chunk. */
  function AllocatedView(s: State, v: View, k: Key): View
    requires k in s.pools && k in v.frees
    requires if s.pools[k].free != 0 then v.frees[k] != [] else s.pools[k].head in v.used
  {
    if s.pools[k].free != 0 then TakenView(v, k) else CarvedView(v, s.pools[k].head, CarvePtr(s.pools[k], s.mem))
  }

  lemma AllocLocalInv(s: State, a: L.Abs, v: View, t: Tid, bytes: nat, d: Debug, s': State) returns (v': View)
    requires C.Inv(s.mm, Link(s.mem), a) && Local(s, v) && t in s.phase && t in s.mm.pc && s.phase[t] == Idle
    requires AllocLocalStep(s, t, bytes, d, s')
    ensures C.Inv(s'.mm, Link(s'.mem), a) && Local(s', v')
    ensures var k := (t, ClassOf(TotalSize(bytes)));
            && k in v.frees && (if s.pools[k].free != 0 then v.frees[k] != [] else s.pools[k].head in v.used)
            && v' == AllocatedView(s, v, k)
  {
    var k := (t, ClassOf(TotalSize(bytes)));
    var p := s.pools[k];
    if p.free != 0 {
      v' := TakeFreeLocal(s, v, k, bytes, d);
      ManagerKept(s.mm, s.mem, s'.mem, a, t);
    } else {
      RoomMeansSlots(s, v, k);
      v' := CarveLocal(s, v, k, bytes, d);
      ManagerKeepsLinks(s.mm, s.mem, s'.mem, a, t);
    }
  }

  lemma AllocLocalTallied(s: State, v: View, t: Tid, bytes: nat, d: Debug, s': State)
    requires Local(s, v) && Tallied(s.pools, s.phase, v) && t in s.phase && s.phase[t] == Idle
    requires AllocLocalStep(s, t, bytes, d, s')
    requires var k := (t, ClassOf(TotalSize(bytes)));
             k in v.frees && if s.pools[k].free != 0 then v.frees[k] != [] else s.pools[k].head in v.used
    ensures Tallied(s'.pools, s'.phase, AllocatedView(s, v, (t, ClassOf(TotalSize(bytes)))))
  {
    var k := (t, ClassOf(TotalSize(bytes)));
    if s.pools[k].free != 0 {
      TakeTallied(s.pools, s.phase, v, k, s.mem);
    } else {
      RoomMeansSlots(s, v, k);
      NoneFree(s.mem, s.pools, s.phase, s.log, v, k);
      CarveTallied(s.mm.base, s.mem, s.pools, s.phase, v, k, CarvePtr(s.pools[k], s.mem));
    }
  }

  // ---------------------------------------------------------------- np_free

  /** The state after block b went to the free list of pool k. */
  function GivenState(s: State, k: Key, b: Ptr): State
    requires k in s.pools
  {
    s.(pools := s.pools[k := GaveBack(s.pools[k], b)], mem := GiveBackMem(s.pools[k], s.mem, b),
      log := s.log[b := Freed(k.0)])
  }

  /** The fences being whole, np_free puts the block on a free list of its own class. */
  lemma DeallocGives(s: State, v: View, t: Tid, u: Ptr, s': State) returns (k: Key, b: Ptr)
    requires LivesOk(s.mem, s.log, v) && DeallocStep(s, t, u, s')
    ensures k in s.pools && k.0 == t && b in s.log && s.log[b].Live? && OfClass(v, b, k.1) && s' == GivenState(s, k, b)
  {
    b := HeaderOf(u);
    FreeChecksPass(s, v, b);
    k := (t, ClassOf(TotalSize(s.log[b].bytes)));
  }

  lemma DeallocInv(s: State, a: L.Abs, v: View, k: Key, b: Ptr) returns (v': View)
    requires C.Inv(s.mm, Link(s.mem), a) && Local(s, v) && k in s.pools && k.0 in s.phase && k.0 in s.mm.pc
        && s.phase[k.0] == Idle
    requires b in s.log && s.log[b].Live? && OfClass(v, b, k.1)
    ensures C.Inv(s.mm, Link(GivenState(s, k, b).mem), a) && Local(GivenState(s, k, b), v')
    ensures v' == GivenView(v, k, b)
  {
    v' := GiveBackLocal(s, v, k, b);
    ManagerKept(s.mm, s.mem, GivenState(s, k, b).mem, a, k.0);
  }

  // ---------------------------------------------------------------- clients

  lemma ClientWriteInv(s: State, a: L.Abs, v: View, t: Tid, b: Ptr, i: nat, x: byte, s': State)
    requires C.Inv(s.mm, Link(s.mem), a) && Local(s, v) && t in s.mm.pc
    requires ClientWriteStep(s, b, i, x, s')
    ensures C.Inv(s'.mm, Link(s'.mem), a) && Local(s', v)
  {
    ClientWriteContents(s, v, b, i, s'.mem);
    ManagerKept(s.mm, s.mem, s'.mem, a, t);
  }

  // ---------------------------------------------------------------- steps that move no chunk and write no memory

  /** From one phase to another no free list comes back into use. */
  ghost predicate KeepsNoMore(ph: Phase, ph': Phase) {
    forall cls: nat | Keeps(ph', cls) :: Keeps(ph, cls)
  }

  lemma FreesPhase(m: Mem, pools: map<Key, CPool>, phase: map<Tid, Phase>, log: map<Ptr, BlockState>, v: View,
      t: Tid, ph: Phase)
    requires FreesOk(m, pools, phase, log, v) && t in phase && KeepsNoMore(phase[t], ph)
    ensures FreesOk(m, pools, phase[t := ph], log, v)
  {
  }

  lemma PhasesMove(s: State, t: Tid, mm: M.State, ph: Phase, s': State)
    requires PhasesOk(s) && t in s.phase && t in mm.pc && mm.pc == s.mm.pc[t := mm.pc[t]] && PhaseOk(ph, mm.pc[t])
    requires s'.mm == mm && s'.phase == s.phase[t := ph] && s'.pools == s.pools
    ensures PhasesOk(s')
  {
  }

  /** A thread moves on, possibly with a step of the chunk manager that leaves memory alone. */
  lemma MoveOn(s: State, v: View, t: Tid, mm: M.State, ph: Phase)
    requires Local(s, v) && t in s.phase
    requires mm.base == s.mm.base && mm.held == s.mm.held
    requires t in mm.pc && mm.pc == s.mm.pc[t := mm.pc[t]] && PhaseOk(ph, mm.pc[t])
    requires KeepsNoMore(s.phase[t], ph)
    requires LeavesOk(s.mm.held, s.phase[t := ph], s.log, v)
    ensures Local(s.(mm := mm, phase := s.phase[t := ph]), v)
  {
    FreesPhase(s.mem, s.pools, s.phase, s.log, v, t, ph);
    PhasesMove(s, t, mm, ph, s.(mm := mm, phase := s.phase[t := ph]));
  }

  /** Between two phases of a running thread, or two of a leaving one, nothing changes for the leaving threads. */
  lemma LeavesMove(held: map<Ptr, Tid>, phase: map<Tid, Phase>, log: map<Ptr, BlockState>, v: View, t: Tid, ph: Phase)
    requires LeavesOk(held, phase, log, v) && t in phase
    requires (Active(ph) && Active(phase[t])) || (phase[t].Returning? && ph == Emptying(phase[t].classes))
    ensures LeavesOk(held, phase[t := ph], log, v)
  {
  }

  lemma ManagerShape(s: M.State, l: L.Links, t: Tid, lbl: M.Label, s': M.State, l': L.Links)
    requires M.Next(s, l, t, lbl, s', l')
    ensures s'.base == s.base && t in s'.pc && s'.pc == s.pc[t := s'.pc[t]]
    ensures !lbl.CallFree? && !lbl.RetAlloc? ==> s'.held == s.held
  {
  }

  /** Calls and returns of the chunk manager, and the phases around them. */
  predicate Around(ph: Phase, lbl: M.Label, ph': Phase) {
    match ph'
    case Fetching(cls, bytes, d) =>
      ph == Idle && lbl == M.CallAlloc && TotalSize(bytes) <= MAX_ALLOC && cls == ClassOf(TotalSize(bytes))
        && GoodDebug(d)
    case Listing => ph == Idle && lbl == M.CallList
    case Idle => ph == Listing && lbl.RetList?
    case Emptying(cs) => ph == Returning(cs) && lbl == M.RetFree
    case _ => false
  }

  lemma PhaseAround(s: M.State, l: L.Links, t: Tid, lbl: M.Label, s': M.State, l': L.Links, ph: Phase, ph': Phase)
    requires M.Next(s, l, t, lbl, s', l') && Around(ph, lbl, ph') && PhaseOk(ph, s.pc[t])
    ensures t in s'.pc && PhaseOk(ph', s'.pc[t])
  {
  }

  lemma AroundLocal(s: State, v: View, t: Tid, lbl: M.Label, ph: Phase, mm: M.State)
    requires Local(s, v) && t in s.phase && Around(s.phase[t], lbl, ph)
    requires M.Next(s.mm, Link(s.mem), t, lbl, mm, Link(s.mem))
    ensures Local(s.(mm := mm, phase := s.phase[t := ph]), v)
  {
    ManagerShape(s.mm, Link(s.mem), t, lbl, mm, Link(s.mem));
    PhaseAround(s.mm, Link(s.mem), t, lbl, mm, Link(s.mem), s.phase[t], ph);
    LeavesMove(s.mm.held, s.phase, s.log, v, t, ph);
    MoveOn(s, v, t, mm, ph);
  }

  // ---------------------------------------------------------------- leaving

  lemma AllClasses(s: State, v: View, k: Key)
    requires PhasesOk(s) && v.chunks.Keys == s.pools.Keys && k in v.chunks
    ensures k.1 in CLASSES
  {
    ClassFromList(k.1, 0);
  }

  /** A freed block on no list that another thread may still walk. */
  lemma UnlistedIsPast(s: State, v: View, t: Tid, b: Ptr)
    requires Geometry(s.mm.base, v) && PoolsOk(s.mm.held, s.pools, v)
    requires FreesOk(s.mem, s.pools, s.phase, s.log, v) && s.log.Keys == v.at.Keys
    requires PhasesOk(s) && b in s.log && s.log[b].Freed? && forall u | Listed(s, u, b) :: u == t
    ensures s.log[b].who == t || Past(s.phase, s.log[b].who, v, b)
  {
    var u := s.log[b].who;
    if u in s.phase && Keeps(s.phase[u], ClassAt(v, b)) {
      var k := (u, ClassAt(v, b));
      assert v.home[v.at[b].chunk] in s.pools;
      assert FreeListOk(s.mem, k, s.pools[k], v.frees[k], s.log, v);
      assert Listed(s, u, b);
    }
  }

  /** Under the clients' guard, a thread may start to leave. */
  lemma ExitLeaves(s: State, v: View, t: Tid)
    requires Local(s, v) && t in s.phase && s.phase[t] == Idle && MayExit(s, t)
    ensures LeavesOk(s.mm.held, s.phase[t := Exiting(CLASSES)], s.log, v)
  {
    forall k | k in v.chunks ensures k.1 in CLASSES { AllClasses(s, v, k); }
    forall b, p | b in s.log && p in s.mm.held && s.mm.held[p] == t && InChunk(b, p)
      ensures s.log[b].Freed? && (s.log[b].who == t || Past(s.phase, s.log[b].who, v, b))
    {
      UnlistedIsPast(s, v, t, b);
    }
    LeavesExit(s.mm.held, s.phase, s.log, v, t, CLASSES);
  }

  lemma LeavesExit(held: map<Ptr, Tid>, phase: map<Tid, Phase>, log: map<Ptr, BlockState>, v: View, t: Tid,
      cs: seq<nat>)
    requires LeavesOk(held, phase, log, v) && t in phase && phase[t] == Idle
    requires forall k | k in v.chunks :: k.1 in cs
    requires forall b, p | b in log && p in held && held[p] == t && InChunk(b, p) ::
               log[b].Freed? && (log[b].who == t || Past(phase, log[b].who, v, b))
    ensures LeavesOk(held, phase[t := Exiting(cs)], log, v)
  {
  }

  /** A step that changes nothing but the phase of t, outside the chunk manager. */
  lemma PhaseOnly(s: State, v: View, t: Tid, ph: Phase)
    requires Local(s, v) && t in s.phase && t in s.mm.pc && PhaseOk(ph, s.mm.pc[t]) && KeepsNoMore(s.phase[t], ph)
    requires LeavesOk(s.mm.held, s.phase[t := ph], s.log, v)
    ensures Local(s.(phase := s.phase[t := ph]), v)
  {
    FreesPhase(s.mem, s.pools, s.phase, s.log, v, t, ph);
    PhasesKeep(s, t, ph, s.(phase := s.phase[t := ph]));
  }

  lemma PhasesKeep(s: State, t: Tid, ph: Phase, s': State)
    requires PhasesOk(s) && t in s.phase && PhaseOk(ph, s.mm.pc[t])
    requires s'.mm == s.mm && s'.phase == s.phase[t := ph] && s'.pools == s.pools
    ensures PhasesOk(s')
  {
  }

  /** What the phases of a leaving thread say of its classes and of the chunk manager. */
  lemma LeavingPhase(s: State, t: Tid)
    requires PhasesOk(s) && t in s.phase && (s.phase[t] == Idle || s.phase[t].Exiting? || s.phase[t].Emptying?)
    ensures t in s.mm.pc && s.mm.pc[t].Idle?
    ensures s.phase[t].Exiting? || s.phase[t].Emptying? ==> L.NoDup(s.phase[t].classes)
  {
  }

  lemma ExitLocal(s: State, v: View, t: Tid)
    requires Local(s, v) && t in s.phase && s.phase[t] == Idle && MayExit(s, t)
    ensures Local(s.(phase := s.phase[t := Exiting(CLASSES)]), v)
  {
    LeavingPhase(s, t);
    ClassesDistinct();
    ExitLeaves(s, v, t);
    PhaseOnly(s, v, t, Exiting(CLASSES));
  }

  lemma ClassesDistinct()
    ensures L.NoDup(CLASSES)
  {
    forall i, j | 0 <= i < j < |CLASSES| ensures CLASSES[i] != CLASSES[j] {
      ShippedSizeAt(i);
      ShippedSizeAt(j);
      SizesIncrease(i, j);
    }
  }

  lemma LeavesCount(held: map<Ptr, Tid>, phase: map<Tid, Phase>, log: map<Ptr, BlockState>, v: View, t: Tid,
      cs: seq<nat>)
    requires LeavesOk(held, phase, log, v) && t in phase && phase[t] == Exiting(cs)
    ensures LeavesOk(held, phase[t := Emptying(cs)], log, v)
  {
  }

  lemma CountFreeLocal(s: State, v: View, t: Tid, cs: seq<nat>)
    requires Local(s, v) && t in s.phase && s.phase[t] == Exiting(cs) && cs != []
    ensures Local(s.(phase := s.phase[t := Emptying(cs)]), v)
  {
    LeavingPhase(s, t);
    LeavesCount(s.mm.held, s.phase, s.log, v, t, cs);
    PhaseOnly(s, v, t, Emptying(cs));
  }

  /** A pool with no chunk at its head has none. */
  lemma LeavesNext(held: map<Ptr, Tid>, phase: map<Tid, Phase>, log: map<Ptr, BlockState>, v: View, t: Tid,
      cs: seq<nat>)
    requires LeavesOk(held, phase, log, v) && t in phase && phase[t] == Emptying(cs) && cs != []
    requires (t, cs[0]) in v.chunks ==> v.chunks[(t, cs[0])] == []
    ensures LeavesOk(held, phase[t := Exiting(cs[1..])], log, v)
  {
    forall k | k in v.chunks && k.0 == t ensures k.1 in cs[1..] || v.chunks[k] == [] {
      assert k.1 in cs && k == (t, k.1) ==> k.1 == cs[0] || k.1 in cs[1..];
    }
  }

  lemma NextClassLocal(s: State, v: View, t: Tid, cs: seq<nat>)
    requires Local(s, v) && t in s.phase && s.phase[t] == Emptying(cs) && cs != []
    requires (t, cs[0]) in s.pools && s.pools[(t, cs[0])].head == 0
    ensures Local(s.(phase := s.phase[t := Exiting(cs[1..])]), v)
  {
    LeavingPhase(s, t);
    Tail(cs[0], cs, cs[1..]);
    EmptyPool(s.mem, s.pools, v, (t, cs[0]));
    LeavesNext(s.mm.held, s.phase, s.log, v, t, cs);
    PhaseOnly(s, v, t, Exiting(cs[1..]));
  }

  lemma EmptyPool(m: Mem, pools: map<Key, CPool>, v: View, k: Key)
    requires HeadersOk(m, pools, v) && k in pools && pools[k].head == 0
    ensures v.chunks[k] == []
  {
    assert L.Chain(v.chunks[k], Link(m), 0);
  }

  lemma LeavesDone(held: map<Ptr, Tid>, phase: map<Tid, Phase>, log: map<Ptr, BlockState>, v: View, t: Tid)
    requires LeavesOk(held, phase, log, v) && t in phase && phase[t] == Exiting([])
    ensures LeavesOk(held, phase[t := Exited], log, v)
  {
  }

  lemma ExitDoneLocal(s: State, v: View, t: Tid)
    requires Local(s, v) && t in s.phase && s.phase[t] == Exiting([])
    ensures Local(s.(phase := s.phase[t := Exited]), v)
  {
    LeavingPhase(s, t);
    LeavesDone(s.mm.held, s.phase, s.log, v, t);
    PhaseOnly(s, v, t, Exited);
  }

  // ---------------------------------------------------------------- inside the chunk manager

  lemma PhaseTau(s: M.State, l: L.Links, t: Tid, s': M.State, l': L.Links, ph: Phase)
    requires M.Next(s, l, t, M.Tau, s', l') && PhaseOk(ph, s.pc[t])
    requires ph.Fetching? || ph.Listing? || ph.Returning?
    ensures t in s'.pc && PhaseOk(ph, s'.pc[t])
  {
  }

  lemma PushedNode(s: L.State, l: L.Links, a: L.Abs, t: Tid)
    requires t in s.pc && s.pc[t].PushWrite? && t in a.st && L.ThreadOk(s.pc[t], a.st[t], s, l, a.stack)
    requires L.Carries(a, t) && L.Recorded(s, a) && a.home.Keys == s.nodes
    ensures s.pc[t].node in s.nodes && s.pc[t].node !in s.client
  {
    assert s.pc[t].node in L.Transit(a.st[t]);
  }

  /** The node that `push` is about to store into is a chunk in nobody's hands but the pushing operation's. */
  ghost predicate StoresOutside(s: M.State, t: Tid)
    requires t in s.lf.pc
  {
    s.lf.pc[t].PushWrite? ==> M.IsChunk(s.base, s.lf.pc[t].node) && s.lf.pc[t].node !in s.held
  }

  lemma PushedIsNotHeld(s: M.State, l: L.Links, a: L.Abs, t: Tid)
    requires L.R(s.lf, l, a) && M.Holdings(s) && M.Frontier(s) && t in s.lf.pc
    ensures StoresOutside(s, t)
  {
    C.StackFacts(s.lf, l, a, t);
    if s.lf.pc[t].PushWrite? {
      PushedNode(s.lf, l, a, t);
    }
  }

  lemma FreesSame(base: Ptr, m: Mem, m': Mem, pools: map<Key, CPool>, phase: map<Tid, Phase>,
      log: map<Ptr, BlockState>, v: View)
    requires Geometry(base, v) && AllBlocksKept(m, m', v)
    requires FreesOk(m, pools, phase, log, v) && log.Keys == v.at.Keys
    ensures FreesOk(m', pools, phase, log, v)
  {
    BlockWords(base, v, m, m');
    forall k | k in pools && k.0 in phase && Keeps(phase[k.0], k.1)
      ensures FreeListOk(m', k, pools[k], v.frees[k], log, v)
    {
      FreeListFrame(m, m', k, pools[k], v.frees[k], log, v);
    }
  }

  /** A store into the first word of a chunk that no pool holds. */
  lemma StoreOutside(base: Ptr, m: Mem, m': Mem, pools: map<Key, CPool>, phase: map<Tid, Phase>,
                     log: map<Ptr, BlockState>, v: View, n: Ptr)
    requires Geometry(base, v) && ListsInHome(v)
    requires HeadersOk(m, pools, v) && FreesOk(m, pools, phase, log, v) && LivesOk(m, log, v)
    requires M.IsChunk(base, n) && n !in v.home && Touches(m, m', n, n + 8)
    ensures HeadersOk(m', pools, v) && FreesOk(m', pools, phase, log, v) && LivesOk(m', log, v)
  {
    WriteInHeader(base, v, n, m, m');
    forall q | q in v.home ensures HeaderKept(m, m', q) { assert M.IsChunk(base, q); }
    HeadersFrame(m, m', pools, v);
    FreesSame(base, m, m', pools, phase, log, v);
    LivesKept(m, m', log, v, v);
  }

  lemma ChunkContents(s: State, v: View, t: Tid)
    requires Structure(s, v) && Contents(s, v) && t in s.mm.lf.pc && StoresOutside(s.mm, t)
    ensures HeadersOk(TauMem(s, t), s.pools, v)
    ensures FreesOk(TauMem(s, t), s.pools, s.phase, s.log, v) && LivesOk(TauMem(s, t), s.log, v)
  {
    match s.mm.lf.pc[t]
    case PushWrite(n, curr, _) =>
      WriteTouches(s.mem, n, curr.ptr);
      StoreOutside(s.mm.base, s.mem, TauMem(s, t), s.pools, s.phase, s.log, v, n);
    case _ =>
  }

  lemma ChunkLocal(s: State, v: View, t: Tid, mm: M.State)
    requires Local(s, v) && t in s.phase && t in s.mm.lf.pc && StoresOutside(s.mm, t)
    requires s.phase[t].Fetching? || s.phase[t].Listing? || s.phase[t].Returning?
    requires M.Next(s.mm, Link(s.mem), t, M.Tau, mm, Link(TauMem(s, t)))
    ensures Local(s.(mm := mm, mem := TauMem(s, t)), v)
  {
    ChunkContents(s, v, t);
    ManagerShape(s.mm, Link(s.mem), t, M.Tau, mm, Link(TauMem(s, t)));
    PhaseTau(s.mm, Link(s.mem), t, mm, Link(TauMem(s, t)), s.phase[t]);
    TauPhases(s, t, mm, TauMem(s, t));
  }

  lemma TauPhases(s: State, t: Tid, mm: M.State, m: Mem)
    requires PhasesOk(s) && t in s.phase && t in mm.pc && mm.pc == s.mm.pc[t := mm.pc[t]]
        && PhaseOk(s.phase[t], mm.pc[t])
    ensures PhasesOk(s.(mm := mm, mem := m))
  {
  }
}
