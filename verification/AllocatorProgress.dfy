/**
 The whole allocator does serve: from every reachable state a thread's requests
 and frees can be completed, and a leaving thread's walk ends.
 */
module AllocatorProgress {
  import opened Runs
  import L = LfStack
  import LT = LfStackTheorems
  import M = Mmap
  import MT = MmapTheorems
  import opened Memory
  import opened SizeClasses
  import opened Blocks
  import opened Pool
  import opened Allocator
  import opened AllocatorInv
  import AllocatorCarve
  import AllocatorCounts
  import AllocatorReturn
  import AllocatorRun
  import AllocatorSteps
  import opened AllocatorTheorems

  // ---------------------------------------------------------------- a thread's own steps

  ghost predicate OwnStep(t: Tid, ok: Label -> bool, s: State, e: Event, s': State) {
    Step(s, e, s') && e.0 == t && ok(e.1)
  }

  /** Thread t alone, by steps with labels of this kind, takes the machine from s to r. */
  ghost predicate Path(t: Tid, ok: Label -> bool, s: State, r: State) {
    Reachable((x: State) => x == s, (x, e, y) => OwnStep(t, ok, x, e, y), r)
  }

  lemma PathSelf(t: Tid, ok: Label -> bool, s: State)
    ensures Path(t, ok, s, s)
  {
    ReachInit((x: State) => x == s, (x, e, y) => OwnStep(t, ok, x, e, y), s);
  }

  lemma PathStep(t: Tid, ok: Label -> bool, s: State, x: State, lbl: Label, y: State)
    requires Path(t, ok, s, x) && Next(x, t, lbl, y) && ok(lbl)
    ensures Path(t, ok, s, y)
  {
    assert OwnStep(t, ok, x, (t, lbl), y);
    ReachStep((x: State) => x == s, (x, e, y) => OwnStep(t, ok, x, e, y), x, (t, lbl), y);
  }

  lemma PathJoin(t: Tid, ok: Label -> bool, s: State, x: State, r: State)
    requires Path(t, ok, s, x) && Path(t, ok, x, r)
    ensures Path(t, ok, s, r)
  {
    var from := y => Path(t, ok, s, y);
    forall y, e, z | from(y) && OwnStep(t, ok, y, e, z) ensures from(z) { PathStep(t, ok, s, y, e.1, z); }
    Invariant((y: State) => y == x, (y, e, z) => OwnStep(t, ok, y, e, z), from, r);
  }

  lemma PathReached(t: Tid, ok: Label -> bool, s: State, r: State)
    requires Reached(s) && Path(t, ok, s, r)
    ensures Reached(r)
  {
    forall x, e, y | Reached(x) && OwnStep(t, ok, x, e, y) ensures Reached(y) { ReachStep(Init, Step, x, e, y); }
    Invariant((x: State) => x == s, (x, e, y) => OwnStep(t, ok, x, e, y), Reached, r);
  }

  /** Steps of t with this label keep what holds. */
  ghost predicate KeptAlong(t: Tid, inv: State -> bool, lbl: Label) {
    forall x, y | inv(x) && Next(x, t, lbl, y) :: inv(y)
  }

  lemma PathKeeps(t: Tid, ok: Label -> bool, inv: State -> bool, s: State, r: State)
    requires Path(t, ok, s, r) && inv(s)
    requires forall lbl | ok(lbl) :: KeptAlong(t, inv, lbl)
    ensures inv(r)
  {
    forall x, e, y | inv(x) && OwnStep(t, ok, x, e, y) ensures inv(y) { assert KeptAlong(t, inv, e.1); }
    Invariant((x: State) => x == s, (x, e, y) => OwnStep(t, ok, x, e, y), inv, r);
  }

  // ---------------------------------------------------------------- requests are served

  /** Thread t is getting a chunk. */
  ghost predicate Getting(s: State, t: Tid) {
    t in s.phase && t in s.mm.pc && t in s.mm.lf.pc && s.phase[t].Fetching? && !s.mm.lf.pc[t].PushWrite?
  }

  /** The chunk manager moves on by one step of t. */
  function Moved(s: State, t: Tid): State
    requires t in s.mm.pc && t in s.mm.lf.pc
  {
    s.(mm := MT.Exec(Manager(s), t).s)
  }

  lemma MoveStep(s: State, t: Tid)
    requires Getting(s, t) && MT.Ready(Manager(s), t) && MT.LabelOf(Manager(s), t) == M.Tau
    ensures Next(s, t, Chunk, Moved(s, t))
  {
    MT.ExecSteps(Manager(s), t);
  }

  lemma Move(t: Tid, ok: Label -> bool, s0: State, s: State) returns (r: State)
    requires Path(t, ok, s0, s) && ok(Chunk)
    requires Getting(s, t) && MT.Ready(Manager(s), t) && MT.LabelOf(Manager(s), t) == M.Tau
    ensures Path(t, ok, s0, r) && r == Moved(s, t)
  {
    MoveStep(s, t);
    r := Moved(s, t);
    PathStep(t, ok, s0, s, Chunk, r);
  }

  /** r is s but for the chunk manager, where t has got chunk p. */
  ghost predicate Got(s: State, t: Tid, r: State, p: Ptr) {
    && r == s.(mm := r.mm) && p != 0
    && t in r.phase && t in r.mm.pc && t in r.mm.lf.pc && r.phase[t].Fetching?
    && r.mm.pc[t] == M.AllocDone(p) && r.mm.lf.pc[t] == L.Idle && r.mm.base == s.mm.base
  }

  /** At the start of the pop in alloc_chunk. */
  ghost predicate Popping(s: State, t: Tid) {
    Getting(s, t) && s.mm.pc[t] == M.AllocPop && s.mm.lf.pc[t] == L.PopLoad
  }

  /** From a free stack that is not empty: five steps of thread t. */
  lemma PopsChunk(t: Tid, ok: Label -> bool, s0: State, s: State) returns (r: State)
    requires Path(t, ok, s0, s) && ok(Chunk) && Popping(s, t) && s.mm.lf.head.ptr != 0
    ensures Path(t, ok, s0, r) && Got(s, t, r, s.mm.lf.head.ptr)
    ensures r.mm.pc.Keys == s.mm.pc.Keys && r.mm.lf.pc.Keys == s.mm.lf.pc.Keys
  {
    r := PopsNode(t, ok, s0, s);
    r := Move(t, ok, s0, r);
    r := Move(t, ok, s0, r);
  }

  lemma PopsNode(t: Tid, ok: Label -> bool, s0: State, s: State) returns (r: State)
    requires Path(t, ok, s0, s) && ok(Chunk) && Popping(s, t) && s.mm.lf.head.ptr != 0
    ensures Path(t, ok, s0, r) && Getting(r, t) && r == s.(mm := r.mm) && r.mm.base == s.mm.base
    ensures r.mm.pc[t] == M.AllocPop && r.mm.lf.pc[t] == L.PopDone(s.mm.lf.head.ptr)
    ensures r.mm.pc.Keys == s.mm.pc.Keys && r.mm.lf.pc.Keys == s.mm.lf.pc.Keys
  {
    r := Move(t, ok, s0, s);
    assert r == s.(mm := s.mm.(lf := L.Go(s.mm.lf, t, L.PopRead(s.mm.lf.head))));
    r := Move(t, ok, s0, r);
    assert r.mm.lf.pc[t].PopCas? && r.mm.lf.pc[t].curr == s.mm.lf.head == r.mm.lf.head;
    r := Move(t, ok, s0, r);
  }

  /** From an empty free stack with the bump pointer below the end: five steps of thread t. */
  lemma BumpsChunk(t: Tid, ok: Label -> bool, s0: State, s: State) returns (r: State)
    requires Path(t, ok, s0, s) && ok(Chunk) && Popping(s, t) && s.mm.lf.head.ptr == 0
    requires s.mm.head != 0 && s.mm.head !in s.mm.lf.nodes
    requires M.BumpLoaded(s.mm.base, s.mm.head) == M.BumpCas(s.mm.head, s.mm.head + M.CHUNK_SIZE)
    ensures Path(t, ok, s0, r) && Got(s, t, r, s.mm.head)
  {
    r := FindsNothing(t, ok, s0, s);
    r := Move(t, ok, s0, r);
    r := Move(t, ok, s0, r);
    r := Move(t, ok, s0, r);
  }

  /** The state after a pop that found nothing. */
  function Unpopped(s: State, t: Tid): State {
    s.(mm := M.Go(s.mm, t, M.BumpLoad, L.Go(s.mm.lf, t, L.Idle)))
  }

  lemma FindsNothing(t: Tid, ok: Label -> bool, s0: State, s: State) returns (r: State)
    requires Path(t, ok, s0, s) && ok(Chunk) && Popping(s, t) && s.mm.lf.head.ptr == 0
    ensures Path(t, ok, s0, r) && r == Unpopped(s, t)
  {
    r := Move(t, ok, s0, s);
    r := Move(t, ok, s0, r);
    assert s.mm.lf.pc[t := L.PopDone(0)][t := L.Idle] == s.mm.lf.pc[t := L.Idle];
  }

  /** alloc_chunk has something to return. */
  ghost predicate ChunkLeft(s: M.State) {
    s.lf.head.ptr != 0 || (s.base != 0 && s.head < M.ChunkPtr(s.base, M.CHUNK_COUNT))
  }

  lemma CanBump(s: M.State)
    requires M.Frontier(s) && s.base != 0 && s.head < M.ChunkPtr(s.base, M.CHUNK_COUNT)
    ensures s.head != 0 && s.head !in s.lf.nodes
    ensures M.BumpLoaded(s.base, s.head) == M.BumpCas(s.head, s.head + M.CHUNK_SIZE)
  {
    M.BumpLoadedIs(s.base, s.head);
  }

  lemma GetsChunk(t: Tid, ok: Label -> bool, s0: State, s: State) returns (r: State, p: Ptr)
    requires Path(t, ok, s0, s) && ok(Chunk) && Popping(s, t)
    requires M.Frontier(s.mm) && ChunkLeft(s.mm)
    ensures Path(t, ok, s0, r) && Got(s, t, r, p)
  {
    if s.mm.lf.head.ptr != 0 {
      p := s.mm.lf.head.ptr;
      r := PopsChunk(t, ok, s0, s);
    } else {
      CanBump(s.mm);
      p := s.mm.head;
      r := BumpsChunk(t, ok, s0, s);
    }
  }

  /** The state after the call of alloc_chunk. */
  function Fetched(s: State, t: Tid, bytes: nat, d: Debug): State
    requires t in s.phase && TotalSize(bytes) <= MAX_ALLOC
  {
    s.(mm := M.Go(s.mm, t, M.AllocPop, L.Go(s.mm.lf, t, L.PopLoad)),
       phase := s.phase[t := Fetching(ClassOf(TotalSize(bytes)), bytes, d)])
  }

  /** Thread t is outside every operation. */
  ghost predicate AtRest(s: State, t: Tid) {
    && t in s.phase && s.phase[t] == Idle
    && t in s.mm.pc && s.mm.pc[t] == M.Idle && t in s.mm.lf.pc && s.mm.lf.pc[t] == L.Idle
  }

  lemma FetchStep(s: State, t: Tid, bytes: nat, d: Debug)
    requires AtRest(s, t) && TotalSize(bytes) <= MAX_ALLOC && GoodDebug(d)
    requires var k := (t, ClassOf(TotalSize(bytes)));
        k in s.pools && s.pools[k].free == 0 && !HasRoom(s.pools[k], s.mem, k.1)
    ensures Next(s, t, AllocFetch(bytes, d), Fetched(s, t, bytes, d))
  {
    assert M.Next(s.mm, Link(s.mem), t, M.CallAlloc, Fetched(s, t, bytes, d).mm, Link(s.mem));
  }

  /** The state after alloc_chunk has returned p: installed, carved and stamped. */
  function Arrived(s: State, t: Tid, k: Key, p: Ptr, bytes: nat, d: Debug): State
    requires k in s.pools
  {
    var mm := M.Go(s.mm, t, M.Idle, s.mm.lf).(held := s.mm.held[p := t]);
    var pool := Installed(s.pools[k], p);
    var m := InstallMem(s.pools[k], s.mem, p);
    Hand(s, k, Counted(pool), CarveMem(pool, m, k.1), CarvePtr(pool, m), bytes, d).(mm := mm,
      phase := s.phase[t := Idle])
  }

  lemma ArriveStep(s: State, t: Tid, cls: nat, bytes: nat, d: Debug, p: Ptr)
    requires t in s.phase && t in s.mm.pc && t in s.mm.lf.pc && (t, cls) in s.pools && cls > 0
    requires s.phase[t] == Fetching(cls, bytes, d) && s.mm.pc[t] == M.AllocDone(p) && p != 0
    ensures Next(s, t, AllocNew, Arrived(s, t, (t, cls), p, bytes, d))
  {
    assert M.Next(s.mm, Link(s.mem), t, M.RetAlloc(p), Arrived(s, t, (t, cls), p, bytes, d).mm, Link(s.mem));
  }

  /** The state after an alloc that needs no chunk. */
  function Allotted(s: State, k: Key, bytes: nat, d: Debug): State
    requires k in s.pools
  {
    var p := s.pools[k];
    if p.free != 0 then Hand(s, k, TakeFree(p, s.mem), s.mem, p.free, bytes, d)
    else Hand(s, k, Counted(p), CarveMem(p, s.mem, k.1), CarvePtr(p, s.mem), bytes, d)
  }

  /** A block is handed out that was not in use before, and the log says for what size and whom. */
  ghost predicate GivesNew(log: map<Ptr, BlockState>, bytes: nat, d: Debug, log': map<Ptr, BlockState>) {
    exists b: Ptr :: (b in log ==> log[b].Freed?) && log' == log[b := Live(bytes, d)]
  }

  /** r is the outcome of a request of t: back at rest, with a new block. */
  ghost predicate Answered(s: State, t: Tid, bytes: nat, d: Debug, r: State) {
    && r.phase == s.phase
    && GivesNew(s.log, bytes, d, r.log)
  }

  /** The steps of one request. */
  function ForRequest(bytes: nat, d: Debug): Label -> bool {
    l => l == AllocLocal(bytes, d) || l == AllocFetch(bytes, d) || l == Chunk || l == AllocNew
  }

  lemma AnsweredLocally(s: State, t: Tid, bytes: nat, d: Debug) returns (r: State)
    requires Reached(s) && AtRest(s, t) && TotalSize(bytes) <= MAX_ALLOC && GoodDebug(d)
    requires var k := (t, ClassOf(TotalSize(bytes)));
        k in s.pools && (s.pools[k].free != 0 || HasRoom(s.pools[k], s.mem, k.1))
    ensures Path(t, ForRequest(bytes, d), s, r) && Answered(s, t, bytes, d, r)
  {
    r := Allotted(s, (t, ClassOf(TotalSize(bytes))), bytes, d);
    PathSelf(t, ForRequest(bytes, d), s);
    PathStep(t, ForRequest(bytes, d), s, s, AllocLocal(bytes, d), r);
    LocalIsNew(s, t, bytes, d, r);
  }

  lemma LocalIsNew(s: State, t: Tid, bytes: nat, d: Debug, r: State)
    requires Reached(s) && t in s.phase && s.phase[t] == Idle && AllocLocalStep(s, t, bytes, d, r) && r.phase == s.phase
    ensures Answered(s, t, bytes, d, r)
  {
    var v := Parts(s);
    AllocatorCounts.AllocLocalHands(s, v, t, bytes, d, r);
  }

  lemma Parts(s: State) returns (v: View)
    requires Reached(s)
    ensures Structure(s, v) && Contents(s, v) && PhasesOk(s) && M.Frontier(s.mm) && M.Phases(s.mm)
  {
    HasInv(s);
    var a;
    a, v :| Inv(s, a, v);
  }

  /** In every reachable state, a chunk that alloc_chunk is about to return is new to the pools. */
  lemma ArrivalFacts(s: State, t: Tid) returns (v: View)
    requires Reached(s) && t in s.mm.pc && s.mm.pc[t].AllocDone? && s.mm.pc[t].p != 0
    ensures Structure(s, v) && Contents(s, v) && PhasesOk(s)
    ensures var p := s.mm.pc[t].p; p !in s.mm.held && M.IsChunk(s.mm.base, p) && p + M.CHUNK_SIZE < WORD
  {
    HasInv(s);
    var a;
    a, v :| Inv(s, a, v);
    AllocatorRun.GotChunk(s.mm, Link(s.mem), a, t);
  }

  lemma ArrivalIsNew(s: State, t: Tid, r: State)
    requires Reached(s) && t in s.phase && t in s.mm.pc && AllocNewStep(s, t, r) && s.mm.pc[t].p != 0
    ensures GivesNew(s.log, s.phase[t].bytes, s.phase[t].debug, r.log)
  {
    var v := ArrivalFacts(s, t);
    AllocatorCounts.AllocNewHands(s, v, t, r);
  }

  lemma ArrivalGives(s: State, t: Tid, cls: nat, bytes: nat, d: Debug, p: Ptr) returns (r: State)
    requires Reached(s) && Got(s, t, s, p) && s.phase[t] == Fetching(cls, bytes, d) && cls > 0 && (t, cls) in s.pools
    ensures Next(s, t, AllocNew, r) && GivesNew(s.log, bytes, d, r.log) && r.phase == s.phase[t := Idle]
  {
    ArriveStep(s, t, cls, bytes, d, p);
    r := Arrived(s, t, (t, cls), p, bytes, d);
    ArrivalIsNew(s, t, r);
  }

  /** A chunk's arrival answers the request. */
  lemma ArrivalAnswers(t: Tid, ok: Label -> bool, s0: State, s: State, cls: nat, bytes: nat, d: Debug, p: Ptr)
      returns (r: State)
    requires Reached(s) && Path(t, ok, s0, s) && ok(AllocNew) && s.log == s0.log && Got(s, t, s, p)
    requires cls > 0 && (t, cls) in s.pools
    requires t in s0.phase && s0.phase[t] == Idle && s.phase == s0.phase[t := Fetching(cls, bytes, d)]
    ensures Path(t, ok, s0, r) && Answered(s0, t, bytes, d, r)
  {
    r := ArrivalGives(s, t, cls, bytes, d, p);
    PathStep(t, ok, s0, s, AllocNew, r);
    assert r.phase == s0.phase;
  }

  /** The pool has no block to give. */
  predicate PoolEmpty(s: State, k: Key) {
    k in s.pools && k.1 > 0 && s.pools[k].free == 0 && !HasRoom(s.pools[k], s.mem, k.1)
  }

  lemma Fetches(t: Tid, ok: Label -> bool, s0: State, s: State, bytes: nat, d: Debug) returns (x: State)
    requires Path(t, ok, s0, s) && ok(AllocFetch(bytes, d))
    requires AtRest(s, t) && TotalSize(bytes) <= MAX_ALLOC && GoodDebug(d)
    requires PoolEmpty(s, (t, ClassOf(TotalSize(bytes))))
    ensures Path(t, ok, s0, x) && x == Fetched(s, t, bytes, d) && Popping(x, t)
  {
    x := Fetched(s, t, bytes, d);
    FetchStep(s, t, bytes, d);
    PathStep(t, ok, s0, s, AllocFetch(bytes, d), x);
  }

  lemma AnsweredByChunk(s: State, t: Tid, bytes: nat, d: Debug) returns (r: State)
    requires Reached(s) && AtRest(s, t) && TotalSize(bytes) <= MAX_ALLOC && GoodDebug(d) && ChunkLeft(s.mm)
    requires PoolEmpty(s, (t, ClassOf(TotalSize(bytes))))
    ensures Path(t, ForRequest(bytes, d), s, r) && Answered(s, t, bytes, d, r)
  {
    PathSelf(t, ForRequest(bytes, d), s);
    var x := Fetches(t, ForRequest(bytes, d), s, s, bytes, d);
    FrontierHere(s);
    var y, p := GetsChunk(t, ForRequest(bytes, d), s, x);
    PathReached(t, ForRequest(bytes, d), s, y);
    r := ArrivalAnswers(t, ForRequest(bytes, d), s, y, ClassOf(TotalSize(bytes)), bytes, d, p);
  }

  lemma FrontierHere(s: State)
    requires Reached(s)
    ensures M.Frontier(s.mm)
  {
    var v := Layout(s);
  }

  lemma RestHere(s: State, t: Tid, cls: nat)
    requires Reached(s) && t in s.phase && s.phase[t] == Idle && IsClass(cls)
    ensures AtRest(s, t) && (t, cls) in s.pools
  {
    var v := Parts(s);
  }

  /** There is a block for thread t's request: in its pool, or in a chunk that the manager can give. */
  ghost predicate Available(s: State, t: Tid, bytes: nat)
    requires TotalSize(bytes) <= MAX_ALLOC
  {
    ChunkLeft(s.mm) || !PoolEmpty(s, (t, ClassOf(TotalSize(bytes))))
  }

  lemma Served(s: State, t: Tid, bytes: nat, d: Debug) returns (r: State)
    requires Reached(s) && t in s.phase && s.phase[t] == Idle && TotalSize(bytes) <= MAX_ALLOC && GoodDebug(d)
    requires Available(s, t, bytes)
    ensures Path(t, ForRequest(bytes, d), s, r) && Answered(s, t, bytes, d, r)
  {
    RestHere(s, t, ClassOf(TotalSize(bytes)));
    if PoolEmpty(s, (t, ClassOf(TotalSize(bytes)))) {
      r := AnsweredByChunk(s, t, bytes, d);
    } else {
      r := AnsweredLocally(s, t, bytes, d);
    }
  }

  // ---------------------------------------------------------------- requests that cannot be served

  /** What t may have done so far of a request for which there is nothing, from s on. */
  ghost predicate Unserved(s: State, t: Tid, bytes: nat, d: Debug, x: State) {
    && x == s.(mm := x.mm, phase := x.phase) && x.phase.Keys == s.phase.Keys && t in x.phase
    && t in x.mm.pc && t in x.mm.lf.pc && !x.mm.lf.pc[t].PushWrite?
    && x.mm.base == s.mm.base && x.mm.head == s.mm.head && x.mm.lf.head == s.mm.lf.head
    && match x.phase[t]
       case Idle => true
       case Crashed => s.mm.base == 0
       case Fetching(_, _, _) =>
         || (x.mm.pc[t] == M.AllocPop && (x.mm.lf.pc[t] == L.PopLoad || x.mm.lf.pc[t] == L.PopDone(0)))
         || x.mm.pc[t] == M.BumpLoad
         || (x.mm.pc[t] == M.AllocDone(0) && s.mm.base == 0)
         || (x.mm.pc[t] == M.Aborted && s.mm.base != 0)
       case _ => false
  }

  /** With no chunk left the bump loop stops: on null without a reservation, else on an assert. */
  lemma BumpStops(s: M.State)
    requires M.Frontier(s) && !ChunkLeft(s)
    ensures M.BumpLoaded(s.base, s.head) == if s.base == 0 then M.AllocDone(0) else M.Aborted
  {
    if s.base != 0 {
      M.BumpLoadedIs(s.base, s.head);
    }
  }

  lemma UnservedMove(s: State, t: Tid, bytes: nat, d: Debug, x: State, y: State)
    requires M.BumpLoaded(s.mm.base, s.mm.head) == (if s.mm.base == 0 then M.AllocDone(0) else M.Aborted)
    requires s.mm.lf.head.ptr == 0 && Unserved(s, t, bytes, d, x) && Next(x, t, Chunk, y)
    ensures Unserved(s, t, bytes, d, y)
  {
    assert M.Internal(x.mm, Link(x.mem), t, y.mm, Link(TauMem(x, t)));
    if x.mm.pc[t] == M.AllocPop && x.mm.lf.pc[t] == L.PopLoad {
      assert L.Internal(x.mm.lf, Link(x.mem), t, y.mm.lf, Link(TauMem(x, t)));
    }
  }

  lemma UnservedReturn(s: State, t: Tid, bytes: nat, d: Debug, x: State, y: State)
    requires Unserved(s, t, bytes, d, x) && Next(x, t, AllocNew, y)
    ensures Unserved(s, t, bytes, d, y)
  {
  }

  lemma UnservedFetch(s: State, t: Tid, bytes: nat, d: Debug, x: State, y: State)
    requires Unserved(s, t, bytes, d, x) && Next(x, t, AllocFetch(bytes, d), y)
    ensures Unserved(s, t, bytes, d, y)
  {
  }

  lemma UnservedLocal(s: State, t: Tid, bytes: nat, d: Debug, x: State, y: State)
    requires TotalSize(bytes) <= MAX_ALLOC && PoolEmpty(s, (t, ClassOf(TotalSize(bytes))))
    requires Unserved(s, t, bytes, d, x)
    ensures !Next(x, t, AllocLocal(bytes, d), y)
  {
  }

  ghost function UnservedFrom(s: State, t: Tid, bytes: nat, d: Debug): State -> bool {
    x => Unserved(s, t, bytes, d, x)
  }

  lemma UnservedByManager(s: State, t: Tid, bytes: nat, d: Debug)
    requires M.Frontier(s.mm) && !ChunkLeft(s.mm)
    ensures KeptAlong(t, UnservedFrom(s, t, bytes, d), Chunk)
    ensures KeptAlong(t, UnservedFrom(s, t, bytes, d), AllocNew)
  {
    BumpStops(s.mm);
    forall x, y | Unserved(s, t, bytes, d, x) && Next(x, t, Chunk, y) ensures Unserved(s, t, bytes, d, y) {
      UnservedMove(s, t, bytes, d, x, y);
    }
    forall x, y | Unserved(s, t, bytes, d, x) && Next(x, t, AllocNew, y) ensures Unserved(s, t, bytes, d, y) {
      UnservedReturn(s, t, bytes, d, x, y);
    }
  }

  lemma UnservedByPool(s: State, t: Tid, bytes: nat, d: Debug)
    requires TotalSize(bytes) <= MAX_ALLOC && PoolEmpty(s, (t, ClassOf(TotalSize(bytes))))
    ensures KeptAlong(t, UnservedFrom(s, t, bytes, d), AllocLocal(bytes, d))
    ensures KeptAlong(t, UnservedFrom(s, t, bytes, d), AllocFetch(bytes, d))
  {
    forall x, y | Unserved(s, t, bytes, d, x) ensures !Next(x, t, AllocLocal(bytes, d), y) {
      UnservedLocal(s, t, bytes, d, x, y);
    }
    forall x, y | Unserved(s, t, bytes, d, x) && Next(x, t, AllocFetch(bytes, d), y)
      ensures Unserved(s, t, bytes, d, y)
    {
      UnservedFetch(s, t, bytes, d, x, y);
    }
  }

  /** How a request ends for which there is nothing: on a null chunk without a reservation, else on an assert. */
  ghost predicate Failed(s: State, t: Tid, r: State) {
    && r.log == s.log && r.pools == s.pools && t in r.phase && t in r.mm.pc
    && if s.mm.base == 0 then r.phase[t] == Crashed else r.mm.pc[t] == M.Aborted
  }

  lemma Stops(s: State, t: Tid, bytes: nat, d: Debug) returns (r: State)
    requires Reached(s) && AtRest(s, t) && TotalSize(bytes) <= MAX_ALLOC && GoodDebug(d)
    requires PoolEmpty(s, (t, ClassOf(TotalSize(bytes)))) && !ChunkLeft(s.mm)
    ensures Path(t, ForRequest(bytes, d), s, r) && Failed(s, t, r)
  {
    FrontierHere(s);
    BumpStops(s.mm);
    PathSelf(t, ForRequest(bytes, d), s);
    var x := Fetches(t, ForRequest(bytes, d), s, s, bytes, d);
    r := FindsNothing(t, ForRequest(bytes, d), s, x);
    r := Move(t, ForRequest(bytes, d), s, r);
    if s.mm.base == 0 {
      r := Crashes(t, ForRequest(bytes, d), s, r);
    }
  }

  lemma Crashes(t: Tid, ok: Label -> bool, s0: State, s: State) returns (r: State)
    requires Path(t, ok, s0, s) && ok(AllocNew) && Getting(s, t) && s.mm.pc[t] == M.AllocDone(0)
    requires s.phase[t].cls > 0 && (t, s.phase[t].cls) in s.pools
    ensures Path(t, ok, s0, r) && r == s.(mm := r.mm, phase := s.phase[t := Crashed])
    ensures t in r.mm.pc
  {
    r := s.(mm := M.Go(s.mm, t, M.Idle, s.mm.lf), phase := s.phase[t := Crashed]);
    assert M.Next(s.mm, Link(s.mem), t, M.RetAlloc(0), r.mm, Link(s.mem));
    PathStep(t, ok, s0, s, AllocNew, r);
  }

  /** No way through a request for which there is nothing hands out a block. */
  lemma NothingServed(s: State, t: Tid, bytes: nat, d: Debug, r: State)
    requires Reached(s) && AtRest(s, t) && TotalSize(bytes) <= MAX_ALLOC && !Available(s, t, bytes)
    requires Path(t, ForRequest(bytes, d), s, r)
    ensures !Answered(s, t, bytes, d, r)
  {
    FrontierHere(s);
    UnservedByManager(s, t, bytes, d);
    UnservedByPool(s, t, bytes, d);
    UnservedPath(s, t, bytes, d, r);
    NothingGiven(s, t, bytes, d, r);
  }

  lemma UnservedPath(s: State, t: Tid, bytes: nat, d: Debug, r: State)
    requires KeptAlong(t, UnservedFrom(s, t, bytes, d), Chunk)
    requires KeptAlong(t, UnservedFrom(s, t, bytes, d), AllocNew)
    requires KeptAlong(t, UnservedFrom(s, t, bytes, d), AllocLocal(bytes, d))
    requires KeptAlong(t, UnservedFrom(s, t, bytes, d), AllocFetch(bytes, d))
    requires AtRest(s, t) && Path(t, ForRequest(bytes, d), s, r)
    ensures Unserved(s, t, bytes, d, r)
  {
    PathKeeps(t, ForRequest(bytes, d), UnservedFrom(s, t, bytes, d), s, r);
  }

  lemma NothingGiven(s: State, t: Tid, bytes: nat, d: Debug, r: State)
    requires Unserved(s, t, bytes, d, r)
    ensures !Answered(s, t, bytes, d, r)
  {
    forall b: Ptr | b in s.log ==> s.log[b].Freed? ensures s.log[b := Live(bytes, d)] != s.log {
      assert s.log[b := Live(bytes, d)][b] == Live(bytes, d);
    }
  }

  /**
   From every reachable state an idle thread's request can be answered by its own
   steps if and only if its pool has a block to give or alloc_chunk has a chunk;
   otherwise it ends in a crash or a failed assert, and nothing is handed out.
   */
  lemma RequestServed(s: State, t: Tid, bytes: nat, d: Debug)
    requires Reached(s) && t in s.phase && s.phase[t] == Idle && TotalSize(bytes) <= MAX_ALLOC && GoodDebug(d)
    ensures Available(s, t, bytes) <==> exists r :: Path(t, ForRequest(bytes, d), s, r) && Answered(s, t, bytes, d, r)
    ensures !Available(s, t, bytes) ==> exists r :: Path(t, ForRequest(bytes, d), s, r) && Failed(s, t, r)
  {
    RestHere(s, t, ClassOf(TotalSize(bytes)));
    if Available(s, t, bytes) {
      var r := Served(s, t, bytes, d);
    } else {
      var r := Stops(s, t, bytes, d);
      forall r | Path(t, ForRequest(bytes, d), s, r) ensures !Answered(s, t, bytes, d, r) {
        NothingServed(s, t, bytes, d, r);
      }
    }
  }

  /** Every block in use can be freed by every idle thread, in one step. */
  lemma FreeServed(s: State, t: Tid, b: Ptr)
    requires Reached(s) && t in s.phase && s.phase[t] == Idle && b in s.log && s.log[b].Live?
    ensures exists r :: Next(s, t, Dealloc(UserPtr(b)), r) && r.log == s.log[b := Freed(t)]
  {
    FramesHold(s, b);
    RestHere(s, t, ClassOf(TotalSize(s.log[b].bytes)));
    FreeStep(s, t, b);
  }

  lemma FreeStep(s: State, t: Tid, b: Ptr)
    requires AtRest(s, t) && b in s.log && s.log[b].Live? && Framed(s.mem, b, s.log[b].bytes)
    requires TotalSize(s.log[b].bytes) <= MAX_ALLOC && (t, ClassOf(TotalSize(s.log[b].bytes))) in s.pools
    ensures exists r :: Next(s, t, Dealloc(UserPtr(b)), r) && r.log == s.log[b := Freed(t)]
  {
    var k := (t, ClassOf(TotalSize(s.log[b].bytes)));
    var r := s.(pools := s.pools[k := GaveBack(s.pools[k], b)], mem := GiveBackMem(s.pools[k], s.mem, b),
                log := s.log[b := Freed(t)]);
    assert HeaderOf(UserPtr(b)) == b && Read64(s.mem, b) == s.log[b].bytes;
    assert Next(s, t, Dealloc(UserPtr(b)), r);
  }

  // ---------------------------------------------------------------- leaving

  /** Block b was freed last by t, or by a thread that is past its list of b's class. */
  ghost predicate Settled(s: State, t: Tid, b: Ptr) {
    && b in s.log && s.log[b].Freed? && s.log[b].who in s.phase
    && (s.log[b].who == t || exists cls :: InChunkOfClass(s, b, cls) && !Keeps(s.phase[s.log[b].who], cls))
  }

  lemma ClassOfBlock(s: State, v: View, b: Ptr, cls: nat)
    requires Geometry(s.mm.base, v) && PoolsOk(s.mm.held, s.pools, v) && HeadersOk(s.mem, s.pools, v) && b in v.at
    requires InChunkOfClass(s, b, cls)
    ensures OfClass(v, b, cls)
  {
    var p :| p in s.mm.held && InChunk(b, p) && ChunkIsAt(s, p, InPool((s.mm.held[p], cls)));
    PoolListed(s, v, p, (s.mm.held[p], cls));
    AllocatorReturn.BlocksOf(s.mm.base, v, p, b);
  }

  lemma SettledIff(s: State, v: View, t: Tid, b: Ptr)
    requires Geometry(s.mm.base, v) && PoolsOk(s.mm.held, s.pools, v) && HeadersOk(s.mem, s.pools, v) && PhasesOk(s)
    requires FreesOk(s.mem, s.pools, s.phase, s.log, v) && s.log.Keys == v.at.Keys
    requires b in s.log && (s.log[b].Freed? ==> s.log[b].who in s.phase)
    ensures Settled(s, t, b) <==> s.log[b].Freed? && forall u | Listed(s, u, b) :: u == t
  {
    if s.log[b].Freed? && forall u | Listed(s, u, b) :: u == t {
      AllocatorSteps.UnlistedIsPast(s, v, t, b);
      BlockOfClass(s, v, b);
    }
    if Settled(s, t, b) && s.log[b].who != t {
      var cls :| InChunkOfClass(s, b, cls) && !Keeps(s.phase[s.log[b].who], cls);
      ClassOfBlock(s, v, b, cls);
    }
    forall u | Listed(s, u, b) ensures Settled(s, t, b) ==> u == t { ListedByFreer(s, v, u, b); }
  }

  lemma ListedByFreer(s: State, v: View, u: Tid, b: Ptr)
    requires FreesOk(s.mem, s.pools, s.phase, s.log, v) && Listed(s, u, b)
    ensures b in s.log && s.log[b] == Freed(u) && b in v.at && v.at[b].chunk in v.home
    ensures Keeps(s.phase[u], ClassAt(v, b))
  {
    var cls: nat, free :| u in s.phase && Keeps(s.phase[u], cls) && (u, cls) in s.pools
                     && L.Chain(free, Link(s.mem), s.pools[(u, cls)].free) && b in free;
    assert MT.InChain(Link(s.mem), s.pools[(u, cls)].free, b);
    ListedFree(s, v, b, (u, cls));
  }

  /**
   The guard on the lists in memory says of the clients' calls: each slot ever
   carved from t's chunks was freed, last by t or by a thread past its list.
   */
  lemma GuardOnCalls(s: State, t: Tid)
    requires Reached(s)
    ensures MayExit(s, t) <==>
              forall b, p | b in s.log && p in s.mm.held && s.mm.held[p] == t && InChunk(b, p) :: Settled(s, t, b)
  {
    var v := Lists(s);
    HasFreers(s);
    forall b | b in s.log
      ensures Settled(s, t, b) <==> s.log[b].Freed? && forall u | Listed(s, u, b) :: u == t
    {
      SettledIff(s, v, t, b);
    }
  }

  /** Thread k.0 freed block b last, and b is of class k.1. */
  ghost predicate FreedBy(s: State, k: Key, b: Ptr) {
    b in s.log && s.log[b] == Freed(k.0) && InChunkOfClass(s, b, k.1)
  }

  ghost function FreedSet(s: State, k: Key): set<Ptr> {
    set b | b in s.log && FreedBy(s, k, b)
  }

  /** What deinit walks: a list that ends, without repetition, of the blocks of the class that t itself freed last. */
  ghost predicate OwnFreeList(s: State, k: Key, free: seq<Ptr>)
    requires k in s.pools
  {
    && L.Chain(free, Link(s.mem), s.pools[k].free) && L.NoDup(free)
    && forall b :: b in free <==> FreedBy(s, k, b)
  }

  lemma KeptList(s: State, v: View, k: Key)
    requires Geometry(s.mm.base, v) && PoolsOk(s.mm.held, s.pools, v) && HeadersOk(s.mem, s.pools, v)
    requires FreesOk(s.mem, s.pools, s.phase, s.log, v) && s.log.Keys == v.at.Keys
    requires k in s.pools && k.0 in s.phase && Keeps(s.phase[k.0], k.1)
    ensures OwnFreeList(s, k, v.frees[k])
  {
    assert FreeListOk(s.mem, k, s.pools[k], v.frees[k], s.log, v);
    forall b ensures b in v.frees[k] <==> FreedBy(s, k, b) {
      if FreedBy(s, k, b) {
        ClassOfBlock(s, v, b, k.1);
      }
      if b in v.frees[k] {
        BlockOfClass(s, v, b);
      }
    }
  }

  lemma WalkedList(s: State, k: Key) returns (free: seq<Ptr>)
    requires Reached(s) && k in s.pools && k.0 in s.phase && Keeps(s.phase[k.0], k.1)
    ensures OwnFreeList(s, k, free)
  {
    var v := Parts(s);
    KeptList(s, v, k);
    free := v.frees[k];
  }

  lemma ListCounted(s: State, k: Key, free: seq<Ptr>, walked: seq<Ptr>)
    requires k in s.pools && OwnFreeList(s, k, free) && L.Chain(walked, Link(s.mem), s.pools[k].free)
    ensures |walked| == |FreedSet(s, k)|
  {
    LT.ChainUnique(walked, free, Link(s.mem), s.pools[k].free);
    LT.SetOfSeq(free);
    assert FreedSet(s, k) == LT.ToSet(free);
  }

  /** The number that t's walk over the free list of this class comes to. */
  ghost predicate WalkCounts(s: State, t: Tid, cls: nat, units: nat) {
    && t in s.phase && s.phase[t].Exiting? && s.phase[t].classes != [] && s.phase[t].classes[0] == cls
    && exists s' :: Next(s, t, CountFree(units), s')
  }

  lemma UnitsCounted(s: State, k: Key, free: seq<Ptr>, units: nat)
    requires k in s.pools && OwnFreeList(s, k, free) && WalkCounts(s, k.0, k.1, units)
    ensures units == |FreedSet(s, k)|
  {
    var s' :| Next(s, k.0, CountFree(units), s');
    var walked :| L.Chain(walked, Link(s.mem), s.pools[k].free) && |walked| == units;
    ListCounted(s, k, free, walked);
  }

  /**
   The walk over the free list in deinit always ends, and counts the blocks of the
   class that this thread freed last: no thread may hand back a chunk with a block
   of that list before this thread has walked it.
   */
  lemma WalkEnds(s: State, t: Tid, cls: nat)
    requires Reached(s) && t in s.phase && s.phase[t].Exiting? && (t, cls) in s.pools
    requires s.phase[t].classes != [] && s.phase[t].classes[0] == cls
    ensures exists free :: OwnFreeList(s, (t, cls), free)
    ensures forall units | WalkCounts(s, t, cls, units) :: units == |FreedSet(s, (t, cls))|
  {
    var free := WalkedList(s, (t, cls));
    forall units | WalkCounts(s, t, cls, units) ensures units == |FreedSet(s, (t, cls))| {
      UnitsCounted(s, (t, cls), free, units);
    }
  }

  /** What deinit hands to free_chunk is always a chunk its thread holds. */
  lemma ReturnsItsOwn(s: State, t: Tid)
    requires Reached(s) && t in s.phase && s.phase[t].Emptying? && s.phase[t].classes != []
    requires var k := (t, s.phase[t].classes[0]); k in s.pools && s.pools[k].head != 0
    ensures var p := s.pools[(t, s.phase[t].classes[0])].head; p in s.mm.held && s.mm.held[p] == t
  {
    var v := Lists(s);
    AllocatorCarve.HeadChunk(s, v, (t, s.phase[t].classes[0]));
  }
}
