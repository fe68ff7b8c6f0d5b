/** The pools' counters over every run: summed over the threads they count the blocks in use, modulo the counter's
    width. */
module AllocatorCounts {
  import opened Runs
  import L = LfStack
  import M = Mmap
  import C = MmapCounters
  import opened Memory
  import opened SizeClasses
  import opened Blocks
  import opened Pool
  import opened Allocator
  import opened AllocatorInv
  import opened AllocatorAlloc
  import opened AllocatorCarve
  import opened AllocatorRun
  import opened AllocatorTheorems

  /** The class that serves a block in use, from the size asked for. */
  predicate ServedBy(st: BlockState, cls: nat) {
    st.Live? && TotalSize(st.bytes) <= MAX_ALLOC && ClassOf(TotalSize(st.bytes)) == cls
  }

  /** The blocks whose state satisfies f. */
  function Where(log: map<Ptr, BlockState>, f: BlockState -> bool): set<Ptr> {
    set b | b in log && f(log[b])
  }

  /** The blocks in use that a class serves. */
  function LiveOf(log: map<Ptr, BlockState>, cls: nat): set<Ptr> {
    Where(log, st => ServedBy(st, cls))
  }

  /** The counters `allocated_` of one class, summed over these threads. */
  function InUse(pools: map<Key, CPool>, cls: nat, ts: seq<Tid>): nat {
    if ts == [] then 0
    else (if (ts[0], cls) in pools then pools[(ts[0], cls)].inUse else 0) + InUse(pools, cls, ts[1..])
  }

  /** Equal modulo the width of the counters. */
  predicate Cong(x: int, y: int) {
    (x - y) % WORD == 0
  }

  lemma {:induction false} InUseUpdate(pools: map<Key, CPool>, k: Key, p: CPool, cls: nat, ts: seq<Tid>)
    requires k in pools && L.NoDup(ts)
    ensures InUse(pools[k := p], cls, ts)
            == InUse(pools, cls, ts) + (if k.1 == cls && k.0 in ts then p.inUse - pools[k].inUse else 0)
  {
    if ts != [] {
      L.Cons(ts[0], ts[1..]);
      assert ts == [ts[0]] + ts[1..];
      InUseUpdate(pools, k, p, cls, ts[1..]);
    }
  }

  lemma WhereUpdate(log: map<Ptr, BlockState>, f: BlockState -> bool, b: Ptr, st: BlockState)
    ensures |Where(log[b := st], f)| + C.One(b in log && f(log[b])) == |Where(log, f)| + C.One(f(st))
  {
    var log' := log[b := st];
    var rest := Where(log, f) - {b};
    assert Where(log, f) == if b in log && f(log[b]) then rest + {b} else rest;
    assert Where(log', f) == if f(st) then rest + {b} else rest;
  }

  lemma WhereSame(log: map<Ptr, BlockState>, f: BlockState -> bool, log': map<Ptr, BlockState>)
    requires log'.Keys <= log.Keys
    requires forall b | b in log :: if b in log' then log'[b] == log[b] else !f(log[b])
    ensures Where(log', f) == Where(log, f)
  {
  }

  ghost predicate Counts(pools: map<Key, CPool>, log: map<Ptr, BlockState>, ts: seq<Tid>, cls: nat) {
    Cong(InUse(pools, cls, ts), |LiveOf(log, cls)|)
  }

  lemma CongUp(x: int, y: int, n: nat)
    requires Cong(x, y)
    ensures Cong(x + Inc(n) - n, y + 1)
  {
  }

  lemma CongDown(x: int, y: int, n: nat)
    requires Cong(x, y)
    ensures Cong(x + Dec(n) - n, y - 1)
  {
  }

  lemma CountUp(pools: map<Key, CPool>, log: map<Ptr, BlockState>, ts: seq<Tid>, cls: nat, k: Key, p: CPool, b: Ptr,
      st: BlockState)
    requires Counts(pools, log, ts, cls) && L.NoDup(ts) && k in pools && k.0 in ts
    requires p.inUse == Inc(pools[k].inUse) && (b in log ==> log[b].Freed?)
    requires ServedBy(st, cls) <==> k.1 == cls
    ensures Counts(pools[k := p], log[b := st], ts, cls)
  {
    InUseUpdate(pools, k, p, cls, ts);
    WhereUpdate(log, st => ServedBy(st, cls), b, st);
    CongUp(InUse(pools, cls, ts), |LiveOf(log, cls)|, pools[k].inUse);
  }

  lemma CountDown(pools: map<Key, CPool>, log: map<Ptr, BlockState>, ts: seq<Tid>, cls: nat, k: Key, p: CPool,
      b: Ptr, st: BlockState)
    requires Counts(pools, log, ts, cls) && L.NoDup(ts) && k in pools && k.0 in ts
    requires p.inUse == Dec(pools[k].inUse) && st.Freed?
    requires b in log && (ServedBy(log[b], cls) <==> k.1 == cls)
    ensures Counts(pools[k := p], log[b := st], ts, cls)
  {
    InUseUpdate(pools, k, p, cls, ts);
    WhereUpdate(log, st => ServedBy(st, cls), b, st);
    CongDown(InUse(pools, cls, ts), |LiveOf(log, cls)|, pools[k].inUse);
  }

  lemma CountSame(pools: map<Key, CPool>, log: map<Ptr, BlockState>, ts: seq<Tid>, cls: nat, k: Key, p: CPool,
      log': map<Ptr, BlockState>)
    requires Counts(pools, log, ts, cls) && L.NoDup(ts) && k in pools && p.inUse == pools[k].inUse
    requires log'.Keys <= log.Keys && forall b | b in log :: if b in log' then log'[b] == log[b] else log[b].Freed?
    ensures Counts(pools[k := p], log', ts, cls)
  {
    InUseUpdate(pools, k, p, cls, ts);
    WhereSame(log, st => ServedBy(st, cls), log');
  }

  // ---------------------------------------------------------------- over every step

  /** Blocks handed out were not in use, blocks given back were, and nothing else is counted. */
  ghost predicate CountedHand(s: State, k: Key, bytes: nat, d: Debug, s': State) {
    && k in s.pools && TotalSize(bytes) <= MAX_ALLOC && k.1 == ClassOf(TotalSize(bytes))
    && exists b: Ptr, p: CPool :: (b in s.log ==> s.log[b].Freed?) && p.inUse == Inc(s.pools[k].inUse)
                && s'.pools == s.pools[k := p] && s'.log == s.log[b := Live(bytes, d)]
  }

  lemma HandIs(s: State, k: Key, p: CPool, b: Ptr, bytes: nat, d: Debug, s': State)
    requires k in s.pools && TotalSize(bytes) <= MAX_ALLOC && k.1 == ClassOf(TotalSize(bytes))
    requires (b in s.log ==> s.log[b].Freed?) && p.inUse == Inc(s.pools[k].inUse)
    requires s'.pools == s.pools[k := p] && s'.log == s.log[b := Live(bytes, d)]
    ensures CountedHand(s, k, bytes, d, s')
  {
  }

  lemma CarveIsNew(s: State, v: View, k: Key)
    requires Geometry(s.mm.base, v) && PoolsOk(s.mm.held, s.pools, v) && HeadersOk(s.mem, s.pools, v)
    requires k in s.pools && k.1 > 0 && HasRoom(s.pools[k], s.mem, k.1)
    ensures CarvePtr(s.pools[k], s.mem) !in v.at
  {
    RoomMeansSlots(s, v, k);
    NextSlotIsNew(s.mm.base, v, s.pools[k].head, CarvePtr(s.pools[k], s.mem));
  }

  lemma AllocLocalHands(s: State, v: View, t: Tid, bytes: nat, d: Debug, s': State)
    requires Structure(s, v) && Contents(s, v) && t in s.phase && s.phase[t] == Idle
    requires AllocLocalStep(s, t, bytes, d, s')
    ensures CountedHand(s, (t, ClassOf(TotalSize(bytes))), bytes, d, s')
  {
    var k := (t, ClassOf(TotalSize(bytes)));
    var p := s.pools[k];
    if p.free != 0 {
      FreeHead(s, v, k);
      HandIs(s, k, TakeFree(p, s.mem), p.free, bytes, d, s');
    } else {
      CarveIsNew(s, v, k);
      HandIs(s, k, Counted(p), CarvePtr(p, s.mem), bytes, d, s');
    }
  }

  /** A chunk nobody holds has no block. */
  lemma NewChunkNew(s: State, v: View, p: Ptr)
    requires Geometry(s.mm.base, v) && s.log.Keys == v.at.Keys && v.home.Keys == s.mm.held.Keys
    requires p !in s.mm.held && M.IsChunk(s.mm.base, p)
    ensures p + POOL_HEADER !in s.log
  {
    var b := p + POOL_HEADER;
    if b in v.at {
      BlockInside(s.mm.base, v, b);
      var q := v.at[b].chunk;
      if p < q { M.ChunksApart(s.mm.base, p, q); } else { M.ChunksApart(s.mm.base, q, p); }
    }
  }

  lemma CarvedFirst(pool: CPool, m: Mem, p: Ptr)
    requires p + M.CHUNK_SIZE < WORD
    ensures CarvePtr(Installed(pool, p), InstallMem(pool, m, p)) == p + POOL_HEADER
  {
    var m1 := Write64(m, CurrOf(p), p + POOL_HEADER);
    Write64Spec(m, CurrOf(p), p + POOL_HEADER);
    ReadOutside(m1, InstallMem(pool, m, p), p, p + 8, CurrOf(p));
  }

  lemma AllocNewHands(s: State, v: View, t: Tid, s': State)
    requires Structure(s, v) && Contents(s, v) && PhasesOk(s)
    requires t in s.phase && t in s.mm.pc && AllocNewStep(s, t, s') && s.mm.pc[t].p != 0
    requires var p := s.mm.pc[t].p; p !in s.mm.held && M.IsChunk(s.mm.base, p) && p + M.CHUNK_SIZE < WORD
    ensures CountedHand(s, (t, s.phase[t].cls), s.phase[t].bytes, s.phase[t].debug, s')
  {
    var k := (t, s.phase[t].cls);
    var p := s.mm.pc[t].p;
    FetchFacts(s, t);
    NewChunkNew(s, v, p);
    CarvedFirst(s.pools[k], s.mem, p);
    assert s'.pools == s.pools[k := Counted(Installed(s.pools[k], p))];
    assert s'.log == s.log[p + POOL_HEADER := Live(s.phase[t].bytes, s.phase[t].debug)];
  }

  lemma HandCounts(s: State, ts: seq<Tid>, cls: nat, k: Key, bytes: nat, d: Debug, s': State)
    requires Counts(s.pools, s.log, ts, cls) && L.NoDup(ts) && k.0 in ts && CountedHand(s, k, bytes, d, s')
    ensures Counts(s'.pools, s'.log, ts, cls)
  {
    var b: Ptr, p: CPool :| (b in s.log ==> s.log[b].Freed?) && p.inUse == Inc(s.pools[k].inUse)
                  && s'.pools == s.pools[k := p] && s'.log == s.log[b := Live(bytes, d)];
    CountUp(s.pools, s.log, ts, cls, k, p, b, Live(bytes, d));
  }

  lemma DeallocCounts(s: State, v: View, t: Tid, u: Ptr, s': State, ts: seq<Tid>, cls: nat)
    requires Counts(s.pools, s.log, ts, cls) && L.NoDup(ts) && t in ts
    requires LivesOk(s.mem, s.log, v) && DeallocStep(s, t, u, s')
    ensures Counts(s'.pools, s'.log, ts, cls)
  {
    var b: Ptr := HeaderOf(u);
    FreeChecksPass(s, v, b);
    var k := (t, ClassOf(TotalSize(s.log[b].bytes)));
    CountDown(s.pools, s.log, ts, cls, k, GaveBack(s.pools[k], b), b, Freed(t));
  }

  lemma ReturnCounts(s: State, v: View, t: Tid, s': State, ts: seq<Tid>, cls: nat)
    requires Counts(s.pools, s.log, ts, cls) && L.NoDup(ts)
    requires LeavesOk(s.mm.held, s.phase, s.log, v) && t in s.phase && ReturnChunkStep(s, t, s')
    ensures Counts(s'.pools, s'.log, ts, cls)
  {
    var k := (t, s.phase[t].classes[0]);
    var p := s.pools[k].head;
    assert p in s.mm.held && s.mm.held[p] == t;
    CountSame(s.pools, s.log, ts, cls, k, Unlinked(s.pools[k], s.mem), s'.log);
  }

  lemma OtherCounts(s: State, t: Tid, lbl: Label, s': State)
    requires Next(s, t, lbl, s') && !lbl.AllocLocal? && !lbl.AllocNew? && !lbl.Dealloc? && !lbl.ReturnChunk?
    ensures s'.pools == s.pools && s'.log == s.log
  {
  }

  lemma ThreadsStay(s: State, t: Tid, lbl: Label, s': State)
    requires Next(s, t, lbl, s')
    ensures s'.phase.Keys == s.phase.Keys
  {
  }

  /** Steps with this label keep the count. */
  ghost predicate CountKeptBy(lbl: Label, ts: seq<Tid>, cls: nat) {
    forall s, a, v, t, s' | Inv(s, a, v) && t in ts && Counts(s.pools, s.log, ts, cls) && Next(s, t, lbl, s') ::
      Counts(s'.pools, s'.log, ts, cls)
  }

  lemma AllocLocalCounts(s: State, a: L.Abs, v: View, t: Tid, bytes: nat, d: Debug, s': State, ts: seq<Tid>, cls: nat)
    requires Inv(s, a, v) && Next(s, t, AllocLocal(bytes, d), s')
    requires Counts(s.pools, s.log, ts, cls) && L.NoDup(ts) && t in ts
    ensures Counts(s'.pools, s'.log, ts, cls)
  {
    AllocLocalHands(s, v, t, bytes, d, s');
    HandCounts(s, ts, cls, (t, ClassOf(TotalSize(bytes))), bytes, d, s');
  }

  lemma AllocNewCounts(s: State, a: L.Abs, v: View, t: Tid, s': State, ts: seq<Tid>, cls: nat)
    requires Inv(s, a, v) && Next(s, t, AllocNew, s')
    requires Counts(s.pools, s.log, ts, cls) && L.NoDup(ts) && t in ts
    ensures Counts(s'.pools, s'.log, ts, cls)
  {
    if s.mm.pc[t].p != 0 {
      GotChunk(s.mm, Link(s.mem), a, t);
      AllocNewHands(s, v, t, s');
      HandCounts(s, ts, cls, (t, s.phase[t].cls), s.phase[t].bytes, s.phase[t].debug, s');
    }
  }

  lemma HandsCounted(lbl: Label, ts: seq<Tid>, cls: nat)
    requires L.NoDup(ts) && (lbl.AllocLocal? || lbl.AllocNew?)
    ensures CountKeptBy(lbl, ts, cls)
  {
    match lbl
    case AllocLocal(bytes, d) =>
      forall s, a, v, t, s' | Inv(s, a, v) && t in ts && Counts(s.pools, s.log, ts, cls) && Next(s, t, lbl, s')
        ensures Counts(s'.pools, s'.log, ts, cls)
      {
        AllocLocalCounts(s, a, v, t, bytes, d, s', ts, cls);
      }
    case AllocNew =>
      forall s, a, v, t, s' | Inv(s, a, v) && t in ts && Counts(s.pools, s.log, ts, cls) && Next(s, t, lbl, s')
        ensures Counts(s'.pools, s'.log, ts, cls)
      {
        AllocNewCounts(s, a, v, t, s', ts, cls);
      }
  }

  lemma DeallocCase(s: State, a: L.Abs, v: View, t: Tid, u: Ptr, s': State, ts: seq<Tid>, cls: nat)
    requires Inv(s, a, v) && Next(s, t, Dealloc(u), s')
    requires Counts(s.pools, s.log, ts, cls) && L.NoDup(ts) && t in ts
    ensures Counts(s'.pools, s'.log, ts, cls)
  {
    DeallocCounts(s, v, t, u, s', ts, cls);
  }

  lemma ReturnCase(s: State, a: L.Abs, v: View, t: Tid, s': State, ts: seq<Tid>, cls: nat)
    requires Inv(s, a, v) && Next(s, t, ReturnChunk, s')
    requires Counts(s.pools, s.log, ts, cls) && L.NoDup(ts) && t in ts
    ensures Counts(s'.pools, s'.log, ts, cls)
  {
    ReturnCounts(s, v, t, s', ts, cls);
  }

  lemma ReturnsCounted(lbl: Label, ts: seq<Tid>, cls: nat)
    requires L.NoDup(ts) && (lbl.Dealloc? || lbl.ReturnChunk?)
    ensures CountKeptBy(lbl, ts, cls)
  {
    match lbl
    case Dealloc(u) =>
      forall s, a, v, t, s' | Inv(s, a, v) && t in ts && Counts(s.pools, s.log, ts, cls) && Next(s, t, lbl, s')
        ensures Counts(s'.pools, s'.log, ts, cls)
      {
        DeallocCase(s, a, v, t, u, s', ts, cls);
      }
    case ReturnChunk =>
      forall s, a, v, t, s' | Inv(s, a, v) && t in ts && Counts(s.pools, s.log, ts, cls) && Next(s, t, lbl, s')
        ensures Counts(s'.pools, s'.log, ts, cls)
      {
        ReturnCase(s, a, v, t, s', ts, cls);
      }
  }

  lemma OthersCounted(lbl: Label, ts: seq<Tid>, cls: nat)
    requires !lbl.AllocLocal? && !lbl.AllocNew? && !lbl.Dealloc? && !lbl.ReturnChunk?
    ensures CountKeptBy(lbl, ts, cls)
  {
    forall s, a, v, t, s' | Inv(s, a, v) && t in ts && Counts(s.pools, s.log, ts, cls) && Next(s, t, lbl, s')
      ensures Counts(s'.pools, s'.log, ts, cls)
    {
      OtherCounts(s, t, lbl, s');
    }
  }

  lemma CountsKept(lbl: Label, ts: seq<Tid>, cls: nat)
    requires L.NoDup(ts)
    ensures CountKeptBy(lbl, ts, cls)
  {
    match lbl
    case AllocLocal(_, _) => HandsCounted(lbl, ts, cls);
    case AllocNew => HandsCounted(lbl, ts, cls);
    case Dealloc(_) => ReturnsCounted(lbl, ts, cls);
    case ReturnChunk => ReturnsCounted(lbl, ts, cls);
    case _ => OthersCounted(lbl, ts, cls);
  }

  /** These are the threads. */
  ghost predicate AreThreads(ts: seq<Tid>, phase: map<Tid, Phase>) {
    forall t :: t in ts <==> t in phase
  }

  /** The threads are those listed, the invariant holds, and the counters agree. */
  ghost predicate CountsHold(s: State, ts: seq<Tid>, cls: nat) {
    Held(s) && Counts(s.pools, s.log, ts, cls) && AreThreads(ts, s.phase)
  }

  lemma CountsStep(s: State, e: Event, s': State, ts: seq<Tid>, cls: nat)
    requires L.NoDup(ts) && CountsHold(s, ts, cls) && Step(s, e, s')
    ensures CountsHold(s', ts, cls)
  {
    StepHeld(s, e, s');
    CountsKept(e.1, ts, cls);
    var a, v :| Inv(s, a, v);
    ThreadsStay(s, e.0, e.1, s');
  }

  lemma {:induction false} NoneInUse(pools: map<Key, CPool>, cls: nat, ts: seq<Tid>)
    requires forall k | k in pools :: pools[k].inUse == 0
    ensures InUse(pools, cls, ts) == 0
  {
    if ts != [] {
      NoneInUse(pools, cls, ts[1..]);
    }
  }

  lemma InitCounts(s: State, ts: seq<Tid>, cls: nat)
    requires Init(s) && AreThreads(ts, s.phase)
    ensures CountsHold(s, ts, cls)
  {
    InitHeld(s);
    NoneInUse(s.pools, cls, ts);
    assert LiveOf(s.log, cls) == {};
  }

  ghost predicate CountsIf(s: State, ts: seq<Tid>, cls: nat) {
    AreThreads(ts, s.phase) ==> CountsHold(s, ts, cls)
  }

  lemma CountsIfStep(s: State, e: Event, s': State, ts: seq<Tid>, cls: nat)
    requires L.NoDup(ts) && CountsIf(s, ts, cls) && Step(s, e, s')
    ensures CountsIf(s', ts, cls)
  {
    ThreadsStay(s, e.0, e.1, s');
    if AreThreads(ts, s.phase) {
      CountsStep(s, e, s', ts, cls);
    }
  }

  lemma HasCounts(s: State, ts: seq<Tid>, cls: nat)
    requires Reached(s) && L.NoDup(ts)
    ensures CountsIf(s, ts, cls)
  {
    var inv := c => CountsIf(c, ts, cls);
    forall c | Init(c) ensures inv(c) { if AreThreads(ts, c.phase) { InitCounts(c, ts, cls); } }
    forall c, e, c' | inv(c) && Step(c, e, c') ensures inv(c') { CountsIfStep(c, e, c', ts, cls); }
    Invariant(Init, Step, inv, s);
  }

  lemma CongMod(x: nat, y: nat)
    requires Cong(x, y)
    ensures x % WORD == y % WORD
  {
  }

  /** `allocated_` of a class, summed over all threads, counts the class's blocks in use, whichever threads freed
      them. */
  lemma CountersCountLiveBlocks(s: State, ts: seq<Tid>, cls: nat)
    requires Reached(s) && L.NoDup(ts) && AreThreads(ts, s.phase)
    ensures InUse(s.pools, cls, ts) % WORD == |LiveOf(s.log, cls)| % WORD
  {
    HasCounts(s, ts, cls);
    CongMod(InUse(s.pools, cls, ts), |LiveOf(s.log, cls)|);
  }
}
