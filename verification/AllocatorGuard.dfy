/**
 Why a thread may leave only under the clients' guard, and that the guard asks
 for no more than it must: with it every block is in use at most once, and
 without it some run hands a block out that is in use.
 */
module AllocatorGuard {
  import opened Runs
  import L = LfStack
  import M = Mmap
  import MT = MmapTheorems
  import opened Memory
  import opened SizeClasses
  import opened Blocks
  import opened Pool
  import opened Allocator
  import opened AllocatorInv
  import AllocatorCounts
  import AllocatorReturn
  import AllocatorSteps
  import opened AllocatorTheorems
  import opened AllocatorProgress
  import opened AllocatorLeave
  import opened AllocatorDrain

  /** The machine with the record of each block handed out and not freed since, one entry a hand-out. */
  datatype Watched = Watched(s: State, given: multiset<Ptr>)

  /** The pool a request of this size is served from. */
  function Server(t: Tid, bytes: nat): Key
    requires TotalSize(bytes) <= MAX_ALLOC
  {
    (t, ClassOf(TotalSize(bytes)))
  }

  /** The blocks in clients' hands after a step of t: what it hands out comes in, what it frees goes. */
  function Given(s: State, t: Tid, lbl: Label, given: multiset<Ptr>): multiset<Ptr> {
    match lbl
    case AllocLocal(bytes, _) =>
      if TotalSize(bytes) <= MAX_ALLOC && Server(t, bytes) in s.pools then
        var p := s.pools[Server(t, bytes)];
        given + multiset{if p.free != 0 then p.free else CarvePtr(p, s.mem)}
      else given
    case AllocNew =>
      if t in s.mm.pc && s.mm.pc[t].AllocDone? && s.mm.pc[t].p != 0
         && t in s.phase && s.phase[t].Fetching? && (t, s.phase[t].cls) in s.pools then
        var p := s.pools[(t, s.phase[t].cls)];
        given + multiset{CarvePtr(Installed(p, s.mm.pc[t].p), InstallMem(p, s.mem, s.mm.pc[t].p))}
      else given
    case Dealloc(u) => if u >= UserPtr(0) then given - multiset{HeaderOf(u)} else given
    case _ => given
  }

  ghost predicate Guarded(w: Watched, e: Event, w': Watched) {
    Step(w.s, e, w'.s) && w'.given == Given(w.s, e.0, e.1, w.given)
  }

  /** From w0 some run under the guard comes to w. */
  ghost predicate Leads(w0: Watched, w: Watched) {
    Reachable((x: Watched) => x == w0, Guarded, w)
  }

  lemma LeadsOn(w0: Watched, w: Watched, t: Tid, lbl: Label, s': State) returns (w': Watched)
    requires Leads(w0, w) && Next(w.s, t, lbl, s')
    ensures Leads(w0, w') && w' == Watched(s', Given(w.s, t, lbl, w.given))
  {
    w' := Watched(s', Given(w.s, t, lbl, w.given));
    ReachStep((x: Watched) => x == w0, Guarded, w, (t, lbl), w');
  }

  // ---------------------------------------------------------------- with the guard

  /** Each block in use was handed out once since it was last freed, and every other block not at all. */
  ghost predicate Once(log: map<Ptr, BlockState>, given: multiset<Ptr>) {
    forall b :: given[b] == if b in log && log[b].Live? then 1 else 0
  }

  /** A new block's address is told by the change of the log. */
  lemma OnceGiven(log: map<Ptr, BlockState>, given: multiset<Ptr>, bytes: nat, d: Debug, b: Ptr,
      log': map<Ptr, BlockState>)
    requires Once(log, given) && GivesNew(log, bytes, d, log') && log' == log[b := Live(bytes, d)]
    ensures Once(log', given + multiset{b})
  {
    var c: Ptr :| (c in log ==> log[c].Freed?) && log' == log[c := Live(bytes, d)];
    assert c in log' && log'[c] == Live(bytes, d);
    assert c == b;
  }

  lemma OnceAllocLocal(s: State, given: multiset<Ptr>, t: Tid, bytes: nat, d: Debug, s': State)
    requires Reached(s) && Once(s.log, given) && Next(s, t, AllocLocal(bytes, d), s')
    ensures Once(s'.log, Given(s, t, AllocLocal(bytes, d), given))
  {
    LocalIsNew(s, t, bytes, d, s');
    var p := s.pools[Server(t, bytes)];
    OnceGiven(s.log, given, bytes, d, if p.free != 0 then p.free else CarvePtr(p, s.mem), s'.log);
  }

  lemma OnceAllocNew(s: State, given: multiset<Ptr>, t: Tid, s': State)
    requires Reached(s) && Once(s.log, given) && Next(s, t, AllocNew, s')
    ensures Once(s'.log, Given(s, t, AllocNew, given))
  {
    var chunk := s.mm.pc[t].p;
    if chunk != 0 {
      ArrivalIsNew(s, t, s');
      var p := s.pools[(t, s.phase[t].cls)];
      var b := CarvePtr(Installed(p, chunk), InstallMem(p, s.mem, chunk));
      OnceGiven(s.log, given, s.phase[t].bytes, s.phase[t].debug, b, s'.log);
    }
  }

  lemma OnceDealloc(s: State, given: multiset<Ptr>, t: Tid, u: Ptr, s': State)
    requires Reached(s) && Once(s.log, given) && Next(s, t, Dealloc(u), s')
    ensures Once(s'.log, Given(s, t, Dealloc(u), given))
  {
    var b: Ptr := HeaderOf(u);
    assert UserPtr(b) == u;
    FreeNeverFails(s, t, b, s');
  }

  /** What goes back with a chunk is in nobody's use. */
  lemma ReturnedIsFree(s: State, t: Tid, s': State)
    requires Reached(s) && t in s.phase && ReturnChunkStep(s, t, s')
    ensures forall b :: b in s.log && s.log[b].Live? <==> b in s'.log && s'.log[b].Live?
  {
    var v := Lists(s);
    QuietGoes(s, v, t, s');
  }

  lemma QuietGoes(s: State, v: View, t: Tid, s': State)
    requires LeavesOk(s.mm.held, s.phase, s.log, v) && t in s.phase && ReturnChunkStep(s, t, s')
    ensures forall b :: b in s.log && s.log[b].Live? <==> b in s'.log && s'.log[b].Live?
  {
    var k := (t, s.phase[t].classes[0]);
    assert s.pools[k].head in s.mm.held && s.mm.held[s.pools[k].head] == t;
  }

  lemma OnceStep(w: Watched, e: Event, w': Watched)
    requires Reached(w.s) && Once(w.s.log, w.given) && Guarded(w, e, w')
    ensures Once(w'.s.log, w'.given)
  {
    match e.1
    case AllocLocal(bytes, d) => OnceAllocLocal(w.s, w.given, e.0, bytes, d, w'.s);
    case AllocNew => OnceAllocNew(w.s, w.given, e.0, w'.s);
    case Dealloc(u) => OnceDealloc(w.s, w.given, e.0, u, w'.s);
    case ReturnChunk => ReturnedIsFree(w.s, e.0, w'.s);
    case _ => AllocatorCounts.OtherCounts(w.s, e.0, e.1, w'.s);
  }

  ghost predicate OnceReached(w: Watched) {
    Reached(w.s) && Once(w.s.log, w.given)
  }

  lemma OnceReachedStep(w: Watched, e: Event, w': Watched)
    requires OnceReached(w) && Guarded(w, e, w')
    ensures OnceReached(w')
  {
    ReachStep(Init, Step, w.s, e, w'.s);
    OnceStep(w, e, w');
  }

  lemma OnceFrom(w0: Watched, w: Watched)
    requires OnceReached(w0) && Leads(w0, w)
    ensures OnceReached(w)
  {
    forall w, e, w' | OnceReached(w) && Guarded(w, e, w') ensures OnceReached(w') { OnceReachedStep(w, e, w'); }
    Invariant((x: Watched) => x == w0, Guarded, OnceReached, w);
  }

  /** Under the guard, over every run of every machine, no block is handed out again before it is freed. */
  lemma OnceUnderGuard(s: State, w: Watched, b: Ptr)
    requires Init(s) && Leads(Watched(s, multiset{}), w)
    ensures w.given[b] == if b in w.s.log && w.s.log[b].Live? then 1 else 0
  {
    ReachInit(Init, Step, s);
    OnceFrom(Watched(s, multiset{}), w);
  }

  // ---------------------------------------------------------------- watching one thread's way

  /** The blocks in use, each once. */
  ghost function InUse(log: map<Ptr, BlockState>): multiset<Ptr> {
    multiset(set b | b in log && log[b].Live?)
  }

  lemma InUseOnce(log: map<Ptr, BlockState>)
    ensures Once(log, InUse(log))
  {
  }

  lemma OnceIsInUse(log: map<Ptr, BlockState>, given: multiset<Ptr>)
    requires Once(log, given)
    ensures given == InUse(log)
  {
    InUseOnce(log);
    forall b ensures given[b] == InUse(log)[b] { }
  }

  /** A way that hands out and takes back nothing. */
  lemma LeadsSilently(w0: Watched, w: Watched, t: Tid, r: State)
    requires Leads(w0, w) && Path(t, Silent, w.s, r)
    ensures Leads(w0, Watched(r, w.given))
  {
    var inv := y => Leads(w0, Watched(y, w.given));
    forall lbl | Silent(lbl) ensures KeptAlong(t, inv, lbl) {
      forall y, z | inv(y) && Next(y, t, lbl, z) ensures inv(z) {
        var x := LeadsOn(w0, Watched(y, w.given), t, lbl, z);
      }
    }
    PathKeeps(t, Silent, inv, w.s, r);
  }

  /** Thread t begins to leave, whatever it holds. */
  function Leaving(s: State, t: Tid): State
    requires t in s.phase
  {
    s.(phase := s.phase[t := Exiting(CLASSES)])
  }

  /** The same blocks taken by u, with t on its way out. */
  ghost predicate Beside(w0: Watched, s: State, t: Tid, x: State) {
    && Reached(x) && x.phase == s.phase && t in x.phase
    && Leads(w0, Watched(Leaving(x, t), InUse(x.log)))
  }

  lemma BesideStep(w0: Watched, s: State, t: Tid, u: Tid, bytes: nat, d: Debug, x: State, y: State)
    requires t != u && Beside(w0, s, t, x) && Next(x, u, AllocLocal(bytes, d), y)
    ensures Beside(w0, s, t, y)
  {
    ReachStep(Init, Step, x, (u, AllocLocal(bytes, d)), y);
    InUseOnce(x.log);
    OnceAllocLocal(x, InUse(x.log), u, bytes, d, y);
    OnceIsInUse(y.log, Given(x, u, AllocLocal(bytes, d), InUse(x.log)));
    BesideNext(x, t, u, bytes, d, y);
    var w := LeadsOn(w0, Watched(Leaving(x, t), InUse(x.log)), u, AllocLocal(bytes, d), Leaving(y, t));
  }

  lemma BesideNext(x: State, t: Tid, u: Tid, bytes: nat, d: Debug, y: State)
    requires t != u && t in x.phase && Next(x, u, AllocLocal(bytes, d), y)
    ensures y.phase == x.phase && Next(Leaving(x, t), u, AllocLocal(bytes, d), Leaving(y, t))
    ensures Given(Leaving(x, t), u, AllocLocal(bytes, d), InUse(x.log))
         == Given(x, u, AllocLocal(bytes, d), InUse(x.log))
  {
  }

  lemma LeadsBeside(s: State, t: Tid, u: Tid, r: State)
    requires Reached(s) && t in s.phase && t != u && Path(u, Allots, s, r)
    ensures Beside(Watched(Leaving(s, t), InUse(s.log)), s, t, r)
  {
    var w0 := Watched(Leaving(s, t), InUse(s.log));
    ReachInit((x: Watched) => x == w0, Guarded, w0);
    var inv := x => Beside(w0, s, t, x);
    forall lbl | Allots(lbl) ensures KeptAlong(u, inv, lbl) {
      forall x, y | inv(x) && Next(x, u, lbl, y) ensures inv(y) {
        BesideStep(w0, s, t, u, lbl.bytes, lbl.debug, x, y);
      }
    }
    PathKeeps(u, Allots, inv, s, r);
  }

  // ---------------------------------------------------------------- a chunk that came back is carved again

  /** Thread u, with nothing to do, has carved n slots of chunk p, the current one of its pool, and no free block. */
  ghost predicate Carving(s: State, u: Tid, cls: nat, p: Ptr, n: nat) {
    && AtRest(s, u) && (u, cls) in s.pools && s.pools[(u, cls)].free == 0 && s.pools[(u, cls)].head == p
    && p != 0 && p + M.CHUNK_SIZE < WORD && CarvePtr(s.pools[(u, cls)], s.mem) == Slot(p, cls, n)
  }

  /** Carving block b and stamping it leaves `pool_curr` past it. */
  lemma CarveStamp(m: Mem, p: Ptr, cls: nat, b: Ptr, bytes: nat)
    requires p + POOL_HEADER <= b && b + cls < WORD && TotalSize(bytes) <= cls
    ensures Read64(Stamp(Write64(m, CurrOf(p), b + cls), b, bytes, DEBUG), CurrOf(p)) == b + cls
  {
    var m1 := Write64(m, CurrOf(p), b + cls);
    Write64Spec(m, CurrOf(p), b + cls);
    Stamped(m1, b, bytes, DEBUG);
    ReadOutside(m1, Stamp(m1, b, bytes, DEBUG), b, b + TotalSize(bytes), CurrOf(p));
  }

  predicate HasSlot(cls: nat, i: nat) {
    GoodClass(cls) && i < Cap(cls)
  }

  lemma CarvingState(s: State, u: Tid, cls: nat, bytes: nat, p: Ptr, n: nat)
    requires Carving(s, u, cls, p, n) && HasSlot(cls, n) && TotalSize(bytes) <= cls
    ensures Carving(Allotted(s, (u, cls), bytes, DEBUG), u, cls, p, n + 1)
  {
    SlotInside(p, cls, n);
    CarveStamp(s.mem, p, cls, Slot(p, cls, n), bytes);
  }

  lemma CarvingStep(s: State, u: Tid, cls: nat, bytes: nat, p: Ptr, n: nat)
    requires Carving(s, u, cls, p, n) && HasSlot(cls, n) && Serves(cls, bytes)
    ensures Next(s, u, AllocLocal(bytes, DEBUG), Allotted(s, (u, cls), bytes, DEBUG))
  {
    FreeCountIs(s.pools[(u, cls)], s.mem, cls, n);
    AllottedStep(s, u, cls, bytes);
  }

  lemma CarvingGiven(s: State, u: Tid, cls: nat, bytes: nat, p: Ptr, n: nat, given: multiset<Ptr>)
    requires Carving(s, u, cls, p, n) && Serves(cls, bytes)
    ensures Given(s, u, AllocLocal(bytes, DEBUG), given) == given + multiset{Slot(p, cls, n)}
  {
  }

  /** Block b, and no other, is given once more. */
  ghost predicate OneMoreOf(given: multiset<Ptr>, b: Ptr, given': multiset<Ptr>) {
    given' == given + multiset{b}
  }

  lemma GivenMore(given: multiset<Ptr>, b: Ptr, given': multiset<Ptr>, c: Ptr)
    requires OneMoreOf(given, b, given')
    ensures given'[c] >= given[c] && (b == c ==> given'[c] > given[c])
  {
  }

  lemma CarvesNext(w0: Watched, w: Watched, u: Tid, cls: nat, p: Ptr, n: nat) returns (w': Watched)
    requires Leads(w0, w) && Carving(w.s, u, cls, p, n) && HasSlot(cls, n) && IsServed(cls)
    ensures Leads(w0, w') && Carving(w'.s, u, cls, p, n + 1) && OneMoreOf(w.given, Slot(p, cls, n), w'.given)
  {
    var bytes :| Serves(cls, bytes);
    CarvingStep(w.s, u, cls, bytes, p, n);
    w' := LeadsOn(w0, w, u, AllocLocal(bytes, DEBUG), Allotted(w.s, (u, cls), bytes, DEBUG));
    CarvingGiven(w.s, u, cls, bytes, p, n, w.given);
    CarvingState(w.s, u, cls, bytes, p, n);
  }

  /** Slots n to i, of which the last is b, are handed out, whoever has them. */
  lemma {:induction false} CarvesTo(w0: Watched, w: Watched, u: Tid, cls: nat, p: Ptr, n: nat, i: nat, b: Ptr)
      returns (w': Watched)
    requires Leads(w0, w) && Carving(w.s, u, cls, p, n) && IsServed(cls)
    requires n <= i && HasSlot(cls, n) && HasSlot(cls, i) && b == Slot(p, cls, i)
    ensures Leads(w0, w') && w'.given[b] > w.given[b]
    decreases i - n
  {
    var x := CarvesNext(w0, w, u, cls, p, n);
    GivenMore(w.given, Slot(p, cls, n), x.given, b);
    if n < i {
      w' := CarvesTo(w0, x, u, cls, p, n + 1, i, b);
    } else {
      w' := x;
    }
  }

  /** Chunk p is on top of the free stack, and u, with nothing to do, would need a chunk for this class. */
  ghost predicate Recycled(s: State, u: Tid, cls: nat, p: Ptr) {
    && AtRest(s, u) && PoolEmpty(s, (u, cls)) && s.mm.lf.head.ptr == p
    && p != 0 && p + M.CHUNK_SIZE < WORD
  }

  lemma GetsChunkBack(w0: Watched, w: Watched, u: Tid, cls: nat, bytes: nat, p: Ptr) returns (w': Watched)
    requires Leads(w0, w) && Recycled(w.s, u, cls, p) && Serves(cls, bytes)
    ensures Leads(w0, w') && w'.given == w.given && Got(w'.s, u, w'.s, p)
    ensures w'.s.phase == w.s.phase[u := Fetching(cls, bytes, DEBUG)] && w'.s.pools == w.s.pools
  {
    PathSelf(u, Silent, w.s);
    var x := Fetches(u, Silent, w.s, w.s, bytes, DEBUG);
    var y := PopsChunk(u, Silent, w.s, x);
    LeadsSilently(w0, w, u, y);
    w' := Watched(y, w.given);
  }

  lemma ArrivedCarving(s: State, u: Tid, cls: nat, bytes: nat, p: Ptr)
    requires Got(s, u, s, p) && (u, cls) in s.pools && s.pools[(u, cls)].free == 0 && s.mm.lf.pc[u] == L.Idle
    requires p + M.CHUNK_SIZE < WORD && HasSlot(cls, 0) && TotalSize(bytes) <= cls
    ensures Carving(Arrived(s, u, (u, cls), p, bytes, DEBUG), u, cls, p, 1)
  {
    ArrivedCurr(s, u, cls, bytes, p);
    ArrivedRest(s, u, cls, bytes, p);
  }

  lemma ArrivedRest(s: State, u: Tid, cls: nat, bytes: nat, p: Ptr)
    requires Got(s, u, s, p) && (u, cls) in s.pools && s.mm.lf.pc[u] == L.Idle
    ensures var r := Arrived(s, u, (u, cls), p, bytes, DEBUG);
        && AtRest(r, u) && (u, cls) in r.pools
        && r.pools[(u, cls)].free == s.pools[(u, cls)].free && r.pools[(u, cls)].head == p
  {
  }

  lemma ArrivedMem(s: State, u: Tid, cls: nat, bytes: nat, p: Ptr)
    requires (u, cls) in s.pools && p + M.CHUNK_SIZE < WORD
    ensures var m := InstallMem(s.pools[(u, cls)], s.mem, p);
            Arrived(s, u, (u, cls), p, bytes, DEBUG).mem
              == Stamp(Write64(m, CurrOf(p), p + POOL_HEADER + cls), p + POOL_HEADER, bytes, DEBUG)
  {
    AllocatorCounts.CarvedFirst(s.pools[(u, cls)], s.mem, p);
  }

  lemma ArrivedCurr(s: State, u: Tid, cls: nat, bytes: nat, p: Ptr)
    requires (u, cls) in s.pools && p + M.CHUNK_SIZE < WORD && cls + POOL_HEADER <= M.CHUNK_SIZE
    requires TotalSize(bytes) <= cls
    ensures Read64(Arrived(s, u, (u, cls), p, bytes, DEBUG).mem, CurrOf(p)) == p + POOL_HEADER + cls
  {
    ArrivedMem(s, u, cls, bytes, p);
    CarveStamp(InstallMem(s.pools[(u, cls)], s.mem, p), p, cls, p + POOL_HEADER, bytes);
  }

  lemma ArrivedGiven(s: State, u: Tid, cls: nat, bytes: nat, p: Ptr, given: multiset<Ptr>)
    requires Got(s, u, s, p) && s.phase[u] == Fetching(cls, bytes, DEBUG) && (u, cls) in s.pools
    requires p + M.CHUNK_SIZE < WORD
    ensures Given(s, u, AllocNew, given) == given + multiset{Slot(p, cls, 0)}
  {
    AllocatorCounts.CarvedFirst(s.pools[(u, cls)], s.mem, p);
  }

  lemma ArrivesAgain(w0: Watched, w: Watched, u: Tid, cls: nat, bytes: nat, p: Ptr) returns (w': Watched)
    requires Leads(w0, w) && Got(w.s, u, w.s, p) && w.s.phase[u] == Fetching(cls, bytes, DEBUG)
    requires (u, cls) in w.s.pools && w.s.pools[(u, cls)].free == 0 && w.s.mm.lf.pc[u] == L.Idle
    requires p + M.CHUNK_SIZE < WORD && HasSlot(cls, 0) && TotalSize(bytes) <= cls
    ensures Leads(w0, w') && Carving(w'.s, u, cls, p, 1) && w'.given == w.given + multiset{Slot(p, cls, 0)}
  {
    ArriveStep(w.s, u, cls, bytes, DEBUG, p);
    w' := LeadsOn(w0, w, u, AllocNew, Arrived(w.s, u, (u, cls), p, bytes, DEBUG));
    ArrivedGiven(w.s, u, cls, bytes, p, w.given);
    ArrivedCarving(w.s, u, cls, bytes, p);
  }

  /** The i-th slot of the chunk is handed out again. */
  lemma HandsOutAgain(w0: Watched, w: Watched, u: Tid, cls: nat, p: Ptr, i: nat) returns (w': Watched)
    requires Leads(w0, w) && Recycled(w.s, u, cls, p) && IsServed(cls) && HasSlot(cls, i)
    ensures Leads(w0, w') && w'.given[Slot(p, cls, i)] > w.given[Slot(p, cls, i)]
  {
    var bytes :| Serves(cls, bytes);
    var x := GetsChunkBack(w0, w, u, cls, bytes, p);
    var y := ArrivesAgain(w0, x, u, cls, bytes, p);
    if i == 0 {
      w' := y;
    } else {
      w' := CarvesTo(w0, y, u, cls, p, 1, i, Slot(p, cls, i));
    }
  }

  // ---------------------------------------------------------------- without the guard

  /** Once u has taken all it can, a block that was in use or on its list is in use. */
  lemma DrainedLive(s: State, u: Tid, b: Ptr, r: State)
    requires Reached(s) && Reached(r) && Took(s, u, r) && b in s.log && (s.log[b].Live? || Listed(s, u, b))
    requires u in r.phase && r.phase[u] == Idle && forall c | IsClass(c) :: PoolEmpty(r, (u, c))
    ensures b in r.log && r.log[b].Live?
  {
    if !s.log[b].Live? {
      var v := Lists(s);
      ListedByFreer(s, v, u, b);
      if r.log[b] == Freed(u) {
        FreedOnOneList(r, b);
        var k: Key :| k.0 == u && InChunkOfClass(r, b, k.1) && OnlyOn(r, b, k);
        NothingListed(r, u, b, k);
      }
    }
  }

  lemma NothingListed(r: State, u: Tid, b: Ptr, k: Key)
    requires Reached(r) && k in r.pools && k.0 == u && forall c | IsClass(c) :: PoolEmpty(r, (u, c))
    ensures !OnFreeList(r, b, k)
  {
    var v := Lists(r);
    assert IsClass(k.1) && k == (u, k.1);
    MT.InChainIs([], Link(r.mem), 0, b);
  }

  /** Block b is the i-th slot of chunk p, which is on the list of t's pool of this class. */
  ghost predicate IsSpot(v: View, t: Tid, b: Ptr, p: Ptr, cls: nat, i: nat) {
    && (t, cls) in v.chunks && p in v.chunks[(t, cls)]
    && HasSlot(cls, i) && b == Slot(p, cls, i) && p != 0 && p + M.CHUNK_SIZE < WORD
  }

  lemma SpotOf(s: State, v: View, t: Tid, b: Ptr, p: Ptr) returns (cls: nat, i: nat)
    requires Structure(s, v) && s.log.Keys == v.at.Keys && PhasesOk(s)
    requires b in s.log && p in s.mm.held && s.mm.held[p] == t && InChunk(b, p)
    ensures IsSpot(v, t, b, p, cls, i) && cls in CLASSES && IsClass(cls)
  {
    AllocatorReturn.BlocksOf(s.mm.base, v, p, b);
    cls, i := v.home[p].1, v.at[b].i;
    assert v.home[p] == (t, cls);
    ClassFromList(cls, 0);
  }

  /** With its chunk handed back, everything is ready for u to carve it again. */
  lemma RecycledNow(s: State, t: Tid, u: Tid, cls: nat, stack: seq<Ptr>, r: State, got: seq<Ptr>, p: Ptr)
    requires OnTop(s, t, stack, r, got, p) && t != u && AtRest(s, u) && PoolEmpty(s, (u, cls))
    requires var q := s.pools[(u, cls)].head; q == 0 || M.IsChunk(s.mm.base, q)
    requires p != 0 && p + M.CHUNK_SIZE < WORD
    ensures Recycled(r, u, cls, p)
  {
    var q := s.pools[(u, cls)].head;
    if q != 0 {
      forall c: Ptr | M.IsChunk(s.mm.base, c) ensures CurrOf(q) + 8 <= c || c + 8 <= CurrOf(q) {
        M.ChunksApart(s.mm.base, c, q);
      }
      assert OffLinks(s.mm.base, CurrOf(q));
    }
  }

  lemma HeadOfPool(s: State, v: View, k: Key)
    requires Structure(s, v) && HeadersOk(s.mem, s.pools, v) && k in s.pools
    ensures s.pools[k].head == 0 || M.IsChunk(s.mm.base, s.pools[k].head)
  {
    assert v.chunks[k] != [] ==> v.chunks[k][0] in v.chunks[k];
  }

  /** On its way out, t has chunk p with block b to hand back, and u would need a chunk for blocks of its class. */
  ghost predicate Poised(x: State, t: Tid, u: Tid, v: View, stack: seq<Ptr>, b: Ptr, p: Ptr, cls: nat, i: nat) {
    && t != u && t in x.phase && x.phase[t] == Exiting(CLASSES) && ReadyToLeave(x, t, v, stack)
    && IsSpot(v, t, b, p, cls, i) && cls in CLASSES && IsServed(cls)
    && AtRest(x, u) && PoolEmpty(x, (u, cls))
    && var q := x.pools[(u, cls)].head; q == 0 || M.IsChunk(x.mm.base, q)
  }

  lemma GetsPoised(s: State, t: Tid, u: Tid, b: Ptr, p: Ptr)
      returns (v: View, stack: seq<Ptr>, cls: nat, i: nat)
    requires Reached(s) && t in s.phase && s.phase[t] == Idle && u in s.phase && s.phase[u] == Idle && t != u
    requires forall c | IsClass(c) :: PoolEmpty(s, (u, c))
    requires b in s.log && p in s.mm.held && s.mm.held[p] == t && InChunk(b, p)
    ensures Poised(Leaving(s, t), t, u, v, stack, b, p, cls, i)
  {
    v, stack := IsReady(s, t);
    cls, i := SpotOf(s, v, t, b, p);
    RestHere(s, u, cls);
    HeadOfPool(s, v, (u, cls));
    FullSize(cls);
    PoisedNow(s, t, u, v, stack, b, p, cls, i);
  }

  lemma PoisedNow(s: State, t: Tid, u: Tid, v: View, stack: seq<Ptr>, b: Ptr, p: Ptr, cls: nat, i: nat)
    requires t in s.phase && t != u && ReadyToLeave(s, t, v, stack) && IsSpot(v, t, b, p, cls, i)
    requires cls in CLASSES && IsServed(cls) && AtRest(s, u) && PoolEmpty(s, (u, cls))
    requires var q := s.pools[(u, cls)].head; q == 0 || M.IsChunk(s.mm.base, q)
    ensures Poised(Leaving(s, t), t, u, v, stack, b, p, cls, i)
  {
    StillReady(s, t, v, stack, Exiting(CLASSES));
  }

  /** From here t hands back the chunk of a block in use, and u is given the block again. */
  lemma FromDrained(w0: Watched, s: State, t: Tid, u: Tid, b: Ptr, p: Ptr) returns (w: Watched)
    requires Reached(s) && t in s.phase && s.phase[t] == Idle && u in s.phase && s.phase[u] == Idle && t != u
    requires Leads(w0, Watched(Leaving(s, t), InUse(s.log))) && forall c | IsClass(c) :: PoolEmpty(s, (u, c))
    requires b in s.log && s.log[b].Live? && p in s.mm.held && s.mm.held[p] == t && InChunk(b, p)
    ensures Leads(w0, w) && w.given[b] >= 2
  {
    var v, stack, cls, i := GetsPoised(s, t, u, b, p);
    InUseOnce(s.log);
    w := FromReady(w0, Watched(Leaving(s, t), InUse(s.log)), t, u, v, stack, b, p, cls, i);
  }

  lemma FromReady(w0: Watched, x: Watched, t: Tid, u: Tid, v: View, stack: seq<Ptr>, b: Ptr, p: Ptr,
                  cls: nat, i: nat) returns (w: Watched)
    requires Leads(w0, x) && Poised(x.s, t, u, v, stack, b, p, cls, i)
    ensures Leads(w0, w) && w.given[b] > x.given[b]
  {
    AllocatorSteps.ClassesDistinct();
    PathSelf(t, Silent, x.s);
    var r, got := LeavesTo(t, Silent, x.s, x.s, CLASSES, v, stack, cls, p);
    LeadsSilently(w0, x, t, r);
    RecycledNow(x.s, t, u, cls, stack, r, got, p);
    w := HandsOutAgain(w0, Watched(r, x.given), u, cls, p, i);
  }

  /**
   From every reachable state: if an idle thread t leaves while one of its chunks
   has a block that is in use, or on the list of another idle thread u, then some
   run that keeps to all other rules hands that block out while it is in use.
   */
  lemma LeavesInUse(s: State, t: Tid, u: Tid, b: Ptr, p: Ptr) returns (w: Watched)
    requires Reached(s) && t in s.phase && s.phase[t] == Idle && u in s.phase && s.phase[u] == Idle && t != u
    requires b in s.log && (s.log[b].Live? || Listed(s, u, b))
    requires p in s.mm.held && s.mm.held[p] == t && InChunk(b, p)
    ensures Leads(Watched(Leaving(s, t), InUse(s.log)), w) && w.given[b] >= 2
  {
    var r := Drains(u, s);
    LeadsBeside(s, t, u, r);
    DrainedLive(s, u, b, r);
    w := FromDrained(Watched(Leaving(s, t), InUse(s.log)), r, t, u, b, p);
  }

  lemma LeavingReached(s: State, t: Tid)
    requires Reached(s) && t in s.phase && s.phase[t] == Idle && MayExit(s, t)
    ensures Reached(Leaving(s, t))
  {
    var v := Parts(s);
    assert Next(s, t, Exit, Leaving(s, t));
    ReachStep(Init, Step, s, (t, Exit), Leaving(s, t));
  }

  /** Under the guard the thread leaves as in any guarded run. */
  lemma LeavesSafely(s: State, t: Tid, w: Watched, b: Ptr)
    requires Reached(s) && t in s.phase && s.phase[t] == Idle && MayExit(s, t)
    requires Leads(Watched(Leaving(s, t), InUse(s.log)), w)
    ensures w.given[b] <= 1
  {
    LeavingReached(s, t);
    InUseOnce(s.log);
    OnceFrom(Watched(Leaving(s, t), InUse(s.log)), w);
  }

  /** Each thread is running client code outside the allocator, or gone. */
  ghost predicate AllOutside(s: State) {
    forall x | x in s.phase :: s.phase[x] == Idle || s.phase[x] == Exited
  }

  /** What the guard forbids, with another idle thread to show why. */
  lemma WhatIsForbidden(s: State, t: Tid, u: Tid) returns (x: Tid, b: Ptr, p: Ptr)
    requires AllOutside(s) && u in s.phase && s.phase[u] == Idle && u != t && !MayExit(s, t)
    ensures b in s.log && p in s.mm.held && s.mm.held[p] == t && InChunk(b, p) && x != t
    ensures x in s.phase && s.phase[x] == Idle && (s.log[b].Live? || Listed(s, x, b))
  {
    b, p :| b in s.log && p in s.mm.held && s.mm.held[p] == t && InChunk(b, p)
            && !(s.log[b].Freed? && forall u | Listed(s, u, b) :: u == t);
    if s.log[b].Live? {
      x := u;
    } else {
      x :| Listed(s, x, b) && x != t;
    }
  }

  /**
   The guard is exact: with every thread outside the allocator or gone, t may
   leave if and only if no run from there, which keeps to all rules from then on,
   hands a block out twice without a free in between.
   */
  lemma GuardIsExact(s: State, t: Tid, u: Tid)
    requires Reached(s) && AllOutside(s) && t in s.phase && s.phase[t] == Idle
    requires u in s.phase && s.phase[u] == Idle && u != t
    ensures MayExit(s, t) <==> forall w, b | Leads(Watched(Leaving(s, t), InUse(s.log)), w) :: w.given[b] <= 1
  {
    if MayExit(s, t) {
      forall w, b | Leads(Watched(Leaving(s, t), InUse(s.log)), w) ensures w.given[b] <= 1 {
        LeavesSafely(s, t, w, b);
      }
    } else {
      var x, b, p := WhatIsForbidden(s, t, u);
      var w := LeavesInUse(s, t, x, b, p);
    }
  }

  // ---------------------------------------------------------------- on every machine

  /** As under the guard, but a thread leaves whenever it likes: what the source does. */
  ghost predicate Loose(w: Watched, e: Event, w': Watched) {
    || Guarded(w, e, w')
    || (e.1 == Exit && e.0 in w.s.phase && w.s.phase[e.0] == Idle && w' == Watched(Leaving(w.s, e.0), w.given))
  }

  ghost predicate LooselyLeads(w0: Watched, w: Watched) {
    Reachable((x: Watched) => x == w0, Loose, w)
  }

  lemma LooselyOn(w0: Watched, x: Watched, w: Watched)
    requires LooselyLeads(w0, x) && Leads(x, w)
    ensures LooselyLeads(w0, w)
  {
    var from := y => LooselyLeads(w0, y);
    forall y, e, z | from(y) && Guarded(y, e, z) ensures from(z) {
      ReachStep((y: Watched) => y == w0, Loose, y, e, z);
    }
    Invariant((y: Watched) => y == x, Guarded, from, w);
  }

  /** What a watch on thread t's own steps finds, from s on. */
  ghost predicate WatchedOn(s: State, t: Tid, x: State) {
    && Reached(x) && Leads(Watched(s, multiset{}), Watched(x, InUse(x.log)))
    && forall q | q in x.mm.held :: x.mm.held[q] == t
  }

  /** A step of t adds to the held chunks only its own. */
  lemma HeldByOne(x: State, t: Tid, lbl: Label, y: State)
    requires Next(x, t, lbl, y)
    ensures forall q | q in y.mm.held :: y.mm.held[q] == t || (q in x.mm.held && y.mm.held[q] == x.mm.held[q])
  {
    match lbl
    case AllocFetch(_, _) => AllocatorSteps.ManagerShape(x.mm, Link(x.mem), t, M.CallAlloc, y.mm, Link(x.mem));
    case AllocNew => HeldNew(x, t, y);
    case Print => AllocatorSteps.ManagerShape(x.mm, Link(x.mem), t, M.CallList, y.mm, Link(x.mem));
    case Printed(n) => AllocatorSteps.ManagerShape(x.mm, Link(x.mem), t, M.RetList(n), y.mm, Link(x.mem));
    case ReturnChunk => HeldReturn(x, t, y);
    case ChunkReturned => AllocatorSteps.ManagerShape(x.mm, Link(x.mem), t, M.RetFree, y.mm, Link(x.mem));
    case Chunk => AllocatorSteps.ManagerShape(x.mm, Link(x.mem), t, M.Tau, y.mm, Link(TauMem(x, t)));
    case _ => assert y.mm == x.mm;
  }

  lemma HeldNew(x: State, t: Tid, y: State)
    requires Next(x, t, AllocNew, y)
    ensures forall q | q in y.mm.held :: y.mm.held[q] == t || (q in x.mm.held && y.mm.held[q] == x.mm.held[q])
  {
  }

  lemma HeldReturn(x: State, t: Tid, y: State)
    requires Next(x, t, ReturnChunk, y)
    ensures forall q | q in y.mm.held :: q in x.mm.held && y.mm.held[q] == x.mm.held[q]
  {
  }

  lemma WatchedStep(s: State, t: Tid, x: State, lbl: Label, y: State)
    requires WatchedOn(s, t, x) && Next(x, t, lbl, y)
    ensures WatchedOn(s, t, y)
  {
    HeldByOne(x, t, lbl, y);
    ReachStep(Init, Step, x, (t, lbl), y);
    InUseOnce(x.log);
    var w := LeadsOn(Watched(s, multiset{}), Watched(x, InUse(x.log)), t, lbl, y);
    OnceStep(Watched(x, InUse(x.log)), (t, lbl), w);
    OnceIsInUse(y.log, w.given);
  }

  lemma WatchedAlong(s: State, t: Tid, ok: Label -> bool, r: State)
    requires Init(s) && Path(t, ok, s, r)
    ensures WatchedOn(s, t, r)
  {
    ReachInit(Init, Step, s);
    ReachInit((x: Watched) => x == Watched(s, multiset{}), Guarded, Watched(s, multiset{}));
    assert InUse(s.log) == multiset{};
    var inv := x => WatchedOn(s, t, x);
    forall lbl | ok(lbl) ensures KeptAlong(t, inv, lbl) {
      forall x, y | inv(x) && Next(x, t, lbl, y) ensures inv(y) { WatchedStep(s, t, x, lbl, y); }
    }
    PathKeeps(t, ok, inv, s, r);
  }

  /** On a fresh machine with a reservation thread t is given a block, in a chunk of its own. */
  lemma FirstBlock(s: State, t: Tid) returns (r: State, b: Ptr, p: Ptr)
    requires Init(s) && s.mm.base != 0 && t in s.phase
    ensures WatchedOn(s, t, r) && r.phase == s.phase
    ensures b in r.log && r.log[b].Live? && p in r.mm.held && r.mm.held[p] == t && InChunk(b, p)
  {
    ReachInit(Init, Step, s);
    r := Served(s, t, 0, DEBUG);
    WatchedAlong(s, t, ForRequest(0, DEBUG), r);
    b :| r.log == s.log[b := Live(0, DEBUG)];
    assert b in r.log && r.log[b].Live?;
    InsideOneChunk(r, b);
    p :| Inside(r.mm, b, TotalSize(r.log[b].bytes), p);
  }

  /**
   Without the guard, from every initial state with a reservation and two threads
   some run hands a block out twice without a free in between.
   */
  lemma GuardIsNeeded(s: State, t: Tid, u: Tid)
    requires Init(s) && s.mm.base != 0 && t in s.phase && u in s.phase && t != u
    ensures exists w, b :: LooselyLeads(Watched(s, multiset{}), w) && w.given[b] >= 2
  {
    var r, b, p := FirstBlock(s, t);
    var w := LeavesInUse(r, t, u, b, p);
    LeavesLoosely(s, t, r);
    LooselyOn(Watched(s, multiset{}), Watched(Leaving(r, t), InUse(r.log)), w);
  }

  lemma LeavesLoosely(s: State, t: Tid, r: State)
    requires WatchedOn(s, t, r) && t in r.phase && r.phase[t] == Idle
    ensures LooselyLeads(Watched(s, multiset{}), Watched(Leaving(r, t), InUse(r.log)))
  {
    var w0, w := Watched(s, multiset{}), Watched(r, InUse(r.log));
    ReachInit((x: Watched) => x == w0, Loose, w0);
    LooselyOn(w0, w0, w);
    ReachStep((x: Watched) => x == w0, Loose, w, (t, Exit), Watched(Leaving(r, t), InUse(r.log)));
  }

  /** There is such a machine, for each number of threads and each good base. */
  lemma AMachine(ts: set<Tid>, base: Ptr) returns (s: State)
    requires M.GoodBase(base)
    ensures Init(s) && s.mm.base == base && s.phase.Keys == ts
  {
    var lf := L.State(L.Head(0, 0), map t | t in ts :: L.Idle, {}, map[]);
    var mm := M.State(lf, base, base, 0, 0, 0, map t | t in ts :: M.Idle, map[]);
    var keys := set t, i | t in ts && 0 <= i < |CLASSES| :: (t, CLASSES[i]);
    s := State(mm, x => 0, map k | k in keys :: CPool(0, 0, 0, 0, 0), map t | t in ts :: Idle, map[]);
    forall k: Key ensures k in s.pools <==> k.0 in s.phase && IsClass(k.1) { KeysAre(ts, k); }
  }

  lemma KeysAre(ts: set<Tid>, k: Key)
    ensures (exists t, i :: t in ts && 0 <= i < |CLASSES| && k == (t, CLASSES[i])) <==> k.0 in ts && IsClass(k.1)
  {
    if IsClass(k.1) {
      ClassFromList(k.1, 0);
      var i :| 0 <= i < |CLASSES| && CLASSES[i] == k.1;
      assert k == (k.0, CLASSES[i]);
    }
    if t, i :| t in ts && 0 <= i < |CLASSES| && k == (t, CLASSES[i]) {
      ClassInList(0, i);
    }
  }
}
