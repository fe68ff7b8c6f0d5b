/** What holds of the chunk manager in every reachable state and over every run. */
module MmapTheorems {
  import opened Runs
  import L = LfStack
  import Memory
  import LT = LfStackTheorems
  import opened Mmap
  import C = MmapCounters

  datatype Config = Config(s: State, l: Links)

  type Event = (Tid, Label)

  ghost predicate Start(c: Config) {
    Init(c.s)
  }

  ghost predicate Step(c: Config, e: Event, c': Config) {
    Next(c.s, c.l, e.0, e.1, c'.s, c'.l)
  }

  ghost predicate Rel(c: Config, a: L.Abs) {
    C.Inv(c.s, c.l, a)
  }

  ghost predicate AnyAbs(a: L.Abs) {
    true
  }

  ghost predicate AnyStep(a: L.Abs, e: Event, a': L.Abs) {
    true
  }

  ghost predicate Reached(c: Config) {
    Reachable(Start, Step, c)
  }

  lemma OneStep(c: Config, e: Event, c': Config, a: L.Abs) returns (a': L.Abs)
    requires Rel(c, a) && Step(c, e, c')
    ensures Rel(c', a')
  {
    C.StackFacts(c.s.lf, c.l, a, e.0);
    IsStackStep(c.s, c.l, e.0, e.1, c'.s, c'.l);
    C.InvStep(c.s, c.l, a, e.0, e.1, c'.s, c'.l);
    a' := C.Shadow(c.s, a, e.0, e.1, c'.s);
  }

  lemma InitInv(c: Config) returns (a: L.Abs)
    requires Start(c)
    ensures Rel(c, a)
  {
    a := L.Abs([], map t | t in c.s.pc :: L.AIdle, map[]);
    assert C.BumpsOwed(c.s) == {} && C.FreeSet(a) == {};
    assert C.PopsOwed(c.s, a) == {} && C.PushesOwed(c.s, a) == {};
    assert forall p: Ptr | IsChunk(c.s.base, p) && p < c.s.head :: false;
  }

  lemma HasAbs(c: Config)
    requires Reached(c)
    ensures exists a :: Rel(c, a)
  {
    forall c | Start(c) ensures exists a :: AnyAbs(a) && Rel(c, a) {
      var a := InitInv(c);
      assert AnyAbs(a) && Rel(c, a);
    }
    forall c, e, c', a | Rel(c, a) && Step(c, e, c') ensures exists a' :: Rel(c', a') && AnyStep(a, e, a') {
      var a' := OneStep(c, e, c', a);
      assert Rel(c', a') && AnyStep(a, e, a');
    }
    ReachableRelated(Start, Step, AnyAbs, AnyStep, Rel, c);
  }

  // ---------------------------------------------------------------- the partition of the chunks

  /** The nodes a thread's own operation has in its hands, read off its program point and memory. */
  ghost predicate InOperation(c: Config, t: Tid, p: Ptr)
    requires t in c.s.pc && t in c.s.lf.pc
  {
    || (Mid(c.s.pc[t]) == p && p != 0)
    || match c.s.lf.pc[t]
       case PopDone(r) => r == p && p != 0
       case PushLoad(n, k) => n == p || InRest(k, c.l, p)
       case PushWrite(n, _, k) => n == p || InRest(k, c.l, p)
       case PushCas(n, _, k) => n == p || InRest(k, c.l, p)
       case EachWalk(q, _) => InChain(c.l, q, p)
       case _ => false
  }

  ghost predicate InChain(l: Links, q: Ptr, p: Ptr) {
    exists rest :: L.Chain(rest, l, q) && p in rest
  }

  ghost predicate InRest(k: L.Cont, l: Links, p: Ptr) {
    k.Resume? && InChain(l, k.next, p)
  }

  datatype Place = FreeStack | HeldBy(t: Tid) | InOp(t: Tid)

  ghost predicate IsAt(c: Config, p: Ptr, w: Place) {
    match w
    case FreeStack => InChain(c.l, c.s.lf.head.ptr, p)
    case HeldBy(t) => p in c.s.held && c.s.held[p] == t
    case InOp(t) => t in c.s.pc && t in c.s.lf.pc && InOperation(c, t, p)
  }

  lemma InChainIs(s: seq<Ptr>, l: Links, q: Ptr, p: Ptr)
    requires L.Chain(s, l, q)
    ensures InChain(l, q, p) <==> p in s
  {
    forall rest | L.Chain(rest, l, q) ensures rest == s { LT.ChainUnique(rest, s, l, q); }
  }

  lemma TransitIs(c: Config, a: L.Abs, t: Tid, p: Ptr)
    requires t in c.s.pc && t in c.s.lf.pc && t in a.st && p != 0
    requires L.ThreadOk(c.s.lf.pc[t], a.st[t], c.s.lf, c.l, a.stack)
    ensures InOperation(c, t, p) <==> Mid(c.s.pc[t]) == p || p in L.Transit(a.st[t])
  {
    match a.st[t]
    case AWalk(rest, _) => InChainIs(rest, c.l, c.s.lf.pc[t].ptr, p);
    case AWalkPush(_, rest, _) => InChainIs(rest, c.l, c.s.lf.pc[t].k.next, p);
    case _ =>
  }

  function PlaceOf(c: Config, a: L.Abs, p: Ptr): Place
    requires p in a.home
  {
    match a.home[p]
    case InStack => FreeStack
    case With(t) => InOp(t)
    case Client(t) => if p in c.s.held then HeldBy(t) else InOp(t)
  }

  lemma PlaceIsRight(c: Config, a: L.Abs, p: Ptr, w: Place)
    requires L.R(c.s.lf, c.l, a) && Holdings(c.s) && c.s.lf.pc.Keys == c.s.pc.Keys
    requires p in c.s.lf.nodes
    ensures p in a.home && (IsAt(c, p, w) <==> w == PlaceOf(c, a, p))
  {
    InChainIs(a.stack, c.l, c.s.lf.head.ptr, p);
    if w.InOp? && w.t in c.s.pc {
      C.StackFacts(c.s.lf, c.l, a, w.t);
      TransitIs(c, a, w.t, p);
    }
  }

  /** Every chunk below the bump pointer is in exactly one place: free, held by one caller, or in one thread's hands. */
  lemma Partition(c: Config, p: Ptr)
    requires Reached(c) && IsChunk(c.s.base, p) && p < c.s.head
    ensures exists w :: IsAt(c, p, w) && forall w' | IsAt(c, p, w') :: w' == w
  {
    HasAbs(c);
    var a :| Rel(c, a);
    PlaceExists(c, a, p);
  }

  lemma PlaceExists(c: Config, a: L.Abs, p: Ptr)
    requires L.R(c.s.lf, c.l, a) && Holdings(c.s) && c.s.lf.pc.Keys == c.s.pc.Keys
    requires p in c.s.lf.nodes
    ensures exists w :: IsAt(c, p, w) && forall w' | IsAt(c, p, w') :: w' == w
  {
    forall w ensures p in a.home && (IsAt(c, p, w) <==> w == PlaceOf(c, a, p)) {
      PlaceIsRight(c, a, p, w);
    }
    assert IsAt(c, p, PlaceOf(c, a, p));
  }

  /** Nothing else is ever in circulation: what is held or free is a chunk below the bump pointer. */
  lemma OnlyChunks(c: Config, p: Ptr, w: Place)
    requires Reached(c) && p != 0 && IsAt(c, p, w)
    ensures IsChunk(c.s.base, p) && p < c.s.head <= ChunkPtr(c.s.base, CHUNK_COUNT)
  {
    HasAbs(c);
    var a :| Rel(c, a);
    PlacedIsNode(c, a, p, w);
  }

  lemma PlacedIsNode(c: Config, a: L.Abs, p: Ptr, w: Place)
    requires L.R(c.s.lf, c.l, a) && Holdings(c.s) && c.s.lf.pc.Keys == c.s.pc.Keys
    requires p != 0 && IsAt(c, p, w)
    ensures p in c.s.lf.nodes
  {
    match w
    case FreeStack => InChainIs(a.stack, c.l, c.s.lf.head.ptr, p);
    case HeldBy(t) =>
    case InOp(t) =>
      C.StackFacts(c.s.lf, c.l, a, t);
      TransitIs(c, a, t, p);
  }

  // ---------------------------------------------------------------- nothing the code asks of the stack is refused

  /** A bump whose CAS can succeed brings a chunk the stack has never seen. */
  lemma BumpIsNew(c: Config, t: Tid)
    requires Reached(c) && t in c.s.pc && c.s.pc[t].BumpCas? && c.s.head == c.s.pc[t].cur
    ensures c.s.head != 0 && c.s.head !in c.s.lf.nodes && c.s.pc[t].next == c.s.head + CHUNK_SIZE
  {
    HasAbs(c);
    var a :| Rel(c, a);
  }

  /** A caller frees only what it may push. */
  lemma FreeMayPush(c: Config, t: Tid, p: Ptr)
    requires Reached(c) && t in c.s.pc && c.s.pc[t] == Idle && p in c.s.held && c.s.held[p] == t
    ensures t in c.s.lf.pc && c.s.lf.pc[t] == L.Idle && p in c.s.lf.client && c.s.lf.client[p] == t
  {
    HasAbs(c);
    var a :| Rel(c, a);
  }

  // ---------------------------------------------------------------- bump allocation

  /** Whether p is the address of a chunk of the reservation, or its end. */
  predicate InReservation(base: Ptr, p: Ptr) {
    IsChunk(base, p) && p <= ChunkPtr(base, CHUNK_COUNT)
  }

  /** `get_chunk_index` and `get_chunk_ptr` are inverses on the reservation, and every other 64-bit address has index
      -1 or fails the assert. */
  lemma IndexRoundTrip(base: Ptr, i: nat, p: Ptr)
    requires GoodBase(base) && i <= CHUNK_COUNT && p < Memory.WORD
    ensures InReservation(base, ChunkPtr(base, i)) && ChunkIndex(base, ChunkPtr(base, i)) == i
    ensures ChunkPtr(base, i) == base + i * 0x10_0000
    ensures InReservation(base, p) <==> 0 <= ChunkIndex(base, p) <= CHUNK_COUNT
    ensures InReservation(base, p) ==> ChunkPtr(base, ChunkIndex(base, p)) == p
    ensures ChunkIndex(base, p) == -1 <==> (p - base) % CHUNK_SIZE != 0
  {
    assert (ChunkPtr(base, i) - base) % Memory.WORD == i * CHUNK_SIZE;
    Wraps(base, p);
  }

  /** The difference of two addresses in 64-bit arithmetic. */
  lemma Wraps(base: Ptr, p: Ptr)
    requires base < Memory.WORD && p < Memory.WORD
    ensures (p - base) % Memory.WORD == if base <= p then p - base else p - base + Memory.WORD
    ensures (p - base) % Memory.WORD % CHUNK_SIZE == (p - base) % CHUNK_SIZE
  {
    assert Memory.WORD == 0x1000_0000_0000 * CHUNK_SIZE;
  }

  /** The number of bumps that succeeded in a run. */
  ghost function Bumps(cs: seq<Config>): nat {
    if |cs| < 2 then 0
    else Bumps(cs[..|cs| - 1]) + if cs[|cs| - 1].s.head != cs[|cs| - 2].s.head then 1 else 0
  }

  lemma HeadStep(c: Config, e: Event, c': Config)
    requires Reached(c) && Step(c, e, c')
    ensures c'.s.base == c.s.base
    ensures c'.s.head == c.s.head || c'.s.head == c.s.head + CHUNK_SIZE
    ensures c'.s.head != c.s.head ==> c'.s.pc[e.0] == BumpGot(c.s.head)
  {
    HasAbs(c);
    var a :| Rel(c, a);
    Shape(c.s, c.l, e.0, e.1, c'.s, c'.l);
    assert BumpOk(c.s, c.s.pc[e.0]);
  }

  /** Thread t has just bumped the pointer. */
  ghost predicate BumpBy(c: Config, t: Tid, c': Config) {
    t in c'.s.pc && c'.s.pc[t] == BumpGot(c.s.head)
  }

  lemma LastHeadStep(cs: seq<Config>, evs: seq<Event>, n: nat)
    requires Run(Start, Step, cs, evs) && n == |evs| - 1
    ensures cs[n + 1].s.base == cs[n].s.base
    ensures cs[n + 1].s.head == cs[n].s.head || cs[n + 1].s.head == cs[n].s.head + CHUNK_SIZE
    ensures cs[n + 1].s.head != cs[n].s.head ==> BumpBy(cs[n], evs[n].0, cs[n + 1])
  {
    Prefix(Start, Step, cs, evs, n);
    ReachableByRun(Start, Step, cs[..n + 1], evs[..n]);
    HeadStep(cs[n], evs[n], cs[n + 1]);
  }

  lemma {:induction false} HeadCountsBumps(cs: seq<Config>, evs: seq<Event>)
    requires Run(Start, Step, cs, evs)
    ensures cs[|evs|].s.base == cs[0].s.base
    ensures cs[|evs|].s.head == cs[0].s.base + Bumps(cs) * 0x10_0000
    decreases |evs|
  {
    if evs != [] {
      var n := |evs| - 1;
      Prefix(Start, Step, cs, evs, n);
      HeadCountsBumps(cs[..n + 1], evs[..n]);
      assert cs[..n + 1] == cs[..|cs| - 1] && cs[..n + 1][n] == cs[n];
      LastHeadStep(cs, evs, n);
    }
  }

  lemma HeadInRange(c: Config)
    requires Reached(c)
    ensures GoodBase(c.s.base) && IsChunk(c.s.base, c.s.head) && c.s.head <= ChunkPtr(c.s.base, CHUNK_COUNT)
  {
    HasAbs(c);
    var a :| Rel(c, a);
  }

  lemma {:induction false} HeadGrows(cs: seq<Config>, evs: seq<Event>, j: nat)
    requires Run(Start, Step, cs, evs) && j <= |evs|
    ensures cs[j].s.head <= cs[|evs|].s.head
    decreases |evs|
  {
    if j < |evs| {
      var n := |evs| - 1;
      Prefix(Start, Step, cs, evs, n);
      HeadGrows(cs[..n + 1], evs[..n], j);
      assert cs[..n + 1][n] == cs[n] && cs[..n + 1][j] == cs[j];
      LastHeadStep(cs, evs, n);
    }
  }

  /** No two bumps of a run take the same chunk: what a bump takes is the bump pointer it found. */
  lemma NoChunkBumpedTwice(cs: seq<Config>, evs: seq<Event>, i: nat, j: nat)
    requires Run(Start, Step, cs, evs) && i < j < |evs|
    requires cs[i + 1].s.head != cs[i].s.head && cs[j + 1].s.head != cs[j].s.head
    ensures cs[i].s.head != cs[j].s.head
  {
    Prefix(Start, Step, cs, evs, i + 1);
    LastHeadStep(cs[..i + 2], evs[..i + 1], i);
    assert cs[..i + 2][i + 1] == cs[i + 1] && cs[..i + 2][i] == cs[i];
    Prefix(Start, Step, cs, evs, j);
    HeadGrows(cs[..j + 1], evs[..j], i + 1);
    assert cs[..j + 1][i + 1] == cs[i + 1] && cs[..j + 1][j] == cs[j];
  }

  /** Across all interleavings the k-th successful bump takes the chunk of index k - 1. */
  lemma KthBump(cs: seq<Config>, evs: seq<Event>)
    requires Run(Start, Step, cs, evs) && evs != []
    requires cs[|evs|].s.head != cs[|evs| - 1].s.head
    ensures var base := cs[0].s.base; var k := Bumps(cs); var t := evs[|evs| - 1].0;
            && 1 <= k <= 4096
            && t in cs[|evs|].s.pc && cs[|evs|].s.pc[t] == BumpGot(base + (k - 1) * 0x10_0000)
            && ChunkIndex(base, ChunkPtr(base, k - 1)) == k - 1
  {
    var n := |evs| - 1;
    Prefix(Start, Step, cs, evs, n);
    HeadCountsBumps(cs, evs);
    HeadCountsBumps(cs[..n + 1], evs[..n]);
    assert cs[..n + 1] == cs[..|cs| - 1] && cs[..n + 1][n] == cs[n];
    LastHeadStep(cs, evs, n);
    ReachableByRun(Start, Step, cs, evs);
    HeadInRange(cs[n + 1]);
    KthChunk(cs[0].s.base, Bumps(cs), cs[n + 1].s.head);
  }

  /** The chunk below the k-th boundary of the reservation. */
  lemma KthChunk(base: Ptr, k: nat, head: Ptr)
    requires GoodBase(base) && k > 0 && head == base + k * 0x10_0000 && head <= ChunkPtr(base, CHUNK_COUNT)
    ensures k <= 4096 && ChunkIndex(base, ChunkPtr(base, k - 1)) == k - 1
  {
    IndexRoundTrip(base, k - 1, 0);
  }

  // ---------------------------------------------------------------- the counters

  ghost predicate Quiescent(c: Config) {
    forall t | t in c.s.pc :: c.s.pc[t] == Idle
  }

  function Chunks(base: Ptr, n: nat): set<Ptr> {
    if n == 0 then {} else Chunks(base, n - 1) + {ChunkPtr(base, n - 1)}
  }

  lemma {:induction false} ChunksAre(base: Ptr, n: nat)
    ensures |Chunks(base, n)| == n
    ensures forall p: Ptr :: p in Chunks(base, n) <==> IsChunk(base, p) && p < ChunkPtr(base, n)
  {
    if n > 0 {
      ChunksAre(base, n - 1);
      OneMore(base, n);
      assert ChunkPtr(base, n - 1) !in Chunks(base, n - 1);
    }
  }

  lemma OneMore(base: Ptr, n: nat)
    requires n > 0
    ensures forall p: Ptr | IsChunk(base, p) ::
              p < ChunkPtr(base, n) <==> p < ChunkPtr(base, n - 1) || p == ChunkPtr(base, n - 1)
    ensures IsChunk(base, ChunkPtr(base, n - 1))
  {
    var last := ChunkPtr(base, n - 1);
    assert last == base + (n - 1) * CHUNK_SIZE && ChunkPtr(base, n) == last + CHUNK_SIZE;
    NextChunk(base, last);
  }

  lemma NodeCount(s: State)
    requires Frontier(s)
    ensures |s.lf.nodes| == (s.head - s.base) / CHUNK_SIZE
  {
    ChunksAre(s.base, (s.head - s.base) / CHUNK_SIZE);
    assert s.lf.nodes == Chunks(s.base, (s.head - s.base) / CHUNK_SIZE);
  }

  /** With every thread idle, a chunk is in the stack or held by a caller. */
  lemma QuietSets(c: Config, a: L.Abs)
    requires L.R(c.s.lf, c.l, a) && Phases(c.s) && Holdings(c.s) && Quiescent(c)
    ensures C.FreeSet(a) == LT.ToSet(a.stack) && L.NoDup(a.stack)
    ensures c.s.lf.nodes == LT.ToSet(a.stack) + c.s.held.Keys && LT.ToSet(a.stack) !! c.s.held.Keys
    ensures C.PopsOwed(c.s, a) == {} && C.PushesOwed(c.s, a) == {} && C.BumpsOwed(c.s) == {}
  {
    forall t | t in c.s.pc ensures a.st[t] == L.AIdle {
      C.StackFacts(c.s.lf, c.l, a, t);
    }
    forall p | p in a.home && a.home[p].With? ensures false {
      C.StackFacts(c.s.lf, c.l, a, a.home[p].t);
    }
  }

  lemma Balance(s: State, a: L.Abs)
    requires C.Counted(s, a) && |s.lf.nodes| == (s.head - s.base) / CHUNK_SIZE
    requires C.FreeSet(a) == LT.ToSet(a.stack) && L.NoDup(a.stack)
    requires s.lf.nodes == LT.ToSet(a.stack) + s.held.Keys && LT.ToSet(a.stack) !! s.held.Keys
    requires C.PopsOwed(s, a) == {} && C.PushesOwed(s, a) == {} && C.BumpsOwed(s) == {}
    ensures s.perfAlloc == (s.head - s.base) / CHUNK_SIZE
    ensures |a.stack| == s.perfDealloc - s.perfFromFree
    ensures |s.held.Keys| == s.perfAlloc + s.perfFromFree - s.perfDealloc
  {
    LT.SetOfSeq(a.stack);
  }

  lemma QuietBalance(c: Config) returns (a: L.Abs)
    requires Reached(c) && Quiescent(c)
    ensures L.Chain(a.stack, c.l, c.s.lf.head.ptr)
    ensures c.s.perfAlloc == (c.s.head - c.s.base) / CHUNK_SIZE
    ensures |a.stack| == c.s.perfDealloc - c.s.perfFromFree
    ensures |c.s.held.Keys| == c.s.perfAlloc + c.s.perfFromFree - c.s.perfDealloc
  {
    HasAbs(c);
    a :| Rel(c, a);
    QuietCounts(c, a);
  }

  lemma QuietCounts(c: Config, a: L.Abs)
    requires L.R(c.s.lf, c.l, a) && Phases(c.s) && Holdings(c.s) && Frontier(c.s) && C.Counted(c.s, a) && Quiescent(c)
    ensures c.s.perfAlloc == (c.s.head - c.s.base) / CHUNK_SIZE
    ensures |a.stack| == c.s.perfDealloc - c.s.perfFromFree
    ensures |c.s.held.Keys| == c.s.perfAlloc + c.s.perfFromFree - c.s.perfDealloc
  {
    QuietSets(c, a);
    NodeCount(c.s);
    Balance(c.s, a);
  }

  /** At quiescence the counters tell how many chunks were reserved, are free, and are held. */
  lemma QuietChunks(c: Config, stack: seq<Ptr>)
    requires Reached(c) && Quiescent(c) && L.Chain(stack, c.l, c.s.lf.head.ptr)
    ensures c.s.perfAlloc == (c.s.head - c.s.base) / CHUNK_SIZE
    ensures |stack| == c.s.perfDealloc - c.s.perfFromFree
    ensures |c.s.held.Keys| == c.s.perfAlloc + c.s.perfFromFree - c.s.perfDealloc
  {
    var a := QuietBalance(c);
    LT.ChainUnique(stack, a.stack, c.l, c.s.lf.head.ptr);
  }

  // ---------------------------------------------------------------- the size of the reservation

  /** Every chunk ever handed out by a manager at this base lies inside a reservation of `size` bytes. */
  ghost predicate StaysInside(base: Ptr, size: nat) {
    forall c: Config, p: Ptr | Reached(c) && c.s.base == base && p in c.s.lf.nodes :: p + CHUNK_SIZE <= base + size
  }

  /** What thread t's next step inside alloc_chunk does when its CAS, if it is at one, does not fail spuriously. */
  function Exec(c: Config, t: Tid): Config
    requires t in c.s.pc && t in c.s.lf.pc
  {
    var s := c.s;
    match s.pc[t]
    case Idle => Config(Go(s, t, AllocPop, L.Go(s.lf, t, L.PopLoad)), c.l)
    case AllocPop =>
      (match s.lf.pc[t]
       case PopLoad => Config(s.(lf := L.Go(s.lf, t, L.PopLoaded(s.lf.head))), c.l)
       case PopRead(curr) => Config(s.(lf := L.Go(s.lf, t, L.PopCas(curr, c.l(curr.ptr)))), c.l)
       case PopCas(curr, next) =>
         if s.lf.head != curr then Config(s.(lf := L.Go(s.lf, t, L.PopLoaded(s.lf.head))), c.l)
         else Config(s.(lf := L.Go(s.lf, t, L.PopDone(curr.ptr)).(head := L.Head(curr.aba + 1, next))), c.l)
       case PopDone(r) =>
         if r == 0 then Config(Go(s, t, BumpLoad, L.Go(s.lf, t, L.Idle)), c.l)
         else Config(Go(s, t, AllocGotFree(r), L.Go(s.lf, t, L.Idle).(client := s.lf.client[r := t])), c.l)
       case _ => c)
    case AllocGotFree(p) => Config(Go(s, t, AllocDone(p), s.lf).(perfFromFree := s.perfFromFree + 1), c.l)
    case BumpLoad => Config(Go(s, t, BumpLoaded(s.base, s.head), s.lf), c.l)
    case BumpCas(cur, next) =>
      Config(Go(s, t, BumpGot(cur), s.lf.(nodes := s.lf.nodes + {cur},
        client := s.lf.client[cur := t])).(head := next), c.l)
    case BumpGot(p) => Config(Go(s, t, AllocDone(p), s.lf).(perfAlloc := s.perfAlloc + 1), c.l)
    case AllocDone(p) => Config(Go(s, t, Idle, s.lf).(held := if p == 0 then s.held else s.held[p := t]), c.l)
    case _ => c
  }

  predicate Ready(c: Config, t: Tid)
    requires t in c.s.pc && t in c.s.lf.pc
  {
    match c.s.pc[t]
    case Idle => c.s.lf.pc[t] == L.Idle
    case AllocPop => c.s.lf.pc[t].PopLoad? || c.s.lf.pc[t].PopRead? || c.s.lf.pc[t].PopCas? || c.s.lf.pc[t].PopDone?
    case AllocGotFree(_) => true
    case BumpLoad => true
    case BumpCas(cur, next) => c.s.head == cur && cur != 0 && cur !in c.s.lf.nodes
    case BumpGot(_) => true
    case AllocDone(_) => true
    case _ => false
  }

  function LabelOf(c: Config, t: Tid): Label
    requires t in c.s.pc
  {
    match c.s.pc[t]
    case Idle => CallAlloc
    case AllocDone(p) => RetAlloc(p)
    case _ => Tau
  }

  lemma ExecSteps(c: Config, t: Tid)
    requires t in c.s.pc && t in c.s.lf.pc && Ready(c, t)
    ensures Step(c, (t, LabelOf(c, t)), Exec(c, t))
  {
  }

  lemma ExecReached(c: Config, t: Tid)
    requires Reached(c) && t in c.s.pc && t in c.s.lf.pc && Ready(c, t)
    ensures Reached(Exec(c, t))
  {
    ExecSteps(c, t);
    ReachStep(Start, Step, c, (t, LabelOf(c, t)), Exec(c, t));
  }

  /** One thread alone, with nothing on the free stack, allocates the next chunk. */
  lemma BumpReached(c: Config, t: Tid) returns (d: Config)
    requires Reached(c) && t in c.s.pc && t in c.s.lf.pc && c.s.pc[t] == Idle && c.s.lf.pc[t] == L.Idle
    requires c.s.lf.head.ptr == 0 && 0 < c.s.head < ChunkPtr(c.s.base, CHUNK_COUNT)
    ensures Reached(d) && t in d.s.pc && t in d.s.lf.pc && d.s.pc[t] == Idle && d.s.lf.pc[t] == L.Idle
    ensures d.s.lf.head.ptr == 0 && d.s.head == c.s.head + CHUNK_SIZE && d.s.base == c.s.base
    ensures c.s.head in d.s.lf.nodes
  {
    HeadInRange(c);
    BumpLoadedIs(c.s.base, c.s.head);
    var p := c.s.head;
    d := ToBump(c, t);
    BumpIsNew(d, t);
    ExecReached(d, t);
    d := Exec(d, t);
    ExecReached(d, t);
    d := Exec(d, t);
    ExecReached(d, t);
    d := Exec(d, t);
  }

  lemma ToBump(c: Config, t: Tid) returns (d: Config)
    requires Reached(c) && t in c.s.pc && t in c.s.lf.pc && c.s.pc[t] == Idle && c.s.lf.pc[t] == L.Idle
    requires c.s.lf.head.ptr == 0 && BumpLoaded(c.s.base, c.s.head) == BumpCas(c.s.head, c.s.head + CHUNK_SIZE)
    ensures Reached(d) && t in d.s.pc && t in d.s.lf.pc
    ensures d.s.pc[t] == BumpCas(c.s.head, c.s.head + CHUNK_SIZE) && d.s.lf.pc[t] == L.Idle
    ensures d.s.lf.head == c.s.lf.head && d.s.head == c.s.head && d.s.base == c.s.base
  {
    ExecReached(c, t);
    d := Exec(c, t);
    ExecReached(d, t);
    d := Exec(d, t);
    ExecReached(d, t);
    d := Exec(d, t);
    ExecReached(d, t);
    d := Exec(d, t);
  }

  lemma {:induction false} AllBumpsReached(base: Ptr, k: nat) returns (c: Config)
    requires 0 < base && GoodBase(base) && k <= CHUNK_COUNT
    ensures Reached(c) && 0 in c.s.pc && 0 in c.s.lf.pc && c.s.pc[0] == Idle && c.s.lf.pc[0] == L.Idle
    ensures c.s.lf.head.ptr == 0 && c.s.head == ChunkPtr(base, k) && c.s.base == base
    ensures k > 0 ==> ChunkPtr(base, k - 1) in c.s.lf.nodes
  {
    if k == 0 {
      c := Config(State(L.State(L.Head(0, 0), map[0 := L.Idle], {}, map[]), base, base, 0, 0, 0,
                        map[0 := Idle], map[]), p => 0);
      ReachInit(Start, Step, c);
    } else {
      c := AllBumpsReached(base, k - 1);
      c := BumpReached(c, 0);
    }
  }

  /**
   The bump path checks the constant chunk count, not the size that was
   reserved: it stays inside the reservation in every run exactly when the full
   default size was reserved.
   */
  lemma InsideIffFullyReserved(base: Ptr, size: nat)
    requires 0 < base && GoodBase(base)
    ensures StaysInside(base, size) <==> size >= 0x1_0000_0000
  {
    if size >= CHUNK_COUNT * CHUNK_SIZE {
      forall c: Config, p: Ptr | Reached(c) && c.s.base == base && p in c.s.lf.nodes
        ensures p + CHUNK_SIZE <= base + size
      {
        NodeInRange(c, p);
      }
    } else {
      var c := AllBumpsReached(base, CHUNK_COUNT);
      assert ChunkPtr(base, CHUNK_COUNT - 1) in c.s.lf.nodes;
    }
  }

  lemma NodeInRange(c: Config, p: Ptr)
    requires Reached(c) && p in c.s.lf.nodes
    ensures IsChunk(c.s.base, p) && p + CHUNK_SIZE <= c.s.head <= ChunkPtr(c.s.base, CHUNK_COUNT)
  {
    HasAbs(c);
    var a :| Rel(c, a);
    InFrontier(c.s, p);
  }

  lemma InFrontier(s: State, p: Ptr)
    requires Frontier(s) && p in s.lf.nodes
    ensures IsChunk(s.base, p) && p + CHUNK_SIZE <= s.head <= ChunkPtr(s.base, CHUNK_COUNT)
  {
    NextChunk(s.base, p);
  }
}
