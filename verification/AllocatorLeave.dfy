/**
 How a thread leaves, step by step: whatever the other threads are in the middle
 of, it walks its free lists and hands every chunk it holds back to the stack.
 */
module AllocatorLeave {
  import L = LfStack
  import M = Mmap
  import opened Memory
  import opened SizeClasses
  import opened Pool
  import opened Allocator
  import opened AllocatorInv
  import AllocatorSteps
  import opened AllocatorTheorems
  import opened AllocatorProgress

  /** Steps that hand out no block and take none back. */
  predicate Silent(lbl: Label) {
    !lbl.AllocLocal? && !lbl.AllocNew? && !lbl.Dealloc?
  }

  /** The free stack in memory, of chunks that no pool holds. */
  ghost predicate IsStack(s: State, stack: seq<Ptr>) {
    && L.Chain(stack, Link(s.mem), s.mm.lf.head.ptr) && L.NoDup(stack)
    && forall q | q in stack :: M.IsChunk(s.mm.base, q) && q < WORD && q !in s.mm.held
  }

  /** Chunk q is thread t's to hand back. */
  ghost predicate Owns(s: M.State, t: Tid, q: Ptr) {
    && q in s.held && s.held[q] == t && q in s.lf.client && s.lf.client[q] == t
    && M.IsChunk(s.base, q) && 0 < q < WORD
  }

  /** The word at a is not the first of any chunk. */
  ghost predicate OffLinks(base: Ptr, a: Ptr) {
    forall q: Ptr | M.IsChunk(base, q) :: a + 8 <= q || q + 8 <= a
  }

  /** What is in memory of pool k: a list of its thread's chunks, and a free list of blocks. */
  ghost predicate HasLists(s: State, k: Key, chunks: seq<Ptr>, free: seq<Ptr>) {
    && k in s.pools
    && L.Chain(chunks, Link(s.mem), s.pools[k].head) && L.NoDup(chunks)
    && L.Chain(free, Link(s.mem), s.pools[k].free)
    && (forall q | q in chunks :: Owns(s.mm, k.0, q))
    && (forall b | b in free :: OffLinks(s.mm.base, b))
  }

  // ---------------------------------------------------------------- one chunk goes back

  /** The chunk manager with t at these points of a free_chunk of q, before the push. */
  function Freeing(s: M.State, t: Tid, q: Ptr, pc: M.PC, lpc: L.PC): M.State {
    M.Go(s, t, pc, L.Go(s.lf, t, lpc).(client := s.lf.client - {q})).(held := s.held - {q})
  }

  /** And after the push. */
  function PushedFree(s: M.State, t: Tid, q: Ptr, pc: M.PC, lpc: L.PC): M.State {
    var x := Freeing(s, t, q, pc, lpc);
    x.(lf := x.lf.(head := L.Head(s.lf.head.aba + 1, q)))
  }

  /** And after its count. */
  function CountedFree(s: M.State, t: Tid, q: Ptr, pc: M.PC): M.State {
    PushedFree(s, t, q, pc, L.Idle).(perfDealloc := s.perfDealloc + 1)
  }

  ghost predicate MayFree(s: M.State, t: Tid, q: Ptr) {
    && t in s.pc && s.pc[t] == M.Idle && t in s.lf.pc && s.lf.pc[t] == L.Idle && Owns(s, t, q)
    && s.lf.head.ptr < WORD && forall p | p in s.lf.nodes :: M.IsChunk(s.base, p)
  }

  lemma FreeCalls(s: M.State, l: L.Links, t: Tid, q: Ptr)
    requires MayFree(s, t, q)
    ensures M.Next(s, l, t, M.CallFree(q), Freeing(s, t, q, M.FreePush, L.PushLoad(q, L.Return)), l)
  {
  }

  lemma FreeLoads(s: M.State, l: L.Links, t: Tid, q: Ptr)
    requires MayFree(s, t, q)
    ensures M.Next(Freeing(s, t, q, M.FreePush, L.PushLoad(q, L.Return)), l, t, M.Tau,
                   Freeing(s, t, q, M.FreePush, L.PushWrite(q, s.lf.head, L.Return)), l)
  {
  }

  /** The link is stored, and read back, and no other chunk's. */
  lemma LinkStored(base: Ptr, m: Mem, q: Ptr, v: Ptr)
    requires v < WORD && M.IsChunk(base, q)
    ensures Read64(Write64(m, q, v), q) == v
    ensures forall p: Ptr | M.IsChunk(base, p) && p != q :: Read64(Write64(m, q, v), p) == Read64(m, p)
    ensures forall a: int | a + 8 <= q || q + 8 <= a :: Read64(Write64(m, q, v), a) == Read64(m, a)
  {
    Write64Spec(m, q, v);
    forall a: int | a + 8 <= q || q + 8 <= a ensures Read64(Write64(m, q, v), a) == Read64(m, a) {
      ReadOutside(m, Write64(m, q, v), q, q + 8, a);
    }
    forall p: Ptr | M.IsChunk(base, p) && p != q ensures Read64(Write64(m, q, v), p) == Read64(m, p) {
      M.ChunksApart(base, p, q);
    }
  }

  lemma FreeStores(s: M.State, m: Mem, t: Tid, q: Ptr)
    requires MayFree(s, t, q)
    ensures M.Next(Freeing(s, t, q, M.FreePush, L.PushWrite(q, s.lf.head, L.Return)), Link(m), t, M.Tau,
                   Freeing(s, t, q, M.FreePush, L.PushCas(q, s.lf.head, L.Return)),
                   Link(Write64(m, q, s.lf.head.ptr)))
  {
    LinkStored(s.base, m, q, s.lf.head.ptr);
  }

  lemma FreePushes(s: M.State, l: L.Links, t: Tid, q: Ptr)
    requires MayFree(s, t, q)
    ensures M.Next(Freeing(s, t, q, M.FreePush, L.PushCas(q, s.lf.head, L.Return)), l, t, M.Tau,
                   PushedFree(s, t, q, M.FreePush, L.PushDone), l)
  {
  }

  lemma FreeReturns(s: M.State, l: L.Links, t: Tid, q: Ptr)
    requires MayFree(s, t, q)
    ensures M.Next(PushedFree(s, t, q, M.FreePush, L.PushDone), l, t, M.Tau,
                   PushedFree(s, t, q, M.FreeCount, L.Idle), l)
  {
  }

  lemma FreeCounts(s: M.State, l: L.Links, t: Tid, q: Ptr)
    requires MayFree(s, t, q)
    ensures M.Next(PushedFree(s, t, q, M.FreeCount, L.Idle), l, t, M.Tau, CountedFree(s, t, q, M.FreeDone), l)
    ensures M.Next(CountedFree(s, t, q, M.FreeDone), l, t, M.RetFree, CountedFree(s, t, q, M.Idle), l)
  {
  }

  /** Thread t is in free_chunk with the head chunk of pool k, and this is the chunk manager and memory. */
  function InFree(s: State, t: Tid, k: Key, cs: seq<nat>, mm: M.State, m: Mem): State
    requires k in s.pools
  {
    State(mm, m, s.pools[k := Unlinked(s.pools[k], s.mem)], s.phase[t := Returning(cs)],
          map b | b in s.log && !InChunk(b, s.pools[k].head) :: s.log[b])
  }

  /** After all of free_chunk. */
  function Back(s: State, t: Tid, k: Key, cs: seq<nat>): State
    requires k in s.pools
  {
    var q := s.pools[k].head;
    InFree(s, t, k, cs, CountedFree(s.mm, t, q, M.Idle), Write64(s.mem, q, s.mm.lf.head.ptr))
      .(phase := s.phase[t := Emptying(cs)])
  }

  /** A step of t inside free_chunk that is no store. */
  lemma InsideStep(t: Tid, ok: Label -> bool, s0: State, s: State, k: Key, cs: seq<nat>, m: Mem,
                   x: M.State, y: M.State)
    requires k in s.pools && Path(t, ok, s0, InFree(s, t, k, cs, x, m)) && ok(Chunk)
    requires M.Next(x, Link(m), t, M.Tau, y, Link(m)) && t in x.lf.pc && !x.lf.pc[t].PushWrite?
    ensures Path(t, ok, s0, InFree(s, t, k, cs, y, m))
  {
    PathStep(t, ok, s0, InFree(s, t, k, cs, x, m), Chunk, InFree(s, t, k, cs, y, m));
  }

  /** Thread t, between two calls of free_chunk, empties the pool of the first of these classes. */
  ghost predicate Empties(s: State, t: Tid, cs: seq<nat>) {
    cs != [] && t in s.phase && s.phase[t] == Emptying(cs)
  }

  /** And it has this chunk at the head. */
  ghost predicate HandsOver(s: State, t: Tid, cs: seq<nat>) {
    Empties(s, t, cs) && (t, cs[0]) in s.pools && MayFree(s.mm, t, s.pools[(t, cs[0])].head)
  }

  lemma CallStep(s: State, t: Tid, cs: seq<nat>)
    requires HandsOver(s, t, cs)
    ensures var k := (t, cs[0]); var q := s.pools[k].head;
        Next(s, t, ReturnChunk,
             InFree(s, t, k, cs, Freeing(s.mm, t, q, M.FreePush, L.PushLoad(q, L.Return)), s.mem))
  {
    FreeCalls(s.mm, Link(s.mem), t, s.pools[(t, cs[0])].head);
  }

  lemma StoreStep(s: State, t: Tid, cs: seq<nat>)
    requires HandsOver(s, t, cs)
    ensures var k := (t, cs[0]); var q := s.pools[k].head;
        Next(InFree(s, t, k, cs, Freeing(s.mm, t, q, M.FreePush, L.PushWrite(q, s.mm.lf.head, L.Return)), s.mem),
             t, Chunk,
             InFree(s, t, k, cs, Freeing(s.mm, t, q, M.FreePush, L.PushCas(q, s.mm.lf.head, L.Return)),
                    Write64(s.mem, q, s.mm.lf.head.ptr)))
  {
    FreeStores(s.mm, s.mem, t, s.pools[(t, cs[0])].head);
  }

  lemma HandsHeadBack(t: Tid, ok: Label -> bool, s0: State, s: State, cs: seq<nat>)
    requires Path(t, ok, s0, s) && HandsOver(s, t, cs) && forall lbl | Silent(lbl) :: ok(lbl)
    ensures Path(t, ok, s0, Back(s, t, (t, cs[0]), cs))
  {
    var k := (t, cs[0]);
    var q := s.pools[k].head;
    var m := Write64(s.mem, q, s.mm.lf.head.ptr);
    var x := Freeing(s.mm, t, q, M.FreePush, L.PushLoad(q, L.Return));
    var y := Freeing(s.mm, t, q, M.FreePush, L.PushWrite(q, s.mm.lf.head, L.Return));
    var z := Freeing(s.mm, t, q, M.FreePush, L.PushCas(q, s.mm.lf.head, L.Return));
    CallStep(s, t, cs);
    PathStep(t, ok, s0, s, ReturnChunk, InFree(s, t, k, cs, x, s.mem));
    FreeLoads(s.mm, Link(s.mem), t, q);
    InsideStep(t, ok, s0, s, k, cs, s.mem, x, y);
    StoreStep(s, t, cs);
    PathStep(t, ok, s0, InFree(s, t, k, cs, y, s.mem), Chunk, InFree(s, t, k, cs, z, m));
    PushedBack(t, ok, s0, s, cs, m);
  }

  lemma PushedBack(t: Tid, ok: Label -> bool, s0: State, s: State, cs: seq<nat>, m: Mem)
    requires HandsOver(s, t, cs) && forall lbl | Silent(lbl) :: ok(lbl)
    requires var q := s.pools[(t, cs[0])].head;
        && m == Write64(s.mem, q, s.mm.lf.head.ptr)
        && Path(t, ok, s0, InFree(s, t, (t, cs[0]), cs,
                                  Freeing(s.mm, t, q, M.FreePush, L.PushCas(q, s.mm.lf.head, L.Return)), m))
    ensures Path(t, ok, s0, Back(s, t, (t, cs[0]), cs))
  {
    var k := (t, cs[0]);
    var q := s.pools[k].head;
    var w := PushedFree(s.mm, t, q, M.FreePush, L.PushDone);
    var v := PushedFree(s.mm, t, q, M.FreeCount, L.Idle);
    FreePushes(s.mm, Link(m), t, q);
    InsideStep(t, ok, s0, s, k, cs, m, Freeing(s.mm, t, q, M.FreePush, L.PushCas(q, s.mm.lf.head, L.Return)), w);
    FreeReturns(s.mm, Link(m), t, q);
    InsideStep(t, ok, s0, s, k, cs, m, w, v);
    CountedBack(t, ok, s0, s, cs, m);
  }

  lemma CountedBack(t: Tid, ok: Label -> bool, s0: State, s: State, cs: seq<nat>, m: Mem)
    requires HandsOver(s, t, cs) && forall lbl | Silent(lbl) :: ok(lbl)
    requires var q := s.pools[(t, cs[0])].head;
        && m == Write64(s.mem, q, s.mm.lf.head.ptr)
        && Path(t, ok, s0, InFree(s, t, (t, cs[0]), cs, PushedFree(s.mm, t, q, M.FreeCount, L.Idle), m))
    ensures Path(t, ok, s0, Back(s, t, (t, cs[0]), cs))
  {
    var k := (t, cs[0]);
    var q := s.pools[k].head;
    var u := CountedFree(s.mm, t, q, M.FreeDone);
    FreeCounts(s.mm, Link(m), t, q);
    InsideStep(t, ok, s0, s, k, cs, m, PushedFree(s.mm, t, q, M.FreeCount, L.Idle), u);
    BackStep(s, t, cs, m);
    PathStep(t, ok, s0, InFree(s, t, k, cs, u, m), ChunkReturned, Back(s, t, k, cs));
  }

  lemma BackStep(s: State, t: Tid, cs: seq<nat>, m: Mem)
    requires HandsOver(s, t, cs)
    ensures var k := (t, cs[0]); var q := s.pools[k].head;
        m == Write64(s.mem, q, s.mm.lf.head.ptr) ==>
          Next(InFree(s, t, k, cs, CountedFree(s.mm, t, q, M.FreeDone), m), t, ChunkReturned, Back(s, t, k, cs))
  {
    var k := (t, cs[0]);
    var q := s.pools[k].head;
    FreeCounts(s.mm, Link(m), t, q);
    if m == Write64(s.mem, q, s.mm.lf.head.ptr) {
      var x := InFree(s, t, k, cs, CountedFree(s.mm, t, q, M.FreeDone), m);
      assert s.phase[t := Returning(cs)][t := Emptying(cs)] == s.phase[t := Emptying(cs)];
      assert Back(s, t, k, cs) == x.(mm := CountedFree(s.mm, t, q, M.Idle), phase := x.phase[t := Emptying(cs)]);
      ReturnedStep(x, t, cs, CountedFree(s.mm, t, q, M.Idle));
    }
  }

  lemma ReturnedStep(x: State, t: Tid, cs: seq<nat>, mm: M.State)
    requires t in x.phase && x.phase[t] == Returning(cs)
    requires M.Next(x.mm, Link(x.mem), t, M.RetFree, mm, Link(x.mem))
    ensures Next(x, t, ChunkReturned, x.(mm := mm, phase := x.phase[t := Emptying(cs)]))
  {
  }

  // ---------------------------------------------------------------- what handing chunks back leaves alone

  ghost predicate ManagerBack(s: M.State, r: M.State, got: seq<Ptr>) {
    && r.pc == s.pc && r.lf.pc == s.lf.pc && r.base == s.base && r.head == s.head && r.lf.nodes == s.lf.nodes
    && (forall q :: q in r.held <==> q in s.held && q !in got)
    && (forall q | q in r.held :: r.held[q] == s.held[q])
    && (forall q :: q in r.lf.client <==> q in s.lf.client && q !in got)
    && (forall q | q in r.lf.client :: r.lf.client[q] == s.lf.client[q])
  }

  ghost predicate OthersAlone(s: State, t: Tid, r: State) {
    && r.phase.Keys == s.phase.Keys && (forall u | u in s.phase && u != t :: r.phase[u] == s.phase[u])
    && r.pools.Keys == s.pools.Keys && (forall k | k in s.pools && k.0 != t :: r.pools[k] == s.pools[k])
  }

  ghost predicate LinksBack(base: Ptr, m: Mem, m': Mem, got: seq<Ptr>) {
    && (forall a: Ptr | OffLinks(base, a) :: Read64(m', a) == Read64(m, a))
    && (forall q: Ptr | M.IsChunk(base, q) && q !in got :: Read64(m', q) == Read64(m, q))
  }

  ghost predicate LogBack(log: map<Ptr, BlockState>, log': map<Ptr, BlockState>, got: seq<Ptr>) {
    forall b | b in log' :: b in log && log'[b] == log[b] && forall q | q in got :: !InChunk(b, q)
  }

  /** From s to r thread t has done nothing but move on and hand these chunks back. */
  ghost predicate HandedBack(s: State, t: Tid, r: State, got: seq<Ptr>) {
    && ManagerBack(s.mm, r.mm, got) && OthersAlone(s, t, r)
    && LinksBack(s.mm.base, s.mem, r.mem, got) && LogBack(s.log, r.log, got)
  }

  lemma HandedJoin(s: State, t: Tid, x: State, r: State, got: seq<Ptr>, more: seq<Ptr>)
    requires HandedBack(s, t, x, got) && HandedBack(x, t, r, more)
    ensures HandedBack(s, t, r, more + got)
  {
  }

  /** A change of t's phase alone. */
  lemma PhaseBack(s: State, t: Tid, ph: Phase)
    requires t in s.phase
    ensures HandedBack(s, t, s.(phase := s.phase[t := ph]), [])
  {
  }

  lemma ChunkBack(s: State, t: Tid, cs: seq<nat>)
    requires HandsOver(s, t, cs)
    ensures HandedBack(s, t, Back(s, t, (t, cs[0]), cs), [s.pools[(t, cs[0])].head])
  {
    LinkStored(s.mm.base, s.mem, s.pools[(t, cs[0])].head, s.mm.lf.head.ptr);
  }

  lemma StackBack(s: State, t: Tid, cs: seq<nat>, stack: seq<Ptr>)
    requires HandsOver(s, t, cs) && IsStack(s, stack)
    ensures IsStack(Back(s, t, (t, cs[0]), cs), [s.pools[(t, cs[0])].head] + stack)
  {
    var q := s.pools[(t, cs[0])].head;
    var r := Back(s, t, (t, cs[0]), cs);
    LinkStored(s.mm.base, s.mem, q, s.mm.lf.head.ptr);
    L.ChainFrame(stack, Link(s.mem), Link(r.mem), s.mm.lf.head.ptr);
    L.Cons(q, stack);
    assert ([q] + stack)[1..] == stack;
  }

  /** The lists of a pool that t has not touched. */
  lemma ListsBack(s: State, t: Tid, r: State, got: seq<Ptr>, k: Key, chunks: seq<Ptr>, free: seq<Ptr>)
    requires HasLists(s, k, chunks, free) && HandedBack(s, t, r, got) && r.pools[k] == s.pools[k]
    requires forall q | q in chunks :: q !in got
    ensures HasLists(r, k, chunks, free)
  {
    L.ChainFrame(chunks, Link(s.mem), Link(r.mem), s.pools[k].head);
    L.ChainFrame(free, Link(s.mem), Link(r.mem), s.pools[k].free);
  }

  lemma TailChain(s: seq<Ptr>, l: L.Links, p: Ptr)
    requires L.Chain(s, l, p) && L.NoDup(s) && s != []
    ensures s[0] == p && L.Chain(s[1..], l, l(p)) && L.NoDup(s[1..]) && p !in s[1..]
    ensures forall q | q in s[1..] :: q in s
  {
    L.Cons(p, s[1..]);
    assert s == [p] + s[1..];
  }

  /** The lists of the pool whose head t has handed back. */
  lemma OwnListsBack(s: State, t: Tid, cs: seq<nat>, chunks: seq<Ptr>, free: seq<Ptr>)
    requires HandsOver(s, t, cs) && HasLists(s, (t, cs[0]), chunks, free) && chunks != []
    requires HandedBack(s, t, Back(s, t, (t, cs[0]), cs), [chunks[0]])
    ensures HasLists(Back(s, t, (t, cs[0]), cs), (t, cs[0]), chunks[1..], free)
  {
    var k := (t, cs[0]);
    var r := Back(s, t, k, cs);
    TailChain(chunks, Link(s.mem), s.pools[k].head);
    L.ChainFrame(chunks[1..], Link(s.mem), Link(r.mem), Read64(s.mem, s.pools[k].head));
    L.ChainFrame(free, Link(s.mem), Link(r.mem), s.pools[k].free);
  }

  // ---------------------------------------------------------------- the loops of deinit

  /** Thread t is outside the chunk manager. */
  ghost predicate Outside(s: M.State, t: Tid) {
    && t in s.pc && s.pc[t] == M.Idle && t in s.lf.pc && s.lf.pc[t] == L.Idle
    && forall p | p in s.lf.nodes :: M.IsChunk(s.base, p)
  }

  /** Thread t is at the first pool of its remaining classes, with these lists, and this is the free stack. */
  ghost predicate AtPool(s: State, t: Tid, cs: seq<nat>, chunks: seq<Ptr>, free: seq<Ptr>, stack: seq<Ptr>) {
    Empties(s, t, cs) && Outside(s.mm, t) && HasLists(s, (t, cs[0]), chunks, free) && IsStack(s, stack)
  }

  lemma MayHandOver(s: State, t: Tid, cs: seq<nat>, chunks: seq<Ptr>, free: seq<Ptr>, stack: seq<Ptr>)
    requires AtPool(s, t, cs, chunks, free, stack) && chunks != []
    ensures HandsOver(s, t, cs) && s.pools[(t, cs[0])].head == chunks[0]
  {
    assert chunks[0] in chunks;
    assert stack != [] ==> stack[0] in stack;
  }

  lemma OneBack(s: State, t: Tid, cs: seq<nat>, chunks: seq<Ptr>, free: seq<Ptr>, stack: seq<Ptr>)
    requires AtPool(s, t, cs, chunks, free, stack) && chunks != []
    ensures HandsOver(s, t, cs)
    ensures var r := Back(s, t, (t, cs[0]), cs);
        AtPool(r, t, cs, chunks[1..], free, [chunks[0]] + stack) && HandedBack(s, t, r, [chunks[0]])
  {
    MayHandOver(s, t, cs, chunks, free, stack);
    ChunkBack(s, t, cs);
    StackBack(s, t, cs, stack);
    OwnListsBack(s, t, cs, chunks, free);
  }

  ghost predicate OnlyPool(s: State, r: State, k: Key) {
    k in r.pools && r.pools == s.pools[k := r.pools[k]]
  }

  /** From s to r the first n chunks of the list were handed back; the last of them is on top of the stack. */
  ghost predicate Returned(s: State, t: Tid, cs: seq<nat>, chunks: seq<Ptr>, free: seq<Ptr>, stack: seq<Ptr>,
                           n: nat, r: State, got: seq<Ptr>)
    requires cs != []
  {
    && n <= |chunks| && HandedBack(s, t, r, got) && OnlyPool(s, r, (t, cs[0]))
    && AtPool(r, t, cs, chunks[n..], free, got + stack)
    && |got| == n && forall i | 0 <= i < n :: got[i] == chunks[n - 1 - i]
  }

  lemma NoneReturned(s: State, t: Tid, cs: seq<nat>, chunks: seq<Ptr>, free: seq<Ptr>, stack: seq<Ptr>)
    requires AtPool(s, t, cs, chunks, free, stack)
    ensures Returned(s, t, cs, chunks, free, stack, 0, s, [])
  {
    PhaseBack(s, t, s.phase[t]);
    assert s.(phase := s.phase[t := s.phase[t]]) == s && OnlyPool(s, s, (t, cs[0]));
    assert [] + stack == stack && chunks[0..] == chunks;
  }

  lemma OneMoreReturned(s: State, t: Tid, cs: seq<nat>, chunks: seq<Ptr>, free: seq<Ptr>, stack: seq<Ptr>,
                        n: nat, x: State, r: State, more: seq<Ptr>)
    requires cs != [] && chunks != [] && HandedBack(s, t, x, [chunks[0]]) && OnlyPool(s, x, (t, cs[0]))
    requires Returned(x, t, cs, chunks[1..], free, [chunks[0]] + stack, n, r, more)
    ensures Returned(s, t, cs, chunks, free, stack, n + 1, r, more + [chunks[0]])
  {
    HandedJoin(s, t, x, r, [chunks[0]], more);
    assert chunks[1..][n..] == chunks[n + 1..] && more + ([chunks[0]] + stack) == (more + [chunks[0]]) + stack;
  }

  lemma {:induction false} ReturnsChunks(t: Tid, ok: Label -> bool, s0: State, s: State, cs: seq<nat>,
                                         chunks: seq<Ptr>, free: seq<Ptr>, stack: seq<Ptr>, n: nat)
      returns (r: State, got: seq<Ptr>)
    requires Path(t, ok, s0, s) && forall lbl | Silent(lbl) :: ok(lbl)
    requires AtPool(s, t, cs, chunks, free, stack) && n <= |chunks|
    ensures Path(t, ok, s0, r) && Returned(s, t, cs, chunks, free, stack, n, r, got)
    decreases n
  {
    if n == 0 {
      r, got := s, [];
      NoneReturned(s, t, cs, chunks, free, stack);
    } else {
      OneBack(s, t, cs, chunks, free, stack);
      var x := Back(s, t, (t, cs[0]), cs);
      HandsHeadBack(t, ok, s0, s, cs);
      r, got := ReturnsChunks(t, ok, s0, x, cs, chunks[1..], free, [chunks[0]] + stack, n - 1);
      OneMoreReturned(s, t, cs, chunks, free, stack, n - 1, x, r, got);
      got := got + [chunks[0]];
    }
  }

  // ---------------------------------------------------------------- one class, and all of them

  /** Thread t is about to walk the free list of the first of these classes. */
  ghost predicate AtClass(s: State, t: Tid, cs: seq<nat>, chunks: seq<Ptr>, free: seq<Ptr>, stack: seq<Ptr>) {
    && cs != [] && t in s.phase && s.phase[t] == Exiting(cs) && Outside(s.mm, t)
    && HasLists(s, (t, cs[0]), chunks, free) && IsStack(s, stack)
  }

  lemma Walks(t: Tid, ok: Label -> bool, s0: State, s: State, cs: seq<nat>,
              chunks: seq<Ptr>, free: seq<Ptr>, stack: seq<Ptr>) returns (r: State)
    requires Path(t, ok, s0, s) && (forall lbl | Silent(lbl) :: ok(lbl)) && AtClass(s, t, cs, chunks, free, stack)
    ensures Path(t, ok, s0, r) && r == s.(phase := s.phase[t := Emptying(cs)])
    ensures AtPool(r, t, cs, chunks, free, stack)
  {
    r := s.(phase := s.phase[t := Emptying(cs)]);
    assert Next(s, t, CountFree(|free|), r);
    PathStep(t, ok, s0, s, CountFree(|free|), r);
  }

  lemma Proceeds(t: Tid, ok: Label -> bool, s0: State, s: State, cs: seq<nat>, free: seq<Ptr>, stack: seq<Ptr>)
      returns (r: State)
    requires Path(t, ok, s0, s) && (forall lbl | Silent(lbl) :: ok(lbl)) && AtPool(s, t, cs, [], free, stack)
    ensures Path(t, ok, s0, r) && r == s.(phase := s.phase[t := Exiting(cs[1..])])
  {
    r := s.(phase := s.phase[t := Exiting(cs[1..])]);
    assert s.pools[(t, cs[0])].head == 0;
    PathStep(t, ok, s0, s, NextClass, r);
  }

  /** From s to r thread t has done with the first of these classes. */
  ghost predicate ClassLeft(s: State, t: Tid, cs: seq<nat>, chunks: seq<Ptr>, stack: seq<Ptr>, r: State, got: seq<Ptr>)
    requires cs != []
  {
    && t in s.phase && r.phase == s.phase[t := Exiting(cs[1..])] && Outside(r.mm, t)
    && HandedBack(s, t, r, got) && OnlyPool(s, r, (t, cs[0])) && IsStack(r, got + stack)
    && forall q :: q in got <==> q in chunks
  }

  lemma LeavesClass(t: Tid, ok: Label -> bool, s0: State, s: State, cs: seq<nat>,
                    chunks: seq<Ptr>, free: seq<Ptr>, stack: seq<Ptr>) returns (r: State, got: seq<Ptr>)
    requires Path(t, ok, s0, s) && (forall lbl | Silent(lbl) :: ok(lbl)) && AtClass(s, t, cs, chunks, free, stack)
    ensures Path(t, ok, s0, r) && ClassLeft(s, t, cs, chunks, stack, r, got)
  {
    var x := Walks(t, ok, s0, s, cs, chunks, free, stack);
    var y;
    y, got := ReturnsChunks(t, ok, s0, x, cs, chunks, free, stack, |chunks|);
    assert chunks[|chunks|..] == [];
    r := Proceeds(t, ok, s0, y, cs, free, got + stack);
    ClassJoin(s, t, cs, chunks, free, stack, x, y, r, got);
  }

  lemma ClassJoin(s: State, t: Tid, cs: seq<nat>, chunks: seq<Ptr>, free: seq<Ptr>, stack: seq<Ptr>,
                  x: State, y: State, r: State, got: seq<Ptr>)
    requires cs != [] && t in s.phase && x == s.(phase := s.phase[t := Emptying(cs)])
    requires Returned(x, t, cs, chunks, free, stack, |chunks|, y, got)
    requires r == y.(phase := y.phase[t := Exiting(cs[1..])])
    ensures ClassLeft(s, t, cs, chunks, stack, r, got)
  {
    PhaseBack(s, t, Emptying(cs));
    HandedJoin(s, t, x, y, [], got);
    PhaseBack(y, t, Exiting(cs[1..]));
    HandedJoin(s, t, y, r, got + [], []);
    assert got + [] == got && [] + got == got;
    forall q ensures q in got <==> q in chunks { Mirrored(got, chunks, q); }
    assert r.phase == s.phase[t := Exiting(cs[1..])];
  }

  lemma Mirrored(s: seq<Ptr>, r: seq<Ptr>, q: Ptr)
    requires |s| == |r| && forall i | 0 <= i < |s| :: s[i] == r[|s| - 1 - i]
    ensures q in s <==> q in r
  {
    if q in r {
      var i :| 0 <= i < |r| && r[i] == q;
      assert s[|s| - 1 - i] == q;
    }
  }

  /** The lists of t's pools of these classes are those of the view. */
  ghost predicate AllLists(s: State, t: Tid, cs: seq<nat>, v: View) {
    forall c | c in cs ::
      && (t, c) in v.chunks && (t, c) in v.frees && HasLists(s, (t, c), v.chunks[(t, c)], v.frees[(t, c)])
      && forall q | q in v.chunks[(t, c)] :: q in v.home && v.home[q] == (t, c)
  }

  lemma OtherClasses(s: State, t: Tid, cs: seq<nat>, v: View, r: State, got: seq<Ptr>)
    requires cs != [] && AllLists(s, t, cs, v) && L.NoDup(cs) && HandedBack(s, t, r, got) && OnlyPool(s, r, (t, cs[0]))
    requires (t, cs[0]) in v.chunks && forall q :: q in got <==> q in v.chunks[(t, cs[0])]
    ensures AllLists(r, t, cs[1..], v)
  {
    forall c | c in cs[1..]
      ensures (t, c) in v.chunks && (t, c) in v.frees && HasLists(r, (t, c), v.chunks[(t, c)], v.frees[(t, c)])
      ensures forall q | q in v.chunks[(t, c)] :: q in v.home && v.home[q] == (t, c)
    {
      assert c in cs && c != cs[0] && cs[0] in cs;
      ListsBack(s, t, r, got, (t, c), v.chunks[(t, c)], v.frees[(t, c)]);
    }
  }

  /** These are the chunks of t's pools of these classes. */
  ghost predicate OfClasses(got: seq<Ptr>, t: Tid, cs: seq<nat>, v: View) {
    forall q :: q in got <==> exists c :: c in cs && (t, c) in v.chunks && q in v.chunks[(t, c)]
  }

  lemma OfClassesJoin(had: seq<Ptr>, got: seq<Ptr>, t: Tid, cs: seq<nat>, v: View)
    requires cs != [] && (t, cs[0]) in v.chunks && forall q :: q in had <==> q in v.chunks[(t, cs[0])]
    requires OfClasses(got, t, cs[1..], v)
    ensures OfClasses(got + had, t, cs, v)
  {
    assert forall c :: c in cs <==> c == cs[0] || c in cs[1..];
  }

  /** Where t is after the pools of these classes. */
  ghost predicate Ended(s: State, t: Tid, cs: seq<nat>, v: View, stack: seq<Ptr>, r: State, got: seq<Ptr>) {
    && t in s.phase && r.phase == s.phase[t := Exiting([])] && Outside(r.mm, t)
    && IsStack(r, got + stack) && OfClasses(got, t, cs, v)
  }

  /** From s to r thread t has handed back the chunks of these classes. */
  ghost predicate AllLeft(s: State, t: Tid, cs: seq<nat>, v: View, stack: seq<Ptr>, r: State, got: seq<Ptr>) {
    Ended(s, t, cs, v, stack, r, got) && HandedBack(s, t, r, got)
  }

  lemma EndedJoin(s: State, t: Tid, cs: seq<nat>, v: View, stack: seq<Ptr>, x: State, had: seq<Ptr>,
                  r: State, got: seq<Ptr>)
    requires cs != [] && (t, cs[0]) in v.chunks && forall q :: q in had <==> q in v.chunks[(t, cs[0])]
    requires t in s.phase && x.phase == s.phase[t := Exiting(cs[1..])]
    requires Ended(x, t, cs[1..], v, had + stack, r, got)
    ensures Ended(s, t, cs, v, stack, r, got + had)
  {
    assert got + (had + stack) == (got + had) + stack;
    assert r.phase == s.phase[t := Exiting([])];
    OfClassesJoin(had, got, t, cs, v);
  }

  lemma {:induction false} LeavesAll(t: Tid, ok: Label -> bool, s0: State, s: State, cs: seq<nat>, v: View,
                                     stack: seq<Ptr>) returns (r: State, got: seq<Ptr>)
    requires Path(t, ok, s0, s) && forall lbl | Silent(lbl) :: ok(lbl)
    requires t in s.phase && s.phase[t] == Exiting(cs) && Outside(s.mm, t) && L.NoDup(cs)
    requires AllLists(s, t, cs, v) && IsStack(s, stack)
    ensures Path(t, ok, s0, r) && AllLeft(s, t, cs, v, stack, r, got)
    decreases |cs|
  {
    if cs == [] {
      r, got := s, [];
      PhaseBack(s, t, Exiting([]));
      assert s.phase[t := Exiting([])] == s.phase && [] + stack == stack;
    } else {
      assert cs[0] in cs;
      var x, had := LeavesClass(t, ok, s0, s, cs, v.chunks[(t, cs[0])], v.frees[(t, cs[0])], stack);
      OtherClasses(s, t, cs, v, x, had);
      NoDupTail(cs);
      r, got := LeavesAll(t, ok, s0, x, cs[1..], v, had + stack);
      EndedJoin(s, t, cs, v, stack, x, had, r, got);
      HandedJoin(s, t, x, r, had, got);
      got := got + had;
    }
  }

  lemma NoDupTail(cs: seq<nat>)
    requires L.NoDup(cs) && cs != []
    ensures L.NoDup(cs[1..])
  {
  }

  // ---------------------------------------------------------------- from every reachable state

  lemma StackHere(s: State, a: L.Abs)
    requires L.R(s.mm.lf, Link(s.mem), a) && M.Holdings(s.mm) && M.Frontier(s.mm)
    ensures IsStack(s, a.stack)
  {
    forall q | q in a.stack ensures M.IsChunk(s.mm.base, q) && q < WORD && q !in s.mm.held {
      assert q in s.mm.lf.nodes;
      assert q in a.home && a.home[q] == L.InStack;
    }
  }

  lemma OutsideHere(s: State, t: Tid)
    requires PhasesOk(s) && M.Phases(s.mm) && M.Frontier(s.mm) && t in s.phase && s.phase[t] == Idle
    ensures Outside(s.mm, t)
  {
  }

  lemma OwnsHere(s: State, v: View, k: Key, q: Ptr)
    requires Structure(s, v) && M.Holdings(s.mm) && k in v.chunks && q in v.chunks[k]
    ensures Owns(s.mm, k.0, q) && q in v.home && v.home[q] == k
  {
  }

  lemma OffLinksHere(s: State, v: View, b: Ptr)
    requires Geometry(s.mm.base, v) && b in v.at
    ensures OffLinks(s.mm.base, b)
  {
    forall q: Ptr | M.IsChunk(s.mm.base, q) ensures b + 8 <= q || q + 8 <= b {
      BlockApartFromHeader(s.mm.base, v, b, q);
      BlockInside(s.mm.base, v, b);
    }
  }

  lemma ListsHere(s: State, v: View, k: Key)
    requires Structure(s, v) && Contents(s, v) && M.Holdings(s.mm) && k in s.pools
    requires k.0 in s.phase && Keeps(s.phase[k.0], k.1)
    ensures k in v.chunks && k in v.frees && HasLists(s, k, v.chunks[k], v.frees[k])
    ensures forall q | q in v.chunks[k] :: q in v.home && v.home[q] == k
  {
    assert FreeListOk(s.mem, k, s.pools[k], v.frees[k], s.log, v);
    forall q | q in v.chunks[k] ensures Owns(s.mm, k.0, q) && q in v.home && v.home[q] == k { OwnsHere(s, v, k, q); }
    forall b | b in v.frees[k] ensures OffLinks(s.mm.base, b) { OffLinksHere(s, v, b); }
  }

  lemma AllListsHere(s: State, v: View, t: Tid)
    requires Structure(s, v) && Contents(s, v) && PhasesOk(s) && M.Holdings(s.mm)
    requires t in s.phase && s.phase[t] == Idle
    ensures AllLists(s, t, CLASSES, v)
  {
    forall c | c in CLASSES
      ensures (t, c) in v.chunks && (t, c) in v.frees && HasLists(s, (t, c), v.chunks[(t, c)], v.frees[(t, c)])
      ensures forall q | q in v.chunks[(t, c)] :: q in v.home && v.home[q] == (t, c)
    {
      var i :| 0 <= i < |CLASSES| && CLASSES[i] == c;
      ClassInList(0, i);
      ListsHere(s, v, (t, c));
    }
  }

  /** Thread t holds the chunks of its pools. */
  ghost predicate HoldsItsOwn(held: map<Ptr, Tid>, t: Tid, v: View) {
    forall q :: q in held && held[q] == t <==>
                exists c :: c in CLASSES && (t, c) in v.chunks && q in v.chunks[(t, c)]
  }

  /** What a thread that may leave, or leaves without asking, starts from. */
  ghost predicate ReadyToLeave(s: State, t: Tid, v: View, stack: seq<Ptr>) {
    Outside(s.mm, t) && AllLists(s, t, CLASSES, v) && IsStack(s, stack) && HoldsItsOwn(s.mm.held, t, v)
  }

  lemma HeldOfClass(held: map<Ptr, Tid>, pools: map<Key, CPool>, v: View, t: Tid, q: Ptr)
    requires PoolsOk(held, pools, v) && forall k | k in v.chunks :: k.1 in CLASSES
    ensures q in held && held[q] == t <==> exists c :: c in CLASSES && (t, c) in v.chunks && q in v.chunks[(t, c)]
  {
    if q in held && held[q] == t {
      assert v.home[q] == (t, v.home[q].1);
    }
  }

  lemma HeldOfClasses(s: State, v: View, t: Tid)
    requires PoolsOk(s.mm.held, s.pools, v) && PhasesOk(s)
    ensures HoldsItsOwn(s.mm.held, t, v)
  {
    forall k | k in v.chunks ensures k.1 in CLASSES { AllocatorSteps.AllClasses(s, v, k); }
    forall q ensures q in s.mm.held && s.mm.held[q] == t <==>
                     exists c :: c in CLASSES && (t, c) in v.chunks && q in v.chunks[(t, c)] {
      HeldOfClass(s.mm.held, s.pools, v, t, q);
    }
  }

  lemma IsReady(s: State, t: Tid) returns (v: View, stack: seq<Ptr>)
    requires Reached(s) && t in s.phase && s.phase[t] == Idle
    ensures ReadyToLeave(s, t, v, stack) && Structure(s, v) && s.log.Keys == v.at.Keys
    ensures HeadersOk(s.mem, s.pools, v) && PhasesOk(s)
  {
    HasInv(s);
    var a;
    a, v :| Inv(s, a, v);
    stack := a.stack;
    ReadyByInv(s, t, a, v);
  }

  lemma ReadyByInv(s: State, t: Tid, a: L.Abs, v: View)
    requires L.R(s.mm.lf, Link(s.mem), a) && M.Holdings(s.mm) && M.Phases(s.mm) && M.Frontier(s.mm)
    requires Structure(s, v) && Contents(s, v) && PhasesOk(s) && t in s.phase && s.phase[t] == Idle
    ensures ReadyToLeave(s, t, v, a.stack)
  {
    StackHere(s, a);
    OutsideHere(s, t);
    AllListsHere(s, v, t);
    HeldOfClasses(s, v, t);
  }

  /** Starting to leave changes nothing of this. */
  lemma StillReady(s: State, t: Tid, v: View, stack: seq<Ptr>, ph: Phase)
    requires ReadyToLeave(s, t, v, stack) && t in s.phase
    ensures ReadyToLeave(s.(phase := s.phase[t := ph]), t, v, stack)
  {
    var x := s.(phase := s.phase[t := ph]);
    forall c | c in CLASSES
      ensures HasLists(x, (t, c), v.chunks[(t, c)], v.frees[(t, c)])
    {
      assert HasLists(s, (t, c), v.chunks[(t, c)], v.frees[(t, c)]);
    }
  }

  /** From s to r thread t has left, and just the chunks it held are new on the free stack. */
  ghost predicate Departed(s: State, t: Tid, r: State) {
    && t in s.phase && r.phase == s.phase[t := Exited]
    && exists stack, got ::
         && HandedBack(s, t, r, got)
         && (forall q :: q in got <==> q in s.mm.held && s.mm.held[q] == t)
         && L.Chain(stack, Link(s.mem), s.mm.lf.head.ptr)
         && L.Chain(got + stack, Link(r.mem), r.mm.lf.head.ptr) && L.NoDup(got + stack)
  }

  lemma Finishes(t: Tid, ok: Label -> bool, s0: State, s: State, v: View, stack: seq<Ptr>) returns (r: State)
    requires Path(t, ok, s0, s) && forall lbl | Silent(lbl) :: ok(lbl)
    requires t in s.phase && s.phase[t] == Exiting(CLASSES) && ReadyToLeave(s, t, v, stack)
    ensures Path(t, ok, s0, r) && Departed(s, t, r)
  {
    AllocatorSteps.ClassesDistinct();
    var y, got := LeavesAll(t, ok, s0, s, CLASSES, v, stack);
    r := y.(phase := y.phase[t := Exited]);
    PathStep(t, ok, s0, y, ExitDone, r);
    IsDeparted(s, t, v, stack, y, got);
  }

  lemma IsDeparted(s: State, t: Tid, v: View, stack: seq<Ptr>, y: State, got: seq<Ptr>)
    requires ReadyToLeave(s, t, v, stack) && AllLeft(s, t, CLASSES, v, stack, y, got)
    ensures Departed(s, t, y.(phase := y.phase[t := Exited]))
  {
    var r := y.(phase := y.phase[t := Exited]);
    PhaseBack(y, t, Exited);
    HandedJoin(s, t, y, r, got, []);
    assert [] + got == got && r.phase == s.phase[t := Exited];
  }

  lemma DepartedFromIdle(s: State, t: Tid, ph: Phase, r: State)
    requires t in s.phase && Departed(s.(phase := s.phase[t := ph]), t, r)
    ensures Departed(s, t, r)
  {
    var x := s.(phase := s.phase[t := ph]);
    var stack, got :| HandedBack(x, t, r, got)
                      && (forall q :: q in got <==> q in x.mm.held && x.mm.held[q] == t)
                      && L.Chain(stack, Link(x.mem), x.mm.lf.head.ptr)
                      && L.Chain(got + stack, Link(r.mem), r.mm.lf.head.ptr) && L.NoDup(got + stack);
    PhaseBack(s, t, ph);
    HandedJoin(s, t, x, r, [], got);
    assert got + [] == got && r.phase == s.phase[t := Exited];
  }

  /**
   From every reachable state an idle thread that may leave can do so by its own
   steps, whatever the others are in the middle of: it ends up gone, with each
   chunk it held on the free stack, once, and nothing else changed.
   */
  lemma DepartureServed(s: State, t: Tid)
    requires Reached(s) && t in s.phase && s.phase[t] == Idle && MayExit(s, t)
    ensures exists r :: Path(t, Silent, s, r) && Departed(s, t, r)
  {
    var v, stack := IsReady(s, t);
    var x := s.(phase := s.phase[t := Exiting(CLASSES)]);
    StillReady(s, t, v, stack, Exiting(CLASSES));
    PathSelf(t, Silent, s);
    assert Next(s, t, Exit, x);
    PathStep(t, Silent, s, s, Exit, x);
    var r := Finishes(t, Silent, s, x, v, stack);
    DepartedFromIdle(s, t, Exiting(CLASSES), r);
  }

  // ---------------------------------------------------------------- on the way out

  /** From s to r thread t has handed back these chunks; p is the last and on top of the stack. */
  ghost predicate OnTop(s: State, t: Tid, stack: seq<Ptr>, r: State, got: seq<Ptr>, p: Ptr) {
    HandedBack(s, t, r, got) && IsStack(r, got + stack) && got != [] && got[0] == p
  }

  lemma ReturnsUpTo(t: Tid, ok: Label -> bool, s0: State, s: State, cs: seq<nat>, chunks: seq<Ptr>, free: seq<Ptr>,
                    stack: seq<Ptr>, p: Ptr) returns (r: State, got: seq<Ptr>)
    requires Path(t, ok, s0, s) && forall lbl | Silent(lbl) :: ok(lbl)
    requires AtClass(s, t, cs, chunks, free, stack) && p in chunks
    ensures Path(t, ok, s0, r) && OnTop(s, t, stack, r, got, p)
  {
    var x := Walks(t, ok, s0, s, cs, chunks, free, stack);
    var j :| 0 <= j < |chunks| && chunks[j] == p;
    r, got := ReturnsChunks(t, ok, s0, x, cs, chunks, free, stack, j + 1);
    UpToJoin(s, t, cs, chunks, free, stack, x, j, r, got);
  }

  lemma UpToJoin(s: State, t: Tid, cs: seq<nat>, chunks: seq<Ptr>, free: seq<Ptr>, stack: seq<Ptr>, x: State,
                 j: nat, r: State, got: seq<Ptr>)
    requires cs != [] && t in s.phase && x == s.(phase := s.phase[t := Emptying(cs)])
    requires j < |chunks| && Returned(x, t, cs, chunks, free, stack, j + 1, r, got)
    ensures OnTop(s, t, stack, r, got, chunks[j])
  {
    PhaseBack(s, t, Emptying(cs));
    HandedJoin(s, t, x, r, [], got);
    assert got + [] == got;
  }

  lemma OnTopLater(s: State, t: Tid, stack: seq<Ptr>, x: State, had: seq<Ptr>, r: State, got: seq<Ptr>, p: Ptr)
    requires HandedBack(s, t, x, had) && OnTop(x, t, had + stack, r, got, p)
    ensures OnTop(s, t, stack, r, got + had, p)
  {
    HandedJoin(s, t, x, r, had, got);
    assert got + (had + stack) == (got + had) + stack;
  }

  /** A leaving thread comes to hand back each chunk it has left. */
  lemma {:induction false} LeavesTo(t: Tid, ok: Label -> bool, s0: State, s: State, cs: seq<nat>, v: View,
                                    stack: seq<Ptr>, c: nat, p: Ptr) returns (r: State, got: seq<Ptr>)
    requires Path(t, ok, s0, s) && forall lbl | Silent(lbl) :: ok(lbl)
    requires t in s.phase && s.phase[t] == Exiting(cs) && Outside(s.mm, t) && L.NoDup(cs)
    requires AllLists(s, t, cs, v) && IsStack(s, stack)
    requires c in cs && (t, c) in v.chunks && p in v.chunks[(t, c)]
    ensures Path(t, ok, s0, r) && OnTop(s, t, stack, r, got, p)
    decreases |cs|
  {
    assert cs[0] in cs;
    if cs[0] == c {
      r, got := ReturnsUpTo(t, ok, s0, s, cs, v.chunks[(t, c)], v.frees[(t, c)], stack, p);
    } else {
      var x, had := LeavesClass(t, ok, s0, s, cs, v.chunks[(t, cs[0])], v.frees[(t, cs[0])], stack);
      OtherClasses(s, t, cs, v, x, had);
      NoDupTail(cs);
      r, got := LeavesTo(t, ok, s0, x, cs[1..], v, had + stack, c, p);
      OnTopLater(s, t, stack, x, had, r, got, p);
      got := got + had;
    }
  }
}
