/**
 The whole allocator as one machine: any number of threads running np_alloc and
 np_free over one byte-addressed memory, with clients writing into their blocks,
 threads exiting, and chunks going through the shared chunk manager.

 Work on a thread's own pools is one step; accesses to the shared chunk manager
 are the steps of `Mmap`. The links of every list, `pool_curr`, the headers and
 the fences are all words of the one memory.
 */
module Allocator {
  import L = LfStack
  import M = Mmap
  import opened Memory
  import opened SizeClasses
  import opened Blocks
  import opened Pool

  type Tid = L.Tid

  /** A pool is found by its thread and its class. */
  type Key = (Tid, nat)

  datatype Phase =
    | Idle
    | Fetching(cls: nat, bytes: nat, debug: Debug)   // in alloc_chunk, for this request
    | Listing                                        // in np_debug_print
    | Exiting(classes: seq<nat>)                     // with the pools of these classes to destroy
    | Emptying(classes: seq<nat>)                    // the first of them is handing back its chunks
    | Returning(classes: seq<nat>)                   // in free_chunk meanwhile
    | Exited
    | Crashed                                        // an assert failed, or a null chunk was used

  /** The clients' view of a block: in use, with what was asked for and by whom, or last freed by a thread. */
  datatype BlockState = Live(bytes: nat, debug: Debug) | Freed(who: Tid)

  /** `log` is history: what the calls and returns so far say about each block. */
  datatype State = State(
    mm: M.State, mem: Mem, pools: map<Key, CPool>, phase: map<Tid, Phase>, log: map<Ptr, BlockState>)

  datatype Label =
    | AllocLocal(bytes: nat, debug: Debug)
    | AllocFetch(bytes: nat, debug: Debug)
    | AllocNew
    | Dealloc(u: Ptr)
    | ClientWrite(b: Ptr, i: nat, v: byte)
    | Print
    | Printed(count: nat)
    | Exit
    | CountFree(units: nat)
    | ReturnChunk
    | ChunkReturned
    | NextClass
    | ExitDone
    | Chunk

  ghost predicate Init(s: State) {
    && M.Init(s.mm) && s.phase.Keys == s.mm.pc.Keys && s.log == map[]
    && (forall t | t in s.phase :: s.phase[t] == Idle)
    && (forall k :: k in s.pools <==> k.0 in s.phase && IsClass(k.1))
    && (forall k | k in s.pools :: s.pools[k] == CPool(0, 0, 0, 0, 0))
  }

  /** Whether thread t still runs client code. */
  predicate Active(p: Phase) {
    !p.Exiting? && !p.Emptying? && !p.Returning? && !p.Exited?
  }

  /** Whether the thread may still walk its free list of this class. */
  predicate Keeps(p: Phase, cls: nat) {
    match p
    case Exiting(cs) => cls in cs
    case Emptying(cs) => cs != [] && cls in cs[1..]
    case Returning(cs) => cs != [] && cls in cs[1..]
    case Exited => false
    case _ => true
  }

  predicate InChunk(b: Ptr, p: Ptr) {
    p <= b < p + M.CHUNK_SIZE
  }

  /** Memory after a stack step of thread t: `push` stores into the node it pushes. */
  function TauMem(s: State, t: Tid): Mem
    requires t in s.mm.lf.pc
  {
    match s.mm.lf.pc[t]
    case PushWrite(n, curr, _) => Write64(s.mem, n, curr.ptr)
    case _ => s.mem
  }

  /** A block is handed to the client. */
  function Hand(s: State, k: Key, p: CPool, m: Mem, b: Ptr, bytes: nat, d: Debug): State {
    s.(pools := s.pools[k := p], mem := Stamp(m, b, bytes, d), log := s.log[b := Live(bytes, d)])
  }

  /** The part of `alloc` that needs no chunk: from the free list, else from the chunk at the head. */
  ghost predicate AllocLocalStep(s: State, t: Tid, bytes: nat, d: Debug, s': State) {
    TotalSize(bytes) <= MAX_ALLOC && GoodDebug(d) &&
    var cls := ClassOf(TotalSize(bytes));
    var k := (t, cls);
    && k in s.pools
    && var p := s.pools[k];
       if p.free != 0 then s' == Hand(s, k, TakeFree(p, s.mem), s.mem, p.free, bytes, d)
       else
         && HasRoom(p, s.mem, cls)
         && s' == Hand(s, k, Counted(p), CarveMem(p, s.mem, cls), CarvePtr(p, s.mem), bytes, d)
  }

  ghost predicate AllocFetchStep(s: State, t: Tid, bytes: nat, d: Debug, s': State) {
    TotalSize(bytes) <= MAX_ALLOC && GoodDebug(d) &&
    var cls := ClassOf(TotalSize(bytes));
    var k := (t, cls);
    && k in s.pools && s.pools[k].free == 0 && !HasRoom(s.pools[k], s.mem, cls)
    && M.Next(s.mm, Link(s.mem), t, M.CallAlloc, s'.mm, Link(s.mem))
    && s' == s.(mm := s'.mm, phase := s.phase[t := Fetching(cls, bytes, d)])
  }

  /** alloc_chunk returns; the chunk is installed and its first block carved. */
  ghost predicate AllocNewStep(s: State, t: Tid, s': State)
    requires t in s.phase && t in s.mm.pc
  {
    s.phase[t].Fetching? && s.mm.pc[t].AllocDone? &&
    var Fetching(cls, bytes, d) := s.phase[t];
    var chunk := s.mm.pc[t].p;
    var k := (t, cls);
    && k in s.pools && cls > 0
    && M.Next(s.mm, Link(s.mem), t, M.RetAlloc(chunk), s'.mm, Link(s.mem))
    && if chunk == 0 then s' == s.(mm := s'.mm, phase := s.phase[t := Crashed])
       else
         var p := Installed(s.pools[k], chunk);
         var m := InstallMem(s.pools[k], s.mem, chunk);
         s' == Hand(s, k, Counted(p), CarveMem(p, m, cls), CarvePtr(p, m), bytes, d)
               .(mm := s'.mm, phase := s.phase[t := Idle])
  }

  /** `np_free` of a block in use, by any thread. A failing fence assert stops the thread. */
  ghost predicate DeallocStep(s: State, t: Tid, u: Ptr, s': State) {
    u >= UserPtr(0) &&
    var h: Ptr := HeaderOf(u);
    var size := Read64(s.mem, h);
    && h in s.log && s.log[h].Live?
    && if !FencesOk(s.mem, h, size) || TotalSize(size) > MAX_ALLOC then
         s' == s.(phase := s.phase[t := Crashed])
       else
         var k := (t, ClassOf(TotalSize(size)));
         && k in s.pools
         && s' == s.(pools := s.pools[k := GaveBack(s.pools[k], h)],
                     mem := GiveBackMem(s.pools[k], s.mem, h),
                     log := s.log[h := Freed(t)])
  }

  /** A client writes one of the bytes it asked for. */
  ghost predicate ClientWriteStep(s: State, b: Ptr, i: nat, v: byte, s': State) {
    && b in s.log && s.log[b].Live? && i < s.log[b].bytes
    && var x := UserPtr(b) + i;
       s' == s.(mem := y => if y == x then v else s.mem(y))
  }

  /** Block b is on a free list of thread u that u may still walk. */
  ghost predicate Listed(s: State, u: Tid, b: Ptr) {
    exists cls: nat, free ::
      && u in s.phase && Keeps(s.phase[u], cls) && (u, cls) in s.pools
      && L.Chain(free, Link(s.mem), s.pools[(u, cls)].free) && b in free
  }

  /**
   The clients' side of a safe exit: of the blocks ever handed out from a chunk
   that t holds none is in use, or on a list that another thread may still walk.
   */
  ghost predicate MayExit(s: State, t: Tid) {
    forall b, p | b in s.log && p in s.mm.held && s.mm.held[p] == t && InChunk(b, p) ::
      s.log[b].Freed? && forall u | Listed(s, u, b) :: u == t
  }

  /** `deinit` first walks the free list, to its end, counting its units. */
  ghost predicate CountFreeStep(s: State, t: Tid, units: nat, s': State)
    requires t in s.phase
  {
    s.phase[t].Exiting? && s.phase[t].classes != [] &&
    var cs := s.phase[t].classes;
    && (t, cs[0]) in s.pools
    && (exists free :: L.Chain(free, Link(s.mem), s.pools[(t, cs[0])].free) && |free| == units)
    && s' == s.(phase := s.phase[t := Emptying(cs)])
  }

  /** One round of the loop of `deinit`: unlink the head and hand it to free_chunk. */
  ghost predicate ReturnChunkStep(s: State, t: Tid, s': State)
    requires t in s.phase
  {
    s.phase[t].Emptying? && s.phase[t].classes != [] &&
    var cs := s.phase[t].classes;
    var k := (t, cs[0]);
    && k in s.pools
    && var p := s.pools[k].head;
       && p != 0
       && M.Next(s.mm, Link(s.mem), t, M.CallFree(p), s'.mm, Link(s.mem))
       && s' == State(s'.mm, s.mem, s.pools[k := Unlinked(s.pools[k], s.mem)],
                      s.phase[t := Returning(cs)], map b | b in s.log && !InChunk(b, p) :: s.log[b])
  }

  ghost predicate Next(s: State, t: Tid, lbl: Label, s': State) {
    && t in s.phase && t in s.mm.pc && t in s.mm.lf.pc
    && match lbl
       case AllocLocal(bytes, d) => s.phase[t] == Idle && AllocLocalStep(s, t, bytes, d, s')
       case AllocFetch(bytes, d) => s.phase[t] == Idle && AllocFetchStep(s, t, bytes, d, s')
       case AllocNew => AllocNewStep(s, t, s')
       case Dealloc(u) => s.phase[t] == Idle && DeallocStep(s, t, u, s')
       case ClientWrite(b, i, v) => s.phase[t] == Idle && ClientWriteStep(s, b, i, v, s')
       case Print =>
         && s.phase[t] == Idle
         && M.Next(s.mm, Link(s.mem), t, M.CallList, s'.mm, Link(s.mem))
         && s' == s.(mm := s'.mm, phase := s.phase[t := Listing])
       case Printed(count) =>
         && s.phase[t] == Listing
         && M.Next(s.mm, Link(s.mem), t, M.RetList(count), s'.mm, Link(s.mem))
         && s' == s.(mm := s'.mm, phase := s.phase[t := Idle])
       case Exit => s.phase[t] == Idle && MayExit(s, t) && s' == s.(phase := s.phase[t := Exiting(CLASSES)])
       case CountFree(units) => CountFreeStep(s, t, units, s')
       case ReturnChunk => ReturnChunkStep(s, t, s')
       case ChunkReturned =>
         && s.phase[t].Returning?
         && M.Next(s.mm, Link(s.mem), t, M.RetFree, s'.mm, Link(s.mem))
         && s' == s.(mm := s'.mm, phase := s.phase[t := Emptying(s.phase[t].classes)])
       case NextClass =>
         && s.phase[t].Emptying? && s.phase[t].classes != []
         && (t, s.phase[t].classes[0]) in s.pools && s.pools[(t, s.phase[t].classes[0])].head == 0
         && s' == s.(phase := s.phase[t := Exiting(s.phase[t].classes[1..])])
       case ExitDone => s.phase[t] == Exiting([]) && s' == s.(phase := s.phase[t := Exited])
       case Chunk =>
         && (s.phase[t].Fetching? || s.phase[t].Listing? || s.phase[t].Returning?)
         && M.Next(s.mm, Link(s.mem), t, M.Tau, s'.mm, Link(TauMem(s, t)))
         && s' == s.(mm := s'.mm, mem := TauMem(s, t))
  }
}
