/** np_debug_print completes: whatever the other threads are in the middle of, its own steps visit every chunk of the
    free stack and leave the stack reversed. */
module AllocatorPrint {
  import L = LfStack
  import LT = LfStackTheorems
  import M = Mmap
  import opened Memory
  import opened Allocator
  import opened AllocatorInv
  import opened AllocatorTheorems
  import opened AllocatorProgress
  import opened AllocatorLeave
  import opened AllocatorLive
  import opened SerialStack

  /** The steps of np_debug_print before its return. */
  predicate InPrint(lbl: Label) {
    lbl == Print || lbl == Chunk
  }

  function StackAt(s: L.State, t: Tid, lpc: L.PC, h: L.Head): L.State {
    s.(pc := s.pc[t := lpc], head := h)
  }

  /** Thread t is at this point of count_free_list, and this is the head and memory. */
  function Printing(s: State, t: Tid, lpc: L.PC, h: L.Head, m: Mem): State {
    s.(mm := s.mm.(pc := s.mm.pc[t := M.Listing], lf := StackAt(s.mm.lf, t, lpc, h)),
       phase := s.phase[t := Listing], mem := m)
  }

  // ---------------------------------------------------------------- one step

  /** Thread t's step in the stack's code, from one point to the next. */
  ghost predicate StackMoves(s: State, t: Tid, lpc: L.PC, h: L.Head, m: Mem, lpc': L.PC, h': L.Head)
    requires t in s.mm.lf.pc
  {
    L.Internal(StackAt(s.mm.lf, t, lpc, h), Link(m), t, StackAt(s.mm.lf, t, lpc', h'), Link(MemAfter(m, lpc)))
  }

  lemma StackAtAgain(s: L.State, t: Tid, lpc: L.PC, h: L.Head, lpc': L.PC, h': L.Head)
    ensures StackAt(StackAt(s, t, lpc, h), t, lpc', h') == StackAt(s, t, lpc', h')
  {
    assert s.pc[t := lpc][t := lpc'] == s.pc[t := lpc'];
  }

  lemma PrintStep(s: State, t: Tid, lpc: L.PC, h: L.Head, m: Mem, lpc': L.PC, h': L.Head)
    requires AtRest(s, t) && StackMoves(s, t, lpc, h, m, lpc', h')
    ensures Next(Printing(s, t, lpc, h, m), t, Chunk, Printing(s, t, lpc', h', MemAfter(m, lpc)))
  {
    var x := Printing(s, t, lpc, h, m);
    var y := Printing(s, t, lpc', h', MemAfter(m, lpc));
    assert TauMem(x, t) == MemAfter(m, lpc);
    assert M.Next(x.mm, Link(m), t, M.Tau, y.mm, Link(MemAfter(m, lpc)));
  }

  lemma PrintMoves(t: Tid, s: State, lpc: L.PC, h: L.Head, m: Mem, lpc': L.PC, h': L.Head)
    requires AtRest(s, t) && Path(t, InPrint, s, Printing(s, t, lpc, h, m))
    requires StackMoves(s, t, lpc, h, m, lpc', h')
    ensures Path(t, InPrint, s, Printing(s, t, lpc', h', MemAfter(m, lpc)))
  {
    PrintStep(s, t, lpc, h, m, lpc', h');
    PathStep(t, InPrint, s, Printing(s, t, lpc, h, m), Chunk, Printing(s, t, lpc', h', MemAfter(m, lpc)));
  }

  // ---------------------------------------------------------------- the walk

  /** No byte of the links of these chunks. */
  predicate OffThem(qs: seq<Ptr>, a: int) {
    forall q | q in qs :: a < q || q + 8 <= a
  }

  /** Thread t has visited `seen` and will visit `rest`; the visited chunks are on the stack again, the last one first,
      and no other byte of memory has changed. */
  ghost predicate Midway(s: State, stack: seq<Ptr>, seen: seq<Ptr>, rest: seq<Ptr>, h: L.Head, m: Mem) {
    && stack == seen + rest
    && L.Chain(rest, Link(m), L.Top(rest)) && L.Chain(Reversed(seen), Link(m), h.ptr)
    && h.ptr < WORD && h.aba == s.mm.lf.head.aba + 1 + |seen|
    && forall a: int | OffThem(stack, a) :: m(a) == s.mem(a)
  }

  /** These are different chunks. */
  ghost predicate Chunks(base: Ptr, stack: seq<Ptr>) {
    L.NoDup(stack) && forall q | q in stack :: M.IsChunk(base, q) && 0 < q < WORD
  }

  /** What the walk needs to know of the state it starts in. */
  ghost predicate CanPrint(s: State, t: Tid, stack: seq<Ptr>) {
    && AtRest(s, t) && Chunks(s.mm.base, stack)
    && forall p | p in s.mm.lf.nodes :: M.IsChunk(s.mm.base, p)
  }

  /** One round: read the next link, load the head, store, and push. */
  lemma Round(t: Tid, s: State, stack: seq<Ptr>, seen: seq<Ptr>, rest: seq<Ptr>, h: L.Head, m: Mem)
    requires CanPrint(s, t, stack) && stack == seen + rest && rest != [] && h.ptr < WORD
    requires Path(t, InPrint, s, Printing(s, t, L.EachWalk(rest[0], seen), h, m))
    ensures Path(t, InPrint, s, Printing(s, t, L.EachWalk(Read64(m, rest[0]), seen + [rest[0]]),
                                         L.Head(h.aba + 1, rest[0]), Write64(m, rest[0], h.ptr)))
  {
    var p := rest[0];
    assert p in stack;
    var k := L.Resume(Read64(m, p), seen + [p]);
    WalkMoves(s, t, p, h, seen, m);
    PrintMoves(t, s, L.EachWalk(p, seen), h, m, L.PushLoad(p, k), h);
    LoadMoves(s, t, p, h, k, m);
    PrintMoves(t, s, L.PushLoad(p, k), h, m, L.PushWrite(p, h, k), h);
    StoreMoves(s, t, p, h, k, m);
    PrintMoves(t, s, L.PushWrite(p, h, k), h, m, L.PushCas(p, h, k), h);
    CasMoves(s, t, p, h, k, Write64(m, p, h.ptr));
    PrintMoves(t, s, L.PushCas(p, h, k), h, Write64(m, p, h.ptr), L.PushFinished(k), L.Head(h.aba + 1, p));
  }

  lemma WalkMoves(s: State, t: Tid, p: Ptr, h: L.Head, seen: seq<Ptr>, m: Mem)
    requires t in s.mm.lf.pc && p != 0
    ensures StackMoves(s, t, L.EachWalk(p, seen), h, m, L.PushLoad(p, L.Resume(Read64(m, p), seen + [p])), h)
  {
    StackAtAgain(s.mm.lf, t, L.EachWalk(p, seen), h, L.PushLoad(p, L.Resume(Read64(m, p), seen + [p])), h);
  }

  lemma LoadMoves(s: State, t: Tid, p: Ptr, h: L.Head, k: L.Cont, m: Mem)
    requires t in s.mm.lf.pc
    ensures StackMoves(s, t, L.PushLoad(p, k), h, m, L.PushWrite(p, h, k), h)
  {
    StackAtAgain(s.mm.lf, t, L.PushLoad(p, k), h, L.PushWrite(p, h, k), h);
  }

  lemma CasMoves(s: State, t: Tid, p: Ptr, h: L.Head, k: L.Cont, m: Mem)
    requires t in s.mm.lf.pc
    ensures StackMoves(s, t, L.PushCas(p, h, k), h, m, L.PushFinished(k), L.Head(h.aba + 1, p))
  {
    StackAtAgain(s.mm.lf, t, L.PushCas(p, h, k), h, L.PushFinished(k), L.Head(h.aba + 1, p));
  }

  lemma StoreMoves(s: State, t: Tid, p: Ptr, h: L.Head, k: L.Cont, m: Mem)
    requires t in s.mm.lf.pc
    requires M.IsChunk(s.mm.base, p) && h.ptr < WORD && forall q | q in s.mm.lf.nodes :: M.IsChunk(s.mm.base, q)
    ensures StackMoves(s, t, L.PushWrite(p, h, k), h, m, L.PushCas(p, h, k), h)
  {
    LinkStored(s.mm.base, m, p, h.ptr);
    StackAtAgain(s.mm.lf, t, L.PushWrite(p, h, k), h, L.PushCas(p, h, k), h);
  }

  lemma Elsewhere(base: Ptr, seen: seq<Ptr>, rest: seq<Ptr>, q: Ptr)
    requires Chunks(base, seen + rest) && rest != [] && (q in seen || q in rest[1..])
    ensures q != rest[0] && M.IsChunk(base, q)
  {
    var stack := seen + rest;
    if q in seen {
      var i :| 0 <= i < |seen| && seen[i] == q;
      assert stack[i] == q && stack[|seen|] == rest[0];
    } else {
      var i :| 0 <= i < |rest[1..]| && rest[1..][i] == q;
      assert stack[|seen| + 1 + i] == q && stack[|seen|] == rest[0];
    }
  }

  /** A list in memory without the first of the rest keeps its links. */
  lemma KeptList(base: Ptr, seen: seq<Ptr>, rest: seq<Ptr>, m: Mem, v: Ptr, list: seq<Ptr>, head: Ptr)
    requires Chunks(base, seen + rest) && rest != [] && v < WORD
    requires forall q | q in list :: q in seen || q in rest[1..]
    requires L.Chain(list, Link(m), head)
    ensures L.Chain(list, Link(Write64(m, rest[0], v)), head)
    ensures Read64(Write64(m, rest[0], v), rest[0]) == v
  {
    assert (seen + rest)[|seen|] == rest[0];
    LinkStored(base, m, rest[0], v);
    forall q | q in list ensures Link(Write64(m, rest[0], v))(q) == Link(m)(q) { Elsewhere(base, seen, rest, q); }
    L.ChainFrame(list, Link(m), Link(Write64(m, rest[0], v)), head);
  }

  lemma RestOn(base: Ptr, seen: seq<Ptr>, rest: seq<Ptr>, m: Mem, v: Ptr)
    requires Chunks(base, seen + rest) && rest != [] && v < WORD && L.Chain(rest, Link(m), L.Top(rest))
    ensures Read64(m, rest[0]) == L.Top(rest[1..])
    ensures L.Chain(rest[1..], Link(Write64(m, rest[0], v)), L.Top(rest[1..]))
  {
    KeptList(base, seen, rest, m, v, rest[1..], Read64(m, rest[0]));
  }

  lemma ReversedMore(seen: seq<Ptr>, p: Ptr)
    ensures Reversed(seen + [p]) == [p] + Reversed(seen)
  {
    ReversedAppend(seen, [p]);
    assert Reversed([p]) == [p];
  }

  lemma ChainPush(p: Ptr, list: seq<Ptr>, l: L.Links, head: Ptr)
    requires L.Chain(list, l, head) && p != 0 && l(p) == head
    ensures L.Chain([p] + list, l, p)
  {
    assert ([p] + list)[1..] == list;
  }

  lemma BackOn(base: Ptr, seen: seq<Ptr>, rest: seq<Ptr>, m: Mem, v: Ptr)
    requires Chunks(base, seen + rest) && rest != [] && v < WORD && L.Chain(Reversed(seen), Link(m), v)
    ensures L.Chain(Reversed(seen + [rest[0]]), Link(Write64(m, rest[0], v)), rest[0])
  {
    ReversedHas(seen);
    KeptList(base, seen, rest, m, v, Reversed(seen), v);
    assert (seen + rest)[|seen|] == rest[0] && rest[0] in seen + rest;
    ChainPush(rest[0], Reversed(seen), Link(Write64(m, rest[0], v)), v);
    ReversedMore(seen, rest[0]);
  }

  lemma BytesOn(s: State, stack: seq<Ptr>, m: Mem, p: Ptr, v: Ptr)
    requires p in stack && forall a: int | OffThem(stack, a) :: m(a) == s.mem(a)
    ensures forall a: int | OffThem(stack, a) :: Write64(m, p, v)(a) == s.mem(a)
  {
  }

  /** What one round does to the lists. */
  lemma RoundMidway(s: State, stack: seq<Ptr>, seen: seq<Ptr>, rest: seq<Ptr>, h: L.Head, m: Mem)
    requires Midway(s, stack, seen, rest, h, m) && rest != [] && Chunks(s.mm.base, stack)
    ensures Read64(m, rest[0]) == L.Top(rest[1..])
    ensures Midway(s, stack, seen + [rest[0]], rest[1..], L.Head(h.aba + 1, rest[0]), Write64(m, rest[0], h.ptr))
  {
    OneMoreSeen(seen, rest);
    RestOn(s.mm.base, seen, rest, m, h.ptr);
    BackOn(s.mm.base, seen, rest, m, h.ptr);
    BytesOn(s, stack, m, rest[0], h.ptr);
  }

  lemma OneMoreSeen(seen: seq<Ptr>, rest: seq<Ptr>)
    requires rest != []
    ensures seen + [rest[0]] + rest[1..] == seen + rest && rest[0] in seen + rest
  {
    assert (seen + rest)[|seen|] == rest[0];
  }

  /** The rest of the walk. */
  lemma {:induction false} WalksOn(t: Tid, s: State, stack: seq<Ptr>, seen: seq<Ptr>, rest: seq<Ptr>, h: L.Head,
      m: Mem) returns (h': L.Head, m': Mem)
    requires CanPrint(s, t, stack) && Midway(s, stack, seen, rest, h, m)
    requires Path(t, InPrint, s, Printing(s, t, L.EachWalk(L.Top(rest), seen), h, m))
    ensures Path(t, InPrint, s, Printing(s, t, L.EachWalk(0, stack), h', m')) && Midway(s, stack, stack, [], h', m')
    decreases |rest|
  {
    if rest == [] {
      h', m' := h, m;
      assert seen == stack;
    } else {
      Round(t, s, stack, seen, rest, h, m);
      RoundMidway(s, stack, seen, rest, h, m);
      h', m' := WalksOn(t, s, stack, seen + [rest[0]], rest[1..], L.Head(h.aba + 1, rest[0]),
        Write64(m, rest[0], h.ptr));
    }
  }

  // ---------------------------------------------------------------- the whole call

  /** From the call to the moment the stack is taken, or found empty. */
  lemma Takes(t: Tid, s: State, stack: seq<Ptr>) returns (h: L.Head)
    requires CanPrint(s, t, stack) && L.Chain(stack, Link(s.mem), s.mm.lf.head.ptr)
    ensures Path(t, InPrint, s, Printing(s, t, L.EachWalk(L.Top(stack), []), h, s.mem))
    ensures h == if stack == [] then s.mm.lf.head else L.Head(s.mm.lf.head.aba + 1, 0)
  {
    h := s.mm.lf.head;
    Calls(t, s);
    LoadsHead(s, t, h);
    PrintMoves(t, s, L.EachLoad, h, s.mem, L.EachLoaded(h), h);
    if stack != [] {
      TakesHead(s, t, h);
      PrintMoves(t, s, L.EachCas(h), h, s.mem, L.EachWalk(h.ptr, []), L.Head(h.aba + 1, 0));
      h := L.Head(h.aba + 1, 0);
    }
  }

  lemma Calls(t: Tid, s: State)
    requires AtRest(s, t)
    ensures Path(t, InPrint, s, Printing(s, t, L.EachLoad, s.mm.lf.head, s.mem))
  {
    var r := Printing(s, t, L.EachLoad, s.mm.lf.head, s.mem);
    PathSelf(t, InPrint, s);
    assert M.Next(s.mm, Link(s.mem), t, M.CallList, r.mm, Link(s.mem));
    PathStep(t, InPrint, s, s, Print, r);
  }

  lemma LoadsHead(s: State, t: Tid, h: L.Head)
    requires t in s.mm.lf.pc
    ensures StackMoves(s, t, L.EachLoad, h, s.mem, L.EachLoaded(h), h)
  {
    StackAtAgain(s.mm.lf, t, L.EachLoad, h, L.EachLoaded(h), h);
  }

  lemma TakesHead(s: State, t: Tid, h: L.Head)
    requires t in s.mm.lf.pc
    ensures StackMoves(s, t, L.EachCas(h), h, s.mem, L.EachWalk(h.ptr, []), L.Head(h.aba + 1, 0))
  {
    StackAtAgain(s.mm.lf, t, L.EachCas(h), h, L.EachWalk(h.ptr, []), L.Head(h.aba + 1, 0));
  }

  /** Nothing has changed but the order of the free stack, and its tag. */
  ghost predicate OnlyReversed(s: State, stack: seq<Ptr>, r: State) {
    && r == s.(mm := s.mm.(lf := s.mm.lf.(head := r.mm.lf.head)), mem := r.mem)
    && L.Chain(Reversed(stack), Link(r.mem), r.mm.lf.head.ptr)
    && forall a: int | OffThem(stack, a) :: r.mem(a) == s.mem(a)
  }

  /** The state after the return. */
  function AfterPrint(s: State, h: L.Head, m: Mem): State {
    s.(mm := s.mm.(lf := s.mm.lf.(head := h)), mem := m)
  }

  lemma Reports(s: State, t: Tid, stack: seq<Ptr>, h: L.Head, m: Mem)
    requires AtRest(s, t)
    ensures Next(Printing(s, t, L.EachWalk(0, stack), h, m), t, Printed(|stack|), AfterPrint(s, h, m))
  {
    var x := Printing(s, t, L.EachWalk(0, stack), h, m);
    var r := AfterPrint(s, h, m);
    assert x.phase[t := Idle] == s.phase;
    ListReturns(s, t, stack, h, m);
    assert r == x.(mm := r.mm, phase := x.phase[t := Idle]);
  }

  lemma ListReturns(s: State, t: Tid, stack: seq<Ptr>, h: L.Head, m: Mem)
    requires AtRest(s, t)
    ensures M.Next(Printing(s, t, L.EachWalk(0, stack), h, m).mm, Link(m), t, M.RetList(|stack|),
                   AfterPrint(s, h, m).mm, Link(m))
  {
    var x := Printing(s, t, L.EachWalk(0, stack), h, m);
    assert x.mm.pc[t := M.Idle] == s.mm.pc && x.mm.lf.pc[t := L.Idle] == s.mm.lf.pc;
  }

  lemma PrintHere(s: State, t: Tid, stack: seq<Ptr>)
    requires Reached(s) && t in s.phase && s.phase[t] == Idle && L.Chain(stack, Link(s.mem), s.mm.lf.head.ptr)
    ensures CanPrint(s, t, stack)
  {
    HasInv(s);
    var a, v :| Inv(s, a, v);
    LT.ChainUnique(stack, a.stack, Link(s.mem), s.mm.lf.head.ptr);
    StackIsChunks(s.mm, Link(s.mem), a);
    RestsHere(s, t);
  }

  lemma RestsHere(s: State, t: Tid)
    requires PhasesOk(s) && M.Phases(s.mm) && t in s.phase && s.phase[t] == Idle
    ensures AtRest(s, t)
  {
  }

  lemma StackIsChunks(s: M.State, l: L.Links, a: L.Abs)
    requires L.R(s.lf, l, a) && M.Frontier(s)
    ensures Chunks(s.base, a.stack) && forall p | p in s.lf.nodes :: M.IsChunk(s.base, p)
  {
    forall q | q in a.stack ensures M.IsChunk(s.base, q) && 0 < q < WORD {
      assert q in s.lf.nodes;
    }
  }

  /** Thread t's steps from s lead to r by a whole np_debug_print that has visited these chunks. */
  ghost predicate Prints(s: State, t: Tid, visited: seq<Ptr>, r: State) {
    exists x :: && Path(t, InPrint, s, x) && t in x.mm.lf.pc && x.mm.lf.pc[t] == L.EachWalk(0, visited)
                && Next(x, t, Printed(|visited|), r)
  }

  /**
   From every reachable state an idle thread's own steps complete a print: each
   chunk of the free stack is visited, in order, and counted, and the stack is left
   reversed; nothing else changes.
   */
  lemma PrintServed(s: State, t: Tid, stack: seq<Ptr>)
    requires Reached(s) && t in s.phase && s.phase[t] == Idle && L.Chain(stack, Link(s.mem), s.mm.lf.head.ptr)
    ensures exists r :: Prints(s, t, stack, r) && OnlyReversed(s, stack, r)
  {
    PrintHere(s, t, stack);
    var h := Takes(t, s, stack);
    if stack == [] {
      Reports(s, t, stack, h, s.mem);
      Finished(s, t, stack, h, s.mem);
    } else {
      assert Midway(s, stack, [], stack, h, s.mem);
      var h', m' := WalksOn(t, s, stack, [], stack, h, s.mem);
      Reports(s, t, stack, h', m');
      Finished(s, t, stack, h', m');
    }
  }

  lemma Finished(s: State, t: Tid, stack: seq<Ptr>, h: L.Head, m: Mem)
    requires AtRest(s, t) && Path(t, InPrint, s, Printing(s, t, L.EachWalk(0, stack), h, m))
    requires Next(Printing(s, t, L.EachWalk(0, stack), h, m), t, Printed(|stack|), AfterPrint(s, h, m))
    requires L.Chain(Reversed(stack), Link(m), h.ptr) && forall a: int | OffThem(stack, a) :: m(a) == s.mem(a)
    ensures exists r :: Prints(s, t, stack, r) && OnlyReversed(s, stack, r)
  {
    assert Prints(s, t, stack, AfterPrint(s, h, m)) && OnlyReversed(s, stack, AfterPrint(s, h, m));
  }
}
