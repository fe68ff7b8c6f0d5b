/** The free stack inside the whole allocator: every step of any thread is a step of the stack's machine, so what
    np_debug_print counts is the stack as it was at one instant. */
module AllocatorStack {
  import opened Runs
  import L = LfStack
  import LT = LfStackTheorems
  import M = Mmap
  import C = MmapCounters
  import opened Memory
  import opened SizeClasses
  import opened Blocks
  import opened Allocator
  import opened AllocatorInv
  import opened AllocatorAlloc
  import opened AllocatorCarve
  import opened AllocatorSteps
  import opened AllocatorRun
  import opened AllocatorTheorems
  import AllocatorProgress

  // ---------------------------------------------------------------- every step is a step of the stack

  /** The stack's machine inside the allocator. */
  function StackOf(s: State): L.Config {
    L.Config(s.mm.lf, Link(s.mem))
  }

  /** The stack's machine makes the step ll, and a count reported is that of the nodes visited. */
  ghost predicate StepsAs(s: State, t: Tid, lbl: Label, s': State, ll: L.Label) {
    && L.Next(s.mm.lf, Link(s.mem), t, ll, s'.mm.lf, Link(s'.mem))
    && (lbl.Printed? ==> ll.RetEach? && |ll.seen| == lbl.count)
  }

  ghost predicate IsStep(s: State, t: Tid, lbl: Label, s': State) {
    exists ll :: StepsAs(s, t, lbl, s', ll)
  }

  /** Steps outside the chunk manager. */
  lemma Outside(s: State, t: Tid, lbl: Label, s': State)
    requires t in s.mm.lf.pc && s'.mm.lf == s.mm.lf && !lbl.Printed?
    requires forall p | p in s.mm.lf.nodes && !(p in s.mm.lf.client && s.mm.lf.client[p] == t) ::
        Link(s'.mem)(p) == Link(s.mem)(p)
    ensures IsStep(s, t, lbl, s')
  {
    assert StepsAs(s, t, lbl, s', L.Scribble);
  }

  lemma OutsideHeaders(s: State, t: Tid, lbl: Label, s': State)
    requires t in s.mm.lf.pc && s'.mm == s.mm && !lbl.Printed? && M.Frontier(s.mm)
    requires AllLinksKept(s.mm.base, s.mem, s'.mem)
    ensures IsStep(s, t, lbl, s')
  {
    forall p | p in s.mm.lf.nodes ensures Link(s'.mem)(p) == Link(s.mem)(p) {
      NodeIsChunk(s.mm, p);
      assert LinkKept(s.mem, s'.mem, p);
    }
    Outside(s, t, lbl, s');
  }

  lemma HeadersLinks(base: Ptr, m: Mem, m': Mem)
    requires HeadersKept(base, m, m')
    ensures AllLinksKept(base, m, m')
  {
    forall q: Ptr | M.IsChunk(base, q) ensures LinkKept(m, m', q) { assert HeaderKept(m, m', q); }
  }

  /** Steps of the chunk manager. */
  lemma Inside(s: State, t: Tid, lbl: Label, ml: M.Label, s': State)
    requires t in s.mm.pc && t in s.mm.lf.pc && M.Holdings(s.mm)
    requires M.Next(s.mm, Link(s.mem), t, ml, s'.mm, Link(s'.mem))
    requires lbl.Printed? ==> ml == M.RetList(lbl.count)
    ensures IsStep(s, t, lbl, s')
  {
    M.IsStackStep(s.mm, Link(s.mem), t, ml, s'.mm, Link(s'.mem));
    assert StepsAs(s, t, lbl, s', M.StackLabel(s.mm, t, ml, s'.mm));
  }

  lemma AllocLocalIs(s: State, v: View, t: Tid, bytes: nat, d: Debug, s': State)
    requires Local(s, v) && M.Frontier(s.mm) && Next(s, t, AllocLocal(bytes, d), s')
    ensures IsStep(s, t, AllocLocal(bytes, d), s')
  {
    var k := (t, ClassOf(TotalSize(bytes)));
    if s.pools[k].free != 0 {
      var v' := TakeFreeLocal(s, v, k, bytes, d);
      HeadersLinks(s.mm.base, s.mem, s'.mem);
    } else {
      RoomMeansSlots(s, v, k);
      var v' := CarveLocal(s, v, k, bytes, d);
    }
    OutsideHeaders(s, t, AllocLocal(bytes, d), s');
  }

  lemma AllocNewIs(s: State, a: L.Abs, v: View, t: Tid, s': State)
    requires Local(s, v) && C.Inv(s.mm, Link(s.mem), a) && Next(s, t, AllocNew, s')
    ensures IsStep(s, t, AllocNew, s')
  {
    if s.mm.pc[t].p != 0 {
      GotChunk(s.mm, Link(s.mem), a, t);
      InHand(s.mm, t);
    }
    NewIs(s, v, t, s');
  }

  lemma InHand(s: M.State, t: Tid)
    requires M.Holdings(s) && t in s.pc && s.pc[t].AllocDone? && s.pc[t].p != 0
    ensures s.pc[t].p in s.lf.client && s.lf.client[s.pc[t].p] == t
  {
    assert M.Mid(s.pc[t]) == s.pc[t].p;
  }

  lemma NewIs(s: State, v: View, t: Tid, s': State)
    requires Local(s, v) && M.Frontier(s.mm) && t in s.phase && t in s.mm.pc && t in s.mm.lf.pc
    requires AllocNewStep(s, t, s')
    requires s.mm.pc[t].p != 0 ==> var p := s.mm.pc[t].p;
        && p !in s.mm.held && M.IsChunk(s.mm.base, p) && 0 < p && p + M.CHUNK_SIZE < WORD
        && p in s.mm.lf.client && s.mm.lf.client[p] == t
    ensures IsStep(s, t, AllocNew, s')
  {
    StackStays(s.mm, Link(s.mem), t, s.mm.pc[t].p, s'.mm, Link(s.mem));
    var m1, v' := AllocNewLocal(s, v, t, s');
    ArrivalIs(s, t, m1, s');
  }

  lemma StackStays(s: M.State, l: L.Links, t: Tid, p: Ptr, s': M.State, l': L.Links)
    requires M.Next(s, l, t, M.RetAlloc(p), s', l')
    ensures s'.lf == s.lf
  {
  }

  lemma ArrivalIs(s: State, t: Tid, m1: Mem, s': State)
    requires M.Frontier(s.mm) && t in s.mm.lf.pc && t in s.mm.pc && s.mm.pc[t].AllocDone? && s'.mm.lf == s.mm.lf
    requires var p := s.mm.pc[t].p;
        if p == 0 then s'.mem == s.mem
        else
          && p in s.mm.lf.client && s.mm.lf.client[p] == t
          && OtherHeadersKept(s.mm.base, s.mem, m1, p) && AllLinksKept(s.mm.base, m1, s'.mem)
    ensures IsStep(s, t, AllocNew, s')
  {
    var p := s.mm.pc[t].p;
    if p != 0 {
      forall q | q in s.mm.lf.nodes && q != p ensures Link(s'.mem)(q) == Link(s.mem)(q) {
        NodeIsChunk(s.mm, q);
        assert HeaderKept(s.mem, m1, q) && LinkKept(m1, s'.mem, q);
      }
    }
    Outside(s, t, AllocNew, s');
  }

  lemma DeallocIs(s: State, v: View, t: Tid, u: Ptr, s': State)
    requires Local(s, v) && M.Frontier(s.mm) && Next(s, t, Dealloc(u), s')
    ensures IsStep(s, t, Dealloc(u), s')
  {
    var k, b := DeallocGives(s, v, t, u, s');
    var v' := GiveBackLocal(s, v, k, b);
    HeadersLinks(s.mm.base, s.mem, s'.mem);
    OutsideHeaders(s, t, Dealloc(u), s');
  }

  lemma ClientWriteIs(s: State, v: View, t: Tid, b: Ptr, i: nat, x: byte, s': State)
    requires Local(s, v) && M.Frontier(s.mm) && Next(s, t, ClientWrite(b, i, x), s')
    ensures IsStep(s, t, ClientWrite(b, i, x), s')
  {
    ClientWriteContents(s, v, b, i, s'.mem);
    HeadersLinks(s.mm.base, s.mem, s'.mem);
    OutsideHeaders(s, t, ClientWrite(b, i, x), s');
  }

  /** Calls and returns of the chunk manager. */
  lemma CallIs(s: State, t: Tid, lbl: Label, s': State)
    requires M.Holdings(s.mm) && Next(s, t, lbl, s')
    requires lbl.AllocFetch? || lbl.Print? || lbl.Printed? || lbl.ChunkReturned? || lbl.ReturnChunk? || lbl.Chunk?
    ensures IsStep(s, t, lbl, s')
  {
    match lbl
    case AllocFetch(_, _) => Inside(s, t, lbl, M.CallAlloc, s');
    case Print => Inside(s, t, lbl, M.CallList, s');
    case Printed(count) => Inside(s, t, lbl, M.RetList(count), s');
    case ChunkReturned => Inside(s, t, lbl, M.RetFree, s');
    case ReturnChunk => Inside(s, t, lbl, M.CallFree(s.pools[(t, s.phase[t].classes[0])].head), s');
    case Chunk => Inside(s, t, lbl, M.Tau, s');
  }

  /** Steps that move only the thread. */
  lemma PhaseIs(s: State, t: Tid, lbl: Label, s': State)
    requires Next(s, t, lbl, s') && (lbl.Exit? || lbl.CountFree? || lbl.NextClass? || lbl.ExitDone?)
    ensures IsStep(s, t, lbl, s')
  {
    Outside(s, t, lbl, s');
  }

  /** Steps with this label, by any thread in any state, are steps of the stack. */
  ghost predicate StackBy(lbl: Label) {
    forall s, a, v, t, s' | Inv(s, a, v) && Next(s, t, lbl, s') :: IsStep(s, t, lbl, s')
  }

  lemma AllocsBy(lbl: Label)
    requires lbl.AllocLocal? || lbl.AllocNew?
    ensures StackBy(lbl)
  {
    forall s, a, v, t, s' | Inv(s, a, v) && Next(s, t, lbl, s') ensures IsStep(s, t, lbl, s') {
      match lbl
      case AllocLocal(bytes, d) => AllocLocalIs(s, v, t, bytes, d, s');
      case AllocNew => AllocNewIs(s, a, v, t, s');
    }
  }

  lemma ClientsBy(lbl: Label)
    requires lbl.Dealloc? || lbl.ClientWrite?
    ensures StackBy(lbl)
  {
    forall s, a, v, t, s' | Inv(s, a, v) && Next(s, t, lbl, s') ensures IsStep(s, t, lbl, s') {
      match lbl
      case Dealloc(u) => DeallocIs(s, v, t, u, s');
      case ClientWrite(b, i, x) => ClientWriteIs(s, v, t, b, i, x, s');
    }
  }

  lemma CallsBy(lbl: Label)
    requires lbl.AllocFetch? || lbl.Print? || lbl.Printed? || lbl.ChunkReturned? || lbl.ReturnChunk? || lbl.Chunk?
    ensures StackBy(lbl)
  {
    forall s, a, v, t, s' | Inv(s, a, v) && Next(s, t, lbl, s') ensures IsStep(s, t, lbl, s') {
      CallIs(s, t, lbl, s');
    }
  }

  lemma PhasesBy(lbl: Label)
    requires lbl.Exit? || lbl.CountFree? || lbl.NextClass? || lbl.ExitDone?
    ensures StackBy(lbl)
  {
    forall s, a, v, t, s' | Inv(s, a, v) && Next(s, t, lbl, s') ensures IsStep(s, t, lbl, s') {
      PhaseIs(s, t, lbl, s');
    }
  }

  lemma EveryLabelBy(lbl: Label)
    ensures StackBy(lbl)
  {
    match lbl
    case AllocLocal(_, _) => AllocsBy(lbl);
    case AllocNew => AllocsBy(lbl);
    case Dealloc(_) => ClientsBy(lbl);
    case ClientWrite(_, _, _) => ClientsBy(lbl);
    case Exit => PhasesBy(lbl);
    case CountFree(_) => PhasesBy(lbl);
    case NextClass => PhasesBy(lbl);
    case ExitDone => PhasesBy(lbl);
    case _ => CallsBy(lbl);
  }

  lemma StepIs(s: State, e: Event, s': State)
    requires Reached(s) && Step(s, e, s')
    ensures IsStep(s, e.0, e.1, s')
  {
    HasInv(s);
    EveryLabelBy(e.1);
    var a, v :| Inv(s, a, v);
  }

  // ---------------------------------------------------------------- every run is a run of the stack

  function Stacks(ss: seq<State>): (cs: seq<L.Config>)
    ensures |cs| == |ss| && forall i | 0 <= i < |ss| :: cs[i] == StackOf(ss[i])
  {
    seq(|ss|, i requires 0 <= i < |ss| => StackOf(ss[i]))
  }

  lemma ReachedAt(ss: seq<State>, evs: seq<Event>, i: nat)
    requires Run(Init, Step, ss, evs) && i <= |evs|
    ensures Reached(ss[i])
    ensures i < |evs| ==> Step(ss[i], evs[i], ss[i + 1])
  {
    Prefix(Init, Step, ss, evs, i);
    ReachableByRun(Init, Step, ss[..i + 1], evs[..i]);
  }

  /** What thread, and as what step, makes the stack move. */
  ghost predicate MovesAs(s: State, e: Event, s': State, le: L.Event) {
    le.0 == e.0 && StepsAs(s, e.0, e.1, s', le.1)
  }

  lemma StepMoves(s: State, e: Event, s': State)
    requires Reached(s) && Step(s, e, s')
    ensures Has(MovesAs, s, e, s')
  {
    StepIs(s, e, s');
    var ll :| StepsAs(s, e.0, e.1, s', ll);
    assert MovesAs(s, e, s', (e.0, ll));
  }

  lemma RunMoves(ss: seq<State>, evs: seq<Event>) returns (es: seq<L.Event>)
    requires Run(Init, Step, ss, evs)
    ensures Goes(MovesAs, ss, evs, es)
  {
    forall i | 0 <= i < |evs| ensures Has(MovesAs, ss[i], evs[i], ss[i + 1]) {
      ReachedAt(ss, evs, i);
      StepMoves(ss[i], evs[i], ss[i + 1]);
    }
    es := Choose(MovesAs, ss, evs);
  }

  lemma MovesRun(ss: seq<State>, evs: seq<Event>, es: seq<L.Event>)
    requires Goes(MovesAs, ss, evs, es) && L.Init(ss[0].mm.lf)
    ensures Run(L.Start, L.Step, Stacks(ss), es)
  {
    var cs := Stacks(ss);
    forall i | 0 <= i < |es| ensures L.Step(cs[i], es[i], cs[i + 1]) {
      assert MovesAs(ss[i], evs[i], ss[i + 1], es[i]);
    }
  }

  // ---------------------------------------------------------------- what np_debug_print counts

  /** Thread t's for_each has not yet taken the stack. */
  predicate BeforeTaking(s: State, t: Tid) {
    t in s.mm.lf.pc && (s.mm.lf.pc[t].EachLoad? || s.mm.lf.pc[t].EachCas?)
  }

  /** From step j to step i thread t is in np_debug_print, and at step j it has not yet taken the stack. */
  ghost predicate PrintingFrom(ss: seq<State>, t: Tid, j: nat, i: nat) {
    && j <= i < |ss|
    && (forall k | j <= k <= i :: t in ss[k].phase && ss[k].phase[t] == Listing)
    && BeforeTaking(ss[j], t)
  }

  /** The free stack in memory is this long. */
  ghost predicate FreeStackLength(s: State, n: nat) {
    exists stack :: L.Chain(stack, Link(s.mem), s.mm.lf.head.ptr) && |stack| == n
  }

  /** A thread that is not idle in the stack was in np_debug_print before this step if it is after. */
  ghost predicate WasPrinting(s: State, s': State, t: Tid) {
    t in s'.phase && s'.phase[t] == Listing && t in s.mm.lf.pc && s.mm.lf.pc[t] != L.Idle ==>
      t in s.phase && s.phase[t] == Listing
  }

  lemma EntersByCall(s: State, e: Event, s': State, t: Tid)
    requires Step(s, e, s')
    ensures WasPrinting(s, s', t)
  {
  }

  lemma {:induction false} PrintingSince(ss: seq<State>, t: Tid, j: nat, i: nat)
    requires j <= i < |ss| && t in ss[i].phase && ss[i].phase[t] == Listing
    requires forall k | j <= k <= i :: t in ss[k].mm.lf.pc && ss[k].mm.lf.pc[t] != L.Idle
    requires forall k | j <= k < i :: WasPrinting(ss[k], ss[k + 1], t)
    ensures forall k | j <= k <= i :: t in ss[k].phase && ss[k].phase[t] == Listing
    decreases i - j
  {
    if j < i {
      assert WasPrinting(ss[i - 1], ss[i - 1 + 1], t);
      PrintingSince(ss, t, j, i - 1);
    }
  }

  /** From step j to step i thread t's for_each runs; at step j it has not yet taken the stack. */
  ghost predicate WalkingFrom(ss: seq<State>, t: Tid, j: nat, i: nat) {
    && j <= i < |ss|
    && (forall k | j <= k <= i :: t in ss[k].mm.lf.pc && ss[k].mm.lf.pc[t] != L.Idle)
    && BeforeTaking(ss[j], t)
  }

  /** The atomic stack's view of a call of for_each, read off the concrete states. */
  lemma SnapshotAt(ss: seq<State>, abs: seq<L.Abs>, t: Tid, j: nat, i: nat, all: seq<Ptr>)
    requires Tracks(L.Related, Stacks(ss), abs) && LT.DetachedAt(abs, t, j, i, all)
    ensures WalkingFrom(ss, t, j, i) && L.Chain(all, Link(ss[j].mem), ss[j].mm.lf.head.ptr)
  {
    forall k | j <= k <= i ensures t in ss[k].mm.lf.pc && ss[k].mm.lf.pc[t] != L.Idle {
      assert L.Related(Stacks(ss)[k], abs[k]);
      assert L.ThreadOk(ss[k].mm.lf.pc[t], abs[k].st[t], ss[k].mm.lf, Link(ss[k].mem), abs[k].stack);
    }
    assert L.Related(Stacks(ss)[j], abs[j]);
    assert L.ThreadOk(ss[j].mm.lf.pc[t], abs[j].st[t], ss[j].mm.lf, Link(ss[j].mem), abs[j].stack);
  }

  lemma SnapshotOf(ss: seq<State>, es: seq<L.Event>, i: nat, t: Tid, seen: seq<Ptr>) returns (j: nat)
    requires Run(L.Start, L.Step, Stacks(ss), es) && i < |es| && es[i] == (t, L.RetEach(seen))
    ensures WalkingFrom(ss, t, j, i) && L.Chain(seen, Link(ss[j].mem), ss[j].mm.lf.head.ptr)
  {
    LT.ForEachVisitsASnapshot(Stacks(ss), es, i, t, seen);
    var abs;
    abs, j :| Run(L.AInit, L.AtomicStep, abs, es) && Tracks(L.Related, Stacks(ss), abs)
        && LT.DetachedAt(abs, t, j, i, seen) && L.NoDup(seen);
    SnapshotAt(ss, abs, t, j, i, seen);
  }

  lemma AllWasPrinting(ss: seq<State>, evs: seq<Event>, t: Tid)
    requires Run(Init, Step, ss, evs)
    ensures forall k | 0 <= k < |evs| :: WasPrinting(ss[k], ss[k + 1], t)
  {
    forall k | 0 <= k < |evs| ensures WasPrinting(ss[k], ss[k + 1], t) {
      ReachedAt(ss, evs, k);
      EntersByCall(ss[k], evs[k], ss[k + 1], t);
    }
  }

  lemma CountIsLength(ss: seq<State>, evs: seq<Event>, es: seq<L.Event>, i: nat, t: Tid, count: nat)
    requires Goes(MovesAs, ss, evs, es) && L.Init(ss[0].mm.lf) && i < |evs| && evs[i] == (t, Printed(count))
    requires t in ss[i].phase && ss[i].phase[t] == Listing
    requires forall k | 0 <= k < |evs| :: WasPrinting(ss[k], ss[k + 1], t)
    ensures exists j: nat :: PrintingFrom(ss, t, j, i) && FreeStackLength(ss[j], count)
  {
    MovesRun(ss, evs, es);
    assert MovesAs(ss[i], evs[i], ss[i + 1], es[i]);
    var j := SnapshotOf(ss, es, i, t, es[i].1.seen);
    PrintingSince(ss, t, j, i);
    assert PrintingFrom(ss, t, j, i) && FreeStackLength(ss[j], count);
  }

  /**
   In every run of the allocator, what a thread's np_debug_print counts is the
   length that the free stack in memory had at one instant of that call.
   */
  lemma PrintedIsALength(ss: seq<State>, evs: seq<Event>, i: nat, t: Tid, count: nat)
    requires Run(Init, Step, ss, evs) && i < |evs| && evs[i] == (t, Printed(count))
    ensures exists j: nat :: PrintingFrom(ss, t, j, i) && FreeStackLength(ss[j], count)
  {
    var es := RunMoves(ss, evs);
    AllWasPrinting(ss, evs, t);
    ReachedAt(ss, evs, i);
    CountIsLength(ss, evs, es, i, t, count);
  }

  // ---------------------------------------------------------------- undisturbed

  /** The nodes of the free stack are nodes of the stack's machine. */
  lemma StackNodes(s: State, stack: seq<Ptr>)
    requires Reached(s) && L.Chain(stack, Link(s.mem), s.mm.lf.head.ptr)
    ensures forall p | p in stack :: p in s.mm.lf.nodes
  {
    HasInv(s);
    var a, v :| Inv(s, a, v);
    LT.ChainUnique(stack, a.stack, Link(s.mem), s.mm.lf.head.ptr);
    NodesOf(s.mm.lf, Link(s.mem), a);
  }

  lemma NodesOf(s: L.State, l: L.Links, a: L.Abs)
    requires L.R(s, l, a)
    ensures forall p | p in a.stack :: p in s.nodes
  {
  }

  /** Its own steps up to there leave the stack alone. */
  lemma LoadsOnly(s: State, t: Tid, s': State)
    requires Next(s, t, Chunk, s') && s.phase[t] == Listing && BeforeTaking(s', t)
    requires M.StackPhase(M.Listing, s.mm.lf.pc[t]) && s.mm.pc[t] == M.Listing
    ensures BeforeTaking(s, t) && s'.mm.lf.head == s.mm.lf.head && s'.mm.lf.nodes == s.mm.lf.nodes
    ensures L.Same(Link(s.mem), Link(s'.mem), s.mm.lf.nodes)
  {
    assert L.Next(s.mm.lf, Link(s.mem), t, L.Tau, s'.mm.lf, Link(s'.mem));
  }

  lemma ListingPoint(s: State, t: Tid)
    requires Reached(s) && t in s.phase && s.phase[t] == Listing
    ensures t in s.mm.pc && s.mm.pc[t] == M.Listing && t in s.mm.lf.pc && M.StackPhase(M.Listing, s.mm.lf.pc[t])
  {
    var v := AllocatorProgress.Parts(s);
    ListingFacts(s, t);
  }

  lemma ListingFacts(s: State, t: Tid)
    requires PhasesOk(s) && M.Phases(s.mm) && t in s.phase && s.phase[t] == Listing
    ensures t in s.mm.pc && s.mm.pc[t] == M.Listing && t in s.mm.lf.pc && M.StackPhase(M.Listing, s.mm.lf.pc[t])
  {
  }

  lemma SameLength(s: State, s': State, n: nat)
    requires Reached(s') && FreeStackLength(s', n) && s'.mm.lf.head == s.mm.lf.head && s'.mm.lf.nodes == s.mm.lf.nodes
    requires L.Same(Link(s.mem), Link(s'.mem), s.mm.lf.nodes)
    ensures FreeStackLength(s, n)
  {
    var stack :| L.Chain(stack, Link(s'.mem), s'.mm.lf.head.ptr) && |stack| == n;
    StackNodes(s', stack);
    L.ChainFrame(stack, Link(s'.mem), Link(s.mem), s.mm.lf.head.ptr);
  }

  /** Thread t is in np_debug_print and has not yet taken the stack, which has this length. */
  ghost predicate AboutToTake(s: State, t: Tid, n: nat) {
    t in s.phase && s.phase[t] == Listing && BeforeTaking(s, t) && FreeStackLength(s, n)
  }

  lemma TakeBack(s: State, t: Tid, s': State, n: nat)
    requires Reached(s) && Reached(s') && Next(s, t, Chunk, s') && AboutToTake(s', t, n)
    ensures AboutToTake(s, t, n)
  {
    ListingPoint(s, t);
    LoadsOnly(s, t, s');
    SameLength(s, s', n);
  }

  lemma LengthAtCall(s: State, t: Tid, s': State, n: nat)
    requires Reached(s') && Next(s, t, Print, s') && FreeStackLength(s', n)
    ensures FreeStackLength(s, n)
  {
    SameLength(s, s', n);
  }

  /** From step h, a call of np_debug_print by t, to step i, its end, no other thread moves. */
  ghost predicate Alone(evs: seq<Event>, t: Tid, h: nat, i: nat, count: nat) {
    && h < i < |evs| && evs[h] == (t, Print) && evs[i] == (t, Printed(count))
    && forall k | h < k < i :: evs[k] == (t, Chunk)
  }

  ghost predicate TakesBack(s: State, t: Tid, s': State, n: nat) {
    AboutToTake(s', t, n) ==> AboutToTake(s, t, n)
  }

  lemma {:induction false} AllTakenBack(ss: seq<State>, t: Tid, h: nat, j: nat, n: nat)
    requires h <= j < |ss| && AboutToTake(ss[j], t, n)
    requires forall k | h <= k < j :: TakesBack(ss[k], t, ss[k + 1], n)
    ensures AboutToTake(ss[h], t, n)
    decreases j
  {
    if h < j {
      assert TakesBack(ss[j - 1], t, ss[j - 1 + 1], n);
      AllTakenBack(ss, t, h, j - 1, n);
    }
  }

  lemma TakesBackAt(ss: seq<State>, evs: seq<Event>, t: Tid, k: nat, n: nat)
    requires Run(Init, Step, ss, evs) && k < |evs| && evs[k] == (t, Chunk)
    ensures TakesBack(ss[k], t, ss[k + 1], n)
  {
    ReachedAt(ss, evs, k);
    ReachedAt(ss, evs, k + 1);
    if AboutToTake(ss[k + 1], t, n) {
      TakeBack(ss[k], t, ss[k + 1], n);
    }
  }

  lemma CallBack(ss: seq<State>, evs: seq<Event>, t: Tid, h: nat, n: nat)
    requires Run(Init, Step, ss, evs) && h < |evs| && evs[h] == (t, Print)
    ensures t in ss[h].phase && ss[h].phase[t] == Idle
    ensures FreeStackLength(ss[h + 1], n) ==> FreeStackLength(ss[h], n)
  {
    ReachedAt(ss, evs, h);
    ReachedAt(ss, evs, h + 1);
    if FreeStackLength(ss[h + 1], n) {
      LengthAtCall(ss[h], t, ss[h + 1], n);
    }
  }

  /** If no other thread moves meanwhile, np_debug_print counts the free stack as it was when it was called, whatever
      other threads are in the middle of. */
  lemma PrintedAlone(ss: seq<State>, evs: seq<Event>, t: Tid, h: nat, i: nat, count: nat)
    requires Run(Init, Step, ss, evs) && Alone(evs, t, h, i, count)
    ensures FreeStackLength(ss[h], count)
  {
    PrintedIsALength(ss, evs, i, t, count);
    var j: nat :| PrintingFrom(ss, t, j, i) && FreeStackLength(ss[j], count);
    CallBack(ss, evs, t, h, count);
    forall k | h + 1 <= k < j ensures TakesBack(ss[k], t, ss[k + 1], count) {
      TakesBackAt(ss, evs, t, k, count);
    }
    AllTakenBack(ss, t, h + 1, j, count);
  }
}
