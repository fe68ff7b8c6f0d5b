/** The chunk manager's counters inside the whole allocator: over every run each counts just what its name says. */
module AllocatorChunks {
  import opened Runs
  import L = LfStack
  import M = Mmap
  import C = MmapCounters
  import MT = MmapTheorems
  import opened MmapTally
  import opened Memory
  import opened Allocator
  import opened AllocatorInv
  import opened AllocatorRun
  import opened AllocatorTheorems

  // ---------------------------------------------------------------- every step

  lemma Enter(s: State, a: L.Abs, t: Tid, ml: M.Label, s': State)
    requires C.Inv(s.mm, Link(s.mem), a) && M.Next(s.mm, Link(s.mem), t, ml, s'.mm, Link(s'.mem))
    ensures Enters(s.mm, t, s'.mm)
  {
    StepEnters(s.mm, Link(s.mem), a, t, ml, s'.mm, Link(s'.mem));
  }

  lemma CallEnters(s: State, a: L.Abs, t: Tid, lbl: Label, s': State)
    requires C.Inv(s.mm, Link(s.mem), a) && Next(s, t, lbl, s')
    requires lbl.AllocFetch? || lbl.Print? || lbl.Printed? || lbl.ChunkReturned? || lbl.ReturnChunk? || lbl.Chunk?
    ensures Enters(s.mm, t, s'.mm)
  {
    match lbl
    case AllocFetch(_, _) => Enter(s, a, t, M.CallAlloc, s');
    case Print => Enter(s, a, t, M.CallList, s');
    case Printed(count) => Enter(s, a, t, M.RetList(count), s');
    case ChunkReturned => Enter(s, a, t, M.RetFree, s');
    case ReturnChunk => Enter(s, a, t, M.CallFree(s.pools[(t, s.phase[t].classes[0])].head), s');
    case Chunk => Enter(s, a, t, M.Tau, s');
  }

  lemma ArrivalEnters(s: State, a: L.Abs, t: Tid, s': State)
    requires C.Inv(s.mm, Link(s.mem), a) && Next(s, t, AllocNew, s')
    ensures Enters(s.mm, t, s'.mm)
  {
    StepEnters(s.mm, Link(s.mem), a, t, M.RetAlloc(s.mm.pc[t].p), s'.mm, Link(s.mem));
  }

  lemma OtherEnters(s: State, t: Tid, lbl: Label, s': State)
    requires Next(s, t, lbl, s') && !lbl.AllocNew? && !lbl.AllocFetch? && !lbl.Print? && !lbl.Printed?
    requires !lbl.ChunkReturned? && !lbl.ReturnChunk? && !lbl.Chunk?
    ensures Enters(s.mm, t, s'.mm)
  {
    StillEnters(s.mm, t);
  }

  lemma EveryStepEnters(s: State, e: Event, s': State)
    requires Reached(s) && Step(s, e, s')
    ensures Enters(s.mm, e.0, s'.mm)
  {
    HasInv(s);
    var a, v :| Inv(s, a, v);
    LabelEnters(s, a, e.0, e.1, s');
  }

  lemma LabelEnters(s: State, a: L.Abs, t: Tid, lbl: Label, s': State)
    requires C.Inv(s.mm, Link(s.mem), a) && Next(s, t, lbl, s')
    ensures Enters(s.mm, t, s'.mm)
  {
    if lbl.AllocNew? {
      ArrivalEnters(s, a, t, s');
    } else if lbl.AllocFetch? || lbl.Print? || lbl.Printed? || lbl.ChunkReturned? || lbl.ReturnChunk? || lbl.Chunk? {
      CallEnters(s, a, t, lbl, s');
    } else {
      OtherEnters(s, t, lbl, s');
    }
  }

  // ---------------------------------------------------------------- every run

  /** The chunk manager along a run of the allocator. */
  function Managers(ss: seq<State>): (ms: seq<M.State>)
    ensures |ms| == |ss| && forall i | 0 <= i < |ss| :: ms[i] == ss[i].mm
  {
    seq(|ss|, i requires 0 <= i < |ss| => ss[i].mm)
  }

  function Movers(evs: seq<Event>): (ts: seq<Tid>)
    ensures |ts| == |evs| && forall i | 0 <= i < |evs| :: ts[i] == evs[i].0
  {
    seq(|evs|, i requires 0 <= i < |evs| => evs[i].0)
  }

  /** What has happened to chunks in a run. */
  function ChunkTally(ss: seq<State>, evs: seq<Event>): Tally
    requires |ss| == |evs| + 1
  {
    TallyOf(Managers(ss), Movers(evs))
  }

  lemma EntersAt(ss: seq<State>, evs: seq<Event>, i: nat)
    requires Run(Init, Step, ss, evs) && i < |evs|
    ensures Enters(ss[i].mm, evs[i].0, ss[i + 1].mm)
  {
    Prefix(Init, Step, ss, evs, i);
    ReachableByRun(Init, Step, ss[..i + 1], evs[..i]);
    EveryStepEnters(ss[i], evs[i], ss[i + 1]);
  }

  /** Over every run of the whole allocator the manager's counters are what has happened, less what is pending. */
  lemma GlobalCountersCount(ss: seq<State>, evs: seq<Event>)
    requires Run(Init, Step, ss, evs)
    ensures Accounts(ss[|evs|].mm, ChunkTally(ss, evs))
  {
    var ms, ts := Managers(ss), Movers(evs);
    forall i | 0 <= i < |ts| ensures Enters(ms[i], ts[i], ms[i + 1]) { EntersAt(ss, evs, i); }
    RunAccounts(ms, ts);
  }

  /**
   When no thread is inside the chunk manager: each counter to the unit, and with
   them the chunks reserved, the length of the free stack, and the chunks on the
   pools' lists.
   */
  lemma GlobalCountersBalance(ss: seq<State>, evs: seq<Event>, stack: seq<Ptr>)
    requires Run(Init, Step, ss, evs) && MT.Quiescent(Manager(ss[|evs|]))
    requires L.Chain(stack, Link(ss[|evs|].mem), ss[|evs|].mm.lf.head.ptr)
    ensures Exactly(ss[|evs|].mm, ChunkTally(ss, evs))
    ensures exists pooled :: ArePooled(ss[|evs|], pooled) && CountersAgree(ss[|evs|].mm, |stack|, |pooled|)
  {
    GlobalCountersCount(ss, evs);
    CountersAtRest(ss[|evs|].mm, ChunkTally(ss, evs));
    ReachableByRun(Init, Step, ss, evs);
    QuietManager(ss[|evs|], stack);
  }

  /** In the allocator a chunk is got when it arrives at the request that waits for it, and freed when deinit's
      free_chunk returns. */
  lemma ReturnsAreReturns(s: State, t: Tid, lbl: Label, s': State)
    requires Next(s, t, lbl, s')
    ensures Gets(s.mm, t, s'.mm) <==> lbl == AllocNew && s.mm.pc[t].AllocDone? && s.mm.pc[t].p != 0
    ensures Frees(s.mm, t, s'.mm) <==> lbl == ChunkReturned
  {
    if lbl == AllocNew {
      RetAllocShape(s.mm, Link(s.mem), t, s.mm.pc[t].p, s'.mm, Link(s.mem));
    } else if lbl == Chunk {
      TauReturnsNothing(s.mm, Link(s.mem), t, s'.mm, Link(s'.mem));
    } else {
      OthersReturnNothing(s, t, lbl, s');
    }
  }

  lemma TauReturnsNothing(s: M.State, l: L.Links, t: Tid, s': M.State, l': L.Links)
    requires M.Next(s, l, t, M.Tau, s', l')
    ensures !Gets(s, t, s') && !Frees(s, t, s')
  {
  }

  lemma OthersReturnNothing(s: State, t: Tid, lbl: Label, s': State)
    requires Next(s, t, lbl, s') && lbl != AllocNew && lbl != Chunk
    ensures !Gets(s.mm, t, s'.mm) && (Frees(s.mm, t, s'.mm) <==> lbl == ChunkReturned)
  {
  }
}
