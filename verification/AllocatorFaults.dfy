/** No assert fails and no null chunk is used, over every run, until the reservation is used up. */
module AllocatorFaults {
  import opened Runs
  import L = LfStack
  import M = Mmap
  import opened Memory
  import opened Blocks
  import opened Allocator
  import opened AllocatorInv
  import opened AllocatorAlloc
  import opened AllocatorRun
  import opened AllocatorTheorems

  /** alloc_chunk returns null only without a reservation, and its asserts fail only at the end of one. */
  ghost predicate PcFact(s: M.State, pc: M.PC) {
    match pc
    case AllocGotFree(p) => p != 0
    case BumpGot(p) => p != 0
    case AllocDone(p) => p != 0 || s.base == 0
    case Aborted => s.head == M.ChunkPtr(s.base, M.CHUNK_COUNT)
    case _ => true
  }

  ghost predicate PcFacts(s: M.State) {
    forall t | t in s.pc :: PcFact(s, s.pc[t])
  }

  lemma LoadedFact(s: M.State)
    requires M.Frontier(s)
    ensures PcFact(s, M.BumpLoaded(s.base, s.head))
  {
    if s.head != 0 {
      M.BumpLoadedIs(s.base, s.head);
    }
  }

  lemma OwnFact(s: M.State, l: L.Links, t: Tid, lbl: M.Label, s': M.State, l': L.Links)
    requires M.Next(s, l, t, lbl, s', l') && M.Frontier(s) && M.BumpOk(s, s.pc[t]) && PcFact(s, s.pc[t])
    ensures t in s'.pc && PcFact(s', s'.pc[t])
  {
    LoadedFact(s);
  }

  lemma FactsStep(s: M.State, l: L.Links, t: Tid, lbl: M.Label, s': M.State, l': L.Links)
    requires M.Next(s, l, t, lbl, s', l') && M.Frontier(s) && M.Phases(s) && PcFacts(s)
    ensures PcFacts(s')
  {
    OwnFact(s, l, t, lbl, s', l');
    HeadMoves(s, l, t, lbl, s', l');
  }

  /** The bump pointer moves only below the end. */
  lemma HeadMoves(s: M.State, l: L.Links, t: Tid, lbl: M.Label, s': M.State, l': L.Links)
    requires M.Next(s, l, t, lbl, s', l') && M.BumpOk(s, s.pc[t])
    ensures s'.base == s.base && s'.pc == s.pc[t := s'.pc[t]]
    ensures s'.head == s.head || s.head < M.ChunkPtr(s.base, M.CHUNK_COUNT)
  {
  }

  // ---------------------------------------------------------------- the whole allocator

  /** Every step either leaves the chunk manager alone or is a step of it. */
  lemma ManagerOf(s: State, t: Tid, lbl: Label, s': State)
    requires Next(s, t, lbl, s')
    ensures s'.mm == s.mm || exists ml, l' :: M.Next(s.mm, Link(s.mem), t, ml, s'.mm, l')
  {
  }

  ghost predicate NoCrash(phase: map<Tid, Phase>) {
    forall t | t in phase :: phase[t] != Crashed
  }

  lemma FreeDoesNotCrash(s: State, v: View, t: Tid, u: Ptr, s': State)
    requires LivesOk(s.mem, s.log, v) && DeallocStep(s, t, u, s')
    ensures s'.phase == s.phase
  {
    FreeChecksPass(s, v, HeaderOf(u));
  }

  lemma OthersDoNotCrash(s: State, t: Tid, lbl: Label, s': State)
    requires Next(s, t, lbl, s') && !lbl.Dealloc? && !lbl.AllocNew? && NoCrash(s.phase)
    ensures NoCrash(s'.phase)
  {
    OwnPhaseOnly(s, t, lbl, s');
  }

  lemma OwnPhaseOnly(s: State, t: Tid, lbl: Label, s': State)
    requires Next(s, t, lbl, s') && !lbl.Dealloc? && !lbl.AllocNew? && s.phase[t] != Crashed
    ensures t in s'.phase && s'.phase == s.phase[t := s'.phase[t]] && s'.phase[t] != Crashed
  {
  }

  lemma CrashStep(s: State, v: View, t: Tid, lbl: Label, s': State)
    requires LivesOk(s.mem, s.log, v) && PcFacts(s.mm) && s.mm.base != 0
    requires Next(s, t, lbl, s') && NoCrash(s.phase)
    ensures NoCrash(s'.phase)
  {
    if lbl.Dealloc? {
      FreeDoesNotCrash(s, v, t, lbl.u, s');
    } else if lbl.AllocNew? {
      assert PcFact(s.mm, s.mm.pc[t]);
    } else {
      OthersDoNotCrash(s, t, lbl, s');
    }
  }

  ghost predicate Faultless(s: State) {
    Held(s) && PcFacts(s.mm) && (s.mm.base != 0 ==> NoCrash(s.phase))
  }

  lemma MmFacts(s: State, t: Tid, lbl: Label, s': State)
    requires M.Frontier(s.mm) && M.Phases(s.mm) && PcFacts(s.mm) && Next(s, t, lbl, s')
    ensures PcFacts(s'.mm) && s'.mm.base == s.mm.base
  {
    ManagerOf(s, t, lbl, s');
    if s'.mm != s.mm {
      var ml, l' :| M.Next(s.mm, Link(s.mem), t, ml, s'.mm, l');
      FactsStep(s.mm, Link(s.mem), t, ml, s'.mm, l');
      HeadMoves(s.mm, Link(s.mem), t, ml, s'.mm, l');
    }
  }

  lemma FaultlessStep(s: State, e: Event, s': State)
    requires Faultless(s) && Step(s, e, s')
    ensures Faultless(s')
  {
    StepHeld(s, e, s');
    var a, v :| Inv(s, a, v);
    MmFacts(s, e.0, e.1, s');
    if s.mm.base != 0 {
      CrashStep(s, v, e.0, e.1, s');
    }
  }

  lemma InitFaultless(s: State)
    requires Init(s)
    ensures Faultless(s)
  {
    InitHeld(s);
  }

  lemma HasFaultless(s: State)
    requires Reached(s)
    ensures Faultless(s)
  {
    forall s | Init(s) ensures Faultless(s) { InitFaultless(s); }
    forall s, e, s' | Faultless(s) && Step(s, e, s') ensures Faultless(s') { FaultlessStep(s, e, s'); }
    Invariant(Init, Step, Faultless, s);
  }

  lemma FaultlessParts(s: State)
    requires Reached(s)
    ensures PcFacts(s.mm) && (s.mm.base != 0 ==> NoCrash(s.phase))
  {
    HasFaultless(s);
  }

  /**
   With a reservation, no thread ever crashes: no fence assert fails and no null
   chunk is used. The asserts in alloc_chunk fail only when every chunk of the
   reservation has been handed out.
   */
  lemma NeverFaults(s: State, t: Tid)
    requires Reached(s) && t in s.phase && t in s.mm.pc && s.mm.base != 0
    ensures s.phase[t] != Crashed
    ensures s.mm.pc[t] == M.Aborted ==> s.mm.head == M.ChunkPtr(s.mm.base, M.CHUNK_COUNT)
  {
    FaultlessParts(s);
    assert PcFact(s.mm, s.mm.pc[t]);
  }
}
