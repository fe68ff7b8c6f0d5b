/**
 No thread is ever blocked: whatever the others do or have stopped doing, a
 thread inside the allocator can take its next step.
 */
module AllocatorLive {
  import opened Runs
  import L = LfStack
  import M = Mmap
  import opened Memory
  import opened SizeClasses
  import opened Allocator
  import opened AllocatorInv
  import opened AllocatorTheorems
  import opened AllocatorProgress
  import opened AllocatorLeave

  // ---------------------------------------------------------------- inside the stack

  /** Memory after a step of the stack at this program point. */
  function MemAfter(m: Mem, pc: L.PC): Mem {
    match pc
    case PushWrite(n, curr, _) => Write64(m, n, curr.ptr)
    case _ => m
  }

  /** A step of t in the stack's code; a CAS may always fail. */
  function StackMove(s: L.State, m: Mem, t: Tid): L.State
    requires t in s.pc
  {
    match s.pc[t]
    case PopLoad => L.Go(s, t, L.PopLoaded(s.head))
    case PopRead(curr) => L.Go(s, t, L.PopCas(curr, Read64(m, curr.ptr)))
    case PopCas(_, _) => L.Go(s, t, L.PopLoaded(s.head))
    case PushLoad(n, k) => L.Go(s, t, L.PushWrite(n, s.head, k))
    case PushWrite(n, curr, k) => L.Go(s, t, L.PushCas(n, curr, k))
    case PushCas(n, _, k) => L.Go(s, t, L.PushWrite(n, s.head, k))
    case EachLoad => L.Go(s, t, L.EachLoaded(s.head))
    case EachCas(_) => L.Go(s, t, L.EachLoaded(s.head))
    case EachWalk(p, seen) => L.Go(s, t, L.PushLoad(p, L.Resume(Read64(m, p), seen + [p])))
    case _ => s
  }

  /** Thread t is at an access of the stack's code, with nodes where it stores. */
  ghost predicate AtAccess(s: L.State, t: Tid, base: Ptr) {
    && t in s.pc && (forall p | p in s.nodes :: M.IsChunk(base, p) && p < WORD)
    && match s.pc[t]
       case Idle => false
       case PopDone(_) => false
       case PushDone => false
       case EachWalk(p, _) => p != 0
       case PushWrite(n, curr, _) => n in s.nodes && L.NullOrNode(curr.ptr, s)
       case _ => true
  }

  lemma StackMoves(s: L.State, m: Mem, t: Tid, base: Ptr)
    requires AtAccess(s, t, base)
    ensures L.Next(s, Link(m), t, L.Tau, StackMove(s, m, t), Link(MemAfter(m, s.pc[t])))
  {
    if s.pc[t].PushWrite? {
      LinkStored(base, m, s.pc[t].node, s.pc[t].curr.ptr);
    }
  }

  lemma AtAccessHere(s: L.State, l: L.Links, a: L.Abs, t: Tid, base: Ptr)
    requires L.R(s, l, a) && t in s.pc && forall p | p in s.nodes :: M.IsChunk(base, p) && p < WORD
    requires s.pc[t] != L.Idle && !s.pc[t].PopDone? && s.pc[t] != L.PushDone
    requires s.pc[t].EachWalk? ==> s.pc[t].ptr != 0
    ensures AtAccess(s, t, base)
  {
    assert L.ThreadOk(s.pc[t], a.st[t], s, l, a.stack) && L.Carries(a, t);
    if s.pc[t].PushWrite? {
      assert s.pc[t].node in L.Transit(a.st[t]);
    }
  }

  // ---------------------------------------------------------------- inside the chunk manager

  function ManagerMove(s: M.State, m: Mem, t: Tid): M.State
    requires t in s.pc && t in s.lf.pc
  {
    match s.pc[t]
    case AllocPop =>
      (match s.lf.pc[t]
       case PopDone(r) =>
         M.Go(s, t, if r != 0 then M.AllocGotFree(r) else M.BumpLoad,
              L.Go(s.lf, t, L.Idle).(client := if r == 0 then s.lf.client else s.lf.client[r := t]))
       case _ => s.(lf := StackMove(s.lf, m, t)))
    case AllocGotFree(p) => M.Go(s, t, M.AllocDone(p), s.lf).(perfFromFree := s.perfFromFree + 1)
    case BumpLoad => M.Go(s, t, M.BumpLoaded(s.base, s.head), s.lf)
    case BumpCas(_, _) => M.Go(s, t, M.BumpLoaded(s.base, s.head), s.lf)
    case BumpGot(p) => M.Go(s, t, M.AllocDone(p), s.lf).(perfAlloc := s.perfAlloc + 1)
    case FreePush =>
      if s.lf.pc[t].PushDone? then M.Go(s, t, M.FreeCount, L.Go(s.lf, t, L.Idle))
      else s.(lf := StackMove(s.lf, m, t))
    case FreeCount => M.Go(s, t, M.FreeDone, s.lf).(perfDealloc := s.perfDealloc + 1)
    case Listing => s.(lf := StackMove(s.lf, m, t))
    case _ => s
  }

  /** Thread t is in the middle of an operation of the chunk manager. */
  ghost predicate InManager(s: M.State, t: Tid) {
    && t in s.pc && t in s.lf.pc && M.StackPhase(s.pc[t], s.lf.pc[t])
    && match s.pc[t]
       case Idle => false
       case AllocDone(_) => false
       case FreeDone => false
       case Aborted => false
       case Listing => s.lf.pc[t].EachWalk? ==> s.lf.pc[t].ptr != 0
       case _ => true
  }

  lemma StackMovesHere(s: M.State, m: Mem, a: L.Abs, t: Tid)
    requires InManager(s, t) && L.R(s.lf, Link(m), a) && M.Frontier(s)
    requires s.pc[t] == M.AllocPop || s.pc[t] == M.FreePush || s.pc[t] == M.Listing
    requires !s.lf.pc[t].PopDone? && s.lf.pc[t] != L.PushDone
    ensures L.Next(s.lf, Link(m), t, L.Tau, StackMove(s.lf, m, t), Link(MemAfter(m, s.lf.pc[t])))
  {
    AtAccessHere(s.lf, Link(m), a, t, s.base);
    StackMoves(s.lf, m, t, s.base);
  }

  lemma ManagerOwnMoves(s: M.State, m: Mem, t: Tid)
    requires InManager(s, t) && !s.lf.pc[t].PushWrite?
    requires s.pc[t] == M.AllocPop || s.pc[t] == M.FreePush ==> s.lf.pc[t].PopDone? || s.lf.pc[t] == L.PushDone
    requires s.pc[t] != M.Listing
    ensures M.Next(s, Link(m), t, M.Tau, ManagerMove(s, m, t), Link(m))
  {
  }

  lemma ManagerStackMoves(s: M.State, m: Mem, a: L.Abs, t: Tid)
    requires InManager(s, t) && L.R(s.lf, Link(m), a) && M.Frontier(s)
    requires s.pc[t] == M.AllocPop || s.pc[t] == M.FreePush || s.pc[t] == M.Listing
    requires !s.lf.pc[t].PopDone? && s.lf.pc[t] != L.PushDone
    ensures M.Next(s, Link(m), t, M.Tau, ManagerMove(s, m, t), Link(MemAfter(m, s.lf.pc[t])))
  {
    StackMovesHere(s, m, a, t);
  }

  lemma ManagerMoves(s: M.State, m: Mem, a: L.Abs, t: Tid)
    requires InManager(s, t) && L.R(s.lf, Link(m), a) && M.Frontier(s)
    ensures M.Next(s, Link(m), t, M.Tau, ManagerMove(s, m, t), Link(MemAfter(m, s.lf.pc[t])))
  {
    if (s.pc[t] == M.AllocPop || s.pc[t] == M.FreePush || s.pc[t] == M.Listing)
       && !s.lf.pc[t].PopDone? && s.lf.pc[t] != L.PushDone {
      ManagerStackMoves(s, m, a, t);
    } else {
      ManagerOwnMoves(s, m, t);
    }
  }

  // ---------------------------------------------------------------- the whole allocator

  /** Thread t can take a step with some label. */
  ghost predicate CanStep(s: State, t: Tid) {
    exists lbl, s' :: Next(s, t, lbl, s')
  }

  lemma MovesInside(s: State, a: L.Abs, t: Tid)
    requires t in s.phase && (s.phase[t].Fetching? || s.phase[t].Listing? || s.phase[t].Returning?)
    requires InManager(s.mm, t) && L.R(s.mm.lf, Link(s.mem), a) && M.Frontier(s.mm)
    ensures CanStep(s, t)
  {
    ManagerMoves(s.mm, s.mem, a, t);
    var s' := s.(mm := ManagerMove(s.mm, s.mem, t), mem := TauMem(s, t));
    assert TauMem(s, t) == MemAfter(s.mem, s.mm.lf.pc[t]);
    assert Next(s, t, Chunk, s');
  }

  lemma GetsOn(s: State, a: L.Abs, t: Tid)
    requires t in s.phase && s.phase[t].Fetching? && t in s.mm.pc && t in s.mm.lf.pc && PhaseOk(s.phase[t], s.mm.pc[t])
    requires M.StackPhase(s.mm.pc[t], s.mm.lf.pc[t]) && s.mm.pc[t] != M.Aborted
    requires (t, s.phase[t].cls) in s.pools && L.R(s.mm.lf, Link(s.mem), a) && M.Frontier(s.mm)
    ensures CanStep(s, t)
  {
    var Fetching(cls, bytes, d) := s.phase[t];
    if s.mm.pc[t].AllocDone? {
      var p := s.mm.pc[t].p;
      if p == 0 {
        var r := s.(mm := M.Go(s.mm, t, M.Idle, s.mm.lf), phase := s.phase[t := Crashed]);
        assert M.Next(s.mm, Link(s.mem), t, M.RetAlloc(0), r.mm, Link(s.mem));
        assert Next(s, t, AllocNew, r);
      } else {
        ArriveStep(s, t, cls, bytes, d, p);
      }
    } else {
      MovesInside(s, a, t);
    }
  }

  lemma PrintsOn(s: State, a: L.Abs, t: Tid)
    requires t in s.phase && s.phase[t] == Listing && t in s.mm.pc && t in s.mm.lf.pc && s.mm.pc[t] == M.Listing
    requires M.StackPhase(s.mm.pc[t], s.mm.lf.pc[t]) && L.R(s.mm.lf, Link(s.mem), a) && M.Frontier(s.mm)
    ensures CanStep(s, t)
  {
    if s.mm.lf.pc[t].EachWalk? && s.mm.lf.pc[t].ptr == 0 {
      var n := |s.mm.lf.pc[t].seen|;
      var mm := M.Go(s.mm, t, M.Idle, L.Go(s.mm.lf, t, L.Idle));
      assert M.Next(s.mm, Link(s.mem), t, M.RetList(n), mm, Link(s.mem));
      assert Next(s, t, Printed(n), s.(mm := mm, phase := s.phase[t := Idle]));
    } else {
      MovesInside(s, a, t);
    }
  }

  lemma FreesOn(s: State, a: L.Abs, t: Tid)
    requires t in s.phase && s.phase[t].Returning? && t in s.mm.pc && t in s.mm.lf.pc
    requires PhaseOk(s.phase[t], s.mm.pc[t])
    requires M.StackPhase(s.mm.pc[t], s.mm.lf.pc[t]) && L.R(s.mm.lf, Link(s.mem), a) && M.Frontier(s.mm)
    ensures CanStep(s, t)
  {
    if s.mm.pc[t] == M.FreeDone {
      var mm := M.Go(s.mm, t, M.Idle, s.mm.lf);
      assert M.Next(s.mm, Link(s.mem), t, M.RetFree, mm, Link(s.mem));
      ReturnedStep(s, t, s.phase[t].classes, mm);
    } else {
      MovesInside(s, a, t);
    }
  }

  /** The pools still to be destroyed are pools. */
  ghost predicate LeavesPools(s: State) {
    forall t, c | t in s.phase && c in Remaining(s.phase[t]) :: IsClass(c)
  }

  function Remaining(p: Phase): seq<nat> {
    match p
    case Exiting(cs) => cs
    case Emptying(cs) => cs
    case Returning(cs) => cs
    case _ => []
  }

  lemma PhasesOfOthers(s: State, t: Tid, lbl: Label, s': State)
    requires Next(s, t, lbl, s')
    ensures s'.phase.Keys == s.phase.Keys && forall u | u in s.phase && u != t :: s'.phase[u] == s.phase[u]
  {
  }

  lemma OutsideCalls(s: State, t: Tid, lbl: Label, s': State)
    requires Next(s, t, lbl, s') && t in s'.phase && s.phase[t] == Idle && lbl != Exit
    ensures Remaining(s'.phase[t]) == []
  {
  }

  lemma RemainingOf(s: State, t: Tid, lbl: Label, s': State)
    requires Next(s, t, lbl, s') && t in s'.phase
    ensures lbl == Exit || forall c | c in Remaining(s'.phase[t]) :: c in Remaining(s.phase[t])
    ensures lbl == Exit ==> Remaining(s'.phase[t]) == CLASSES
  {
    if lbl != Exit && s.phase[t] == Idle {
      OutsideCalls(s, t, lbl, s');
    } else {
      match lbl
      case AllocNew =>
      case Printed(_) =>
      case CountFree(_) =>
      case ReturnChunk =>
      case ChunkReturned =>
      case NextClass =>
      case ExitDone =>
      case _ =>
    }
  }

  lemma LeavesPoolsStep(s: State, e: Event, s': State)
    requires LeavesPools(s) && Step(s, e, s')
    ensures LeavesPools(s')
  {
    PhasesOfOthers(s, e.0, e.1, s');
    RemainingOf(s, e.0, e.1, s');
    forall c | c in CLASSES ensures IsClass(c) {
      var i :| 0 <= i < |CLASSES| && CLASSES[i] == c;
      ClassInList(0, i);
    }
  }

  lemma HasLeavesPools(s: State)
    requires Reached(s)
    ensures LeavesPools(s)
  {
    forall s, e, s' | LeavesPools(s) && Step(s, e, s') ensures LeavesPools(s') { LeavesPoolsStep(s, e, s'); }
    Invariant(Init, Step, LeavesPools, s);
  }

  lemma LeavesOn(s: State, t: Tid)
    requires Reached(s) && t in s.phase && s.phase[t].Exiting? && t in s.mm.pc && t in s.mm.lf.pc
    requires s.phase[t].classes != [] ==> (t, s.phase[t].classes[0]) in s.pools
    ensures CanStep(s, t)
  {
    var cs := s.phase[t].classes;
    if cs == [] {
      assert Next(s, t, ExitDone, s.(phase := s.phase[t := Exited]));
    } else {
      WalkEnds(s, t, s.phase[t].classes[0]);
      var free :| OwnFreeList(s, (t, cs[0]), free);
      WalkStep(s, t, cs, free);
    }
  }

  lemma WalkStep(s: State, t: Tid, cs: seq<nat>, free: seq<Ptr>)
    requires t in s.phase && s.phase[t] == Exiting(cs) && cs != [] && t in s.mm.pc && t in s.mm.lf.pc
    requires (t, cs[0]) in s.pools && OwnFreeList(s, (t, cs[0]), free)
    ensures CanStep(s, t)
  {
    assert Next(s, t, CountFree(|free|), s.(phase := s.phase[t := Emptying(cs)]));
  }

  lemma CanHandOver(s: State, a: L.Abs, v: View, t: Tid, cs: seq<nat>)
    requires Structure(s, v) && HeadersOk(s.mem, s.pools, v) && Empties(s, t, cs) && (t, cs[0]) in s.pools
    requires t in s.mm.pc && s.mm.pc[t] == M.Idle && M.Phases(s.mm) && M.Holdings(s.mm) && M.Frontier(s.mm)
    requires L.R(s.mm.lf, Link(s.mem), a) && s.pools[(t, cs[0])].head != 0
    ensures HandsOver(s, t, cs)
  {
    var k := (t, cs[0]);
    assert v.chunks[k] != [] && v.chunks[k][0] == s.pools[k].head;
    OwnsHere(s, v, k, v.chunks[k][0]);
    StackHere(s, a);
    assert a.stack != [] ==> a.stack[0] in a.stack;
  }

  lemma EmptiesOn(s: State, a: L.Abs, v: View, t: Tid, cs: seq<nat>)
    requires Structure(s, v) && HeadersOk(s.mem, s.pools, v) && Empties(s, t, cs) && (t, cs[0]) in s.pools
    requires t in s.mm.pc && s.mm.pc[t] == M.Idle && M.Phases(s.mm) && M.Holdings(s.mm) && M.Frontier(s.mm)
    requires L.R(s.mm.lf, Link(s.mem), a)
    ensures CanStep(s, t)
  {
    if s.pools[(t, cs[0])].head == 0 {
      EmptyStep(s, t, cs);
    } else {
      CanHandOver(s, a, v, t, cs);
      CallStep(s, t, cs);
    }
  }

  lemma EmptyStep(s: State, t: Tid, cs: seq<nat>)
    requires Empties(s, t, cs) && (t, cs[0]) in s.pools && s.pools[(t, cs[0])].head == 0
    requires t in s.mm.pc && t in s.mm.lf.pc
    ensures CanStep(s, t)
  {
    assert Next(s, t, NextClass, s.(phase := s.phase[t := Exiting(cs[1..])]));
  }

  /** Thread t is inside the allocator, and has not failed an assert. */
  ghost predicate Busy(s: State, t: Tid) {
    && t in s.phase && s.phase[t] != Idle && s.phase[t] != Exited && s.phase[t] != Crashed
    && t in s.mm.pc && s.mm.pc[t] != M.Aborted
  }

  lemma ManagerStepsOn(s: State, a: L.Abs, t: Tid)
    requires Busy(s, t) && (s.phase[t].Fetching? || s.phase[t].Listing? || s.phase[t].Returning?)
    requires PhasesOk(s) && M.Phases(s.mm) && M.Frontier(s.mm) && L.R(s.mm.lf, Link(s.mem), a)
    ensures CanStep(s, t)
  {
    assert PhaseOk(s.phase[t], s.mm.pc[t]) && M.StackPhase(s.mm.pc[t], s.mm.lf.pc[t]);
    match s.phase[t]
    case Fetching(_, _, _) => GetsOn(s, a, t);
    case Listing => PrintsOn(s, a, t);
    case Returning(_) => FreesOn(s, a, t);
  }

  lemma NextPool(s: State, t: Tid)
    requires LeavesPools(s) && PhasesOk(s) && t in s.phase && (s.phase[t].Exiting? || s.phase[t].Emptying?)
    ensures t in s.mm.pc && s.mm.pc[t] == M.Idle && (s.phase[t].Emptying? ==> s.phase[t].classes != [])
    ensures s.phase[t].classes != [] ==> (t, s.phase[t].classes[0]) in s.pools
  {
    assert PhaseOk(s.phase[t], s.mm.pc[t]);
    assert s.phase[t].classes != [] ==> s.phase[t].classes[0] in Remaining(s.phase[t]);
  }

  lemma LeavingStepsOn(s: State, a: L.Abs, v: View, t: Tid)
    requires Reached(s) && Busy(s, t) && LeavesPools(s) && (s.phase[t].Exiting? || s.phase[t].Emptying?)
    requires Structure(s, v) && HeadersOk(s.mem, s.pools, v) && PhasesOk(s)
    requires M.Phases(s.mm) && M.Holdings(s.mm) && M.Frontier(s.mm) && L.R(s.mm.lf, Link(s.mem), a)
    ensures CanStep(s, t)
  {
    NextPool(s, t);
    if s.phase[t].Exiting? {
      LeavesOn(s, t);
    } else {
      EmptiesOn(s, a, v, t, s.phase[t].classes);
    }
  }

  /**
   In every reachable state every thread inside the allocator can take its next
   step, unless an assert has failed: none ever waits for another.
   */
  lemma NeverBlocked(s: State, t: Tid)
    requires Reached(s) && Busy(s, t)
    ensures CanStep(s, t)
  {
    HasLeavesPools(s);
    HasInv(s);
    var a, v :| Inv(s, a, v);
    if s.phase[t].Exiting? || s.phase[t].Emptying? {
      LeavingStepsOn(s, a, v, t);
    } else {
      ManagerStepsOn(s, a, t);
    }
  }
}
