/** Conservation of the chunk manager's statistics counters, and its invariant. */
module MmapCounters {
  import L = LfStack
  import opened Mmap

  /** In for_each, between the detach and the last push. */
  predicate Walking(st: L.Status) {
    st.AWalk? || st.AWalkPush?
  }

  predicate IsFree(a: L.Abs, p: Ptr) {
    p in a.home && match a.home[p]
                   case InStack => true
                   case With(t) => t in a.st && Walking(a.st[t])
                   case Client(_) => false
  }

  /** The free chunks: in the stack, or detached for a moment by a for_each. */
  function FreeSet(a: L.Abs): set<Ptr> {
    set p | p in a.home && IsFree(a, p)
  }

  /** A chunk popped but not yet counted in perf_alloc_from_free. */
  predicate PopOwed(pc: PC, st: L.Status) {
    pc.AllocGotFree? || (st.APopped? && st.res != 0)
  }

  /** A chunk pushed but not yet counted in perf_dealloc. */
  predicate PushOwed(pc: PC, st: L.Status) {
    pc.FreeCount? || st.APushed?
  }

  function PopsOwed(s: State, a: L.Abs): set<Tid> {
    set t | t in s.pc && t in a.st && PopOwed(s.pc[t], a.st[t])
  }

  function PushesOwed(s: State, a: L.Abs): set<Tid> {
    set t | t in s.pc && t in a.st && PushOwed(s.pc[t], a.st[t])
  }

  function BumpsOwed(s: State): set<Tid> {
    set t | t in s.pc && s.pc[t].BumpGot?
  }

  ghost predicate Counted(s: State, a: L.Abs) {
    && s.base <= s.head
    && s.perfAlloc + |BumpsOwed(s)| == (s.head - s.base) / CHUNK_SIZE
    && |FreeSet(a)| + s.perfFromFree + |PopsOwed(s, a)| == s.perfDealloc + |PushesOwed(s, a)|
  }

  function One(b: bool): nat {
    if b then 1 else 0
  }

  lemma OneElement<T>(x: set<T>, y: set<T>, e: T)
    requires x - {e} == y - {e}
    ensures |y| + One(e in x) == |x| + One(e in y)
  {
    assert e in x ==> x == (x - {e}) + {e};
    assert e in y ==> y == (y - {e}) + {e};
  }

  /** How one operation's effect changes the number of free chunks. */
  function FreeMove(st: L.Status, st': L.Status): int {
    if st.APop? && st'.APopped? && st'.res != 0 then -1
    else if st.APush? && st'.APushed? then 1
    else 0
  }

  /** Only nodes that thread t moves, or that stay with t while it starts or stops walking, can become free or taken. */
  lemma FreeFrame(a: L.Abs, t: Tid, a': L.Abs, moved: set<Ptr>)
    requires t in a.st && t in a'.st && a'.st == a.st[t := a'.st[t]] && a'.home.Keys == a.home.Keys
    requires forall p | p in a.home && p !in moved ::
               a'.home[p] == a.home[p] && (a.home[p] == L.With(t) ==> Walking(a'.st[t]) == Walking(a.st[t]))
    ensures FreeSet(a') - moved == FreeSet(a) - moved
  {
    forall p | p in a.home && p !in moved ensures IsFree(a', p) == IsFree(a, p) { }
  }

  lemma PopMovesFree(a: L.Abs, t: Tid)
    requires L.Stacked(a) && t in a.st && L.Carries(a, t) && a.st[t] == L.APop && a.stack != []
    ensures |FreeSet(L.Effect(a, t))| == |FreeSet(a)| - 1
  {
    var p := a.stack[0];
    FreeFrame(a, t, L.Effect(a, t), {p});
    OneElement(FreeSet(a), FreeSet(L.Effect(a, t)), p);
  }

  lemma PushMovesFree(a: L.Abs, t: Tid)
    requires t in a.st && L.Carries(a, t) && (a.st[t].APush? || a.st[t].AWalkPush?)
    ensures |FreeSet(L.Effect(a, t))| == |FreeSet(a)| + One(a.st[t].APush?)
  {
    var n := a.st[t].n;
    assert n in L.Transit(a.st[t]);
    FreeFrame(a, t, L.Effect(a, t), {n});
    OneElement(FreeSet(a), FreeSet(L.Effect(a, t)), n);
  }

  lemma EachMovesFree(a: L.Abs, t: Tid)
    requires L.Stacked(a) && t in a.st && L.Carries(a, t) && a.st[t] == L.AEach
    ensures |FreeSet(L.Effect(a, t))| == |FreeSet(a)|
  {
    var a' := L.Effect(a, t);
    var moved := set p | p in a.stack;
    FreeFrame(a, t, a', moved);
    assert forall p | p in moved :: IsFree(a, p) && IsFree(a', p);
    assert FreeSet(a') == FreeSet(a);
  }

  lemma EffectMovesFree(a: L.Abs, t: Tid)
    requires 0 !in a.home && L.Stacked(a) && t in a.st && L.Carries(a, t)
    ensures var a' := L.Effect(a, t);
            |FreeSet(a')| == |FreeSet(a)| + FreeMove(a.st[t], a'.st[t])
  {
    match a.st[t]
    case APop =>
      if a.stack != [] {
        assert a.stack[0] in a.stack;
        PopMovesFree(a, t);
      } else {
        FreeFrame(a, t, L.Effect(a, t), {});
        assert FreeSet(L.Effect(a, t)) == FreeSet(a);
      }
    case APush(_) => PushMovesFree(a, t);
    case AWalkPush(_, _, _) => PushMovesFree(a, t);
    case AEach => EachMovesFree(a, t);
    case _ =>
      FreeFrame(a, t, L.Effect(a, t), {});
      assert FreeSet(L.Effect(a, t)) == FreeSet(a);
  }

  function Moves(lbl: L.Label, st: L.Status, st': L.Status): int {
    if lbl == L.Tau then FreeMove(st, st') else 0
  }

  lemma FreeStep(s: L.State, l: Links, a: L.Abs, t: Tid, ll: L.Label, s': L.State, l': Links)
    requires t in a.st && t in s.pc && t in s'.pc && L.Next(s, l, t, ll, s', l')
    requires 0 !in a.home && a.home.Keys == s.nodes && L.Stacked(a) && L.Carries(a, t) && L.Recorded(s, a)
    requires L.ThreadOk(s.pc[t], a.st[t], s, l, a.stack)
    ensures var a' := L.Shadow(a, t, ll, s.pc[t], s'.pc[t]);
            |FreeSet(a')| == |FreeSet(a)| + Moves(ll, a.st[t], a'.st[t])
  {
    if ll == L.Tau {
      if L.Linearizes(s.pc[t], s'.pc[t]) {
        EffectMovesFree(a, t);
      }
    } else {
      FreeStays(s, l, a, t, ll, s', l');
    }
  }

  lemma FreeStays(s: L.State, l: Links, a: L.Abs, t: Tid, ll: L.Label, s': L.State, l': Links)
    requires t in a.st && t in s.pc && t in s'.pc && L.Next(s, l, t, ll, s', l') && ll != L.Tau
    requires 0 !in a.home && a.home.Keys == s.nodes && L.Carries(a, t) && L.Recorded(s, a)
    requires L.ThreadOk(s.pc[t], a.st[t], s, l, a.stack)
    ensures var a' := L.Shadow(a, t, ll, s.pc[t], s'.pc[t]);
            FreeSet(a') == FreeSet(a) && Moves(ll, a.st[t], a'.st[t]) == 0
  {
    var a' := L.Shadow(a, t, ll, s.pc[t], s'.pc[t]);
    assert ll.RetPop? && ll.res != 0 ==> ll.res in L.Transit(a.st[t]);
    forall p | p in a.home || p in a'.home ensures IsFree(a', p) == IsFree(a, p) { }
  }

  /** The stack machine's atomic counterpart of a step of the chunk manager. */
  function Shadow(s: State, a: L.Abs, t: Tid, lbl: Label, s': State): L.Abs
    requires t in s.pc && t in s.lf.pc && t in s'.pc && t in s'.lf.pc && t in a.st
  {
    L.Shadow(a, t, StackLabel(s, t, lbl, s'), s.lf.pc[t], s'.lf.pc[t])
  }

  /** One step's entries in the counters and in what is still to be counted balance. */
  ghost predicate Balanced(s: State, a: L.Abs, t: Tid, lbl: Label, s': State)
    requires t in s.pc && t in s.lf.pc && t in s'.pc && t in s'.lf.pc && t in a.st
  {
    var st' := Shadow(s, a, t, lbl, s').st[t];
    && Moves(StackLabel(s, t, lbl, s'), a.st[t], st') + s'.perfFromFree - s.perfFromFree
       + One(PopOwed(s'.pc[t], st')) - One(PopOwed(s.pc[t], a.st[t]))
       == s'.perfDealloc - s.perfDealloc
          + One(PushOwed(s'.pc[t], st')) - One(PushOwed(s.pc[t], a.st[t]))
    && s'.perfAlloc - s.perfAlloc + One(s'.pc[t].BumpGot?) - One(s.pc[t].BumpGot?) == One(s'.head != s.head)
  }

  lemma BalancedInStack(s: State, l: Links, a: L.Abs, t: Tid, s': State, l': Links)
    requires t in s.pc && t in s.lf.pc && t in s'.pc && t in s'.lf.pc && t in a.st
    requires s.pc[t] == AllocPop || s.pc[t] == FreePush || s.pc[t] == Listing
    requires !s.lf.pc[t].PopDone? && !s.lf.pc[t].PushDone?
    requires Internal(s, l, t, s', l') && StackPhase(s.pc[t], s.lf.pc[t])
    requires L.ThreadOk(s.lf.pc[t], a.st[t], s.lf, l, a.stack)
    ensures Balanced(s, a, t, Tau, s')
  {
    assert s'.pc == s.pc && s'.head == s.head;
    assert L.Internal(s.lf, l, t, s'.lf, l');
  }

  lemma BalancedTau(s: State, l: Links, a: L.Abs, t: Tid, s': State, l': Links)
    requires t in s.pc && t in s.lf.pc && t in s'.pc && t in s'.lf.pc && t in a.st
    requires !(s.pc[t] == AllocPop || s.pc[t] == FreePush || s.pc[t] == Listing)
             || s.lf.pc[t].PopDone? || s.lf.pc[t].PushDone?
    requires Internal(s, l, t, s', l') && StackPhase(s.pc[t], s.lf.pc[t]) && BumpOk(s, s.pc[t])
    requires L.ThreadOk(s.lf.pc[t], a.st[t], s.lf, l, a.stack)
    ensures Balanced(s, a, t, Tau, s')
  {
  }

  lemma BalancedClient(s: State, l: Links, a: L.Abs, t: Tid, lbl: Label, s': State, l': Links)
    requires t in s.pc && t in s.lf.pc && t in s'.pc && t in s'.lf.pc && t in a.st
    requires lbl != Tau && Next(s, l, t, lbl, s', l') && StackPhase(s.pc[t], s.lf.pc[t])
    requires L.ThreadOk(s.lf.pc[t], a.st[t], s.lf, l, a.stack)
    ensures Balanced(s, a, t, lbl, s')
  {
  }

  lemma BalancedStep(s: State, l: Links, a: L.Abs, t: Tid, lbl: Label, s': State, l': Links)
    requires t in s.pc && t in s.lf.pc && t in s'.pc && t in s'.lf.pc && t in a.st
    requires Next(s, l, t, lbl, s', l') && StackPhase(s.pc[t], s.lf.pc[t]) && BumpOk(s, s.pc[t])
    requires L.ThreadOk(s.lf.pc[t], a.st[t], s.lf, l, a.stack)
    ensures Balanced(s, a, t, lbl, s')
  {
    if lbl != Tau {
      BalancedClient(s, l, a, t, lbl, s', l');
    } else if (s.pc[t] == AllocPop || s.pc[t] == FreePush || s.pc[t] == Listing)
              && !s.lf.pc[t].PopDone? && !s.lf.pc[t].PushDone? {
      BalancedInStack(s, l, a, t, s', l');
    } else {
      BalancedTau(s, l, a, t, s', l');
    }
  }

  lemma OwedSets(s: State, a: L.Abs, t: Tid, s': State, a': L.Abs)
    requires t in s.pc && t in s'.pc && t in a.st && t in a'.st
    requires s'.pc == s.pc[t := s'.pc[t]] && a'.st == a.st[t := a'.st[t]]
    ensures |PopsOwed(s', a')| + One(PopOwed(s.pc[t], a.st[t])) == |PopsOwed(s, a)| + One(PopOwed(s'.pc[t], a'.st[t]))
    ensures |PushesOwed(s', a')| + One(PushOwed(s.pc[t], a.st[t])) ==
        |PushesOwed(s, a)| + One(PushOwed(s'.pc[t], a'.st[t]))
    ensures |BumpsOwed(s')| + One(s.pc[t].BumpGot?) == |BumpsOwed(s)| + One(s'.pc[t].BumpGot?)
  {
    OneElement(PopsOwed(s, a), PopsOwed(s', a'), t);
    OneElement(PushesOwed(s, a), PushesOwed(s', a'), t);
    OneElement(BumpsOwed(s), BumpsOwed(s'), t);
  }

  /** Every step of every thread conserves the counters. */
  lemma CountedStep(s: State, l: Links, a: L.Abs, t: Tid, lbl: Label, s': State, a': L.Abs)
    requires t in s.pc && t in s.lf.pc && t in s'.pc && t in s'.lf.pc && t in a.st && t in a'.st
    requires s'.pc == s.pc[t := s'.pc[t]] && a'.st == a.st[t := a'.st[t]] && a' == Shadow(s, a, t, lbl, s')
    requires Counted(s, a) && Balanced(s, a, t, lbl, s') && s'.base == s.base
    requires s'.head == s.head || s'.head == s.head + CHUNK_SIZE
    requires |FreeSet(a')| == |FreeSet(a)| + Moves(StackLabel(s, t, lbl, s'), a.st[t], a'.st[t])
    ensures Counted(s', a')
  {
    OwedSets(s, a, t, s', a');
  }

  // ---------------------------------------------------------------- the invariant

  ghost predicate Inv(s: State, l: Links, a: L.Abs) {
    L.R(s.lf, l, a) && Frontier(s) && Phases(s) && Holdings(s) && Counted(s, a)
  }

  /** What the stack's relation says about the thread that steps. */
  lemma StackFacts(s: L.State, l: Links, a: L.Abs, t: Tid)
    requires L.R(s, l, a) && t in s.pc
    ensures t in a.st && L.ThreadOk(s.pc[t], a.st[t], s, l, a.stack)
    ensures 0 !in a.home && a.home.Keys == s.nodes && L.Stacked(a) && L.Carries(a, t) && L.Recorded(s, a)
    ensures forall p | p in s.client :: p in s.nodes
    ensures s.pc[t].PopDone? ==> s.pc[t].res !in s.client
  {
    assert L.Carries(a, t);
    assert L.ThreadOk(s.pc[t], a.st[t], s, l, a.stack);
    if s.pc[t].PopDone? && s.pc[t].res != 0 {
      assert s.pc[t].res in L.Transit(a.st[t]);
    }
  }

  lemma ShadowStatus(a: L.Abs, t: Tid, ll: L.Label, pc: L.PC, pc': L.PC)
    requires t in a.st
    ensures var a' := L.Shadow(a, t, ll, pc, pc');
            t in a'.st && a'.st == a.st[t := a'.st[t]]
  {
    assert a.st == a.st[t := a.st[t]];
  }

  lemma InvStep(s: State, l: Links, a: L.Abs, t: Tid, lbl: Label, s': State, l': Links)
    requires t in s.pc && t in s.lf.pc && t in s'.pc && t in s'.lf.pc && t in a.st
    requires L.R(s.lf, l, a) && Frontier(s) && Phases(s) && Holdings(s) && Counted(s, a)
    requires Next(s, l, t, lbl, s', l')
    ensures Inv(s', l', Shadow(s, a, t, lbl, s'))
  {
    var ll := StackLabel(s, t, lbl, s');
    var a' := Shadow(s, a, t, lbl, s');
    IsStackStep(s, l, t, lbl, s', l');
    StackFacts(s.lf, l, a, t);
    L.StepSim(s.lf, l, a, t, ll, s'.lf, l');
    Shape(s, l, t, lbl, s', l');
    FrontierStep(s, l, t, lbl, s', l');
    PhasesStep(s, l, t, lbl, s', l');
    HandsOfStep(s, l, t, lbl, s', l');
    HandsKeepHoldings(s, t, s', HandOf(s, t, lbl, s'));
    FreeStep(s.lf, l, a, t, ll, s'.lf, l');
    BalancedStep(s, l, a, t, lbl, s', l');
    ShadowStatus(a, t, ll, s.lf.pc[t], s'.lf.pc[t]);
    CountedStep(s, l, a, t, lbl, s', a');
  }
}
