/** Each statistics counter of the chunk manager on its own: over every run it counts just what its name says. */
module MmapTally {
  import opened Runs
  import L = LfStack
  import opened Mmap
  import C = MmapCounters
  import MT = MmapTheorems

  // ---------------------------------------------------------------- what happens in a step

  /** A CAS of `pop` takes a chunk off the free stack. */
  predicate Pops(s: State, t: Tid, s': State) {
    t in s.pc && s.pc[t] == AllocPop && s'.lf.head != s.lf.head
  }

  /** A CAS of `free_chunk`'s push puts a chunk on the free stack. */
  predicate Pushes(s: State, t: Tid, s': State) {
    t in s.pc && s.pc[t] == FreePush && s'.lf.head != s.lf.head
  }

  /** A CAS moves the bump pointer. */
  predicate Bumps(s: State, s': State) {
    s'.head != s.head
  }

  /** `alloc_chunk` returns a chunk. */
  predicate Gets(s: State, t: Tid, s': State) {
    && t in s.pc && s.pc[t].AllocDone? && s.pc[t].p != 0
    && t in s'.pc && s'.pc[t] == Idle
  }

  /** `free_chunk` returns. */
  predicate Frees(s: State, t: Tid, s': State) {
    && t in s.pc && s.pc[t] == FreeDone
    && t in s'.pc && s'.pc[t] == Idle
  }

  /** How often each has happened. */
  datatype Tally = Tally(pops: nat, pushes: nat, bumps: nat, gets: nat, frees: nat)

  function Tick(c: Tally, s: State, t: Tid, s': State): Tally {
    Tally(c.pops + C.One(Pops(s, t, s')), c.pushes + C.One(Pushes(s, t, s')), c.bumps + C.One(Bumps(s, s')),
          c.gets + C.One(Gets(s, t, s')), c.frees + C.One(Frees(s, t, s')))
  }

  /** Of a run through these states, by steps of these threads. */
  function TallyOf(ms: seq<State>, ts: seq<Tid>): Tally
    requires |ms| == |ts| + 1
    decreases |ts|
  {
    if ts == [] then Tally(0, 0, 0, 0, 0)
    else
      var n := |ts| - 1;
      Tick(TallyOf(ms[..n + 1], ts[..n]), ms[n], ts[n], ms[n + 1])
  }

  // ---------------------------------------------------------------- what is still to be counted

  predicate PopPending(pc: PC, lpc: L.PC) {
    pc.AllocGotFree? || (pc == AllocPop && lpc.PopDone? && lpc.res != 0)
  }

  predicate PushPending(pc: PC, lpc: L.PC) {
    pc == FreeCount || (pc == FreePush && lpc == L.PushDone)
  }

  predicate GetPending(pc: PC) {
    pc.AllocDone? && pc.p != 0
  }

  /** Threads that have popped a chunk and not yet counted it in perf_alloc_from_free. */
  function PopsPending(s: State): set<Tid> {
    set t | t in s.pc && t in s.lf.pc && PopPending(s.pc[t], s.lf.pc[t])
  }

  /** Threads that have pushed a chunk and not yet counted it in perf_dealloc. */
  function PushesPending(s: State): set<Tid> {
    set t | t in s.pc && t in s.lf.pc && PushPending(s.pc[t], s.lf.pc[t])
  }

  /** Threads that have counted their chunk and not yet returned it. */
  function GetsPending(s: State): set<Tid> {
    set t | t in s.pc && GetPending(s.pc[t])
  }

  /** Threads that have counted their free and not yet returned from it. */
  function FreesPending(s: State): set<Tid> {
    set t | t in s.pc && s.pc[t] == FreeDone
  }

  /** Each counter is what has happened, less what is still to be counted. */
  ghost predicate Accounts(s: State, c: Tally) {
    && s.perfFromFree + |PopsPending(s)| == c.pops
    && s.perfDealloc + |PushesPending(s)| == c.pushes
    && s.perfAlloc + |C.BumpsOwed(s)| == c.bumps
    && s.perfAlloc + s.perfFromFree == c.gets + |GetsPending(s)|
    && s.perfDealloc == c.frees + |FreesPending(s)|
  }

  // ---------------------------------------------------------------- over every step

  /** A chunk that has just been obtained is not null. */
  predicate NotNull(pc: PC) {
    pc.AllocGotFree? || pc.BumpGot? ==> pc.p != 0
  }

  /** What the invariants say of a thread that steps. */
  ghost predicate AtPoint(s: State, t: Tid) {
    && t in s.pc && t in s.lf.pc && StackPhase(s.pc[t], s.lf.pc[t]) && BumpOk(s, s.pc[t]) && NotNull(s.pc[t])
    && (s.lf.pc[t].PopCas? ==> s.lf.pc[t].curr.ptr != 0)
  }

  /** One step's entries in the counters and in what is pending. */
  ghost predicate Entered(s: State, t: Tid, s': State) {
    && t in s.pc && t in s.lf.pc && t in s'.pc && t in s'.lf.pc
    && var pc, lpc, pc', lpc' := s.pc[t], s.lf.pc[t], s'.pc[t], s'.lf.pc[t];
       && s'.pc == s.pc[t := pc'] && NotNull(pc') && s'.lf.pc == s.lf.pc[t := lpc']
       && s'.perfFromFree + C.One(PopPending(pc', lpc')) ==
          s.perfFromFree + C.One(PopPending(pc, lpc)) + C.One(Pops(s, t, s'))
       && s'.perfDealloc + C.One(PushPending(pc', lpc')) ==
          s.perfDealloc + C.One(PushPending(pc, lpc)) + C.One(Pushes(s, t, s'))
       && s'.perfAlloc + C.One(pc'.BumpGot?) == s.perfAlloc + C.One(pc.BumpGot?) + C.One(Bumps(s, s'))
       && s'.perfAlloc + s'.perfFromFree + C.One(GetPending(pc)) ==
          s.perfAlloc + s.perfFromFree + C.One(GetPending(pc')) + C.One(Gets(s, t, s'))
       && s'.perfDealloc + C.One(pc == FreeDone) == s.perfDealloc + C.One(pc' == FreeDone) + C.One(Frees(s, t, s'))
  }

  /** The steps inside the stack's operations. */
  lemma StackEntered(s: State, l: Links, t: Tid, s': State, l': Links)
    requires AtPoint(s, t) && Internal(s, l, t, s', l') && t in s'.pc && t in s'.lf.pc
    requires s.pc[t] == AllocPop || s.pc[t] == FreePush || s.pc[t] == Listing
    requires !s.lf.pc[t].PopDone? && !s.lf.pc[t].PushDone?
    requires s'.lf.pc == s.lf.pc[t := s'.lf.pc[t]]
    ensures Entered(s, t, s')
  {
    assert s'.pc == s.pc && s.pc == s.pc[t := s.pc[t]];
    assert L.Internal(s.lf, l, t, s'.lf, l');
  }

  /** The steps at which they return. */
  lemma BackEntered(s: State, l: Links, t: Tid, s': State, l': Links)
    requires AtPoint(s, t) && Internal(s, l, t, s', l') && t in s'.pc && t in s'.lf.pc
    requires s.lf.pc[t].PopDone? || s.lf.pc[t].PushDone?
    requires s'.pc == s.pc[t := s'.pc[t]] && s'.lf.pc == s.lf.pc[t := s'.lf.pc[t]]
    ensures Entered(s, t, s')
  {
  }

  /** The steps outside the stack. */
  lemma OwnEntered(s: State, l: Links, t: Tid, s': State, l': Links)
    requires AtPoint(s, t) && Internal(s, l, t, s', l') && t in s'.pc && t in s'.lf.pc
    requires s.pc[t] != AllocPop && s.pc[t] != FreePush && s.pc[t] != Listing
    requires s'.pc == s.pc[t := s'.pc[t]] && s'.lf.pc == s.lf.pc[t := s'.lf.pc[t]]
    ensures Entered(s, t, s')
  {
  }

  lemma CallEntered(s: State, l: Links, t: Tid, lbl: Label, s': State, l': Links)
    requires AtPoint(s, t) && Next(s, l, t, lbl, s', l') && (lbl.CallAlloc? || lbl.CallFree? || lbl.CallList?)
    requires t in s'.pc && s'.pc == s.pc[t := s'.pc[t]] && t in s'.lf.pc && s'.lf.pc == s.lf.pc[t := s'.lf.pc[t]]
    ensures Entered(s, t, s')
  {
  }

  lemma ReturnEntered(s: State, l: Links, t: Tid, lbl: Label, s': State, l': Links)
    requires AtPoint(s, t) && Next(s, l, t, lbl, s', l') && (lbl.RetAlloc? || lbl.RetFree? || lbl.RetList?)
    requires t in s'.pc && s'.pc == s.pc[t := s'.pc[t]] && t in s'.lf.pc && s'.lf.pc == s.lf.pc[t := s'.lf.pc[t]]
    ensures Entered(s, t, s')
  {
  }

  /** A step of something else. */
  lemma StillEntered(s: State, t: Tid)
    requires t in s.pc && t in s.lf.pc && NotNull(s.pc[t])
    ensures Entered(s, t, s)
  {
    assert s.pc == s.pc[t := s.pc[t]] && s.lf.pc == s.lf.pc[t := s.lf.pc[t]];
  }

  lemma StepEntered(s: State, l: Links, t: Tid, lbl: Label, s': State, l': Links)
    requires AtPoint(s, t) && Next(s, l, t, lbl, s', l') && t in s'.pc && t in s'.lf.pc
    requires s'.pc == s.pc[t := s'.pc[t]] && s'.lf.pc == s.lf.pc[t := s'.lf.pc[t]]
    ensures Entered(s, t, s')
  {
    if lbl.CallAlloc? || lbl.CallFree? || lbl.CallList? {
      CallEntered(s, l, t, lbl, s', l');
    } else if lbl.RetAlloc? || lbl.RetFree? || lbl.RetList? {
      ReturnEntered(s, l, t, lbl, s', l');
    } else if lbl == Scribble {
      StillEntered(s, t);
    } else if s.lf.pc[t].PopDone? || s.lf.pc[t].PushDone? {
      BackEntered(s, l, t, s', l');
    } else if s.pc[t] == AllocPop || s.pc[t] == FreePush || s.pc[t] == Listing {
      StackEntered(s, l, t, s', l');
    } else {
      OwnEntered(s, l, t, s', l');
    }
  }

  /** A thread that has a chunk enters its steps in the counters; that it has one is kept along a run. */
  ghost predicate Enters(s: State, t: Tid, s': State) {
    t in s.pc && (NotNull(s.pc[t]) ==> Entered(s, t, s'))
  }

  /** Every step of the manager, in a state that its invariant describes. */
  lemma StepEnters(s: State, l: Links, a: L.Abs, t: Tid, lbl: Label, s': State, l': Links)
    requires C.Inv(s, l, a) && Next(s, l, t, lbl, s', l')
    ensures Enters(s, t, s')
  {
    C.StackFacts(s.lf, l, a, t);
    IsStackStep(s, l, t, lbl, s', l');
    StackStep(s.lf, l, t, StackLabel(s, t, lbl, s'), s'.lf, l');
    Shape(s, l, t, lbl, s', l');
    if NotNull(s.pc[t]) {
      StepEntered(s, l, t, lbl, s', l');
    }
  }

  lemma StillEnters(s: State, t: Tid)
    requires t in s.pc && t in s.lf.pc
    ensures Enters(s, t, s)
  {
    if NotNull(s.pc[t]) {
      StillEntered(s, t);
    }
  }

  lemma TickKeeps(s: State, t: Tid, s': State, c: Tally)
    requires Accounts(s, c) && Entered(s, t, s')
    ensures Accounts(s', Tick(c, s, t, s'))
  {
    C.OneElement(PopsPending(s), PopsPending(s'), t);
    C.OneElement(PushesPending(s), PushesPending(s'), t);
    C.OneElement(C.BumpsOwed(s), C.BumpsOwed(s'), t);
    C.OneElement(GetsPending(s), GetsPending(s'), t);
    C.OneElement(FreesPending(s), FreesPending(s'), t);
  }

  // ---------------------------------------------------------------- over every run

  ghost predicate AllNotNull(s: State) {
    forall t | t in s.pc :: NotNull(s.pc[t])
  }

  lemma NotNullKept(s: State, t: Tid, s': State)
    requires AllNotNull(s) && Entered(s, t, s')
    ensures AllNotNull(s')
  {
  }

  lemma InitAccounts(s: State)
    requires Init(s)
    ensures AllNotNull(s) && Accounts(s, Tally(0, 0, 0, 0, 0))
  {
    assert PopsPending(s) == {} && PushesPending(s) == {} && C.BumpsOwed(s) == {};
    assert GetsPending(s) == {} && FreesPending(s) == {};
  }

  /** Whatever the machine around the manager, from the start its counters count what its steps do. */
  lemma {:induction false} RunAccounts(ms: seq<State>, ts: seq<Tid>)
    requires |ms| == |ts| + 1 && Init(ms[0])
    requires forall i | 0 <= i < |ts| :: Enters(ms[i], ts[i], ms[i + 1])
    ensures AllNotNull(ms[|ts|]) && Accounts(ms[|ts|], TallyOf(ms, ts))
    decreases |ts|
  {
    if ts == [] {
      InitAccounts(ms[0]);
    } else {
      var n := |ts| - 1;
      RunAccounts(ms[..n + 1], ts[..n]);
      assert Enters(ms[n], ts[n], ms[n + 1]);
      NotNullKept(ms[n], ts[n], ms[n + 1]);
      TickKeeps(ms[n], ts[n], ms[n + 1], TallyOf(ms[..n + 1], ts[..n]));
    }
  }

  /** The chunk manager's own runs. */
  function States(cs: seq<MT.Config>): (ms: seq<State>) {
    seq(|cs|, i requires 0 <= i < |cs| => cs[i].s)
  }

  function Threads(evs: seq<MT.Event>): (ts: seq<Tid>) {
    seq(|evs|, i requires 0 <= i < |evs| => evs[i].0)
  }

  lemma ConfigEnters(c: MT.Config, e: MT.Event, c': MT.Config)
    requires MT.Reached(c) && MT.Step(c, e, c')
    ensures Enters(c.s, e.0, c'.s)
  {
    MT.HasAbs(c);
    var a :| MT.Rel(c, a);
    StepEnters(c.s, c.l, a, e.0, e.1, c'.s, c'.l);
  }

  /**
   Over every run: perf_alloc_from_free is the pops that have taken a chunk,
   perf_dealloc the pushes that have taken effect, perf_alloc the bumps, each less
   those whose thread has not yet come to count them; and together they are the
   calls that have returned, and those about to.
   */
  lemma CountersCount(cs: seq<MT.Config>, evs: seq<MT.Event>)
    requires Run(MT.Start, MT.Step, cs, evs)
    ensures Accounts(cs[|evs|].s, TallyOf(States(cs), Threads(evs)))
  {
    var ms, ts := States(cs), Threads(evs);
    forall i | 0 <= i < |ts| ensures Enters(ms[i], ts[i], ms[i + 1]) {
      Prefix(MT.Start, MT.Step, cs, evs, i);
      ReachableByRun(MT.Start, MT.Step, cs[..i + 1], evs[..i]);
      assert MT.Step(cs[i], evs[i], cs[i + 1]);
      ConfigEnters(cs[i], evs[i], cs[i + 1]);
    }
    RunAccounts(ms, ts);
  }

  /** Each counter is what has happened. */
  ghost predicate Exactly(s: State, c: Tally) {
    && s.perfFromFree == c.pops && s.perfDealloc == c.pushes == c.frees
    && s.perfAlloc == c.bumps && s.perfAlloc + s.perfFromFree == c.gets
  }

  /** When no call is under way, to the unit. */
  lemma CountersAtRest(s: State, c: Tally)
    requires Accounts(s, c) && forall t | t in s.pc :: s.pc[t] == Idle
    ensures Exactly(s, c)
  {
    assert PopsPending(s) == {} && PushesPending(s) == {} && C.BumpsOwed(s) == {};
    assert GetsPending(s) == {} && FreesPending(s) == {};
  }

  /** At quiescence each counter is to the unit what its name says, and with them go the chunks reserved, the length of
      the free stack and the chunks held. */
  lemma CountersBalance(cs: seq<MT.Config>, evs: seq<MT.Event>, stack: seq<Ptr>)
    requires Run(MT.Start, MT.Step, cs, evs) && MT.Quiescent(cs[|evs|])
    requires L.Chain(stack, cs[|evs|].l, cs[|evs|].s.lf.head.ptr)
    ensures Exactly(cs[|evs|].s, TallyOf(States(cs), Threads(evs)))
    ensures var s := cs[|evs|].s;
            && s.perfAlloc == (s.head - s.base) / CHUNK_SIZE
            && |stack| == s.perfDealloc - s.perfFromFree
            && |s.held.Keys| == s.perfAlloc + s.perfFromFree - s.perfDealloc
  {
    CountersCount(cs, evs);
    CountersAtRest(cs[|evs|].s, TallyOf(States(cs), Threads(evs)));
    ReachableByRun(MT.Start, MT.Step, cs, evs);
    MT.QuietChunks(cs[|evs|], stack);
  }

  /** What is counted as a return is a return, and nothing else is. */
  lemma ReturnsAreReturns(s: State, l: Links, t: Tid, lbl: Label, s': State, l': Links)
    requires Next(s, l, t, lbl, s', l')
    ensures Gets(s, t, s') <==> lbl.RetAlloc? && lbl.p != 0
    ensures Frees(s, t, s') <==> lbl == RetFree
  {
  }
}
