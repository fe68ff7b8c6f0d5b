/** The chunk manager's calls end: a thread in the middle of one, whatever it saw before, completes it by steps of its
    own once the others leave the manager alone. */
module MmapProgress {
  import opened Runs
  import L = LfStack
  import LT = LfStackTheorems
  import LP = LfStackProgress
  import opened Mmap
  import C = MmapCounters
  import opened MmapTheorems

  /** One step of thread t on its own. */
  ghost function Own(t: Tid): (Config, Config) -> bool {
    (x, y) => Step(x, (t, Tau), y)
  }

  /** Thread t alone takes the manager from c to d, in n steps. */
  ghost predicate Alone(t: Tid, n: nat, c: Config, d: Config) {
    Takes(Own(t), n, c, d)
  }

  lemma AloneNot(t: Tid, c: Config)
    ensures Alone(t, 0, c, c)
  {
  }

  lemma AloneStep(t: Tid, n: nat, c: Config, x: Config, d: Config)
    requires Step(c, (t, Tau), x) && Alone(t, n, x, d)
    ensures Alone(t, n + 1, c, d)
  {
    TakesStep(Own(t), n, c, x, d);
  }

  lemma AloneOnce(t: Tid, c: Config, d: Config)
    requires Step(c, (t, Tau), d)
    ensures Alone(t, 1, c, d)
  {
    AloneNot(t, d);
    AloneStep(t, 0, c, d, d);
  }

  lemma AloneJoin(t: Tid, m: nat, k: nat, c: Config, x: Config, d: Config) returns (n: nat)
    requires Alone(t, m, c, x) && Alone(t, k, x, d)
    ensures n == m + k && Alone(t, n, c, d)
  {
    TakesJoin(Own(t), m, k, c, x, d);
    n := m + k;
  }

  lemma AloneReached(t: Tid, n: nat, c: Config, d: Config)
    requires Reached(c) && Alone(t, n, c, d)
    ensures Reached(d)
  {
    forall x, y | Reached(x) && Step(x, (t, Tau), y) ensures Reached(y) {
      ReachStep(Start, Step, x, (t, Tau), y);
    }
    TakesKeeps(Own(t), Reached, n, c, d);
  }

  // ---------------------------------------------------------------- the stack inside the manager

  function StackOf(c: Config): L.Config {
    L.Config(c.s.lf, c.l)
  }

  ghost predicate StackReached(c: Config) {
    Reached(c) && LT.Reached(StackOf(c))
  }

  lemma StackReachedStep(c: Config, e: Event, c': Config)
    requires StackReached(c) && Step(c, e, c')
    ensures StackReached(c')
  {
    HasAbs(c);
    var a :| Rel(c, a);
    C.StackFacts(c.s.lf, c.l, a, e.0);
    IsStackStep(c.s, c.l, e.0, e.1, c'.s, c'.l);
    ReachStep(L.Start, L.Step, StackOf(c), (e.0, StackLabel(c.s, e.0, e.1, c'.s)), StackOf(c'));
    ReachStep(Start, Step, c, e, c');
  }

  /** The stack inside a manager is a stack that its own machine reaches. */
  lemma IsReached(c: Config)
    requires Reached(c)
    ensures LT.Reached(StackOf(c))
  {
    forall c | Start(c) ensures StackReached(c) {
      ReachInit(Start, Step, c);
      ReachInit(L.Start, L.Step, StackOf(c));
    }
    forall c, e, c' | StackReached(c) && Step(c, e, c') ensures StackReached(c') { StackReachedStep(c, e, c'); }
    Invariant(Start, Step, StackReached, c);
  }

  /** The manager with its stack replaced. */
  function With(c: Config, d: L.Config): Config {
    Config(c.s.(lf := d.s), d.l)
  }

  /** Thread t is inside an operation of the stack. */
  predicate InStack(c: Config, t: Tid) {
    t in c.s.pc && (c.s.pc[t] == AllocPop || c.s.pc[t] == FreePush || c.s.pc[t] == Listing)
  }

  lemma LiftStep(c: Config, t: Tid, x: L.Config)
    requires InStack(c, t) && t in c.s.lf.pc && L.Step(StackOf(c), (t, L.Tau), x)
    ensures Step(c, (t, Tau), With(c, x))
  {
  }

  /** What the stack's machine does alone, it does inside the manager. */
  lemma {:induction false} Lift(c: Config, t: Tid, n: nat, d: L.Config)
    requires InStack(c, t) && LP.Alone(t, n, StackOf(c), d)
    ensures Alone(t, n, c, With(c, d))
    decreases n
  {
    if n == 0 {
      assert With(c, d) == c;
      AloneNot(t, c);
    } else {
      var x :| L.Step(StackOf(c), (t, L.Tau), x) && LP.Alone(t, n - 1, x, d);
      LiftStep(c, t, x);
      Lift(With(c, x), t, n - 1, d);
      assert With(With(c, x), d) == With(c, d);
      AloneStep(t, n - 1, c, With(c, x), With(c, d));
    }
  }

  // ---------------------------------------------------------------- the bump loop

  /** alloc_chunk has come to its end: with a chunk, with null, or in a failed assert. */
  predicate AllocEnds(pc: PC) {
    pc.AllocDone? || pc == Aborted
  }

  lemma CountsAndEnds(c: Config, t: Tid) returns (n: nat, d: Config)
    requires t in c.s.pc && t in c.s.lf.pc && (c.s.pc[t].BumpGot? || c.s.pc[t].AllocGotFree?)
    ensures n <= 1 && Alone(t, n, c, d) && t in d.s.pc && d.s.pc[t] == AllocDone(c.s.pc[t].p)
  {
    n, d := 1, Exec(c, t);
    ExecSteps(c, t);
    AloneOnce(t, c, d);
  }

  lemma BumpFresh(c: Config, t: Tid) returns (n: nat, d: Config)
    requires Frontier(c.s) && t in c.s.pc && t in c.s.lf.pc && BumpOk(c.s, c.s.pc[t])
    requires c.s.pc[t].BumpCas? && c.s.pc[t].cur == c.s.head
    ensures n <= 2 && Alone(t, n, c, d) && t in d.s.pc && d.s.pc[t] == AllocDone(c.s.head)
  {
    ExecSteps(c, t);
    n, d := CountsAndEnds(Exec(c, t), t);
    AloneStep(t, n, c, Exec(c, t), d);
    n := n + 1;
  }

  lemma LoadStep(c: Config, t: Tid) returns (x: Config)
    requires t in c.s.pc && t in c.s.lf.pc && (c.s.pc[t] == BumpLoad || c.s.pc[t].BumpCas?)
    ensures Step(c, (t, Tau), x) && x == Config(Go(c.s, t, BumpLoaded(c.s.base, c.s.head), c.s.lf), c.l)
  {
    x := Config(Go(c.s, t, BumpLoaded(c.s.base, c.s.head), c.s.lf), c.l);
  }

  lemma BumpFromLoad(c: Config, t: Tid) returns (n: nat, d: Config)
    requires Frontier(c.s) && t in c.s.pc && t in c.s.lf.pc && BumpOk(c.s, c.s.pc[t])
    requires c.s.pc[t] == BumpLoad || c.s.pc[t].BumpCas?
    ensures n <= 3 && Alone(t, n, c, d) && t in d.s.pc && AllocEnds(d.s.pc[t])
  {
    var x := LoadStep(c, t);
    n, d := AfterLoad(x, t);
    AloneStep(t, n, c, x, d);
    n := n + 1;
  }

  lemma AfterLoad(x: Config, t: Tid) returns (n: nat, d: Config)
    requires Frontier(x.s) && t in x.s.pc && t in x.s.lf.pc && x.s.pc[t] == BumpLoaded(x.s.base, x.s.head)
    ensures n <= 2 && Alone(t, n, x, d) && t in d.s.pc && AllocEnds(d.s.pc[t])
  {
    if x.s.pc[t].BumpCas? {
      BumpLoadedIs(x.s.base, x.s.head);
      n, d := BumpFresh(x, t);
    } else {
      n, d := 0, x;
      AloneNot(t, x);
    }
  }

  /** In at most three steps the bump loop ends. */
  lemma BumpAlone(c: Config, t: Tid) returns (n: nat, d: Config)
    requires Frontier(c.s) && t in c.s.pc && t in c.s.lf.pc && BumpOk(c.s, c.s.pc[t])
    requires c.s.pc[t] == BumpLoad || c.s.pc[t].BumpCas?
    ensures n <= 3 && Alone(t, n, c, d) && t in d.s.pc && AllocEnds(d.s.pc[t])
  {
    if c.s.pc[t].BumpCas? && c.s.pc[t].cur == c.s.head {
      n, d := BumpFresh(c, t);
    } else {
      n, d := BumpFromLoad(c, t);
    }
  }

  // ---------------------------------------------------------------- each call

  lemma PopReturns(c: Config, t: Tid) returns (n: nat, d: Config)
    requires Frontier(c.s) && t in c.s.pc && t in c.s.lf.pc && c.s.pc[t] == AllocPop && c.s.lf.pc[t].PopDone?
    ensures n <= 4 && Alone(t, n, c, d) && t in d.s.pc && AllocEnds(d.s.pc[t])
  {
    var x := Exec(c, t);
    ExecSteps(c, t);
    if x.s.pc[t].AllocGotFree? {
      n, d := CountsAndEnds(x, t);
    } else {
      n, d := BumpAlone(x, t);
    }
    AloneStep(t, n, c, x, d);
    n := n + 1;
  }

  lemma PhaseHere(c: Config, t: Tid)
    requires Reached(c) && t in c.s.pc
    ensures t in c.s.lf.pc && StackPhase(c.s.pc[t], c.s.lf.pc[t]) && BumpOk(c.s, c.s.pc[t]) && Frontier(c.s)
  {
    HasAbs(c);
    var a :| Rel(c, a);
  }

  /** In at most eight steps alloc_chunk ends. */
  lemma AllocAlone(c: Config, t: Tid) returns (n: nat, d: Config)
    requires Reached(c) && t in c.s.pc
    requires c.s.pc[t] == AllocPop || c.s.pc[t].AllocGotFree? || c.s.pc[t] == BumpLoad || c.s.pc[t].BumpCas?
        || c.s.pc[t].BumpGot?
    ensures n <= 8 && Alone(t, n, c, d) && t in d.s.pc && AllocEnds(d.s.pc[t])
  {
    PhaseHere(c, t);
    if c.s.pc[t] == AllocPop {
      n, d := PopThenEnds(c, t);
    } else if c.s.pc[t] == BumpLoad || c.s.pc[t].BumpCas? {
      n, d := BumpAlone(c, t);
    } else {
      n, d := CountsAndEnds(c, t);
    }
  }

  lemma Pops(c: Config, t: Tid) returns (n: nat, x: Config)
    requires Reached(c) && t in c.s.pc && t in c.s.lf.pc && c.s.pc[t] == AllocPop
    requires StackPhase(c.s.pc[t], c.s.lf.pc[t]) && !c.s.lf.pc[t].PopDone?
    ensures n <= 4 && Alone(t, n, c, x) && x.s == c.s.(lf := x.s.lf) && x.s.lf.nodes == c.s.lf.nodes
    ensures t in x.s.pc && t in x.s.lf.pc && x.s.pc[t] == AllocPop && x.s.lf.pc[t].PopDone?
  {
    IsReached(c);
    var y;
    n, y := LP.PopAlone(StackOf(c), t);
    x := With(c, y);
    Lift(c, t, n, y);
  }

  lemma PopThenEnds(c: Config, t: Tid) returns (n: nat, d: Config)
    requires Reached(c) && t in c.s.pc && t in c.s.lf.pc && c.s.pc[t] == AllocPop
    requires StackPhase(c.s.pc[t], c.s.lf.pc[t]) && Frontier(c.s)
    ensures n <= 8 && Alone(t, n, c, d) && t in d.s.pc && AllocEnds(d.s.pc[t])
  {
    if c.s.lf.pc[t].PopDone? {
      n, d := PopReturns(c, t);
    } else {
      n, d := PopsThenEnds(c, t);
    }
  }

  lemma PopsThenEnds(c: Config, t: Tid) returns (n: nat, d: Config)
    requires Reached(c) && t in c.s.pc && t in c.s.lf.pc && c.s.pc[t] == AllocPop
    requires StackPhase(c.s.pc[t], c.s.lf.pc[t]) && !c.s.lf.pc[t].PopDone? && Frontier(c.s)
    ensures n <= 8 && Alone(t, n, c, d) && t in d.s.pc && AllocEnds(d.s.pc[t])
  {
    var m, x := Pops(c, t);
    var k;
    k, d := PopReturns(x, t);
    n := AloneJoin(t, m, k, c, x, d);
  }

  lemma PushReturns(c: Config, t: Tid) returns (n: nat, d: Config)
    requires t in c.s.pc && t in c.s.lf.pc && c.s.pc[t] == FreePush && c.s.lf.pc[t] == L.PushDone
    ensures n <= 2 && Alone(t, n, c, d) && t in d.s.pc && d.s.pc[t] == FreeDone
  {
    var x := Config(Go(c.s, t, FreeCount, L.Go(c.s.lf, t, L.Idle)), c.l);
    n, d := CountedFree(x, t);
    assert Step(c, (t, Tau), x);
    AloneStep(t, n, c, x, d);
    n := n + 1;
  }

  lemma CountedFree(c: Config, t: Tid) returns (n: nat, d: Config)
    requires t in c.s.pc && t in c.s.lf.pc && c.s.pc[t] == FreeCount
    ensures n <= 1 && Alone(t, n, c, d) && t in d.s.pc && d.s.pc[t] == FreeDone
  {
    d := Config(Go(c.s, t, FreeDone, c.s.lf).(perfDealloc := c.s.perfDealloc + 1), c.l);
    n := 1;
    assert Step(c, (t, Tau), d);
    AloneOnce(t, c, d);
  }

  lemma PushesBack(c: Config, t: Tid) returns (n: nat, x: Config)
    requires Reached(c) && t in c.s.pc && t in c.s.lf.pc && c.s.pc[t] == FreePush
    requires StackPhase(c.s.pc[t], c.s.lf.pc[t]) && c.s.lf.pc[t] != L.PushDone
    ensures n <= 4 && Alone(t, n, c, x)
    ensures t in x.s.pc && t in x.s.lf.pc && x.s.pc[t] == FreePush && x.s.lf.pc[t] == L.PushDone
  {
    IsReached(c);
    var y;
    n, y := LP.PushAlone(StackOf(c), t);
    x := With(c, y);
    Lift(c, t, n, y);
  }

  /** In at most six steps free_chunk ends. */
  lemma FreeAlone(c: Config, t: Tid) returns (n: nat, d: Config)
    requires Reached(c) && t in c.s.pc && (c.s.pc[t] == FreePush || c.s.pc[t] == FreeCount)
    ensures n <= 6 && Alone(t, n, c, d) && t in d.s.pc && d.s.pc[t] == FreeDone
  {
    PhaseHere(c, t);
    if c.s.pc[t] == FreeCount {
      n, d := CountedFree(c, t);
    } else if c.s.lf.pc[t] == L.PushDone {
      n, d := PushReturns(c, t);
    } else {
      n, d := PushThenEnds(c, t);
    }
  }

  lemma PushThenEnds(c: Config, t: Tid) returns (n: nat, d: Config)
    requires Reached(c) && t in c.s.pc && t in c.s.lf.pc && c.s.pc[t] == FreePush
    requires StackPhase(c.s.pc[t], c.s.lf.pc[t]) && c.s.lf.pc[t] != L.PushDone
    ensures n <= 6 && Alone(t, n, c, d) && t in d.s.pc && d.s.pc[t] == FreeDone
  {
    var m, x := PushesBack(c, t);
    var k;
    k, d := PushReturns(x, t);
    n := AloneJoin(t, m, k, c, x, d);
  }

  /** The walk of count_free_list ends. */
  lemma ListAlone(c: Config, t: Tid) returns (n: nat, d: Config)
    requires Reached(c) && t in c.s.pc && c.s.pc[t] == Listing
    ensures Alone(t, n, c, d) && t in d.s.pc && d.s.pc[t] == Listing
    ensures t in d.s.lf.pc && d.s.lf.pc[t].EachWalk? && d.s.lf.pc[t].ptr == 0
  {
    PhaseHere(c, t);
    IsReached(c);
    LP.CompletesAlone(StackOf(c), t);
    var y;
    n, y :| LP.Alone(t, n, StackOf(c), y) && t in y.s.pc && LP.CanReturn(y.s.pc[t]);
    Lift(c, t, n, y);
    d := With(c, y);
    AloneReached(t, n, c, d);
    PhaseHere(d, t);
  }

  /** A call that was at pc has only to return. */
  predicate Completed(pc: PC, s: State, t: Tid) {
    && t in s.pc && t in s.lf.pc
    && match pc
       case FreePush => s.pc[t] == FreeDone
       case FreeCount => s.pc[t] == FreeDone
       case Listing => s.pc[t] == Listing && s.lf.pc[t].EachWalk? && s.lf.pc[t].ptr == 0
       case _ => AllocEnds(s.pc[t])
  }

  /**
   From every reachable state, any thread inside alloc_chunk, free_chunk or
   count_free_list completes it by steps of its own, whatever the others are in the
   middle of.
   */
  lemma CallsComplete(c: Config, t: Tid)
    requires Reached(c) && t in c.s.pc && c.s.pc[t] != Idle && c.s.pc[t] != FreeDone && !AllocEnds(c.s.pc[t])
    ensures exists n, d :: Alone(t, n, c, d) && Completed(c.s.pc[t], d.s, t)
  {
    var n, d;
    if c.s.pc[t] == FreePush || c.s.pc[t] == FreeCount {
      n, d := FreeAlone(c, t);
    } else if c.s.pc[t] == Listing {
      n, d := ListAlone(c, t);
    } else {
      n, d := AllocAlone(c, t);
    }
    AloneReached(t, n, c, d);
    PhaseHere(d, t);
    assert Alone(t, n, c, d) && Completed(c.s.pc[t], d.s, t);
  }
}
