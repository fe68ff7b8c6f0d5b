/** The stack's retry loops end: a thread in the middle of an operation, whatever it saw of the head before, completes
    it by a few steps of its own once the others leave the stack alone. */
module LfStackProgress {
  import opened Runs
  import opened LfStack
  import opened LfStackTheorems

  /** One access of thread t. */
  ghost function Own(t: Tid): (Config, Config) -> bool {
    (x, y) => Step(x, (t, Tau), y)
  }

  /** Thread t alone takes the machine from c to d, in n accesses. */
  ghost predicate Alone(t: Tid, n: nat, c: Config, d: Config) {
    Takes(Own(t), n, c, d)
  }

  lemma AloneStep(t: Tid, n: nat, c: Config, x: Config, d: Config)
    requires Step(c, (t, Tau), x) && Alone(t, n, x, d)
    ensures Alone(t, n + 1, c, d)
  {
    TakesStep(Own(t), n, c, x, d);
  }

  lemma AloneJoin(t: Tid, m: nat, k: nat, c: Config, x: Config, d: Config) returns (n: nat)
    requires Alone(t, m, c, x) && Alone(t, k, x, d)
    ensures n == m + k && Alone(t, n, c, d)
  {
    TakesJoin(Own(t), m, k, c, x, d);
    n := m + k;
  }

  lemma StepReached(c: Config, e: Event, d: Config)
    requires Reached(c) && Step(c, e, d)
    ensures Reached(d)
  {
    ReachStep(Start, Step, c, e, d);
  }

  lemma AloneReached(t: Tid, n: nat, c: Config, d: Config)
    requires Reached(c) && Alone(t, n, c, d)
    ensures Reached(d)
  {
    forall x, y | Reached(x) && Step(x, (t, Tau), y) ensures Reached(y) { StepReached(x, (t, Tau), y); }
    TakesKeeps(Own(t), Reached, n, c, d);
  }

  /** What the simulation says of thread t. */
  lemma Facts(c: Config, t: Tid) returns (a: Abs)
    requires Reached(c) && t in c.s.pc
    ensures t in a.st && ThreadOk(c.s.pc[t], a.st[t], c.s, c.l, a.stack)
    ensures Chain(a.stack, c.l, c.s.head.ptr) && 0 !in c.s.nodes && NoDup(Transit(a.st[t]))
  {
    HasAbs(c);
    a :| Related(c, a);
    assert Carries(a, t);
  }

  lemma AloneNot(t: Tid, c: Config)
    ensures Alone(t, 0, c, c)
  {
  }

  // ---------------------------------------------------------------- one access

  /** Thread t is before its next access of the stack's code. */
  predicate AtAccess(pc: PC) {
    && pc != Idle && !pc.PopDone? && pc != PushDone
    && (pc.EachWalk? ==> pc.ptr != 0)
  }

  /** That access, with a CAS that fails only if it must. */
  function Try(c: Config, t: Tid): Config
    requires t in c.s.pc && AtAccess(c.s.pc[t])
  {
    var s := c.s;
    match s.pc[t]
    case PopLoad => Config(Go(s, t, PopLoaded(s.head)), c.l)
    case PopRead(curr) => Config(Go(s, t, PopCas(curr, c.l(curr.ptr))), c.l)
    case PopCas(curr, next) =>
      if s.head != curr then Config(Go(s, t, PopLoaded(s.head)), c.l)
      else Config(Go(s, t, PopDone(curr.ptr)).(head := Head(curr.aba + 1, next)), c.l)
    case PushLoad(n, k) => Config(Go(s, t, PushWrite(n, s.head, k)), c.l)
    case PushWrite(n, curr, k) => Config(Go(s, t, PushCas(n, curr, k)), p => if p == n then curr.ptr else c.l(p))
    case PushCas(n, curr, k) =>
      if s.head != curr then Config(Go(s, t, PushWrite(n, s.head, k)), c.l)
      else Config(Go(s, t, PushFinished(k)).(head := Head(curr.aba + 1, n)), c.l)
    case EachLoad => Config(Go(s, t, EachLoaded(s.head)), c.l)
    case EachCas(curr) =>
      if s.head != curr then Config(Go(s, t, EachLoaded(s.head)), c.l)
      else Config(Go(s, t, EachWalk(curr.ptr, [])).(head := Head(curr.aba + 1, 0)), c.l)
    case EachWalk(p, seen) => Config(Go(s, t, PushLoad(p, Resume(c.l(p), seen + [p]))), c.l)
  }

  lemma TrySteps(c: Config, t: Tid)
    requires t in c.s.pc && AtAccess(c.s.pc[t])
    ensures Step(c, (t, Tau), Try(c, t))
  {
  }

  lemma TryAlone(c: Config, t: Tid, n: nat, d: Config)
    requires t in c.s.pc && AtAccess(c.s.pc[t]) && Alone(t, n, Try(c, t), d)
    ensures Alone(t, n + 1, c, d)
  {
    TrySteps(c, t);
    AloneStep(t, n, c, Try(c, t), d);
  }

  lemma TryThen(c: Config, t: Tid, k: nat, d: Config) returns (n: nat)
    requires t in c.s.pc && AtAccess(c.s.pc[t]) && Alone(t, k, Try(c, t), d)
    ensures n == k + 1 && Alone(t, n, c, d)
  {
    TryAlone(c, t, k, d);
    n := k + 1;
  }

  // ---------------------------------------------------------------- pop

  /** A pop has got the head of the stack as it is in c, or null if it is empty. */
  ghost predicate PopsTop(c: Config, t: Tid, d: Config) {
    && t in d.s.pc && d.s.pc[t] == PopDone(c.s.head.ptr) && d.l == c.l && d.s.nodes == c.s.nodes
    && (c.s.head.ptr != 0 ==> d.s.head == Head(c.s.head.aba + 1, c.l(c.s.head.ptr)))
    && (c.s.head.ptr == 0 ==> d.s.head == c.s.head)
  }

  lemma PopFresh(c: Config, t: Tid) returns (d: Config)
    requires t in c.s.pc && c.s.pc[t] == PopRead(c.s.head)
    requires c.s.head.ptr != 0
    ensures Alone(t, 2, c, d) && PopsTop(c, t, d)
  {
    var x := Try(c, t);
    d := Try(x, t);
    TryAlone(x, t, 0, d);
    TryAlone(c, t, 1, d);
  }

  lemma PopFromLoad(c: Config, t: Tid) returns (n: nat, d: Config)
    requires t in c.s.pc
    requires c.s.pc[t] == PopLoad || (c.s.pc[t].PopCas? && c.s.pc[t].curr != c.s.head)
    ensures n <= 3 && Alone(t, n, c, d) && PopsTop(c, t, d)
  {
    var x := Try(c, t);
    if c.s.head.ptr == 0 {
      n, d := 1, x;
      TryAlone(c, t, 0, x);
    } else {
      d := PopFresh(x, t);
      n := 3;
      TryAlone(c, t, 2, d);
    }
  }

  lemma PopAtCas(c: Config, t: Tid) returns (n: nat, d: Config)
    requires t in c.s.pc && c.s.pc[t].PopCas?
    requires c.s.pc[t].curr == c.s.head ==> c.s.head.ptr != 0 && c.s.pc[t].next == c.l(c.s.head.ptr)
    ensures n <= 3 && Alone(t, n, c, d) && PopsTop(c, t, d)
  {
    if c.s.pc[t].curr == c.s.head {
      n, d := 1, Try(c, t);
      TryAlone(c, t, 0, d);
    } else {
      n, d := PopFromLoad(c, t);
    }
  }

  lemma CasIsRight(c: Config, t: Tid)
    requires Reached(c) && t in c.s.pc && c.s.pc[t].PopCas? && c.s.pc[t].curr == c.s.head
    ensures c.s.head.ptr != 0 && c.s.pc[t].next == c.l(c.s.head.ptr)
  {
    var a := Facts(c, t);
    assert Chain(a.stack[1..], c.l, c.l(a.stack[0]));
  }

  /** In at most four accesses a pop has its result: the top of the stack as it is now. */
  lemma PopAlone(c: Config, t: Tid) returns (n: nat, d: Config)
    requires Reached(c) && t in c.s.pc && (c.s.pc[t] == PopLoad || c.s.pc[t].PopRead? || c.s.pc[t].PopCas?)
    ensures n <= 4 && Alone(t, n, c, d) && PopsTop(c, t, d)
  {
    if c.s.pc[t] == PopLoad {
      n, d := PopFromLoad(c, t);
    } else if c.s.pc[t].PopCas? {
      if c.s.pc[t].curr == c.s.head {
        CasIsRight(c, t);
      }
      n, d := PopAtCas(c, t);
    } else {
      var a := Facts(c, t);
      n, d := PopAtCas(Try(c, t), t);
      TryAlone(c, t, n, d);
      n := n + 1;
    }
  }

  // ---------------------------------------------------------------- push

  /** A push has put its node on top of the stack as it is in c, and goes on. */
  ghost predicate PushesTop(c: Config, t: Tid, node: Ptr, k: Cont, d: Config) {
    && t in d.s.pc && d.s.pc[t] == PushFinished(k) && d.s.head == Head(c.s.head.aba + 1, node)
    && d.l(node) == c.s.head.ptr && (forall p | p != node :: d.l(p) == c.l(p)) && d.s.nodes == c.s.nodes
  }

  lemma PushFresh(c: Config, t: Tid) returns (d: Config)
    requires t in c.s.pc && c.s.pc[t].PushWrite? && c.s.pc[t].curr == c.s.head
    ensures Alone(t, 2, c, d) && PushesTop(c, t, c.s.pc[t].node, c.s.pc[t].k, d)
  {
    var x := Try(c, t);
    d := Try(x, t);
    TryAlone(x, t, 0, d);
    TryAlone(c, t, 1, d);
  }

  lemma PushFromLoad(c: Config, t: Tid) returns (d: Config)
    requires t in c.s.pc
    requires c.s.pc[t].PushLoad? || (c.s.pc[t].PushCas? && c.s.pc[t].curr != c.s.head)
    ensures Alone(t, 3, c, d) && PushesTop(c, t, c.s.pc[t].node, c.s.pc[t].k, d)
  {
    d := PushFresh(Try(c, t), t);
    TryAlone(c, t, 2, d);
  }

  lemma PushAtCas(c: Config, t: Tid) returns (n: nat, d: Config)
    requires t in c.s.pc && c.s.pc[t].PushCas? && c.l(c.s.pc[t].node) == c.s.pc[t].curr.ptr
    ensures n <= 3 && Alone(t, n, c, d) && PushesTop(c, t, c.s.pc[t].node, c.s.pc[t].k, d)
  {
    if c.s.pc[t].curr == c.s.head {
      n, d := 1, Try(c, t);
      TryAlone(c, t, 0, d);
    } else {
      n := 3;
      d := PushFromLoad(c, t);
    }
  }

  /** In at most four accesses a push has put its node on top of the stack as it is now. */
  lemma PushAlone(c: Config, t: Tid) returns (n: nat, d: Config)
    requires Reached(c) && t in c.s.pc && (c.s.pc[t].PushLoad? || c.s.pc[t].PushWrite? || c.s.pc[t].PushCas?)
    ensures n <= 4 && Alone(t, n, c, d) && PushesTop(c, t, c.s.pc[t].node, c.s.pc[t].k, d)
  {
    if c.s.pc[t].PushLoad? {
      n := 3;
      d := PushFromLoad(c, t);
    } else if c.s.pc[t].PushCas? {
      var a := Facts(c, t);
      n, d := PushAtCas(c, t);
    } else {
      n, d := PushAtWrite(c, t);
    }
  }

  lemma PushAtWrite(c: Config, t: Tid) returns (n: nat, d: Config)
    requires t in c.s.pc && c.s.pc[t].PushWrite?
    ensures n <= 4 && Alone(t, n, c, d) && PushesTop(c, t, c.s.pc[t].node, c.s.pc[t].k, d)
  {
    var x := Try(c, t);
    var m;
    m, d := PushAtCas(x, t);
    n := TryThen(c, t, m, d);
  }

  // ---------------------------------------------------------------- for_each

  /** In at most two accesses a for_each has taken the whole stack as it is now. */
  lemma TakeAlone(c: Config, t: Tid) returns (n: nat, d: Config)
    requires Reached(c) && t in c.s.pc && (c.s.pc[t] == EachLoad || c.s.pc[t].EachCas?)
    ensures n <= 2 && Alone(t, n, c, d)
    ensures t in d.s.pc && d.s.pc[t] == EachWalk(c.s.head.ptr, []) && d.s.head.ptr == 0 && d.l == c.l
  {
    if c.s.pc[t].EachCas? && c.s.pc[t].curr == c.s.head {
      n, d := 1, Try(c, t);
      TryAlone(c, t, 0, d);
    } else {
      var x := Try(c, t);
      if c.s.head.ptr == 0 {
        n, d := 1, x;
        TryAlone(c, t, 0, x);
      } else {
        n, d := 2, Try(x, t);
        TryAlone(x, t, 0, d);
        TryAlone(c, t, 1, d);
      }
    }
  }

  /** Nodes still to visit. */
  ghost predicate ToVisit(c: Config, t: Tid, rest: seq<Ptr>) {
    && t in c.s.pc
    && match c.s.pc[t]
       case EachWalk(p, _) => Chain(rest, c.l, p)
       case PushLoad(_, k) => k.Resume? && Chain(rest, c.l, k.next)
       case PushWrite(_, _, k) => k.Resume? && Chain(rest, c.l, k.next)
       case PushCas(_, _, k) => k.Resume? && Chain(rest, c.l, k.next)
       case _ => false
  }

  lemma HasRest(c: Config, t: Tid) returns (rest: seq<Ptr>)
    requires Reached(c) && t in c.s.pc
    requires c.s.pc[t].EachWalk?
             || ((c.s.pc[t].PushLoad? || c.s.pc[t].PushWrite? || c.s.pc[t].PushCas?) && c.s.pc[t].k.Resume?)
    ensures ToVisit(c, t, rest)
    ensures !c.s.pc[t].EachWalk? ==> c.s.pc[t].node !in rest
  {
    var a := Facts(c, t);
    rest := a.st[t].rest;
    if !c.s.pc[t].EachWalk? {
      Cons(a.st[t].n, rest);
    }
  }

  /** One node of the walk. */
  lemma NodeAlone(c: Config, t: Tid) returns (n: nat, x: Config, y: Config)
    requires Reached(c) && t in c.s.pc && c.s.pc[t].EachWalk? && c.s.pc[t].ptr != 0
    ensures n <= 5 && Alone(t, n, c, y) && x == Try(c, t) && Reached(x) && Reached(y)
    ensures PushesTop(x, t, x.s.pc[t].node, x.s.pc[t].k, y)
  {
    x := Try(c, t);
    TryReached(c, t);
    var k;
    k, y := PushesOn(x, t);
    n := TryThen(c, t, k, y);
  }

  lemma TryReached(c: Config, t: Tid)
    requires Reached(c) && t in c.s.pc && AtAccess(c.s.pc[t])
    ensures Reached(Try(c, t))
  {
    TrySteps(c, t);
    StepReached(c, (t, Tau), Try(c, t));
  }

  lemma PushesOn(c: Config, t: Tid) returns (n: nat, d: Config)
    requires Reached(c) && t in c.s.pc && c.s.pc[t].PushLoad?
    ensures n <= 4 && Alone(t, n, c, d) && Reached(d) && PushesTop(c, t, c.s.pc[t].node, c.s.pc[t].k, d)
  {
    n, d := PushAlone(c, t);
    AloneReached(t, n, c, d);
  }

  lemma OneFewer(c: Config, t: Tid, rest: seq<Ptr>) returns (n: nat, y: Config)
    requires Reached(c) && t in c.s.pc && c.s.pc[t].EachWalk? && c.s.pc[t].ptr != 0
    requires Chain(rest, c.l, c.s.pc[t].ptr)
    ensures n <= 5 && Alone(t, n, c, y) && Reached(y)
    ensures t in y.s.pc && rest != [] && y.s.pc[t].EachWalk? && Chain(rest[1..], y.l, y.s.pc[t].ptr)
  {
    var x;
    n, x, y := NodeAlone(c, t);
    RestAfter(c, t, x, y, rest);
  }

  /** A walk ends: at most five accesses for each node still to visit. */
  lemma {:induction false} WalkAlone(c: Config, t: Tid, rest: seq<Ptr>) returns (n: nat, d: Config)
    requires Reached(c) && t in c.s.pc && c.s.pc[t].EachWalk? && Chain(rest, c.l, c.s.pc[t].ptr)
    ensures n <= 5 * |rest| && Alone(t, n, c, d) && t in d.s.pc && d.s.pc[t].EachWalk? && d.s.pc[t].ptr == 0
    decreases |rest|
  {
    if rest == [] {
      n, d := 0, c;
      AloneNot(t, c);
    } else {
      var m, y := OneFewer(c, t, rest);
      var k;
      k, d := WalkAlone(y, t, rest[1..]);
      n := AloneJoin(t, m, k, c, y, d);
    }
  }

  lemma RestAfter(c: Config, t: Tid, x: Config, y: Config, rest: seq<Ptr>)
    requires Reached(x) && t in c.s.pc && c.s.pc[t].EachWalk? && c.s.pc[t].ptr != 0 && x == Try(c, t)
    requires Chain(rest, c.l, c.s.pc[t].ptr) && PushesTop(x, t, x.s.pc[t].node, x.s.pc[t].k, y)
    ensures rest != [] && y.s.pc[t].EachWalk? && Chain(rest[1..], y.l, y.s.pc[t].ptr)
  {
    var r := HasRest(x, t);
    ChainUnique(r, rest[1..], c.l, c.l(rest[0]));
    ChainFrame(rest[1..], x.l, y.l, c.l(rest[0]));
  }

  // ---------------------------------------------------------------- every operation

  /** The operation has only to return. */
  predicate CanReturn(pc: PC) {
    pc.PopDone? || pc == PushDone || (pc.EachWalk? && pc.ptr == 0)
  }

  /**
   From every reachable state, any thread inside an operation completes it by
   accesses of its own, whatever the others are in the middle of: a pop or a push
   in at most four, a for_each in a number that the nodes to visit bound.
   */
  lemma CompletesAlone(c: Config, t: Tid)
    requires Reached(c) && t in c.s.pc && c.s.pc[t] != Idle
    ensures exists n, d :: Alone(t, n, c, d) && t in d.s.pc && CanReturn(d.s.pc[t])
  {
    match c.s.pc[t]
    case PopLoad => var n, d := PopAlone(c, t);
    case PopRead(_) => var n, d := PopAlone(c, t);
    case PopCas(_, _) => var n, d := PopAlone(c, t);
    case PushLoad(_, _) => PushCompletes(c, t);
    case PushWrite(_, _, _) => PushCompletes(c, t);
    case PushCas(_, _, _) => PushCompletes(c, t);
    case EachLoad => EachCompletes(c, t);
    case EachCas(_) => EachCompletes(c, t);
    case EachWalk(_, _) => WalkCompletes(c, t);
    case PopDone(_) => AloneNot(t, c);
    case PushDone => AloneNot(t, c);
  }

  lemma WalkCompletes(c: Config, t: Tid)
    requires Reached(c) && t in c.s.pc && c.s.pc[t].EachWalk?
    ensures exists n, d :: Alone(t, n, c, d) && t in d.s.pc && CanReturn(d.s.pc[t])
  {
    var rest := HasRest(c, t);
    var n, d := WalkAlone(c, t, rest);
  }

  lemma PushCompletes(c: Config, t: Tid)
    requires Reached(c) && t in c.s.pc && (c.s.pc[t].PushLoad? || c.s.pc[t].PushWrite? || c.s.pc[t].PushCas?)
    ensures exists n, d :: Alone(t, n, c, d) && t in d.s.pc && CanReturn(d.s.pc[t])
  {
    var m, x := PushAlone(c, t);
    if c.s.pc[t].k.Resume? {
      AloneReached(t, m, c, x);
      WalkCompletes(x, t);
      var n, d :| Alone(t, n, x, d) && t in d.s.pc && CanReturn(d.s.pc[t]);
      var k := AloneJoin(t, m, n, c, x, d);
    }
  }

  lemma EachCompletes(c: Config, t: Tid)
    requires Reached(c) && t in c.s.pc && (c.s.pc[t] == EachLoad || c.s.pc[t].EachCas?)
    ensures exists n, d :: Alone(t, n, c, d) && t in d.s.pc && CanReturn(d.s.pc[t])
  {
    var m, x := TakeAlone(c, t);
    AloneReached(t, m, c, x);
    WalkCompletes(x, t);
    var n, d :| Alone(t, n, x, d) && t in d.s.pc && CanReturn(d.s.pc[t]);
    var k := AloneJoin(t, m, n, c, x, d);
  }
}
