/** What linearizability of the tagged stack means for its users. */
module LfStackTheorems {
  import opened Runs
  import opened LfStack

  ghost predicate Reached(c: Config) {
    Reachable(Start, Step, c)
  }

  lemma HasAbs(c: Config)
    requires Reached(c)
    ensures exists a :: Related(c, a)
  {
    Simulates();
    ReachableRelated(Start, Step, AInit, AtomicStep, Related, c);
  }

  // ---------------------------------------------------------------- ABA freedom

  /**
   Whenever the CAS of a pop would succeed, the node it compares is still linked
   to the `next` it read earlier, and that node is the top of the stack.
   */
  lemma AbaFree(c: Config, t: Tid, stack: seq<Ptr>)
    requires Reached(c) && t in c.s.pc && c.s.pc[t].PopCas? && c.s.pc[t].curr == c.s.head
    requires Chain(stack, c.l, c.s.head.ptr)
    ensures stack != [] && c.s.pc[t].curr.ptr == stack[0]
    ensures c.s.pc[t].next == c.l(stack[0]) == Top(stack[1..])
  {
    var a := View(c, t);
    ChainUnique(stack, a.stack, c.l, c.s.head.ptr);
    assert Chain(a.stack[1..], c.l, c.l(a.stack[0]));
  }

  lemma {:induction false} ChainUnique(s: seq<Ptr>, s': seq<Ptr>, l: Links, p: Ptr)
    requires Chain(s, l, p) && Chain(s', l, p)
    ensures s == s'
  {
    if p != 0 {
      ChainUnique(s[1..], s'[1..], l, l(p));
      assert s == [s[0]] + s[1..] && s' == [s'[0]] + s'[1..];
    }
  }

  lemma View(c: Config, t: Tid) returns (a: Abs)
    requires Reached(c) && t in c.s.pc
    ensures t in a.st && ThreadOk(c.s.pc[t], a.st[t], c.s, c.l, a.stack)
    ensures Chain(a.stack, c.l, c.s.head.ptr)
    ensures 0 !in c.s.nodes && forall p | p in Transit(a.st[t]) :: p in c.s.nodes && p !in c.s.client
  {
    HasAbs(c);
    a :| Related(c, a);
    assert Carries(a, t);
  }

  /** A pop reads `next` only of a node that exists, though possibly one it does not own. */
  lemma PopReadsANode(c: Config, t: Tid)
    requires Reached(c) && t in c.s.pc && c.s.pc[t].PopRead?
    ensures c.s.pc[t].curr.ptr != 0 && c.s.pc[t].curr.ptr in c.s.nodes
  {
    var a := View(c, t);
  }

  /** A push writes `next` only of a node that exists and that no caller holds. */
  lemma PushWritesItsOwnNode(c: Config, t: Tid)
    requires Reached(c) && t in c.s.pc && c.s.pc[t].PushWrite?
    ensures c.s.pc[t].node != 0 && c.s.pc[t].node in c.s.nodes && c.s.pc[t].node !in c.s.client
  {
    var a := View(c, t);
    assert c.s.pc[t].node in Transit(a.st[t]);
  }

  // ---------------------------------------------------------------- tags and progress

  /** The number of CASes that succeeded in a run. */
  ghost function Successes(cs: seq<Config>): nat {
    if |cs| < 2 then 0
    else Successes(cs[..|cs| - 1]) + if cs[|cs| - 1].s.head != cs[|cs| - 2].s.head then 1 else 0
  }

  lemma {:induction false} TagCountsSuccesses(cs: seq<Config>, evs: seq<Event>)
    requires Run(Start, Step, cs, evs)
    ensures cs[|evs|].s.head.aba == Successes(cs)
    decreases |evs|
  {
    if evs != [] {
      var n := |evs| - 1;
      Prefix(Start, Step, cs, evs, n);
      TagCountsSuccesses(cs[..n + 1], evs[..n]);
      assert cs[..n + 1] == cs[..|cs| - 1] && cs[..n + 1][n] == cs[n];
      assert Step(cs[n], evs[n], cs[n + 1]);
    }
  }

  /** The copy of the head that a pending CAS compares with. */
  function Compared(pc: PC): Head
    requires pc.PopCas? || pc.PushCas? || pc.EachCas?
  {
    pc.curr
  }

  /** A CAS that does not fail spuriously fails because another operation's CAS succeeded since the load. */
  lemma FailureMeansProgress(c: Config, t: Tid)
    requires Reached(c) && t in c.s.pc
    requires c.s.pc[t].PopCas? || c.s.pc[t].PushCas? || c.s.pc[t].EachCas?
    requires Compared(c.s.pc[t]) != c.s.head
    ensures Compared(c.s.pc[t]).aba < c.s.head.aba
  {
    var a := View(c, t);
  }

  // ---------------------------------------------------------------- for_each and count_free_list

  /** Thread t's for_each has been running since step j, when the stack was `all`. */
  ghost predicate DetachedAt(abs: seq<Abs>, t: Tid, j: nat, i: nat, all: seq<Ptr>) {
    && j <= i < |abs|
    && (forall k | j <= k <= i :: t in abs[k].st && abs[k].st[t] != AIdle)
    && abs[j].st[t] == AEach && abs[j].stack == all
  }

  ghost predicate WalkSound(abs: seq<Abs>, t: Tid, i: nat)
    requires i < |abs|
  {
    t in abs[i].st && (abs[i].st[t].AWalk? || abs[i].st[t].AWalkPush?) ==>
      exists j :: DetachedAt(abs, t, j, i, abs[i].st[t].seen + abs[i].st[t].rest)
  }

  /** What for_each has visited and still has to visit is the whole stack as it was at one instant of the call. */
  lemma {:induction false} WalkVisitsWhatItDetached(abs: seq<Abs>, evs: seq<Event>, t: Tid, i: nat)
    requires Run(AInit, AtomicStep, abs, evs) && i < |abs|
    ensures WalkSound(abs, t, i)
  {
    if i > 0 {
      var h := i - 1;
      WalkVisitsWhatItDetached(abs, evs, t, h);
      assert AtomicStep(abs[h], evs[h], abs[i]);
      if t in abs[i].st && (abs[i].st[t].AWalk? || abs[i].st[t].AWalkPush?) {
        var all := abs[i].st[t].seen + abs[i].st[t].rest;
        if abs[h].st[t] == AEach {
          assert DetachedAt(abs, t, h, i, all);
        } else {
          var before := abs[h].st[t];
          if before.AWalk? && before != abs[i].st[t] {
            assert before.rest == [before.rest[0]] + before.rest[1..];
          }
          assert before.seen + before.rest == all;
          var j :| DetachedAt(abs, t, j, h, all);
          assert DetachedAt(abs, t, j, i, all);
        }
      }
    }
  }

  lemma ReturnsASnapshot(abs: seq<Abs>, evs: seq<Event>, i: nat, t: Tid, seen: seq<Ptr>)
    requires Run(AInit, AtomicStep, abs, evs) && i < |evs| && evs[i] == (t, RetEach(seen))
    ensures exists j: nat :: DetachedAt(abs, t, j, i, seen)
  {
    WalkVisitsWhatItDetached(abs, evs, t, i);
    assert AtomicStep(abs[i], evs[i], abs[i + 1]);
    assert seen + [] == seen;
  }

  lemma StackNoDup(c: Config, a: Abs)
    requires Related(c, a)
    ensures NoDup(a.stack)
  {
  }

  /** for_each visits every node of the stack as it was at one instant during the call, once and in order. */
  lemma ForEachVisitsASnapshot(cs: seq<Config>, evs: seq<Event>, i: nat, t: Tid, seen: seq<Ptr>)
    requires Run(Start, Step, cs, evs) && i < |evs| && evs[i] == (t, RetEach(seen))
    ensures exists abs, j: nat ::
              && Run(AInit, AtomicStep, abs, evs) && Tracks(Related, cs, abs)
              && DetachedAt(abs, t, j, i, seen) && NoDup(seen)
  {
    Linearizable(cs, evs);
    var abs: seq<Abs> :| Run(AInit, AtomicStep, abs, evs) && Tracks(Related, cs, abs);
    ReturnsASnapshot(abs, evs, i, t, seen);
    var j: nat :| DetachedAt(abs, t, j, i, seen);
    StackNoDup(cs[j], abs[j]);
  }

  // ---------------------------------------------------------------- quiescence

  function ToSet(s: seq<Ptr>): set<Ptr> {
    set p | p in s
  }

  lemma {:induction false} SetOfSeq(s: seq<Ptr>)
    requires NoDup(s)
    ensures |ToSet(s)| == |s|
  {
    if s != [] {
      var n := |s| - 1;
      SetOfSeq(s[..n]);
      assert s[n] !in s[..n];
      assert s == s[..n] + [s[n]];
      assert ToSet(s) == ToSet(s[..n]) + {s[n]};
    }
  }

  /** When every thread is idle and has pushed back what it held, the stack holds every node exactly once. */
  lemma NothingLost(c: Config, stack: seq<Ptr>)
    requires Reached(c) && Chain(stack, c.l, c.s.head.ptr)
    requires c.s.client == map[] && forall t | t in c.s.pc :: c.s.pc[t] == Idle
    ensures NoDup(stack) && ToSet(stack) == c.s.nodes && |stack| == |c.s.nodes|
  {
    HasAbs(c);
    var a :| Related(c, a);
    ChainUnique(stack, a.stack, c.l, c.s.head.ptr);
    QuietHomes(c, a);
    SetOfSeq(stack);
  }

  lemma IdleCarriesNothing(c: Config, a: Abs, t: Tid)
    requires Related(c, a) && t in c.s.pc && c.s.pc[t] == Idle
    ensures forall p | p in a.home :: a.home[p] != With(t)
  {
    assert ThreadOk(c.s.pc[t], a.st[t], c.s, c.l, a.stack);
    assert Carries(a, t);
  }

  lemma QuietHomes(c: Config, a: Abs)
    requires Related(c, a)
    requires c.s.client == map[] && forall t | t in c.s.pc :: c.s.pc[t] == Idle
    ensures NoDup(a.stack) && ToSet(a.stack) == c.s.nodes
  {
    forall p | p in c.s.nodes ensures p in a.stack {
      if a.home[p].With? {
        var t := a.home[p].t;
        IdleCarriesNothing(c, a, t);
      }
    }
  }

  // ---------------------------------------------------------------- why the tag is there


  /** What thread t's step does when its CAS, if it is at one, does not fail spuriously. */
  function Exec(c: Config, t: Tid, lbl: Label): Config
    requires t in c.s.pc
  {
    var s, l := c.s, c.l;
    match lbl
    case New(n) => Config(s.(nodes := s.nodes + {n}, client := s.client[n := t]), l)
    case CallPop => Config(Go(s, t, PopLoad), l)
    case CallPush(n) => Config(Go(s, t, PushLoad(n, Return)).(client := s.client - {n}), l)
    case RetPop(r) => Config(Go(s, t, Idle).(client := if r == 0 then s.client else s.client[r := t]), l)
    case RetPush => Config(Go(s, t, Idle), l)
    case Tau =>
      (match s.pc[t]
       case PopLoad => Config(Go(s, t, PopLoaded(s.head)), l)
       case PopRead(curr) => Config(Go(s, t, PopCas(curr, l(curr.ptr))), l)
       case PopCas(curr, next) =>
         if s.head == curr then Config(Go(s, t, PopDone(curr.ptr)).(head := Head(curr.aba + 1, next)), l)
         else Config(Go(s, t, PopLoaded(s.head)), l)
       case PushLoad(n, k) => Config(Go(s, t, PushWrite(n, s.head, k)), l)
       case PushWrite(n, curr, k) => Config(Go(s, t, PushCas(n, curr, k)), p => if p == n then curr.ptr else l(p))
       case PushCas(n, curr, k) =>
         if s.head == curr then Config(Go(s, t, PushFinished(k)).(head := Head(curr.aba + 1, n)), l)
         else Config(Go(s, t, PushWrite(n, s.head, k)), l)
       case _ => c)
    case _ => c
  }

  predicate Enabled(c: Config, t: Tid, lbl: Label)
    requires t in c.s.pc
  {
    match lbl
    case New(n) => n != 0 && n !in c.s.nodes
    case CallPop => c.s.pc[t] == Idle
    case CallPush(n) => c.s.pc[t] == Idle && n in c.s.client && c.s.client[n] == t
    case RetPop(r) => c.s.pc[t] == PopDone(r)
    case RetPush => c.s.pc[t] == PushDone
    case Tau => c.s.pc[t].PopLoad? || c.s.pc[t].PopRead? || c.s.pc[t].PopCas? || c.s.pc[t].PushLoad?
      || c.s.pc[t].PushWrite? || c.s.pc[t].PushCas?
    case _ => false
  }

  lemma ExecSteps(c: Config, t: Tid, lbl: Label)
    requires t in c.s.pc && Enabled(c, t, lbl)
    ensures Step(c, (t, lbl), Exec(c, t, lbl))
  {
  }

  lemma ExecReached(c: Config, t: Tid, lbl: Label)
    requires Reached(c) && t in c.s.pc && Enabled(c, t, lbl)
    ensures Reached(Exec(c, t, lbl))
  {
    ExecSteps(c, t, lbl);
    ReachStep(Start, Step, c, (t, lbl), Exec(c, t, lbl));
  }

  // Thread t, undisturbed, comes to the CAS of a push or a pop, and passes it.

  lemma PushToCas(c: Config, t: Tid, n: Ptr) returns (d: Config)
    requires Reached(c) && t in c.s.pc && c.s.pc[t] == Idle && n in c.s.client && c.s.client[n] == t
    ensures Reached(d) && d.s == Go(c.s, t, PushCas(n, c.s.head, Return)).(client := c.s.client - {n})
    ensures d.l(n) == c.s.head.ptr && forall p | p != n :: d.l(p) == c.l(p)
  {
    ExecReached(c, t, CallPush(n));
    d := Exec(c, t, CallPush(n));
    ExecReached(d, t, Tau);
    d := Exec(d, t, Tau);
    ExecReached(d, t, Tau);
    d := Exec(d, t, Tau);
    assert d.s.pc == c.s.pc[t := PushCas(n, c.s.head, Return)];
  }

  lemma PushReached(c: Config, t: Tid, n: Ptr) returns (d: Config)
    requires Reached(c) && t in c.s.pc && c.s.pc[t] == Idle && n in c.s.client && c.s.client[n] == t
    ensures Reached(d)
    ensures d.s == c.s.(head := Head(c.s.head.aba + 1, n), client := c.s.client - {n})
    ensures d.l(n) == c.s.head.ptr && forall p | p != n :: d.l(p) == c.l(p)
  {
    d := PushToCas(c, t, n);
    ExecReached(d, t, Tau);
    d := Exec(d, t, Tau);
    ExecReached(d, t, RetPush);
    d := Exec(d, t, RetPush);
    assert d.s.pc == c.s.pc;
  }

  lemma PopToCas(c: Config, t: Tid) returns (d: Config)
    requires Reached(c) && t in c.s.pc && c.s.pc[t] == Idle && c.s.head.ptr != 0
    ensures Reached(d) && d.s == Go(c.s, t, PopCas(c.s.head, c.l(c.s.head.ptr))) && d.l == c.l
  {
    ExecReached(c, t, CallPop);
    d := Exec(c, t, CallPop);
    ExecReached(d, t, Tau);
    d := Exec(d, t, Tau);
    ExecReached(d, t, Tau);
    d := Exec(d, t, Tau);
    assert d.s.pc == c.s.pc[t := PopCas(c.s.head, c.l(c.s.head.ptr))];
  }

  lemma PopReached(c: Config, t: Tid) returns (d: Config)
    requires Reached(c) && t in c.s.pc && c.s.pc[t] == Idle && c.s.head.ptr != 0
    ensures Reached(d) && d.l == c.l
    ensures d.s == c.s.(head := Head(c.s.head.aba + 1, c.l(c.s.head.ptr)), client := c.s.client[c.s.head.ptr := t])
  {
    d := PopToCas(c, t);
    ExecReached(d, t, Tau);
    d := Exec(d, t, Tau);
    ExecReached(d, t, RetPop(c.s.head.ptr));
    d := Exec(d, t, RetPop(c.s.head.ptr));
    assert d.s.pc == c.s.pc;
  }

  /** Two threads; thread 0 has pushed node 1 and then node 2. */
  lemma TwoNodes() returns (c: Config)
    ensures Reached(c) && c.s.head == Head(2, 2) && c.l(2) == 1 && c.l(1) == 0
    ensures c.s.pc == map[0 := Idle, 1 := Idle] && c.s.client == map[]
  {
    c := Config(State(Head(0, 0), map[0 := Idle, 1 := Idle], {}, map[]), p => 0);
    ReachInit(Start, Step, c);
    ExecReached(c, 0, New(1));
    c := Exec(c, 0, New(1));
    c := PushReached(c, 0, 1);
    ExecReached(c, 0, New(2));
    c := Exec(c, 0, New(2));
    c := PushReached(c, 0, 2);
    assert c.s.client == map[];
  }

  /**
   Comparing the pointer alone would not do: in some run a pop is about to CAS
   and the head again holds the very pointer it loaded, but the `next` it read
   is now a node that another caller holds.
   */
  lemma TagIsNeeded()
    ensures exists c: Config, t: Tid ::
              && Reached(c) && t in c.s.pc && c.s.pc[t].PopCas?
              && c.s.pc[t].curr.ptr == c.s.head.ptr
              && c.s.pc[t].next in c.s.client && c.s.client[c.s.pc[t].next] != t
  {
    var c := TwoNodes();
    c := PopToCas(c, 1);
    c := PopReached(c, 0);
    c := PopReached(c, 0);
    c := PushReached(c, 0, 2);
    assert c.s.pc[1] == PopCas(Head(2, 2), 1) && c.s.client[1] == 0;
  }
}
