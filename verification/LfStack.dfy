/**
 The ABA-tagged lock-free stack of src/np_lf_stack.h, as an atomic-step
 transition system over any number of threads, and the canonical atomic stack
 it is proved to implement.

 One transition is one shared-memory access (a load of `head_`, a read or write
 of a node's `next`, one `compare_exchange_weak`) together with the thread-local
 computation that follows it. Memory is sequentially consistent; the tag is a
 natural number (it does not wrap); a weak CAS may fail spuriously.
 */
module LfStack {
  import opened Runs

  /** An address; 0 is `nullptr`. */
  type Ptr = nat

  type Tid = nat

  /** What reading the `next` word at an address yields. */
  type Links = Ptr -> Ptr

  /** `lf_stack::head_t`. */
  datatype Head = Head(aba: nat, ptr: Ptr)

  /** Where `push` continues: it returns to its caller, or to the walk of `for_each`. */
  datatype Cont = Return | Resume(next: Ptr, seen: seq<Ptr>)

  /** The program point of a thread, with its private `curr` and `next`. */
  datatype PC =
    | Idle
    | PopLoad
    | PopRead(curr: Head)
    | PopCas(curr: Head, next: Ptr)
    | PopDone(res: Ptr)
    | PushLoad(node: Ptr, k: Cont)
    | PushWrite(node: Ptr, curr: Head, k: Cont)
    | PushCas(node: Ptr, curr: Head, k: Cont)
    | PushDone
    | EachLoad
    | EachCas(curr: Head)
    | EachWalk(ptr: Ptr, seen: seq<Ptr>)

  /**
   `nodes` are the nodes that exist; `client` is the calls-and-returns history of
   who holds a node outside the stack: the thread that created it or got it from
   `pop`, until that thread passes it to `push`.
   */
  datatype State = State(head: Head, pc: map<Tid, PC>, nodes: set<Ptr>, client: map<Ptr, Tid>)

  datatype Label =
    | New(n: Ptr)
    | Scribble
    | CallPop
    | CallPush(n: Ptr)
    | CallEach
    | Tau
    | RetPop(res: Ptr)
    | RetPush
    | RetEach(seen: seq<Ptr>)

  ghost predicate Init(s: State) {
    && s.head == Head(0, 0)
    && s.nodes == {} && s.client == map[]
    && forall t | t in s.pc :: s.pc[t] == Idle
  }

  ghost predicate Same(l: Links, l': Links, ps: set<Ptr>) {
    forall p | p in ps :: l'(p) == l(p)
  }

  function Go(s: State, t: Tid, pc: PC): State {
    s.(pc := s.pc[t := pc])
  }

  /** `if (!curr.ptr) break;` after `curr` was loaded, in `pop`. */
  function PopLoaded(h: Head): PC {
    if h.ptr == 0 then PopDone(0) else PopRead(h)
  }

  /** The same test in `for_each`; with an empty stack the walk starts at null. */
  function EachLoaded(h: Head): PC {
    if h.ptr == 0 then EachWalk(0, []) else EachCas(h)
  }

  function PushFinished(k: Cont): PC {
    match k
    case Return => PushDone
    case Resume(next, seen) => EachWalk(next, seen)
  }

  /** One internal step of thread `t`: src/np_lf_stack.h:47-86. */
  ghost predicate Internal(s: State, l: Links, t: Tid, s': State, l': Links)
    requires t in s.pc
  {
    match s.pc[t]
    case PopLoad => s' == Go(s, t, PopLoaded(s.head)) && Same(l, l', s.nodes)
    case PopRead(curr) => s' == Go(s, t, PopCas(curr, l(curr.ptr))) && Same(l, l', s.nodes)
    case PopCas(curr, next) =>
      && Same(l, l', s.nodes)
      && (|| (s.head == curr && s' == Go(s, t, PopDone(curr.ptr)).(head := Head(curr.aba + 1, next)))
          || s' == Go(s, t, PopLoaded(s.head)))
    case PushLoad(n, k) => s' == Go(s, t, PushWrite(n, s.head, k)) && Same(l, l', s.nodes)
    case PushWrite(n, curr, k) =>
      s' == Go(s, t, PushCas(n, curr, k)) && l'(n) == curr.ptr && Same(l, l', s.nodes - {n})
    case PushCas(n, curr, k) =>
      && Same(l, l', s.nodes)
      && (|| (s.head == curr && s' == Go(s, t, PushFinished(k)).(head := Head(curr.aba + 1, n)))
          || s' == Go(s, t, PushWrite(n, s.head, k)))
    case EachLoad => s' == Go(s, t, EachLoaded(s.head)) && Same(l, l', s.nodes)
    case EachCas(curr) =>
      && Same(l, l', s.nodes)
      && (|| (s.head == curr && s' == Go(s, t, EachWalk(curr.ptr, [])).(head := Head(curr.aba + 1, 0)))
          || s' == Go(s, t, EachLoaded(s.head)))
    case EachWalk(p, seen) =>
      && Same(l, l', s.nodes)
      && p != 0
      && s' == Go(s, t, PushLoad(p, Resume(l(p), seen + [p])))
    case _ => false
  }

  /** One transition of thread `t`. `Scribble` lets the holder of a node store anything in it. */
  ghost predicate Next(s: State, l: Links, t: Tid, lbl: Label, s': State, l': Links) {
    && t in s.pc && s'.pc.Keys == s.pc.Keys
    && match lbl
       case New(n) =>
         && n != 0 && n !in s.nodes
         && s' == s.(nodes := s.nodes + {n}, client := s.client[n := t])
         && Same(l, l', s.nodes)
       case Scribble =>
         && s' == s
         && forall p | p in s.nodes && !(p in s.client && s.client[p] == t) :: l'(p) == l(p)
       case CallPop => s.pc[t] == Idle && s' == Go(s, t, PopLoad) && Same(l, l', s.nodes)
       case CallPush(n) =>
         && s.pc[t] == Idle && n in s.client && s.client[n] == t
         && s' == Go(s, t, PushLoad(n, Return)).(client := s.client - {n})
         && Same(l, l', s.nodes)
       case CallEach => s.pc[t] == Idle && s' == Go(s, t, EachLoad) && Same(l, l', s.nodes)
       case Tau => Internal(s, l, t, s', l')
       case RetPop(r) =>
         && s.pc[t] == PopDone(r)
         && s' == Go(s, t, Idle).(client := if r == 0 then s.client else s.client[r := t])
         && Same(l, l', s.nodes)
       case RetPush => s.pc[t] == PushDone && s' == Go(s, t, Idle) && Same(l, l', s.nodes)
       case RetEach(seen) =>
         s.pc[t] == EachWalk(0, seen) && s' == Go(s, t, Idle) && Same(l, l', s.nodes)
  }

  // ---------------------------------------------------------------- the atomic stack

  /** Where a node is: in the stack, held by a caller, or inside thread t's own operation. */
  datatype Home = InStack | Client(t: Tid) | With(t: Tid)

  /** An operation is pending until it takes effect, once, between its call and its return. */
  datatype Status =
    | AIdle
    | APop
    | APopped(res: Ptr)
    | APush(n: Ptr)
    | APushed
    | AEach
    | AWalk(rest: seq<Ptr>, seen: seq<Ptr>)
    | AWalkPush(n: Ptr, rest: seq<Ptr>, seen: seq<Ptr>)

  datatype Abs = Abs(stack: seq<Ptr>, st: map<Tid, Status>, home: map<Ptr, Home>)

  ghost predicate AInit(a: Abs) {
    a.stack == [] && a.home == map[] && forall t | t in a.st :: a.st[t] == AIdle
  }

  function Top(s: seq<Ptr>): Ptr {
    if s == [] then 0 else s[0]
  }

  /** The sequential meaning of one operation, applied in one instant. */
  function Effect(a: Abs, t: Tid): Abs
    requires t in a.st
  {
    match a.st[t]
    case APop =>
      if a.stack == [] then a.(st := a.st[t := APopped(0)])
      else Abs(a.stack[1..], a.st[t := APopped(a.stack[0])], a.home[a.stack[0] := With(t)])
    case APush(n) => Abs([n] + a.stack, a.st[t := APushed], a.home[n := InStack])
    case AEach =>
      Abs([], a.st[t := AWalk(a.stack, [])],
          map p | p in a.home :: if p in a.stack then With(t) else a.home[p])
    case AWalk(rest, seen) =>
      if rest == [] then a
      else a.(st := a.st[t := AWalkPush(rest[0], rest[1..], seen + [rest[0]])])
    case AWalkPush(n, rest, seen) =>
      Abs([n] + a.stack, a.st[t := AWalk(rest, seen)], a.home[n := InStack])
    case _ => a
  }

  /** The canonical atomic stack: a call, an instantaneous effect, a return. */
  ghost predicate Atomic(a: Abs, t: Tid, lbl: Label, a': Abs) {
    && t in a.st
    && match lbl
       case New(n) => n != 0 && n !in a.home && a' == a.(home := a.home[n := Client(t)])
       case Scribble => a' == a
       case CallPop => a.st[t] == AIdle && a' == a.(st := a.st[t := APop])
       case CallPush(n) =>
         && a.st[t] == AIdle && n in a.home && a.home[n] == Client(t)
         && a' == a.(st := a.st[t := APush(n)], home := a.home[n := With(t)])
       case CallEach => a.st[t] == AIdle && a' == a.(st := a.st[t := AEach])
       case Tau => a' == a || a' == Effect(a, t)
       case RetPop(r) =>
         && a.st[t] == APopped(r)
         && a' == a.(st := a.st[t := AIdle], home := if r == 0 then a.home else a.home[r := Client(t)])
       case RetPush => a.st[t] == APushed && a' == a.(st := a.st[t := AIdle])
       case RetEach(seen) => a.st[t] == AWalk([], seen) && a' == a.(st := a.st[t := AIdle])
  }

  // ---------------------------------------------------------------- simulation

  ghost predicate Chain(s: seq<Ptr>, l: Links, p: Ptr) {
    if s == [] then p == 0 else p == s[0] && p != 0 && Chain(s[1..], l, l(p))
  }

  ghost predicate NoDup(s: seq<Ptr>) {
    forall i, j | 0 <= i < j < |s| :: s[i] != s[j]
  }

  lemma {:induction false} ChainFrame(s: seq<Ptr>, l: Links, l': Links, p: Ptr)
    requires Chain(s, l, p)
    requires forall x | x in s :: l'(x) == l(x)
    ensures Chain(s, l', p)
  {
    if s != [] {
      assert s[0] in s;
      assert forall x | x in s[1..] :: x in s;
      ChainFrame(s[1..], l, l', l(p));
    }
  }

  /** A copy of the head loaded earlier: an equal tag means nothing has happened since. */
  ghost predicate Sees(curr: Head, head: Head) {
    curr.aba <= head.aba && (curr.aba == head.aba ==> curr == head)
  }

  predicate NullOrNode(p: Ptr, s: State) {
    p == 0 || p in s.nodes
  }

  ghost predicate PushOk(st: Status, n: Ptr, k: Cont, l: Links) {
    match k
    case Return => st == APush(n)
    case Resume(next, seen) => st.AWalkPush? && st.n == n && st.seen == seen && Chain(st.rest, l, next)
  }

  ghost predicate ThreadOk(pc: PC, st: Status, s: State, l: Links, stack: seq<Ptr>) {
    match pc
    case Idle => st == AIdle
    case PopLoad => st == APop
    case PopRead(curr) => st == APop && curr.ptr in s.nodes && Sees(curr, s.head)
    case PopCas(curr, next) =>
      && st == APop && curr.ptr in s.nodes && Sees(curr, s.head)
      && (curr == s.head ==> stack != [] && next == Top(stack[1..]))
    case PopDone(r) => st == APopped(r)
    case PushLoad(n, k) => PushOk(st, n, k, l)
    case PushWrite(n, curr, k) => PushOk(st, n, k, l) && Sees(curr, s.head) && NullOrNode(curr.ptr, s)
    case PushCas(n, curr, k) =>
      PushOk(st, n, k, l) && Sees(curr, s.head) && NullOrNode(curr.ptr, s) && l(n) == curr.ptr
    case PushDone => st == APushed
    case EachLoad => st == AEach
    case EachCas(curr) => st == AEach && curr.ptr in s.nodes && Sees(curr, s.head)
    case EachWalk(p, seen) => st.AWalk? && st.seen == seen && Chain(st.rest, l, p)
  }

  /** The nodes inside a thread's own operation. */
  function Transit(st: Status): seq<Ptr> {
    match st
    case APopped(r) => if r == 0 then [] else [r]
    case APush(n) => [n]
    case AWalk(rest, _) => rest
    case AWalkPush(n, rest, _) => [n] + rest
    case _ => []
  }

  /** The nodes inside thread t's operation are exactly those placed with t. */
  ghost predicate Carries(a: Abs, t: Tid)
    requires t in a.st
  {
    && NoDup(Transit(a.st[t]))
    && forall p :: p in Transit(a.st[t]) <==> p in a.home && a.home[p] == With(t)
  }

  /** The stack holds each node placed in it once. */
  ghost predicate Stacked(a: Abs) {
    NoDup(a.stack) && forall p :: p in a.stack <==> p in a.home && a.home[p] == InStack
  }

  /** The callers' own record of what they hold agrees. */
  ghost predicate Recorded(s: State, a: Abs) {
    && (forall p | p in s.client :: p in a.home && a.home[p] == Client(s.client[p]))
    && (forall p | p in a.home && a.home[p].Client? :: p in s.client)
  }

  /** Every node is in exactly one place. */
  ghost predicate Placed(s: State, a: Abs) {
    && a.home.Keys == s.nodes && 0 !in s.nodes
    && Stacked(a)
    && Recorded(s, a)
    && (forall t | t in a.st :: Carries(a, t))
    && (forall p | p in a.home && a.home[p].With? :: a.home[p].t in a.st)
  }

  ghost predicate Threads(s: State, l: Links, a: Abs) {
    && a.st.Keys == s.pc.Keys
    && forall t | t in s.pc :: ThreadOk(s.pc[t], a.st[t], s, l, a.stack)
  }

  /** The simulation relation. */
  ghost predicate R(s: State, l: Links, a: Abs) {
    Placed(s, a) && Threads(s, l, a) && Chain(a.stack, l, s.head.ptr)
  }

  /** Whether an internal step from pc to pc' is the one at which the operation takes effect. */
  predicate Linearizes(pc: PC, pc': PC) {
    pc'.PopDone? || pc'.PushDone? || pc'.EachWalk? || (pc.EachWalk? && pc'.PushLoad?)
  }

  /** The atomic stack's move for a step of the code. */
  function Shadow(a: Abs, t: Tid, lbl: Label, pc: PC, pc': PC): Abs
    requires t in a.st
  {
    match lbl
    case New(n) => a.(home := a.home[n := Client(t)])
    case Scribble => a
    case CallPop => a.(st := a.st[t := APop])
    case CallPush(n) => a.(st := a.st[t := APush(n)], home := a.home[n := With(t)])
    case CallEach => a.(st := a.st[t := AEach])
    case Tau => if Linearizes(pc, pc') then Effect(a, t) else a
    case RetPop(r) =>
      a.(st := a.st[t := AIdle], home := if r == 0 then a.home else a.home[r := Client(t)])
    case RetPush => a.(st := a.st[t := AIdle])
    case RetEach(_) => a.(st := a.st[t := AIdle])
  }

  // ------------------------------------------- what a step does to the threads' views

  ghost predicate KeepsLinks(l: Links, l': Links, ps: seq<Ptr>) {
    forall p | p in ps :: l'(p) == l(p)
  }

  /** The head and the stack are as before, or the tag has grown. */
  ghost predicate Advances(s: State, a: Abs, s': State, a': Abs) {
    s.nodes <= s'.nodes && ((s'.head == s.head && a'.stack == a.stack) || s.head.aba < s'.head.aba)
  }

  lemma ThreadFrame(pc: PC, st: Status, s: State, l: Links, a: Abs, s': State, l': Links, a': Abs)
    requires ThreadOk(pc, st, s, l, a.stack)
    requires KeepsLinks(l, l', Transit(st)) && Advances(s, a, s', a')
    ensures ThreadOk(pc, st, s', l', a'.stack)
  {
    match st
    case AWalk(rest, _) => ChainFrame(rest, l, l', pc.ptr);
    case AWalkPush(n, rest, _) =>
      assert n in Transit(st) && forall p | p in rest :: p in Transit(st);
      ChainFrame(rest, l, l', pc.k.next);
    case APush(n) => assert n in Transit(st);
    case _ =>
  }

  lemma ThreadsStep(s: State, l: Links, a: Abs, t: Tid, s': State, l': Links, a': Abs)
    requires Threads(s, l, a) && t in s.pc && Advances(s, a, s', a')
    requires s'.pc.Keys == s.pc.Keys && a'.st.Keys == a.st.Keys
    requires forall u | u in s.pc && u != t :: s'.pc[u] == s.pc[u] && a'.st[u] == a.st[u]
    requires forall u | u in a.st && u != t :: KeepsLinks(l, l', Transit(a.st[u]))
    requires ThreadOk(s'.pc[t], a'.st[t], s', l', a'.stack)
    ensures Threads(s', l', a')
  {
    forall u | u in s.pc && u != t
      ensures ThreadOk(s'.pc[u], a'.st[u], s', l', a'.stack)
    {
      ThreadFrame(s.pc[u], a.st[u], s, l, a, s', l', a');
    }
  }

  /** Changing the links of thread t's own nodes, or of nodes its caller holds, disturbs nobody else. */
  lemma LinksOfOthers(s: State, l: Links, a: Abs, t: Tid, l': Links)
    requires Placed(s, a)
    requires forall p | p in a.home && a.home[p] != With(t) && !a.home[p].Client? :: l'(p) == l(p)
    ensures forall u | u in a.st && u != t :: KeepsLinks(l, l', Transit(a.st[u]))
    ensures KeepsLinks(l, l', a.stack)
  {
    forall u | u in a.st && u != t
      ensures KeepsLinks(l, l', Transit(a.st[u]))
    {
      assert Carries(a, u);
    }
  }

  // ------------------------------------------- what a step does to the places of nodes

  lemma Cons(n: Ptr, s: seq<Ptr>)
    ensures forall p :: p in [n] + s <==> p == n || p in s
    ensures NoDup([n] + s) <==> n !in s && NoDup(s)
  {
    var c := [n] + s;
    assert c[0] == n && forall i | 0 <= i < |s| :: c[i + 1] == s[i];
    if NoDup(c) {
      forall i | 0 <= i < |s| ensures s[i] != n { assert c[0] != c[i + 1]; }
      forall i, j | 0 <= i < j < |s| ensures s[i] != s[j] { assert c[i + 1] != c[j + 1]; }
    }
  }

  /** Only thread t's node n, or the stack, moved; the other threads carry what they carried. */
  lemma OthersCarry(a: Abs, t: Tid, a': Abs)
    requires forall u | u in a.st :: Carries(a, u)
    requires a'.st.Keys == a.st.Keys
    requires forall u | u in a.st && u != t :: a'.st[u] == a.st[u]
    requires forall p | p in a.home && a.home[p].With? && a.home[p].t != t ::
               p in a'.home && a'.home[p] == a.home[p]
    requires forall p | p in a'.home && a'.home[p].With? && a'.home[p].t != t ::
               p in a.home && a.home[p] == a'.home[p]
    ensures forall u | u in a'.st && u != t :: Carries(a', u)
  {
    forall u | u in a'.st && u != t ensures Carries(a', u) { assert Carries(a, u); }
  }

  lemma PopPlaced(s: State, a: Abs, t: Tid)
    requires Placed(s, a) && t in a.st && a.st[t] == APop && a.stack != []
    ensures Placed(s, Effect(a, t))
  {
    var a' := Effect(a, t);
    assert a.stack == [a.stack[0]] + a'.stack;
    Cons(a.stack[0], a'.stack);
    OthersCarry(a, t, a');
    assert Carries(a, t);
  }

  lemma PushPlaced(s: State, a: Abs, t: Tid)
    requires Placed(s, a) && t in a.st && (a.st[t].APush? || a.st[t].AWalkPush?)
    ensures Placed(s, Effect(a, t))
  {
    var a' := Effect(a, t);
    var n := a.st[t].n;
    assert Transit(a.st[t]) == [n] + Transit(a'.st[t]);
    Cons(n, Transit(a'.st[t]));
    Cons(n, a.stack);
    assert Carries(a, t);
    OthersCarry(a, t, a');
  }

  lemma EachPlaced(s: State, a: Abs, t: Tid)
    requires Placed(s, a) && t in a.st && a.st[t] == AEach
    ensures Placed(s, Effect(a, t))
  {
    var a' := Effect(a, t);
    EachCarries(a, t);
    OthersCarry(a, t, a');
    assert a'.home.Keys == s.nodes;
  }

  lemma EachCarries(a: Abs, t: Tid)
    requires Stacked(a) && t in a.st && a.st[t] == AEach && Carries(a, t)
    ensures Stacked(Effect(a, t)) && Carries(Effect(a, t), t)
  {
    assert Transit(a.st[t]) == [];
    assert forall p | p in a.home :: a.home[p] != With(t);
  }

  /** A step that moves no node. */
  lemma QuietPlaced(s: State, a: Abs, t: Tid, st: Status, s': State)
    requires Placed(s, a) && t in a.st && Transit(st) == Transit(a.st[t])
    requires s'.nodes == s.nodes && s'.client == s.client
    ensures Placed(s', a.(st := a.st[t := st]))
  {
    var a' := a.(st := a.st[t := st]);
    assert Carries(a, t);
    OthersCarry(a, t, a');
  }

  // ------------------------------------------- the steps themselves

  /** What the places of nodes imply for the links a step of thread t may change. */
  ghost predicate Quiet(a: Abs, t: Tid, l: Links, l': Links) {
    && (forall u | u in a.st && u != t :: KeepsLinks(l, l', Transit(a.st[u])))
    && KeepsLinks(l, l', a.stack)
  }

  // A successful CAS of pop: the stale `next` is the true successor of the top.
  lemma PopThreads(s: State, l: Links, a: Abs, t: Tid, s': State, l': Links)
    requires Threads(s, l, a) && Chain(a.stack, l, s.head.ptr) && Quiet(a, t, l, l')
    requires t in s.pc && s.pc[t].PopCas? && s.head == s.pc[t].curr
    requires s' == Go(s, t, PopDone(s.head.ptr)).(head := Head(s.head.aba + 1, s.pc[t].next))
    ensures a.st[t] == APop && a.stack != []
    ensures Threads(s', l', Effect(a, t)) && Chain(Effect(a, t).stack, l', s'.head.ptr)
  {
    var a' := Effect(a, t);
    assert ThreadOk(s.pc[t], a.st[t], s, l, a.stack);
    ThreadsStep(s, l, a, t, s', l', a');
    assert forall p | p in a'.stack :: p in a.stack;
    ChainFrame(a'.stack, l, l', l(s.head.ptr));
  }

  lemma PushThreads(s: State, l: Links, a: Abs, t: Tid, s': State, l': Links)
    requires Threads(s, l, a) && Chain(a.stack, l, s.head.ptr) && Quiet(a, t, l, l')
    requires t in s.pc && s.pc[t].PushCas? && s.head == s.pc[t].curr
    requires s' == Go(s, t, PushFinished(s.pc[t].k)).(head := Head(s.head.aba + 1, s.pc[t].node))
    requires KeepsLinks(l, l', Transit(a.st[t])) && 0 !in Transit(a.st[t])
    ensures a.st[t].APush? || a.st[t].AWalkPush?
    ensures Threads(s', l', Effect(a, t)) && Chain(Effect(a, t).stack, l', s'.head.ptr)
  {
    var a' := Effect(a, t);
    assert ThreadOk(s.pc[t], a.st[t], s, l, a.stack);
    var n := s.pc[t].node;
    assert n in Transit(a.st[t]);
    ThreadFrame(s.pc[t], a.st[t], s, l, a, s, l', a);
    ThreadsStep(s, l, a, t, s', l', a');
    ChainFrame(a.stack, l, l', l(n));
    assert a'.stack[1..] == a.stack;
  }

  lemma EachThreads(s: State, l: Links, a: Abs, t: Tid, s': State, l': Links)
    requires Threads(s, l, a) && Chain(a.stack, l, s.head.ptr) && Quiet(a, t, l, l')
    requires t in s.pc && s.pc[t].EachCas? && s.head == s.pc[t].curr
    requires s' == Go(s, t, EachWalk(s.head.ptr, [])).(head := Head(s.head.aba + 1, 0))
    ensures a.st[t] == AEach
    ensures Threads(s', l', Effect(a, t)) && Chain(Effect(a, t).stack, l', s'.head.ptr)
  {
    var a' := Effect(a, t);
    assert ThreadOk(s.pc[t], a.st[t], s, l, a.stack);
    ChainFrame(a.stack, l, l', s.head.ptr);
    ThreadsStep(s, l, a, t, s', l', a');
  }

  lemma PushFrame(st: Status, n: Ptr, k: Cont, l: Links, l': Links)
    requires PushOk(st, n, k, l) && NoDup(Transit(st))
    requires forall p | p in Transit(st) && p != n :: l'(p) == l(p)
    ensures PushOk(st, n, k, l')
  {
    if k.Resume? {
      Cons(n, st.rest);
      ChainFrame(st.rest, l, l', k.next);
    }
  }

  /** Thread t's own view after a step that leaves the head alone. */
  ghost predicate QuietView(s: State, a: Abs, t: Tid, s': State, l': Links)
    requires t in s.pc && t in s'.pc && t in a.st
  {
    var st' := Shadow(a, t, Tau, s.pc[t], s'.pc[t]).st[t];
    && Shadow(a, t, Tau, s.pc[t], s'.pc[t]) == a.(st := a.st[t := st'])
    && Transit(st') == Transit(a.st[t])
    && ThreadOk(s'.pc[t], st', s', l', a.stack)
  }

  lemma QuietPop(s: State, l: Links, a: Abs, t: Tid, s': State, l': Links)
    requires t in a.st && t in s.pc && Internal(s, l, t, s', l') && s'.head == s.head
    requires s.pc[t].PopLoad? || s.pc[t].PopRead? || s.pc[t].PopCas?
    requires ThreadOk(s.pc[t], a.st[t], s, l, a.stack) && Chain(a.stack, l, s.head.ptr)
    requires (forall p | p in a.stack :: p in s.nodes) && 0 !in s.nodes
    ensures QuietView(s, a, t, s', l')
  {
  }

  lemma QuietPush(s: State, l: Links, a: Abs, t: Tid, s': State, l': Links)
    requires t in a.st && t in s.pc && Internal(s, l, t, s', l') && s'.head == s.head
    requires s.pc[t].PushLoad? || s.pc[t].PushWrite? || s.pc[t].PushCas?
    requires ThreadOk(s.pc[t], a.st[t], s, l, a.stack) && NullOrNode(s.head.ptr, s)
    requires NoDup(Transit(a.st[t])) && forall p | p in Transit(a.st[t]) :: p in s.nodes
    ensures QuietView(s, a, t, s', l')
  {
    PushFrame(a.st[t], s.pc[t].node, s.pc[t].k, l, l');
  }

  lemma QuietEach(s: State, l: Links, a: Abs, t: Tid, s': State, l': Links)
    requires t in a.st && t in s.pc && Internal(s, l, t, s', l') && s'.head == s.head
    requires s.pc[t].EachLoad? || s.pc[t].EachCas?
    requires ThreadOk(s.pc[t], a.st[t], s, l, a.stack) && Chain(a.stack, l, s.head.ptr)
    requires (forall p | p in a.stack :: p in s.nodes) && 0 !in s.nodes
    ensures QuietView(s, a, t, s', l')
  {
  }

  lemma QuietWalk(s: State, l: Links, a: Abs, t: Tid, s': State, l': Links)
    requires t in a.st && t in s.pc && Internal(s, l, t, s', l') && s'.head == s.head
    requires s.pc[t].EachWalk? && ThreadOk(s.pc[t], a.st[t], s, l, a.stack)
    requires forall p | p in Transit(a.st[t]) :: p in s.nodes
    ensures QuietView(s, a, t, s', l')
  {
    var rest := a.st[t].rest;
    ChainFrame(rest, l, l', s.pc[t].ptr);
    assert rest == [rest[0]] + rest[1..];
  }

  /** Existing nodes are not null; thread t's nodes and those in the stack exist. */
  lemma NodesExist(s: State, a: Abs, t: Tid)
    requires Placed(s, a) && t in a.st
    ensures 0 !in s.nodes && NoDup(Transit(a.st[t]))
    ensures forall p | p in Transit(a.st[t]) :: p in s.nodes
    ensures forall p | p in a.stack :: p in s.nodes
  {
    assert Carries(a, t);
  }

  lemma TauLinks(s: State, l: Links, a: Abs, t: Tid, s': State, l': Links)
    requires Placed(s, a) && t in s.pc && t in a.st && Internal(s, l, t, s', l')
    requires s.pc[t].PushWrite? ==> s.pc[t].node in Transit(a.st[t])
    ensures Quiet(a, t, l, l')
    ensures s'.nodes == s.nodes && s'.client == s.client
  {
    assert Carries(a, t);
    LinksOfOthers(s, l, a, t, l');
  }

  lemma QuietStep(s: State, l: Links, a: Abs, t: Tid, s': State, l': Links)
    requires Threads(s, l, a) && Chain(a.stack, l, s.head.ptr)
    requires t in s.pc && Internal(s, l, t, s', l') && s'.head == s.head
    requires 0 !in s.nodes && NoDup(Transit(a.st[t]))
    requires forall p | p in Transit(a.st[t]) :: p in s.nodes
    requires forall p | p in a.stack :: p in s.nodes
    ensures QuietView(s, a, t, s', l')
  {
    assert ThreadOk(s.pc[t], a.st[t], s, l, a.stack);
    assert NullOrNode(s.head.ptr, s);
    match s.pc[t]
    case PopLoad => QuietPop(s, l, a, t, s', l');
    case PopRead(_) => QuietPop(s, l, a, t, s', l');
    case PopCas(_, _) => QuietPop(s, l, a, t, s', l');
    case PushLoad(_, _) => QuietPush(s, l, a, t, s', l');
    case PushWrite(_, _, _) => QuietPush(s, l, a, t, s', l');
    case PushCas(_, _, _) => QuietPush(s, l, a, t, s', l');
    case EachLoad => QuietEach(s, l, a, t, s', l');
    case EachCas(_) => QuietEach(s, l, a, t, s', l');
    case EachWalk(_, _) => QuietWalk(s, l, a, t, s', l');
  }

  lemma TauThreads(s: State, l: Links, a: Abs, t: Tid, s': State, l': Links)
    requires t in a.st && t in s.pc && t in s'.pc
    requires Threads(s, l, a) && Chain(a.stack, l, s.head.ptr) && Quiet(a, t, l, l')
    requires t in s.pc && Internal(s, l, t, s', l') && s'.head == s.head && s'.nodes == s.nodes
    requires QuietView(s, a, t, s', l')
    ensures Threads(s', l', Shadow(a, t, Tau, s.pc[t], s'.pc[t])) && Chain(a.stack, l', s'.head.ptr)
  {
    ThreadsStep(s, l, a, t, s', l', Shadow(a, t, Tau, s.pc[t], s'.pc[t]));
    ChainFrame(a.stack, l, l', s.head.ptr);
  }

  lemma CasChangesHead(s: State, l: Links, t: Tid, s': State, l': Links)
    requires t in s.pc && Internal(s, l, t, s', l') && s'.head != s.head
    ensures s.pc[t].PopCas? || s.pc[t].PushCas? || s.pc[t].EachCas?
    ensures s.head == s.pc[t].curr && s'.head.aba == s.head.aba + 1 && Same(l, l', s.nodes)
    ensures s.pc[t].PopCas? ==> s' == Go(s, t, PopDone(s.head.ptr)).(head := Head(s.head.aba + 1, s.pc[t].next))
    ensures s.pc[t].PushCas? ==>
              s' == Go(s, t, PushFinished(s.pc[t].k)).(head := Head(s.head.aba + 1, s.pc[t].node))
    ensures s.pc[t].EachCas? ==> s' == Go(s, t, EachWalk(s.head.ptr, [])).(head := Head(s.head.aba + 1, 0))
  {
  }

  lemma PlacedIgnoresHead(s: State, a: Abs, s': State)
    requires Placed(s, a) && s'.nodes == s.nodes && s'.client == s.client
    ensures Placed(s', a)
  {
  }

  // A successful CAS.
  lemma CasSim(s: State, l: Links, a: Abs, t: Tid, s': State, l': Links)
    requires t in a.st && t in s.pc && t in s'.pc
    requires Threads(s, l, a) && Chain(a.stack, l, s.head.ptr) && Placed(s, a)
    requires Internal(s, l, t, s', l') && s'.head != s.head
    ensures R(s', l', Effect(a, t)) && Linearizes(s.pc[t], s'.pc[t])
  {
    assert ThreadOk(s.pc[t], a.st[t], s, l, a.stack);
    NodesExist(s, a, t);
    TauLinks(s, l, a, t, s', l');
    CasChangesHead(s, l, t, s', l');
    match s.pc[t] {
      case PopCas(_, _) => PopThreads(s, l, a, t, s', l'); PopPlaced(s, a, t);
      case PushCas(_, _, _) => PushThreads(s, l, a, t, s', l'); PushPlaced(s, a, t);
      case EachCas(_) => EachThreads(s, l, a, t, s', l'); EachPlaced(s, a, t);
    }
    PlacedIgnoresHead(s, Effect(a, t), s');
  }

  // Everything else a thread does on its own: loads, failed CASes, private reads and writes.
  lemma QuietSim(s: State, l: Links, a: Abs, t: Tid, s': State, l': Links)
    requires t in a.st && t in s.pc && t in s'.pc
    requires Threads(s, l, a) && Chain(a.stack, l, s.head.ptr) && Placed(s, a)
    requires Internal(s, l, t, s', l') && s'.head == s.head
    ensures R(s', l', Shadow(a, t, Tau, s.pc[t], s'.pc[t]))
  {
    assert ThreadOk(s.pc[t], a.st[t], s, l, a.stack);
    NodesExist(s, a, t);
    TauLinks(s, l, a, t, s', l');
    QuietStep(s, l, a, t, s', l');
    TauThreads(s, l, a, t, s', l');
    QuietPlaced(s, a, t, Shadow(a, t, Tau, s.pc[t], s'.pc[t]).st[t], s');
  }

  // Calls, returns and the holders' writes.

  /** Node n moves between thread t's operation and its caller. */
  lemma Moved(a: Abs, t: Tid, a': Abs, n: Ptr)
    requires forall u | u in a.st :: Carries(a, u)
    requires Stacked(a) && t in a.st && n !in a.stack
    requires t in a'.st && n in a'.home
    requires a' == Abs(a.stack, a.st[t := a'.st[t]], a.home[n := a'.home[n]])
    requires a'.home[n] in {Client(t), With(t)}
    requires n in a.home ==> a.home[n] in {Client(t), With(t)}
    requires Transit(a'.st[t]) == if a'.home[n] == With(t) then [n] else []
    requires forall p | p in Transit(a.st[t]) :: p == n
    ensures Stacked(a') && forall u | u in a'.st :: Carries(a', u)
  {
    OthersCarry(a, t, a');
    assert Carries(a, t);
    assert Carries(a', t);
  }

  lemma CallPushPlaced(s: State, a: Abs, t: Tid, n: Ptr, s': State)
    requires Placed(s, a) && t in a.st && n in a.home && a.home[n] == Client(t)
    requires Transit(a.st[t]) == []
    requires s'.nodes == s.nodes && s'.client == s.client - {n}
    ensures Placed(s', a.(st := a.st[t := APush(n)], home := a.home[n := With(t)]))
  {
    Moved(a, t, a.(st := a.st[t := APush(n)], home := a.home[n := With(t)]), n);
  }

  lemma RetPopPlaced(s: State, a: Abs, t: Tid, n: Ptr, s': State)
    requires Placed(s, a) && t in a.st && n != 0 && a.st[t] == APopped(n)
    requires s'.nodes == s.nodes && s'.client == s.client[n := t]
    ensures Placed(s', a.(st := a.st[t := AIdle], home := a.home[n := Client(t)]))
  {
    assert Carries(a, t) && n in Transit(a.st[t]);
    Moved(a, t, a.(st := a.st[t := AIdle], home := a.home[n := Client(t)]), n);
  }

  lemma NewPlaced(s: State, a: Abs, t: Tid, n: Ptr, s': State)
    requires Placed(s, a) && t in a.st && n !in s.nodes && n != 0
    requires s'.nodes == s.nodes + {n} && s'.client == s.client[n := t]
    ensures Placed(s', a.(home := a.home[n := Client(t)]))
  {
    var a' := a.(home := a.home[n := Client(t)]);
    forall u | u in a'.st ensures Carries(a', u) { assert Carries(a, u); }
  }

  lemma ClientPlaced(s: State, l: Links, a: Abs, t: Tid, lbl: Label, s': State, l': Links)
    requires t in a.st && t in s.pc && t in s'.pc
    requires Placed(s, a) && Next(s, l, t, lbl, s', l') && lbl != Tau
    requires ThreadOk(s.pc[t], a.st[t], s, l, a.stack)
    ensures Placed(s', Shadow(a, t, lbl, s.pc[t], s'.pc[t]))
  {
    assert Carries(a, t);
    match lbl
    case New(n) => NewPlaced(s, a, t, n, s');
    case CallPush(n) => CallPushPlaced(s, a, t, n, s');
    case RetPop(r) =>
      if r == 0 {
        QuietPlaced(s, a, t, AIdle, s');
      } else {
        RetPopPlaced(s, a, t, r, s');
      }
    case Scribble =>
    case CallPop => QuietPlaced(s, a, t, APop, s');
    case CallEach => QuietPlaced(s, a, t, AEach, s');
    case RetPush => QuietPlaced(s, a, t, AIdle, s');
    case RetEach(_) => QuietPlaced(s, a, t, AIdle, s');
    case Tau => assert false;
  }

  lemma ClientLinks(s: State, l: Links, a: Abs, t: Tid, lbl: Label, s': State, l': Links)
    requires Placed(s, a) && t in a.st && Next(s, l, t, lbl, s', l') && lbl != Tau
    ensures Quiet(a, t, l, l') && KeepsLinks(l, l', Transit(a.st[t]))
    ensures Advances(s, a, s', Shadow(a, t, lbl, s.pc[t], s'.pc[t]))
  {
    assert Carries(a, t);
    LinksOfOthers(s, l, a, t, l');
  }

  lemma ClientThreads(s: State, l: Links, a: Abs, t: Tid, lbl: Label, s': State, l': Links)
    requires t in a.st && t in s.pc && t in s'.pc
    requires Threads(s, l, a) && Chain(a.stack, l, s.head.ptr)
    requires Next(s, l, t, lbl, s', l') && lbl != Tau
    requires Quiet(a, t, l, l') && KeepsLinks(l, l', Transit(a.st[t]))
    requires Advances(s, a, s', Shadow(a, t, lbl, s.pc[t], s'.pc[t]))
    ensures Threads(s', l', Shadow(a, t, lbl, s.pc[t], s'.pc[t])) && Chain(a.stack, l', s'.head.ptr)
  {
    var a' := Shadow(a, t, lbl, s.pc[t], s'.pc[t]);
    assert ThreadOk(s.pc[t], a.st[t], s, l, a.stack);
    ChainFrame(a.stack, l, l', s.head.ptr);
    ThreadFrame(s.pc[t], a.st[t], s, l, a, s', l', a');
    ThreadsStep(s, l, a, t, s', l', a');
  }

  /** One step of the code is one step of the atomic stack. */
  lemma StepSim(s: State, l: Links, a: Abs, t: Tid, lbl: Label, s': State, l': Links)
    requires t in a.st && t in s.pc && t in s'.pc
    requires R(s, l, a) && Next(s, l, t, lbl, s', l')
    ensures R(s', l', Shadow(a, t, lbl, s.pc[t], s'.pc[t]))
    ensures Atomic(a, t, lbl, Shadow(a, t, lbl, s.pc[t], s'.pc[t]))
  {
    if lbl != Tau {
      ClientLinks(s, l, a, t, lbl, s', l');
      ClientThreads(s, l, a, t, lbl, s', l');
      ClientPlaced(s, l, a, t, lbl, s', l');
      ClientAtomic(s, l, a, t, lbl, s', l');
    } else if s'.head == s.head {
      QuietSim(s, l, a, t, s', l');
    } else {
      CasSim(s, l, a, t, s', l');
    }
  }

  lemma ClientAtomic(s: State, l: Links, a: Abs, t: Tid, lbl: Label, s': State, l': Links)
    requires t in a.st && t in s.pc && t in s'.pc
    requires Next(s, l, t, lbl, s', l') && lbl != Tau
    requires a.home.Keys == s.nodes && Recorded(s, a)
    requires ThreadOk(s.pc[t], a.st[t], s, l, a.stack)
    ensures Atomic(a, t, lbl, Shadow(a, t, lbl, s.pc[t], s'.pc[t]))
  {
  }

  // ------------------------------------------- runs

  datatype Config = Config(s: State, l: Links)

  type Event = (Tid, Label)

  ghost predicate Start(c: Config) {
    Init(c.s)
  }

  ghost predicate Step(c: Config, e: Event, c': Config) {
    Next(c.s, c.l, e.0, e.1, c'.s, c'.l)
  }

  ghost predicate AtomicStep(a: Abs, e: Event, a': Abs) {
    Atomic(a, e.0, e.1, a')
  }

  ghost predicate Related(c: Config, a: Abs) {
    R(c.s, c.l, a)
  }

  lemma OneStep(c: Config, e: Event, c': Config, a: Abs) returns (a': Abs)
    requires Related(c, a) && Step(c, e, c')
    ensures Related(c', a') && AtomicStep(a, e, a')
  {
    StepSim(c.s, c.l, a, e.0, e.1, c'.s, c'.l);
    a' := Shadow(a, e.0, e.1, c.s.pc[e.0], c'.s.pc[e.0]);
  }

  lemma Simulates()
    ensures StartsRelated(Start, AInit, Related) && StaysRelated(Step, AtomicStep, Related)
  {
    forall c | Start(c) ensures exists a :: AInit(a) && Related(c, a) {
      var a := Abs([], map t | t in c.s.pc :: AIdle, map[]);
      assert AInit(a) && Related(c, a);
    }
    forall c, e, c', a | Related(c, a) && Step(c, e, c')
      ensures exists a' :: Related(c', a') && AtomicStep(a, e, a')
    {
      var a' := OneStep(c, e, c', a);
    }
  }

  /**
   Linearizability: every run of the code, with any threads and any
   interleaving, has the calls and returns of a run of the atomic stack.
   */
  lemma Linearizable(cs: seq<Config>, evs: seq<Event>)
    requires Run(Start, Step, cs, evs)
    ensures exists abs :: Run(AInit, AtomicStep, abs, evs) && Tracks(Related, cs, abs)
  {
    Simulates();
    Simulation(Start, Step, AInit, AtomicStep, Related, cs, evs);
  }
}
