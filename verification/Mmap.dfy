/**
 The chunk manager of src/np_mmap.h and src/np_mmap.cpp: a bump pointer moved by
 an untagged CAS, and the tagged free stack, under any number of threads.

 Every step of this machine is a step of the stack's machine (or leaves it
 alone), so what is proved about the stack holds here. `reserve` is the initial
 state, and committing pages succeeds. A failed assert stops its thread.
 */
module Mmap {
  import L = LfStack
  import Memory

  type Ptr = L.Ptr
  type Tid = L.Tid
  type Links = L.Links

  const CHUNK_SIZE: nat := 0x10_0000
  const CHUNK_COUNT: nat := 4096

  datatype PC =
    | Idle
    | AllocPop                        // in free_head_.pop()
    | AllocGotFree(p: Ptr)            // popped p; perf_alloc_from_free not yet counted
    | BumpLoad                        // at the load of head_, or after a failed CAS
    | BumpCas(cur: Ptr, next: Ptr)
    | BumpGot(p: Ptr)                 // bumped p; perf_alloc not yet counted
    | AllocDone(p: Ptr)
    | FreePush                        // in free_head_.push(p)
    | FreeCount                       // pushed; perf_dealloc not yet counted
    | FreeDone
    | Listing                         // in free_head_.count_free_list()
    | Aborted                         // an assert of get_chunk_index or get_chunk_ptr failed

  /** `held` is the callers' view: chunks returned by alloc_chunk and not yet passed to free_chunk. */
  datatype State = State(
    lf: L.State, base: Ptr, head: Ptr,
    perfAlloc: nat, perfDealloc: nat, perfFromFree: nat,
    pc: map<Tid, PC>, held: map<Ptr, Tid>)

  datatype Label =
    | CallAlloc | RetAlloc(p: Ptr)
    | CallFree(p: Ptr) | RetFree
    | CallList | RetList(count: nat)
    | Scribble
    | Tau

  /** `get_chunk_index`, in 64-bit arithmetic; -1 for an address that is not a chunk's. */
  function ChunkIndex(base: Ptr, p: Ptr): int {
    var pos := (p - base) % Memory.WORD;
    if pos % CHUNK_SIZE != 0 then -1 else pos / CHUNK_SIZE
  }

  /** `get_chunk_ptr`. */
  function ChunkPtr(base: Ptr, index: nat): Ptr {
    base + index * CHUNK_SIZE
  }

  /** A reservation that fits in the address space, or none. */
  predicate GoodBase(base: Ptr) {
    base + CHUNK_COUNT * CHUNK_SIZE < Memory.WORD
  }

  /** The state after `reserve`; `base` is null when it failed. */
  ghost predicate Init(s: State) {
    && L.Init(s.lf)
    && GoodBase(s.base) && s.head == s.base
    && s.perfAlloc == 0 && s.perfDealloc == 0 && s.perfFromFree == 0
    && s.held == map[] && s.pc.Keys == s.lf.pc.Keys
    && forall t | t in s.pc :: s.pc[t] == Idle
  }

  function Go(s: State, t: Tid, pc: PC, lf: L.State): State {
    s.(pc := s.pc[t := pc], lf := lf)
  }

  /**
   One round of the bump loop up to its CAS: null when nothing is reserved, an
   assert failure when the next chunk would lie past the last index.
   */
  function BumpLoaded(base: Ptr, head: Ptr): PC {
    if head == 0 then AllocDone(0)
    else
      var index := ChunkIndex(base, head);
      if 0 <= index && index + 1 <= CHUNK_COUNT then BumpCas(head, ChunkPtr(base, index + 1)) else Aborted
  }

  ghost predicate StackUntouched(s: State, l: Links, s': State, l': Links) {
    s'.lf == s.lf && L.Same(l, l', s.lf.nodes)
  }

  /** src/np_mmap.h:49-75 and src/np_mmap.cpp:140-162. */
  ghost predicate Internal(s: State, l: Links, t: Tid, s': State, l': Links)
    requires t in s.pc && t in s.lf.pc
  {
    match s.pc[t]
    case AllocPop =>
      if s.lf.pc[t].PopDone? then
        var r := s.lf.pc[t].res;
        && L.Next(s.lf, l, t, L.RetPop(r), s'.lf, l')
        && s' == Go(s, t, if r != 0 then AllocGotFree(r) else BumpLoad, s'.lf)
      else
        L.Next(s.lf, l, t, L.Tau, s'.lf, l') && s' == s.(lf := s'.lf)
    case AllocGotFree(p) =>
      StackUntouched(s, l, s', l') && s' == Go(s, t, AllocDone(p), s.lf).(perfFromFree := s.perfFromFree + 1)
    case BumpLoad =>
      StackUntouched(s, l, s', l') && s' == Go(s, t, BumpLoaded(s.base, s.head), s.lf)
    case BumpCas(cur, next) =>
      || (s.head == cur && L.Next(s.lf, l, t, L.New(cur), s'.lf, l')
          && s' == Go(s, t, BumpGot(cur), s'.lf).(head := next))
      || (StackUntouched(s, l, s', l') && s' == Go(s, t, BumpLoaded(s.base, s.head), s.lf))
    case BumpGot(p) =>
      StackUntouched(s, l, s', l') && s' == Go(s, t, AllocDone(p), s.lf).(perfAlloc := s.perfAlloc + 1)
    case FreePush =>
      if s.lf.pc[t].PushDone? then
        L.Next(s.lf, l, t, L.RetPush, s'.lf, l') && s' == Go(s, t, FreeCount, s'.lf)
      else
        L.Next(s.lf, l, t, L.Tau, s'.lf, l') && s' == s.(lf := s'.lf)
    case FreeCount =>
      StackUntouched(s, l, s', l') && s' == Go(s, t, FreeDone, s.lf).(perfDealloc := s.perfDealloc + 1)
    case Listing => L.Next(s.lf, l, t, L.Tau, s'.lf, l') && s' == s.(lf := s'.lf)
    case _ => false
  }

  /** One transition of thread t; `Scribble` lets the holder of a chunk write its first word. */
  ghost predicate Next(s: State, l: Links, t: Tid, lbl: Label, s': State, l': Links) {
    && t in s.pc && t in s.lf.pc && s'.pc.Keys == s.pc.Keys
    && match lbl
       case CallAlloc =>
         s.pc[t] == Idle && L.Next(s.lf, l, t, L.CallPop, s'.lf, l') && s' == Go(s, t, AllocPop, s'.lf)
       case RetAlloc(p) =>
         && s.pc[t] == AllocDone(p) && StackUntouched(s, l, s', l')
         && s' == Go(s, t, Idle, s.lf).(held := if p == 0 then s.held else s.held[p := t])
       case CallFree(p) =>
         && s.pc[t] == Idle && p in s.held && s.held[p] == t
         && L.Next(s.lf, l, t, L.CallPush(p), s'.lf, l')
         && s' == Go(s, t, FreePush, s'.lf).(held := s.held - {p})
       case RetFree => s.pc[t] == FreeDone && StackUntouched(s, l, s', l') && s' == Go(s, t, Idle, s.lf)
       case CallList =>
         s.pc[t] == Idle && L.Next(s.lf, l, t, L.CallEach, s'.lf, l') && s' == Go(s, t, Listing, s'.lf)
       case RetList(count) =>
         && s.pc[t] == Listing && s.lf.pc[t].EachWalk? && count == |s.lf.pc[t].seen|
         && L.Next(s.lf, l, t, L.RetEach(s.lf.pc[t].seen), s'.lf, l') && s' == Go(s, t, Idle, s'.lf)
       case Scribble =>
         && s' == s
         && forall p | p in s.lf.nodes && !(p in s.held && s.held[p] == t) :: l'(p) == l(p)
       case Tau => Internal(s, l, t, s', l')
  }

  // ---------------------------------------------------------------- invariant

  /** p is the address of a chunk of the reservation at `base`. */
  predicate IsChunk(base: Ptr, p: Ptr) {
    base <= p && (p - base) % CHUNK_SIZE == 0
  }

  /** Exactly the chunks below the bump pointer have been introduced. */
  ghost predicate Frontier(s: State) {
    && GoodBase(s.base) && IsChunk(s.base, s.head) && s.head <= ChunkPtr(s.base, CHUNK_COUNT)
    && (s.base == 0 ==> s.head == 0)
    && forall p: Ptr :: p in s.lf.nodes <==> IsChunk(s.base, p) && p < s.head
  }

  /** The chunk a thread has got from the stack or the bump pointer and not yet returned. */
  function Mid(pc: PC): Ptr {
    match pc
    case AllocGotFree(p) => p
    case BumpGot(p) => p
    case AllocDone(p) => p
    case _ => 0
  }

  predicate StackPhase(pc: PC, lpc: L.PC) {
    match pc
    case AllocPop => lpc.PopLoad? || lpc.PopRead? || lpc.PopCas? || lpc.PopDone?
    case FreePush =>
      lpc.PushDone? || ((lpc.PushLoad? || lpc.PushWrite? || lpc.PushCas?) && lpc.k.Return?)
    case Listing =>
      || lpc.EachLoad? || lpc.EachCas? || lpc.EachWalk?
      || ((lpc.PushLoad? || lpc.PushWrite? || lpc.PushCas?) && lpc.k.Resume?)
    case _ => lpc == L.Idle
  }

  predicate BumpOk(s: State, pc: PC) {
    pc.BumpCas? ==>
      && IsChunk(s.base, pc.cur) && 0 < pc.cur <= s.head && pc.cur < ChunkPtr(s.base, CHUNK_COUNT)
      && pc.next == pc.cur + CHUNK_SIZE
  }

  ghost predicate Phases(s: State) {
    && s.lf.pc.Keys == s.pc.Keys
    && forall t | t in s.pc :: StackPhase(s.pc[t], s.lf.pc[t]) && BumpOk(s, s.pc[t])
  }

  /** A chunk outside the stack is held by a caller or is being allocated by one thread. */
  ghost predicate Holdings(s: State) {
    && (forall p | p in s.held :: p in s.lf.client && s.lf.client[p] == s.held[p])
    && (forall t | t in s.pc && Mid(s.pc[t]) != 0 ::
          Mid(s.pc[t]) in s.lf.client && s.lf.client[Mid(s.pc[t])] == t && Mid(s.pc[t]) !in s.held)
    && (forall p | p in s.lf.client ::
          s.lf.client[p] in s.pc && (p in s.held || Mid(s.pc[s.lf.client[p]]) == p))
  }

  /** What a step of the stack's machine changes, as far as the chunk manager can see. */
  lemma StackStep(s: L.State, l: Links, t: Tid, ll: L.Label, s': L.State, l': Links)
    requires L.Next(s, l, t, ll, s', l')
    ensures t in s.pc && s'.pc == s.pc[t := s'.pc[t]]
    ensures s'.nodes == if ll.New? then s.nodes + {ll.n} else s.nodes
    ensures s'.client == match ll
                         case New(n) => s.client[n := t]
                         case CallPush(n) => s.client - {n}
                         case RetPop(r) => if r == 0 then s.client else s.client[r := t]
                         case _ => s.client
    ensures ll == L.CallPop ==> s'.pc[t] == L.PopLoad
    ensures ll.CallPush? ==> s'.pc[t] == L.PushLoad(ll.n, L.Return)
    ensures ll == L.CallEach ==> s'.pc[t] == L.EachLoad
    ensures ll.RetPop? || ll.RetPush? || ll.RetEach? ==> s'.pc[t] == L.Idle
    ensures ll.New? || ll.Scribble? ==> s'.pc == s.pc
  {
    assert ll.New? || ll.Scribble? ==> s.pc == s.pc[t := s.pc[t]];
  }

  lemma StackTau(s: L.State, l: Links, t: Tid, s': L.State, l': Links, pc: PC)
    requires t in s.pc && t in s'.pc && L.Internal(s, l, t, s', l') && StackPhase(pc, s.pc[t])
    requires pc == AllocPop || pc == FreePush || pc == Listing
    ensures StackPhase(pc, s'.pc[t])
  {
  }

  /** The bump loop computes the successor of the current head, or stops at the last chunk. */
  lemma BumpLoadedIs(base: Ptr, head: Ptr)
    requires GoodBase(base) && IsChunk(base, head) && 0 < head <= ChunkPtr(base, CHUNK_COUNT)
    ensures ChunkIndex(base, head) == (head - base) / CHUNK_SIZE
    ensures BumpLoaded(base, head) ==
            if head < ChunkPtr(base, CHUNK_COUNT) then BumpCas(head, head + CHUNK_SIZE) else Aborted
  {
    assert (head - base) % Memory.WORD == head - base;
  }

  /** The stack's label of a step; `Scribble` when the step leaves the stack's machine alone. */
  function StackLabel(s: State, t: Tid, lbl: Label, s': State): L.Label
    requires t in s.pc && t in s.lf.pc && t in s'.pc
  {
    match lbl
    case CallAlloc => L.CallPop
    case CallFree(p) => L.CallPush(p)
    case CallList => L.CallEach
    case RetList(_) => if s.lf.pc[t].EachWalk? then L.RetEach(s.lf.pc[t].seen) else L.Tau
    case Tau =>
      (match s.pc[t]
       case AllocPop => if s.lf.pc[t].PopDone? then L.RetPop(s.lf.pc[t].res) else L.Tau
       case BumpCas(cur, _) => if s'.pc[t].BumpGot? then L.New(cur) else L.Scribble
       case FreePush => if s.lf.pc[t].PushDone? then L.RetPush else L.Tau
       case Listing => L.Tau
       case _ => L.Scribble)
    case _ => L.Scribble
  }

  lemma IsStackStep(s: State, l: Links, t: Tid, lbl: Label, s': State, l': Links)
    requires t in s.pc && t in s.lf.pc && t in s'.pc
    requires Next(s, l, t, lbl, s', l') && Holdings(s)
    ensures L.Next(s.lf, l, t, StackLabel(s, t, lbl, s'), s'.lf, l')
  {
  }

  lemma PhasesFrame(s: State, t: Tid, s': State)
    requires Phases(s) && t in s.pc && t in s'.pc && t in s'.lf.pc
    requires s'.pc == s.pc[t := s'.pc[t]] && s'.lf.pc == s.lf.pc[t := s'.lf.pc[t]]
    requires s'.base == s.base && s.head <= s'.head
    requires StackPhase(s'.pc[t], s'.lf.pc[t]) && BumpOk(s', s'.pc[t])
    ensures Phases(s')
  {
  }

  /** What every step keeps of the bookkeeping, and when the bump pointer moves. */
  lemma Shape(s: State, l: Links, t: Tid, lbl: Label, s': State, l': Links)
    requires t in s.pc && t in s.lf.pc && t in s'.pc
    requires Next(s, l, t, lbl, s', l')
    ensures s'.pc == s.pc[t := s'.pc[t]] && s'.base == s.base
    ensures s'.head != s.head ==> lbl == Tau && s.pc[t] == BumpCas(s.head, s'.head) && s'.pc[t] == BumpGot(s.head)
    ensures s'.head == s.head ==> s'.held == match lbl
                                   case RetAlloc(p) => if p == 0 then s.held else s.held[p := t]
                                   case CallFree(p) => s.held - {p}
                                   case _ => s.held
    ensures s'.head != s.head ==> s'.held == s.held
  {
    assert s.pc == s.pc[t := s.pc[t]];
  }

  lemma OwnPhase(s: State, l: Links, t: Tid, lbl: Label, s': State, l': Links)
    requires t in s.pc && t in s.lf.pc && t in s'.pc && t in s'.lf.pc
    requires StackPhase(s.pc[t], s.lf.pc[t]) && BumpOk(s, s.pc[t])
    requires GoodBase(s.base) && IsChunk(s.base, s.head) && s.head <= ChunkPtr(s.base, CHUNK_COUNT)
    requires Next(s, l, t, lbl, s', l')
    ensures StackPhase(s'.pc[t], s'.lf.pc[t]) && BumpOk(s', s'.pc[t])
  {
    if lbl == Tau {
      match s.pc[t]
      case AllocPop => OwnPhaseStack(s, l, t, s', l');
      case FreePush => OwnPhaseStack(s, l, t, s', l');
      case Listing => OwnPhaseStack(s, l, t, s', l');
      case BumpLoad => OwnPhaseBump(s, l, t, s', l');
      case BumpCas(_, _) => OwnPhaseBump(s, l, t, s', l');
      case _ =>
    }
  }

  lemma OwnPhaseBump(s: State, l: Links, t: Tid, s': State, l': Links)
    requires t in s.pc && t in s.lf.pc && t in s'.pc && t in s'.lf.pc
    requires s.pc[t] == BumpLoad || s.pc[t].BumpCas?
    requires StackPhase(s.pc[t], s.lf.pc[t]) && Internal(s, l, t, s', l')
    requires GoodBase(s.base) && IsChunk(s.base, s.head) && s.head <= ChunkPtr(s.base, CHUNK_COUNT)
    ensures StackPhase(s'.pc[t], s'.lf.pc[t]) && BumpOk(s', s'.pc[t])
  {
    if s.head != 0 {
      BumpLoadedIs(s.base, s.head);
    }
  }

  lemma OwnPhaseStack(s: State, l: Links, t: Tid, s': State, l': Links)
    requires t in s.pc && t in s.lf.pc && t in s'.pc && t in s'.lf.pc
    requires s.pc[t] == AllocPop || s.pc[t] == FreePush || s.pc[t] == Listing
    requires StackPhase(s.pc[t], s.lf.pc[t]) && Internal(s, l, t, s', l')
    ensures StackPhase(s'.pc[t], s'.lf.pc[t]) && BumpOk(s', s'.pc[t])
  {
    if !s.lf.pc[t].PopDone? && !s.lf.pc[t].PushDone? {
      StackTau(s.lf, l, t, s'.lf, l', s.pc[t]);
    }
  }

  lemma PhasesStep(s: State, l: Links, t: Tid, lbl: Label, s': State, l': Links)
    requires t in s.pc && t in s.lf.pc && t in s'.pc
    requires Frontier(s) && Phases(s) && Holdings(s) && Next(s, l, t, lbl, s', l')
    ensures Phases(s')
  {
    IsStackStep(s, l, t, lbl, s', l');
    StackStep(s.lf, l, t, StackLabel(s, t, lbl, s'), s'.lf, l');
    Shape(s, l, t, lbl, s', l');
    OwnPhase(s, l, t, lbl, s', l');
    PhasesFrame(s, t, s');
  }

  /** Between one chunk and the next there is no other. */
  lemma NextChunk(base: Ptr, head: Ptr)
    requires IsChunk(base, head)
    ensures IsChunk(base, head + CHUNK_SIZE)
    ensures forall p: Ptr | IsChunk(base, p) && head <= p < head + CHUNK_SIZE :: p == head
  {
  }

  /** Chunks are multiples of the chunk size apart. */
  lemma ChunksApart(base: Ptr, p: Ptr, q: Ptr)
    requires IsChunk(base, p) && IsChunk(base, q)
    ensures p < q ==> p + CHUNK_SIZE <= q
    ensures q < p ==> q + CHUNK_SIZE <= p
  {
    NextChunk(base, p);
    NextChunk(base, q);
  }

  lemma FrontierStep(s: State, l: Links, t: Tid, lbl: Label, s': State, l': Links)
    requires t in s.pc && t in s.lf.pc && t in s'.pc
    requires Frontier(s) && BumpOk(s, s.pc[t]) && Holdings(s) && Next(s, l, t, lbl, s', l')
    ensures Frontier(s')
  {
    IsStackStep(s, l, t, lbl, s', l');
    StackStep(s.lf, l, t, StackLabel(s, t, lbl, s'), s'.lf, l');
    Shape(s, l, t, lbl, s', l');
    NextChunk(s.base, s.head);
  }

  // How a chunk outside the stack changes hands.

  datatype Hand = Keep | Gain(p: Ptr) | Hold(p: Ptr) | Release(p: Ptr)

  ghost predicate Hands(s: State, t: Tid, s': State, h: Hand)
    requires t in s.pc && t in s'.pc
  {
    match h
    case Keep => s'.lf.client == s.lf.client && s'.held == s.held && Mid(s'.pc[t]) == Mid(s.pc[t])
    case Gain(p) =>
      && p != 0 && p !in s.lf.client && s'.lf.client == s.lf.client[p := t] && s'.held == s.held
      && Mid(s.pc[t]) == 0 && Mid(s'.pc[t]) == p
    case Hold(p) =>
      && p != 0 && s'.lf.client == s.lf.client && s'.held == s.held[p := t]
      && Mid(s.pc[t]) == p && Mid(s'.pc[t]) == 0
    case Release(p) =>
      && p in s.held && s.held[p] == t && s'.lf.client == s.lf.client - {p} && s'.held == s.held - {p}
      && Mid(s.pc[t]) == 0 && Mid(s'.pc[t]) == 0
  }

  lemma HandsKeepHoldings(s: State, t: Tid, s': State, h: Hand)
    requires t in s.pc && t in s'.pc && s'.pc == s.pc[t := s'.pc[t]]
    requires Holdings(s) && Hands(s, t, s', h) && 0 !in s.lf.client
    ensures Holdings(s')
  {
  }

  /** Which hand-over a step is. */
  function HandOf(s: State, t: Tid, lbl: Label, s': State): Hand
    requires t in s.pc && t in s.lf.pc && t in s'.pc
  {
    match lbl
    case RetAlloc(p) => if p == 0 then Keep else Hold(p)
    case CallFree(p) => Release(p)
    case Tau =>
      if s.pc[t] == AllocPop && s.lf.pc[t].PopDone? && s.lf.pc[t].res != 0 then Gain(s.lf.pc[t].res)
      else if s'.pc[t].BumpGot? then Gain(s'.pc[t].p)
      else Keep
    case _ => Keep
  }

  lemma HandsOfTau(s: State, l: Links, t: Tid, s': State, l': Links)
    requires t in s.pc && t in s.lf.pc && t in s'.pc
    requires Internal(s, l, t, s', l')
    requires forall p | p in s.lf.client :: p in s.lf.nodes
    requires s.lf.pc[t].PopDone? ==> s.lf.pc[t].res !in s.lf.client
    ensures Hands(s, t, s', HandOf(s, t, Tau, s'))
  {
    match s.pc[t]
    case AllocPop =>
      StackStep(s.lf, l, t, if s.lf.pc[t].PopDone? then L.RetPop(s.lf.pc[t].res) else L.Tau, s'.lf, l');
    case FreePush => StackStep(s.lf, l, t, if s.lf.pc[t].PushDone? then L.RetPush else L.Tau, s'.lf, l');
    case Listing => StackStep(s.lf, l, t, L.Tau, s'.lf, l');
    case BumpCas(cur, _) => if s'.pc[t].BumpGot? { StackStep(s.lf, l, t, L.New(cur), s'.lf, l'); }
    case _ =>
  }

  lemma HandsOfStep(s: State, l: Links, t: Tid, lbl: Label, s': State, l': Links)
    requires t in s.pc && t in s.lf.pc && t in s'.pc
    requires Next(s, l, t, lbl, s', l')
    requires forall p | p in s.lf.client :: p in s.lf.nodes
    requires s.lf.pc[t].PopDone? ==> s.lf.pc[t].res !in s.lf.client
    ensures Hands(s, t, s', HandOf(s, t, lbl, s'))
  {
    match lbl
    case Tau => HandsOfTau(s, l, t, s', l');
    case CallAlloc => StackStep(s.lf, l, t, L.CallPop, s'.lf, l');
    case CallFree(p) => StackStep(s.lf, l, t, L.CallPush(p), s'.lf, l');
    case CallList => StackStep(s.lf, l, t, L.CallEach, s'.lf, l');
    case RetList(_) => StackStep(s.lf, l, t, L.RetEach(s.lf.pc[t].seen), s'.lf, l');
    case _ =>
  }
}
