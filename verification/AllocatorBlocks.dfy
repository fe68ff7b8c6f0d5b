/** What each request and each free does to pools and blocks, in the program's own numbers; and that a damaged block
    does not pass. */
module AllocatorBlocks {
  import Runs
  import opened Memory
  import opened SizeClasses
  import opened Blocks
  import opened Pool
  import opened Allocator
  import opened AllocatorTheorems
  import AllocatorAlloc
  import AllocatorCounts
  import AllocatorProgress
  import AllocatorRun

  // ---------------------------------------------------------------- routes

  /** No pool but k changed. */
  ghost predicate OnlyPool(s: State, k: Key, s': State) {
    k in s.pools && k in s'.pools && s'.pools == s.pools[k := s'.pools[k]]
  }

  /** Pool k counted one more, and handed out a block that nobody used, framed for this request. */
  ghost predicate HandedOut(s: State, k: Key, b: Ptr, bytes: nat, d: Debug, s': State) {
    && OnlyPool(s, k, s') && s'.pools[k].inUse == (s.pools[k].inUse + 1) % 0x1_0000_0000_0000_0000
    && (b in s.log ==> s.log[b].Freed?) && s'.log == s.log[b := Live(bytes, d)]
    && FrameIs(s'.mem, b, bytes, d)
  }

  /** The request is served by the caller's pool of the least class that fits, and no other pool changes. */
  ghost predicate ServedByItsPool(s: State, t: Tid, bytes: nat, d: Debug, s': State) {
    exists c, b :: RouteIs(bytes, FromPool(c)) && HandedOut(s, (t, c), b, bytes, d, s')
  }

  lemma NewFrame(s: State, b: Ptr, bytes: nat, d: Debug, s': State)
    requires Reached(s') && s'.log == s.log[b := Live(bytes, d)]
    ensures FrameIs(s'.mem, b, bytes, d)
  {
    assert b in s'.log && s'.log[b] == Live(bytes, d);
    FramesHold(s', b);
  }

  lemma HandIsOut(s: State, k: Key, p: CPool, b: Ptr, bytes: nat, d: Debug, s': State)
    requires k in s.pools && p.inUse == Inc(s.pools[k].inUse) && s'.pools == s.pools[k := p]
    requires (b in s.log ==> s.log[b].Freed?) && s'.log == s.log[b := Live(bytes, d)] && FrameIs(s'.mem, b, bytes, d)
    ensures HandedOut(s, k, b, bytes, d, s')
  {
  }

  lemma HandsOut(s: State, t: Tid, c: nat, bytes: nat, d: Debug, s': State)
    requires Reached(s') && AllocatorCounts.CountedHand(s, (t, c), bytes, d, s')
    ensures ServedByItsPool(s, t, bytes, d, s')
  {
    var b := HandedBlock(s, (t, c), bytes, d, s');
    ClassIsLeast(TotalSize(bytes), c);
    ItsPool(s, t, c, b, bytes, d, s');
  }

  lemma HandedBlock(s: State, k: Key, bytes: nat, d: Debug, s': State) returns (b: Ptr)
    requires Reached(s') && AllocatorCounts.CountedHand(s, k, bytes, d, s')
    ensures HandedOut(s, k, b, bytes, d, s')
  {
    var p: CPool;
    b, p :| (b in s.log ==> s.log[b].Freed?) && p.inUse == Inc(s.pools[k].inUse)
            && s'.pools == s.pools[k := p] && s'.log == s.log[b := Live(bytes, d)];
    NewFrame(s, b, bytes, d, s');
    HandIsOut(s, k, p, b, bytes, d, s');
  }

  lemma ItsPool(s: State, t: Tid, c: nat, b: Ptr, bytes: nat, d: Debug, s': State)
    requires RouteIs(bytes, FromPool(c)) && HandedOut(s, (t, c), b, bytes, d, s')
    ensures ServedByItsPool(s, t, bytes, d, s')
  {
  }

  /** A request served at once. */
  lemma LocalRoute(s: State, t: Tid, bytes: nat, d: Debug, s': State)
    requires Reached(s) && Next(s, t, AllocLocal(bytes, d), s')
    ensures ServedByItsPool(s, t, bytes, d, s')
  {
    var v := AllocatorProgress.Parts(s);
    AllocatorCounts.AllocLocalHands(s, v, t, bytes, d, s');
    Runs.ReachStep(Init, Step, s, (t, AllocLocal(bytes, d)), s');
    HandsOut(s, t, ClassOf(TotalSize(bytes)), bytes, d, s');
  }

  /** A request that must wait for a chunk remembers what it is for. */
  lemma FetchRoute(s: State, t: Tid, bytes: nat, d: Debug, s': State)
    requires Next(s, t, AllocFetch(bytes, d), s')
    ensures s'.pools == s.pools && s'.log == s.log
    ensures exists c :: RouteIs(bytes, FromPool(c)) && s'.phase == s.phase[t := Fetching(c, bytes, d)]
  {
    var c := ClassOf(TotalSize(bytes));
    ClassIsLeast(TotalSize(bytes), c);
    assert RouteIs(bytes, FromPool(c));
  }

  /** When the chunk arrives, the request is served from it. */
  lemma ArrivalRoute(s: State, t: Tid, s': State)
    requires Reached(s) && Next(s, t, AllocNew, s') && s.mm.pc[t].p != 0
    ensures s.phase[t].Fetching? && ServedByItsPool(s, t, s.phase[t].bytes, s.phase[t].debug, s')
    ensures RouteIs(s.phase[t].bytes, FromPool(s.phase[t].cls))
  {
    var v := AllocatorProgress.ArrivalFacts(s, t);
    AllocatorCounts.AllocNewHands(s, v, t, s');
    Runs.ReachStep(Init, Step, s, (t, AllocNew), s');
    HandsOut(s, t, s.phase[t].cls, s.phase[t].bytes, s.phase[t].debug, s');
    AllocatorRun.FetchFacts(s, t);
    ClassIsLeast(TotalSize(s.phase[t].bytes), s.phase[t].cls);
  }

  /** Block b went to the head of pool k's free list, and the pool counted one less. */
  ghost predicate TakenBack(s: State, k: Key, b: Ptr, s': State) {
    && OnlyPool(s, k, s') && s'.pools[k].inUse == (s.pools[k].inUse + 0xffff_ffff_ffff_ffff) % 0x1_0000_0000_0000_0000
    && s'.pools[k].free == b && s'.pools[k].head == s.pools[k].head
    && ReadLE(s'.mem, b, b + 8) == s.pools[k].free
  }

  lemma GoesBack(s: State, k: Key, b: Ptr, s': State)
    requires k in s.pools && s.pools[k].free < WORD && s'.pools == s.pools[k := GaveBack(s.pools[k], b)]
    requires s'.mem == GiveBackMem(s.pools[k], s.mem, b)
    ensures TakenBack(s, k, b, s')
  {
    Write64Spec(s.mem, b, s.pools[k].free);
  }

  lemma ListFits(s: State, k: Key)
    requires Reached(s) && k in s.pools && k.0 in s.phase && s.phase[k.0] == Idle
    ensures s.pools[k].free < WORD
  {
    var v := AllocatorProgress.Parts(s);
    AllocatorAlloc.FreeFits(s, v, k);
  }

  /** Block b, in use for a request of so many bytes, went to t's pool of the least class that fits them. */
  ghost predicate BackToItsClass(s: State, t: Tid, b: Ptr, bytes: nat, s': State) {
    exists c :: RouteIs(bytes, FromPool(c)) && TakenBack(s, (t, c), b, s')
  }

  /** A free goes to the freeing thread's pool of the least class that fits what was asked for, whoever asked. */
  lemma FreeRoute(s: State, t: Tid, u: Ptr, s': State) returns (b: Ptr)
    requires Reached(s) && Next(s, t, Dealloc(u), s')
    ensures u == b + 48 && b in s.log && s.log[b].Live? && s'.log == s.log[b := Freed(t)]
    ensures BackToItsClass(s, t, b, s.log[b].bytes, s')
  {
    b := FreedBlock(s, t, u, s');
    Frees(s, t, b, s');
  }

  lemma FreedBlock(s: State, t: Tid, u: Ptr, s': State) returns (b: Ptr)
    requires Next(s, t, Dealloc(u), s')
    ensures u == b + 48 && b in s.log && s.log[b].Live?
    ensures s.phase[t] == Idle && DeallocStep(s, t, UserPtr(b), s')
  {
    b := u - 48;
    assert UserPtr(b) == u;
  }

  lemma Frees(s: State, t: Tid, b: Ptr, s': State)
    requires Reached(s) && t in s.phase && s.phase[t] == Idle && b in s.log && s.log[b].Live?
    requires DeallocStep(s, t, UserPtr(b), s')
    ensures s'.log == s.log[b := Freed(t)] && BackToItsClass(s, t, b, s.log[b].bytes, s')
  {
    FreeNeverFails(s, t, b, s');
    FreesToClass(s, t, b, s.log[b].bytes, s');
  }

  lemma FreesToClass(s: State, t: Tid, b: Ptr, bytes: nat, s': State)
    requires Reached(s) && t in s.phase && s.phase[t] == Idle && TotalSize(bytes) <= MAX_ALLOC
    requires var k := (t, ClassOf(TotalSize(bytes)));
        && k in s.pools && s'.pools == s.pools[k := GaveBack(s.pools[k], b)]
        && s'.mem == GiveBackMem(s.pools[k], s.mem, b)
    ensures BackToItsClass(s, t, b, bytes, s')
  {
    var c := ClassOf(TotalSize(bytes));
    ClassIsLeast(TotalSize(bytes), c);
    assert RouteIs(bytes, FromPool(c));
    ListFits(s, (t, c));
    GoesBack(s, (t, c), b, s');
  }

  // ---------------------------------------------------------------- damage

  /** Some of the 32 bytes around the caller's own is not as it was. */
  ghost predicate Damaged(m: Mem, m': Mem, b: Ptr, bytes: nat) {
    !SameOn(m, m', b + 32, b + 48) || !SameOn(m, m', b + 48 + bytes, b + 64 + bytes)
  }

  /** With this memory, t's free of block b leads to r. */
  ghost predicate FreesWith(s: State, m: Mem, t: Tid, b: Ptr, r: State) {
    Next(s.(mem := m), t, Dealloc(b + 48), r)
  }

  lemma FencesTell(m: Mem, m': Mem, b: Ptr, bytes: nat)
    requires FencesOk(m, b, bytes)
    ensures FencesOk(m', b, bytes) <==> !Damaged(m, m', b, bytes)
  {
    SameFence(m, m', b + 32);
    SameFence(m, m', b + 48 + bytes);
  }

  /**
   From every reachable state, whatever memory has become since except the size in
   the header: a free of a block in use by an idle thread can run, and it runs into
   a failing assert just when a fence byte has changed.
   */
  lemma DamageIsCaught(s: State, t: Tid, b: Ptr, m: Mem)
    requires Reached(s) && t in s.phase && s.phase[t] == Idle && b in s.log && s.log[b].Live?
    requires ReadLE(m, b, b + 8) == s.log[b].bytes
    ensures exists r :: FreesWith(s, m, t, b, r)
    ensures forall r | FreesWith(s, m, t, b, r) ::
        if Damaged(s.mem, m, b, s.log[b].bytes) then r == s.(mem := m, phase := s.phase[t := Crashed])
        else r.phase == s.phase && r.log == s.log[b := Freed(t)]
  {
    FramesHold(s, b);
    FencesTell(s.mem, m, b, s.log[b].bytes);
    AllocatorProgress.RestHere(s, t, ClassOf(TotalSize(s.log[b].bytes)));
    if Damaged(s.mem, m, b, s.log[b].bytes) {
      DamageStops(s.(mem := m), t, b);
      assert FreesWith(s, m, t, b, s.(mem := m, phase := s.phase[t := Crashed]));
    } else {
      WholePasses(s, t, b, m);
    }
  }

  lemma WholePasses(s: State, t: Tid, b: Ptr, m: Mem)
    requires AllocatorProgress.AtRest(s, t) && b in s.log && s.log[b].Live? && TotalSize(s.log[b].bytes) <= MAX_ALLOC
    requires Framed(m, b, s.log[b].bytes) && (t, ClassOf(TotalSize(s.log[b].bytes))) in s.pools
    ensures exists r :: FreesWith(s, m, t, b, r)
    ensures forall r | FreesWith(s, m, t, b, r) :: r.phase == s.phase && r.log == s.log[b := Freed(t)]
  {
    var x := s.(mem := m);
    AllocatorProgress.FreeStep(x, t, b);
    var r :| Next(x, t, Dealloc(UserPtr(b)), r) && r.log == x.log[b := Freed(t)];
    assert FreesWith(s, m, t, b, r);
    forall r | FreesWith(s, m, t, b, r) ensures r.phase == s.phase && r.log == s.log[b := Freed(t)] {
      FreeByFrames(x, t, b, r);
    }
  }

  lemma DamageStops(x: State, t: Tid, b: Ptr)
    requires AllocatorProgress.AtRest(x, t) && b in x.log && x.log[b].Live?
    requires Read64(x.mem, b) == x.log[b].bytes && !FencesOk(x.mem, b, x.log[b].bytes)
    ensures Next(x, t, Dealloc(UserPtr(b)), x.(phase := x.phase[t := Crashed]))
    ensures forall r | Next(x, t, Dealloc(UserPtr(b)), r) :: r == x.(phase := x.phase[t := Crashed])
  {
    assert HeaderOf(UserPtr(b)) == b;
  }
}
