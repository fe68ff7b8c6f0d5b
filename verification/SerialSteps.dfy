/** The steps of the machine of the whole allocator are the pools' own methods: what one thread's code does in
    between. */
module SerialSteps {
  import L = LfStack
  import opened Memory
  import opened SizeClasses
  import opened Blocks
  import opened Pool
  import opened Allocator
  import opened AllocatorInv
  import opened AllocatorTheorems
  import SerialPool

  /** Pool k served a block at b, and the block was stamped. */
  ghost predicate ServedAndStamped(s: State, k: Key, b: Ptr, bytes: nat, d: Debug, s': State) {
    && k in s.pools && k in s'.pools
    && s'.log == s.log[b := Live(bytes, d)]
    && (exists m :: SerialPool.Served(s.pools[k], s.mem, k.1, s'.pools[k], m, b) && s'.mem == Stamp(m, b, bytes, d))
  }

  lemma ServedBy(s: State, k: Key, q: CPool, m: Mem, b: Ptr, bytes: nat, d: Debug, s': State)
    requires k in s.pools && s.pools[k].free == 0 && SerialPool.CarvedLocally(s.pools[k], s.mem, k.1, q, m, b)
    requires s'.pools == s.pools[k := Counted(q)] && s'.mem == Stamp(m, b, bytes, d)
        && s'.log == s.log[b := Live(bytes, d)]
    ensures ServedAndStamped(s, k, b, bytes, d, s')
  {
    assert SerialPool.Served(s.pools[k], s.mem, k.1, s'.pools[k], m, b);
  }

  /** An alloc that needs no chunk. */
  lemma AllocLocalIsSerial(s: State, t: Tid, bytes: nat, d: Debug, s': State)
    requires AllocLocalStep(s, t, bytes, d, s')
    ensures exists b :: ServedAndStamped(s, (t, ClassOf(TotalSize(bytes))), b, bytes, d, s')
  {
    var k := (t, ClassOf(TotalSize(bytes)));
    var p := s.pools[k];
    if p.free != 0 {
      assert SerialPool.Served(p, s.mem, k.1, TakeFree(p, s.mem), s.mem, p.free);
      assert ServedAndStamped(s, k, p.free, bytes, d, s');
    } else {
      RoomIffNextFits(p, s.mem, k.1);
      ServedBy(s, k, p, CarveMem(p, s.mem, k.1), CarvePtr(p, s.mem), bytes, d, s');
    }
  }

  lemma FullHasNoRoom(s: State, v: View, k: Key)
    requires ChunksOk(s.mm.base, v) && HeadersOk(s.mem, s.pools, v) && ListsInHome(v) && k in s.pools
    requires FreesOk(s.mem, s.pools, s.phase, s.log, v) && k.0 in s.phase && Active(s.phase[k.0])
    requires k.1 > 0 && Full(v.chunks[k], |v.frees[k]|, v.used, Cap(k.1))
    ensures s.pools[k].free == 0 && !NextFits(s.pools[k], s.mem, k.1)
  {
    var head := s.pools[k].head;
    assert FreeListOk(s.mem, k, s.pools[k], v.frees[k], s.log, v);
    assert L.Chain(v.chunks[k], Link(s.mem), head);
    if v.chunks[k] != [] {
      assert head in v.chunks[k];
      assert CurrOk(s.mem, head, k.1, v.used[head]);
      FreeCountIs(s.pools[k], s.mem, k.1, v.used[head]);
    }
    RoomIffNextFits(s.pools[k], s.mem, k.1);
  }

  /** An alloc that had to get a chunk: whatever ran in between, the pool does what it would have done in one go. */
  lemma AllocNewIsSerial(s: State, t: Tid, s': State)
    requires Reached(s) && t in s.phase && t in s.mm.pc && AllocNewStep(s, t, s') && s.mm.pc[t].p != 0
    ensures exists b :: ServedAndStamped(s, (t, s.phase[t].cls), b, s.phase[t].bytes, s.phase[t].debug, s')
  {
    var v := Lists(s);
    NewIsSerial(s, v, t, s');
  }

  lemma NewIsSerial(s: State, v: View, t: Tid, s': State)
    requires ChunksOk(s.mm.base, v) && HeadersOk(s.mem, s.pools, v) && ListsInHome(v) && Tallied(s.pools, s.phase, v)
    requires FreesOk(s.mem, s.pools, s.phase, s.log, v)
    requires t in s.phase && t in s.mm.pc && AllocNewStep(s, t, s') && s.mm.pc[t].p != 0
    ensures exists b :: ServedAndStamped(s, (t, s.phase[t].cls), b, s.phase[t].bytes, s.phase[t].debug, s')
  {
    var k := (t, s.phase[t].cls);
    var chunk := s.mm.pc[t].p;
    assert KeyTally(s.pools[k], s.phase[t], k, v);
    FullHasNoRoom(s, v, k);
    var q := Installed(s.pools[k], chunk);
    var m := InstallMem(s.pools[k], s.mem, chunk);
    ServedBy(s, k, q, CarveMem(q, m, k.1), CarvePtr(q, m), s.phase[t].bytes, s.phase[t].debug, s');
  }
}
