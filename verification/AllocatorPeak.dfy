/** The footprint of every pool over every run: it has carved exactly as many blocks as its counter ever reached. */
module AllocatorPeak {
  import opened Runs
  import L = LfStack
  import opened Memory
  import SizeClasses
  import opened Pool
  import opened Allocator
  import opened AllocatorInv
  import AllocatorCounts
  import opened AllocatorTheorems

  /** How many blocks have been carved from the chunk at p, from its `pool_curr`. */
  function CarvedFrom(m: Mem, p: Ptr, cls: nat): int
    requires cls > 0
  {
    (Read64(m, CurrOf(p)) - p - POOL_HEADER) / cls
  }

  function CarvedFromAll(m: Mem, chunks: seq<Ptr>, cls: nat): int
    requires cls > 0
  {
    if chunks == [] then 0 else CarvedFrom(m, chunks[0], cls) + CarvedFromAll(m, chunks[1..], cls)
  }

  function CeilDiv(x: nat, c: nat): nat
    requires c > 0
  {
    (x + c - 1) / c
  }

  lemma CarvedFromIs(m: Mem, p: Ptr, cls: nat, n: nat)
    requires cls > 0 && CurrOk(m, p, cls, n)
    ensures CarvedFrom(m, p, cls) == n
  {
    SlotIs(p, cls, n);
    DivUnique(n * cls, cls, n);
  }

  lemma {:induction false} CarvedFromAllIs(m: Mem, chunks: seq<Ptr>, cls: nat, used: map<Ptr, nat>)
    requires cls > 0 && forall p | p in chunks :: p in used && CurrOk(m, p, cls, used[p])
    ensures CarvedFromAll(m, chunks, cls) == Carved(chunks, used)
  {
    if chunks != [] {
      CarvedFromIs(m, chunks[0], cls, used[chunks[0]]);
      assert forall p | p in chunks[1..] :: p in chunks;
      CarvedFromAllIs(m, chunks[1..], cls, used);
    }
  }

  lemma {:induction false} FullChunks(chunks: seq<Ptr>, used: map<Ptr, nat>, cap: nat)
    requires forall i | 0 <= i < |chunks| :: chunks[i] in used && used[chunks[i]] == cap
    ensures Carved(chunks, used) == |chunks| * cap
  {
    if chunks != [] {
      assert forall i | 0 <= i < |chunks| - 1 :: chunks[1..][i] == chunks[i + 1];
      FullChunks(chunks[1..], used, cap);
      MulStep(|chunks| - 1, cap);
    }
  }

  lemma Ceiling(n: nat, u: nat, c: nat)
    requires 0 < u <= c
    ensures CeilDiv(n * c + u, c) == n + 1
  {
    MulStep(n, c);
    DivUnique(n * c + u + c - 1, c, n + 1);
  }

  lemma Zero(c: nat)
    requires c > 0
    ensures CeilDiv(0, c) == 0
  {
    DivUnique(c - 1, c, 0);
  }

  /** With all chunks but the first full and the first begun, there are just enough chunks. */
  lemma ChunksNeeded(chunks: seq<Ptr>, used: map<Ptr, nat>, cap: nat)
    requires cap > 0 && Packed(chunks, used, cap)
    requires chunks != [] ==> chunks[0] in used && 0 < used[chunks[0]] <= cap
    ensures |chunks| == CeilDiv(Carved(chunks, used), cap)
  {
    if chunks == [] {
      Zero(cap);
    } else {
      assert forall i | 0 <= i < |chunks| - 1 :: chunks[1..][i] == chunks[i + 1];
      FullChunks(chunks[1..], used, cap);
      Ceiling(|chunks| - 1, used[chunks[0]], cap);
    }
  }

  /** The pool's chunk list and free list as they are in memory, and what they add up to. */
  ghost predicate Footprint(m: Mem, p: CPool, cls: nat, chunks: seq<Ptr>, free: seq<Ptr>) {
    && L.Chain(chunks, Link(m), p.head) && L.NoDup(chunks)
    && L.Chain(free, Link(m), p.free) && L.NoDup(free)
    && cls > 0 && Cap(cls) > 0
    && CarvedFromAll(m, chunks, cls) == p.peak
    && |free| + p.net == p.peak
    && |chunks| == CeilDiv(p.peak, Cap(cls))
    && p.inUse == p.net % WORD
  }

  lemma FootprintIs(m: Mem, p: CPool, k: Key, v: View, log: map<Ptr, BlockState>, ph: Phase)
    requires k in v.chunks && k in v.frees && L.Chain(v.chunks[k], Link(m), p.head) && L.NoDup(v.chunks[k])
    requires FreeListOk(m, k, p, v.frees[k], log, v) && KeyTally(p, ph, k, v) && GoodClass(k.1)
    requires forall q | q in v.chunks[k] :: q in v.used && CurrOk(m, q, k.1, v.used[q]) && 0 < v.used[q] <= Cap(k.1)
    ensures Footprint(m, p, k.1, v.chunks[k], v.frees[k])
  {
    CarvedFromAllIs(m, v.chunks[k], k.1, v.used);
    assert v.chunks[k] != [] ==> v.chunks[k][0] in v.chunks[k];
    CapPositive(k.1);
    ChunksNeeded(v.chunks[k], v.used, Cap(k.1));
  }

  lemma CapPositive(cls: nat)
    requires GoodClass(cls)
    ensures Cap(cls) > 0
  {
  }

  lemma ChunksCurr(m: Mem, pools: map<Key, CPool>, v: View, k: Key, base: Ptr)
    requires HeadersOk(m, pools, v) && ListsInHome(v) && k in pools && ChunksOk(base, v)
    requires forall p | p in v.used :: v.used[p] > 0
    ensures forall q | q in v.chunks[k] :: q in v.used && CurrOk(m, q, k.1, v.used[q]) && 0 < v.used[q] <= Cap(k.1)
    ensures L.Chain(v.chunks[k], Link(m), pools[k].head)
  {
  }

  lemma PoolFootprint(s: State, v: View, k: Key)
    requires FreesOk(s.mem, s.pools, s.phase, s.log, v) && HeadersOk(s.mem, s.pools, v) && ListsInHome(v)
    requires ChunksOk(s.mm.base, v) && ListedOnce(v) && Tallied(s.pools, s.phase, v)
    requires k in s.pools && k.0 in s.phase && Active(s.phase[k.0]) && GoodClass(k.1)
    ensures Footprint(s.mem, s.pools[k], k.1, v.chunks[k], v.frees[k])
  {
    ChunksCurr(s.mem, s.pools, v, k, s.mm.base);
    assert KeyTally(s.pools[k], s.phase[k.0], k, v);
    FootprintIs(s.mem, s.pools[k], k, v, s.log, s.phase[k.0]);
  }

  lemma PoolClass(s: State, k: Key)
    requires PhasesOk(s) && k in s.pools
    ensures GoodClass(k.1)
  {
    SizeClasses.ClassFromList(k.1, 0);
  }

  /**
   The high-water mark: a running thread's pool has carved exactly as many
   blocks as its unwrapped counter ever reached, holds just the chunks that
   takes, and accounts for each carved block, whoever frees what.
   */
  lemma HighWaterMark(s: State, k: Key)
    requires Reached(s) && k in s.pools && k.0 in s.phase && Active(s.phase[k.0])
    ensures exists chunks, free :: Footprint(s.mem, s.pools[k], k.1, chunks, free)
  {
    var v := Lists(s);
    PoolClass(s, k);
    PoolFootprint(s, v, k);
  }

  // ---------------------------------------------------------------- the peak is the maximum over the run

  /** What a step does to a pool's counter. */
  ghost predicate Ticks(p: CPool, p': CPool) {
    || (p'.net == p.net && p'.peak == p.peak)
    || (p'.net == p.net + 1 && p'.peak == if p.peak < p.net + 1 then p.net + 1 else p.peak)
    || (p'.net == p.net - 1 && p'.peak == p.peak)
  }

  lemma AllocTicks(s: State, t: Tid, lbl: Label, s': State, k: Key)
    requires Next(s, t, lbl, s') && k in s.pools && (lbl.AllocLocal? || lbl.AllocNew?)
    ensures k in s'.pools && Ticks(s.pools[k], s'.pools[k])
  {
  }

  lemma FreeTicks(s: State, t: Tid, lbl: Label, s': State, k: Key)
    requires Next(s, t, lbl, s') && k in s.pools && (lbl.Dealloc? || lbl.ReturnChunk?)
    ensures k in s'.pools && Ticks(s.pools[k], s'.pools[k])
  {
  }

  lemma EveryPoolTicks(s: State, t: Tid, lbl: Label, s': State, k: Key)
    requires Next(s, t, lbl, s') && k in s.pools
    ensures k in s'.pools && Ticks(s.pools[k], s'.pools[k])
  {
    if lbl.AllocLocal? || lbl.AllocNew? {
      AllocTicks(s, t, lbl, s', k);
    } else if lbl.Dealloc? || lbl.ReturnChunk? {
      FreeTicks(s, t, lbl, s', k);
    } else {
      AllocatorCounts.OtherCounts(s, t, lbl, s');
    }
  }

  lemma PeakStep(s: State, t: Tid, lbl: Label, s': State, k: Key)
    requires Next(s, t, lbl, s') && k in s.pools && s.pools[k].net <= s.pools[k].peak
    ensures k in s'.pools
    ensures s'.pools[k].peak == if s'.pools[k].net > s.pools[k].peak then s'.pools[k].net else s.pools[k].peak
  {
    EveryPoolTicks(s, t, lbl, s', k);
  }

  ghost predicate IsPeak(cs: seq<State>, k: Key, peak: nat) {
    && (forall i | 0 <= i < |cs| :: k in cs[i].pools && cs[i].pools[k].net <= peak)
    && (exists i :: 0 <= i < |cs| && k in cs[i].pools && cs[i].pools[k].net == peak)
  }

  lemma PeakExtends(cs: seq<State>, k: Key, peak: nat, s': State, peak': nat)
    requires IsPeak(cs, k, peak) && k in s'.pools
    requires peak' == if s'.pools[k].net > peak then s'.pools[k].net else peak
    ensures IsPeak(cs + [s'], k, peak')
  {
    var all := cs + [s'];
    assert forall i | 0 <= i < |cs| :: all[i] == cs[i];
    assert all[|cs|] == s';
    var i :| 0 <= i < |cs| && k in cs[i].pools && cs[i].pools[k].net == peak;
    assert all[i].pools[k].net == peak;
    assert s'.pools[k].net > peak ==> all[|cs|].pools[k].net == peak';
  }

  ghost predicate PeakHolds(cs: seq<State>, k: Key) {
    cs != [] && (k in cs[0].pools ==> k in cs[|cs| - 1].pools && IsPeak(cs, k, cs[|cs| - 1].pools[k].peak))
  }

  lemma StepToPeak(cs: seq<State>, e: Event, s': State, k: Key)
    requires PeakHolds(cs, k) && Step(cs[|cs| - 1], e, s')
    ensures PeakHolds(cs + [s'], k)
  {
    var s := cs[|cs| - 1];
    if k in cs[0].pools {
      PeakStep(s, e.0, e.1, s', k);
      PeakExtends(cs, k, s.pools[k].peak, s', s'.pools[k].peak);
    }
  }

  lemma InitPeak(s: State, k: Key)
    requires Init(s)
    ensures PeakHolds([s], k)
  {
    if k in s.pools {
      assert [s][0].pools[k].net == s.pools[k].peak;
    }
  }

  /** Over every run, `peak` is the most the pool's counter has been. */
  lemma PeakIsMaximum(cs: seq<State>, evs: seq<Event>, k: Key)
    requires Run(Init, Step, cs, evs) && k in cs[0].pools
    ensures k in cs[|evs|].pools && IsPeak(cs, k, cs[|evs|].pools[k].peak)
  {
    var prop := h => PeakHolds(h, k);
    forall s | Init(s) ensures prop([s]) { InitPeak(s, k); }
    forall pre, s0, e, s | prop(pre) && Step(s0, e, s) && pre != [] && pre[|pre| - 1] == s0 ensures prop(pre + [s]) {
      StepToPeak(pre, e, s, k);
    }
    HistoryInduction(Init, Step, prop, cs, evs);
  }
}
