/**
 How many blocks a pool can still give without a new chunk, and that its thread
 can take them all.
 */
module AllocatorDrain {
  import opened Runs
  import L = LfStack
  import opened Memory
  import opened SizeClasses
  import opened Blocks
  import opened Pool
  import opened Allocator
  import opened AllocatorInv
  import AllocatorPeak
  import opened AllocatorTheorems
  import opened AllocatorProgress

  // ---------------------------------------------------------------- what is left in a pool

  /** How many slots are missing to the next multiple of the capacity. */
  function ToFull(n: nat, cap: nat): nat
    requires cap > 0
  {
    (cap - n % cap) % cap
  }

  lemma ModNext(n: nat, c: nat)
    requires c > 0
    ensures (n + 1) % c == if n % c + 1 == c then 0 else n % c + 1
  {
    DivBounds(n, c);
    var q := n / c;
    assert n == q * c + n % c;
    if n % c + 1 == c {
      MulStep(q, c);
      ModIs(n + 1, c, q + 1, 0);
    } else {
      ModIs(n + 1, c, q, n % c + 1);
    }
  }

  lemma ModIs(n: nat, c: nat, q: nat, r: nat)
    requires r < c && n == q * c + r
    ensures n % c == r
  {
    DivUnique(n, c, q);
  }

  lemma OneNearer(n: nat, c: nat)
    requires c > 0 && n % c != 0
    ensures ToFull(n, c) > 0 && ToFull(n + 1, c) == ToFull(n, c) - 1
  {
    ModNext(n, c);
    ModIs(c - n % c, c, 0, c - n % c);
    if n % c + 1 == c {
      ModIs(c, c, 1, 0);
    } else {
      ModIs(c - n % c - 1, c, 0, c - n % c - 1);
    }
  }

  /** How many blocks pool p can give before it needs a chunk. */
  function Spare(p: CPool, cls: nat): int
    requires cls > 0 && Cap(cls) > 0
  {
    p.peak - p.net + ToFull(p.peak, Cap(cls))
  }

  lemma RoomIff(p: CPool, m: Mem, k: Key, chunks: seq<Ptr>, free: nat, used: map<Ptr, nat>)
    requires GoodClass(k.1) && Cap(k.1) > 0 && L.Chain(chunks, Link(m), p.head) && TallyOk(p, k, chunks, free, used)
    requires chunks != [] ==> chunks[0] in used && CurrOk(m, chunks[0], k.1, used[chunks[0]])
    requires chunks != [] ==> 0 < used[chunks[0]] <= Cap(k.1)
    ensures HasRoom(p, m, k.1) <==> p.peak % Cap(k.1) != 0
  {
    var cap := Cap(k.1);
    if chunks == [] {
      ModIs(0, cap, 0, 0);
    } else {
      var u := used[chunks[0]];
      FreeCountIs(p, m, k.1, u);
      assert forall i | 0 <= i < |chunks| - 1 :: chunks[1..][i] == chunks[i + 1];
      AllocatorPeak.FullChunks(chunks[1..], used, cap);
      var n := |chunks| - 1;
      assert p.peak == n * cap + u;
      if u == cap {
        MulStep(n, cap);
        ModIs(p.peak, cap, n + 1, 0);
      } else {
        ModIs(p.peak, cap, n, u);
      }
    }
  }

  /** What the pool's counters say of its lists. */
  ghost predicate CountersTell(p: CPool, m: Mem, cls: nat) {
    && GoodClass(cls) && Cap(cls) > 0 && p.net <= p.peak
    && (p.free == 0 <==> p.net == p.peak) && (HasRoom(p, m, cls) <==> p.peak % Cap(cls) != 0)
  }

  lemma CountersTellHere(s: State, v: View, k: Key)
    requires FreesOk(s.mem, s.pools, s.phase, s.log, v) && HeadersOk(s.mem, s.pools, v) && ListsInHome(v)
    requires ChunksOk(s.mm.base, v) && Tallied(s.pools, s.phase, v)
    requires k in s.pools && k.0 in s.phase && Active(s.phase[k.0]) && GoodClass(k.1)
    ensures CountersTell(s.pools[k], s.mem, k.1)
  {
    AllocatorPeak.CapPositive(k.1);
    AllocatorPeak.ChunksCurr(s.mem, s.pools, v, k, s.mm.base);
    assert KeyTally(s.pools[k], s.phase[k.0], k, v);
    assert FreeListOk(s.mem, k, s.pools[k], v.frees[k], s.log, v);
    assert v.chunks[k] != [] ==> v.chunks[k][0] in v.chunks[k];
    RoomIff(s.pools[k], s.mem, k, v.chunks[k], |v.frees[k]|, v.used);
  }

  lemma CountersOf(s: State, k: Key)
    requires Reached(s) && k in s.pools && k.0 in s.phase && Active(s.phase[k.0])
    ensures CountersTell(s.pools[k], s.mem, k.1)
  {
    var v := Lists(s);
    AllocatorPeak.PoolClass(s, k);
    CountersTellHere(s, v, k);
  }

  // ---------------------------------------------------------------- taking it all

  predicate Allots(lbl: Label) {
    lbl.AllocLocal?
  }

  const DEBUG: Debug := Debug(0, 0, 0)

  /** Requests of this size are served from this class. */
  predicate Serves(cls: nat, bytes: nat) {
    TotalSize(bytes) <= MAX_ALLOC && ClassOf(TotalSize(bytes)) == cls && cls > 0
  }

  /** Each class serves the size that fills its blocks. */
  lemma FullSize(cls: nat)
    requires IsClass(cls)
    ensures cls >= 64 && TotalSize(cls - 64) == cls && Serves(cls, cls - 64)
  {
    ClassFromList(cls, 0);
    var i :| 0 <= i < |CLASSES| && CLASSES[i] == cls;
    ShippedClass(i);
    forall j | 0 <= j < i ensures CLASSES[j] < cls {
      ShippedSizeAt(j);
      ShippedSizeAt(i);
      SizesIncrease(j, i);
    }
    TableGivesClass(cls, i);
  }

  /** From s to r thread u has only taken blocks. */
  ghost predicate Took(s: State, u: Tid, r: State) {
    && r.mm == s.mm && r.phase == s.phase && r.pools.Keys == s.pools.Keys
    && (forall k | k in s.pools && k.0 != u :: r.pools[k] == s.pools[k])
    && (forall b | b in s.log :: b in r.log && (r.log[b].Live? || r.log[b] == s.log[b]))
  }

  lemma SpareAfter(p: CPool, m: Mem, cls: nat)
    requires cls > 0 && CountersTell(p, m, cls) && Spare(p, cls) != 0
    ensures p.free != 0 || HasRoom(p, m, cls)
    ensures Spare(if p.free != 0 then TakeFree(p, m) else Counted(p), cls) == Spare(p, cls) - 1
  {
    if p.free == 0 {
      ModIs(Cap(cls), Cap(cls), 1, 0);
      OneNearer(p.peak, Cap(cls));
    }
  }

  lemma AllottedStep(s: State, u: Tid, cls: nat, bytes: nat)
    requires AtRest(s, u) && Serves(cls, bytes) && (u, cls) in s.pools
    requires s.pools[(u, cls)].free != 0 || HasRoom(s.pools[(u, cls)], s.mem, cls)
    ensures Next(s, u, AllocLocal(bytes, DEBUG), Allotted(s, (u, cls), bytes, DEBUG))
  {
    assert AllocLocalStep(s, u, bytes, DEBUG, Allotted(s, (u, cls), bytes, DEBUG));
  }

  /** From s to r thread u has only taken blocks of this class. */
  ghost predicate TookOf(s: State, u: Tid, cls: nat, r: State) {
    Took(s, u, r) && (u, cls) in s.pools && r.pools == s.pools[(u, cls) := r.pools[(u, cls)]]
  }

  lemma AllottedTook(s: State, u: Tid, cls: nat, bytes: nat)
    requires (u, cls) in s.pools
    ensures var r := Allotted(s, (u, cls), bytes, DEBUG);
            var p := s.pools[(u, cls)];
            && TookOf(s, u, cls, r) && (u, cls) in r.pools
            && r.pools[(u, cls)] == if p.free != 0 then TakeFree(p, s.mem) else Counted(p)
  {
  }

  lemma TakesOne(s: State, u: Tid, cls: nat, bytes: nat) returns (r: State)
    requires AtRest(s, u) && Serves(cls, bytes)
    requires (u, cls) in s.pools && CountersTell(s.pools[(u, cls)], s.mem, cls) && Spare(s.pools[(u, cls)], cls) != 0
    ensures Next(s, u, AllocLocal(bytes, DEBUG), r) && TookOf(s, u, cls, r)
    ensures Spare(r.pools[(u, cls)], cls) == Spare(s.pools[(u, cls)], cls) - 1
  {
    r := Allotted(s, (u, cls), bytes, DEBUG);
    SpareAfter(s.pools[(u, cls)], s.mem, cls);
    AllottedTook(s, u, cls, bytes);
    AllottedStep(s, u, cls, bytes);
  }

  lemma TakesOneOn(u: Tid, s0: State, s: State, cls: nat, bytes: nat) returns (r: State)
    requires Reached(s) && Path(u, Allots, s0, s) && AtRest(s, u) && Serves(cls, bytes)
    requires (u, cls) in s.pools && CountersTell(s.pools[(u, cls)], s.mem, cls) && Spare(s.pools[(u, cls)], cls) != 0
    ensures Reached(r) && Path(u, Allots, s0, r) && TookOf(s, u, cls, r) && AtRest(r, u)
    ensures CountersTell(r.pools[(u, cls)], r.mem, cls)
    ensures Spare(r.pools[(u, cls)], cls) == Spare(s.pools[(u, cls)], cls) - 1
  {
    r := TakesOne(s, u, cls, bytes);
    PathStep(u, Allots, s0, s, AllocLocal(bytes, DEBUG), r);
    ReachStep(Init, Step, s, (u, AllocLocal(bytes, DEBUG)), r);
    CountersOf(r, (u, cls));
  }

  lemma TookJoin(s: State, u: Tid, x: State, r: State)
    requires Took(s, u, x) && Took(x, u, r)
    ensures Took(s, u, r)
  {
  }

  lemma TookNothing(s: State, u: Tid, cls: nat)
    requires (u, cls) in s.pools
    ensures TookOf(s, u, cls, s)
  {
    assert s.pools[(u, cls) := s.pools[(u, cls)]] == s.pools;
  }

  lemma TookOfJoin(s: State, u: Tid, cls: nat, x: State, r: State)
    requires TookOf(s, u, cls, x) && TookOf(x, u, cls, r)
    ensures TookOf(s, u, cls, r)
  {
  }

  /** Thread u can take all that its pool of this class has. */
  lemma {:induction false} DrainsClass(u: Tid, s0: State, s: State, cls: nat, bytes: nat) returns (r: State)
    requires Reached(s) && Path(u, Allots, s0, s) && AtRest(s, u) && Serves(cls, bytes)
    requires (u, cls) in s.pools && CountersTell(s.pools[(u, cls)], s.mem, cls)
    ensures Reached(r) && Path(u, Allots, s0, r) && TookOf(s, u, cls, r)
    ensures Cap(cls) > 0 && Spare(r.pools[(u, cls)], cls) == 0
    decreases Spare(s.pools[(u, cls)], cls)
  {
    if Spare(s.pools[(u, cls)], cls) == 0 {
      r := s;
      TookNothing(s, u, cls);
    } else {
      var x := TakesOneOn(u, s0, s, cls, bytes);
      r := DrainsClass(u, s0, x, cls, bytes);
      TookOfJoin(s, u, cls, x, r);
    }
  }

  /** Nothing is left in u's pools of these classes. */
  ghost predicate AllSpent(pools: map<Key, CPool>, u: Tid, cs: seq<nat>) {
    forall c | c in cs :: (u, c) in pools && c > 0 && Cap(c) > 0 && Spare(pools[(u, c)], c) == 0
  }

  /** Requests of some size are served from this class. */
  ghost predicate IsServed(cls: nat) {
    exists bytes :: Serves(cls, bytes)
  }

  /** Thread u runs a pool for each of these classes. */
  ghost predicate RunsPools(pools: map<Key, CPool>, u: Tid, cs: seq<nat>) {
    forall c | c in cs :: (u, c) in pools && IsServed(c)
  }

  lemma DrainsNext(u: Tid, s0: State, s: State, cls: nat) returns (r: State)
    requires Reached(s) && Path(u, Allots, s0, s) && AtRest(s, u) && (u, cls) in s.pools
    requires IsServed(cls)
    ensures Reached(r) && Path(u, Allots, s0, r) && TookOf(s, u, cls, r)
    ensures cls > 0 && Cap(cls) > 0 && Spare(r.pools[(u, cls)], cls) == 0
  {
    var bytes :| Serves(cls, bytes);
    CountersOf(s, (u, cls));
    r := DrainsClass(u, s0, s, cls, bytes);
  }

  lemma SpentToo(s: State, u: Tid, cs: seq<nat>, x: State, r: State)
    requires cs != [] && Took(s, u, x) && AllSpent(x.pools, u, cs[1..]) && TookOf(x, u, cs[0], r)
    requires cs[0] > 0 && Cap(cs[0]) > 0 && Spare(r.pools[(u, cs[0])], cs[0]) == 0
    ensures Took(s, u, r) && AllSpent(r.pools, u, cs)
  {
    TookJoin(s, u, x, r);
    assert forall c | c in cs :: c == cs[0] || c in cs[1..];
  }

  lemma {:induction false} DrainsAll(u: Tid, s0: State, s: State, cs: seq<nat>) returns (r: State)
    requires Reached(s) && Path(u, Allots, s0, s) && AtRest(s, u) && RunsPools(s.pools, u, cs)
    ensures Reached(r) && Path(u, Allots, s0, r) && Took(s, u, r) && AllSpent(r.pools, u, cs)
    decreases |cs|
  {
    if cs == [] {
      r := s;
    } else {
      assert RunsPools(s.pools, u, cs[1..]);
      var x := DrainsAll(u, s0, s, cs[1..]);
      assert cs[0] in cs;
      r := DrainsNext(u, s0, x, cs[0]);
      SpentToo(s, u, cs, x, r);
    }
  }

  lemma RunsAll(s: State, u: Tid)
    requires Reached(s) && u in s.phase && s.phase[u] == Idle
    ensures AtRest(s, u) && RunsPools(s.pools, u, CLASSES)
  {
    var v := Parts(s);
    forall c | c in CLASSES ensures (u, c) in s.pools && IsServed(c) {
      var i :| 0 <= i < |CLASSES| && CLASSES[i] == c;
      ClassInList(0, i);
      FullSize(c);
    }
  }

  /** An idle thread can take every block that its pools have left, until each would need a chunk. */
  lemma Drains(u: Tid, s: State) returns (r: State)
    requires Reached(s) && u in s.phase && s.phase[u] == Idle
    ensures Reached(r) && Path(u, Allots, s, r) && Took(s, u, r)
    ensures forall c | IsClass(c) :: PoolEmpty(r, (u, c))
  {
    PathSelf(u, Allots, s);
    RunsAll(s, u);
    r := DrainsAll(u, s, s, CLASSES);
    forall c | IsClass(c) ensures PoolEmpty(r, (u, c)) { SpentIsEmpty(r, u, c); }
  }

  lemma SpentIsEmpty(s: State, u: Tid, cls: nat)
    requires Reached(s) && u in s.phase && s.phase[u] == Idle && AllSpent(s.pools, u, CLASSES) && IsClass(cls)
    ensures PoolEmpty(s, (u, cls))
  {
    ClassFromList(cls, 0);
    CountersOf(s, (u, cls));
    var p := s.pools[(u, cls)];
    if p.peak % Cap(cls) != 0 {
      OneNearer(p.peak, Cap(cls));
    } else {
      ModIs(Cap(cls), Cap(cls), 1, 0);
    }
  }
}
