/** How each step changes what the pools' counters tally: slots carved, blocks listed free, blocks counted. */
module AllocatorTally {
  import L = LfStack
  import opened Memory
  import opened Pool
  import opened Allocator
  import opened AllocatorInv
  import opened AllocatorAlloc
  import opened AllocatorCarve
  import opened AllocatorInstall
  import opened AllocatorReturn

  lemma {:induction false} CarvedFrame(cs: seq<Ptr>, used: map<Ptr, nat>, used': map<Ptr, nat>)
    requires forall p | p in cs :: p in used && p in used' && used'[p] == used[p]
    ensures Carved(cs, used') == Carved(cs, used)
  {
    if cs != [] {
      assert forall p | p in cs[1..] :: p in cs;
      CarvedFrame(cs[1..], used, used');
    }
  }

  lemma PackedFrame(cs: seq<Ptr>, used: map<Ptr, nat>, used': map<Ptr, nat>, cap: nat)
    requires Packed(cs, used, cap)
    requires forall p | p in cs :: p in used && p in used' && used'[p] == used[p]
    ensures Packed(cs, used', cap)
  {
    forall i | 1 <= i < |cs| ensures cs[i] in used' && used'[cs[i]] == cap { assert cs[i] in cs; }
  }

  lemma TallyFrame(p: CPool, k: Key, cs: seq<Ptr>, free: nat, used: map<Ptr, nat>, used': map<Ptr, nat>)
    requires TallyOk(p, k, cs, free, used)
    requires forall q | q in cs :: q in used && q in used' && used'[q] == used[q]
    ensures TallyOk(p, k, cs, free, used')
  {
    CarvedFrame(cs, used, used');
    PackedFrame(cs, used, used', Cap(k.1));
  }

  lemma TallyTake(p: CPool, m: Mem, k: Key, cs: seq<Ptr>, free: nat, used: map<Ptr, nat>)
    requires TallyOk(p, k, cs, free, used) && free > 0
    ensures TallyOk(TakeFree(p, m), k, cs, free - 1, used)
  {
  }

  lemma TallyGive(p: CPool, b: Ptr, k: Key, cs: seq<Ptr>, free: nat, used: map<Ptr, nat>)
    requires TallyOk(p, k, cs, free, used)
    ensures TallyOk(GaveBack(p, b), k, cs, free + 1, used)
  {
  }

  /** Carving happens only with the free list empty: then the counter is at its peak. */
  lemma TallyCarve(p: CPool, k: Key, cs: seq<Ptr>, used: map<Ptr, nat>, used': map<Ptr, nat>)
    requires TallyOk(p, k, cs, 0, used)
    requires cs != [] && L.NoDup(cs) && cs[0] in used && used' == used[cs[0] := used[cs[0]] + 1]
    requires forall q | q in cs :: q in used
    ensures TallyOk(Counted(p), k, cs, 0, used')
  {
    forall q | q in cs[1..] ensures q in used && q in used' && used'[q] == used[q] {
      L.Cons(cs[0], cs[1..]);
      assert cs == [cs[0]] + cs[1..];
    }
    CarvedFrame(cs[1..], used, used');
  }

  /** A chunk is added only when the current one is full. */
  lemma TallyInstall(p: CPool, k: Key, cs: seq<Ptr>, free: nat, used: map<Ptr, nat>, q: Ptr)
    requires TallyOk(p, k, cs, free, used) && q !in cs
    requires forall r | r in cs :: r in used
    requires cs != [] ==> used[cs[0]] == Cap(k.1)
    ensures TallyOk(Installed(p, q), k, [q] + cs, free, used[q := 0])
  {
    var used' := used[q := 0];
    assert ([q] + cs)[1..] == cs;
    CarvedFrame(cs, used, used');
    forall i | 1 <= i < |[q] + cs| ensures ([q] + cs)[i] in used' && used'[([q] + cs)[i]] == Cap(k.1) {
      assert ([q] + cs)[i] == cs[i - 1] && cs[i - 1] in cs;
    }
  }

  // ---------------------------------------------------------------- all pools at once

  lemma TalliesTake(pools: map<Key, CPool>, phase: map<Tid, Phase>, v: View, k: Key, m: Mem, v': View)
    requires TalliesOk(pools, phase, v) && k in pools && k.0 in phase && phase[k.0] == Idle && v.frees[k] != []
    requires v' == v.(frees := v.frees[k := v.frees[k][1..]])
    ensures TalliesOk(pools[k := TakeFree(pools[k], m)], phase, v')
  {
    assert KeyTally(pools[k], phase[k.0], k, v);
    TallyTake(pools[k], m, k, v.chunks[k], |v.frees[k]|, v.used);
    forall j | j in pools && j != k && j.0 in phase && Active(phase[j.0])
      ensures KeyTally(pools[j], phase[j.0], j, v') {
      assert KeyTally(pools[j], phase[j.0], j, v);
    }
  }

  lemma TalliesGive(pools: map<Key, CPool>, phase: map<Tid, Phase>, v: View, k: Key, b: Ptr, v': View)
    requires TalliesOk(pools, phase, v) && k in pools && k.0 in phase && phase[k.0] == Idle
    requires v' == v.(frees := v.frees[k := [b] + v.frees[k]])
    ensures TalliesOk(pools[k := GaveBack(pools[k], b)], phase, v')
  {
    assert KeyTally(pools[k], phase[k.0], k, v);
    TallyGive(pools[k], b, k, v.chunks[k], |v.frees[k]|, v.used);
    forall j | j in pools && j != k && j.0 in phase && Active(phase[j.0])
      ensures KeyTally(pools[j], phase[j.0], j, v') {
      assert KeyTally(pools[j], phase[j.0], j, v);
    }
  }

  /** Another pool's tally does not see a change to one chunk that is not in its list. */
  lemma OtherTally(p: CPool, ph: Phase, j: Key, v: View, v': View)
    requires j in v.chunks && j in v.frees && KeyTally(p, ph, j, v)
    requires j in v'.chunks && j in v'.frees && v'.chunks[j] == v.chunks[j] && v'.frees[j] == v.frees[j]
    requires forall q | q in v.chunks[j] :: q in v.used && q in v'.used && v'.used[q] == v.used[q]
    ensures KeyTally(p, ph, j, v')
  {
    TallyFrame(p, j, v.chunks[j], |v.frees[j]|, v.used, v'.used);
  }

  lemma TalliesCarve(pools: map<Key, CPool>, phase: map<Tid, Phase>, v: View, k: Key, v': View)
    requires TalliesOk(pools, phase, v) && k in pools && k.0 in phase && phase[k.0] == Idle && v.frees[k] == []
    requires ListsInHome(v) && v.used.Keys == v.home.Keys && v.chunks[k] != [] && L.NoDup(v.chunks[k])
    requires v.chunks[k][0] in v.used
    requires v'.chunks == v.chunks && v'.frees == v.frees
    requires v'.used == v.used[v.chunks[k][0] := v.used[v.chunks[k][0]] + 1]
    ensures TalliesOk(pools[k := Counted(pools[k])], phase, v')
  {
    assert v.chunks[k][0] in v.chunks[k];
    assert KeyTally(pools[k], phase[k.0], k, v);
    TallyCarve(pools[k], k, v.chunks[k], v.used, v'.used);
    forall j | j in pools && j != k && j.0 in phase && Active(phase[j.0])
      ensures KeyTally(pools[j], phase[j.0], j, v') {
      OtherTally(pools[j], phase[j.0], j, v, v');
    }
  }

  lemma TalliesInstall(pools: map<Key, CPool>, phase: map<Tid, Phase>, v: View, k: Key, p: Ptr, v': View)
    requires TalliesOk(pools, phase, v) && k in pools && k.0 in phase && phase[k.0].Fetching? && phase[k.0].cls == k.1
    requires ListsInHome(v) && v.used.Keys == v.home.Keys && p !in v.home
    requires v'.chunks == v.chunks[k := [p] + v.chunks[k]] && v'.frees == v.frees && v'.used == v.used[p := 0]
    ensures TalliesOk(pools[k := Installed(pools[k], p)], phase[k.0 := Idle], v')
  {
    assert KeyTally(pools[k], phase[k.0], k, v);
    TallyInstall(pools[k], k, v.chunks[k], |v.frees[k]|, v.used, p);
    forall j | j in pools && j != k && j.0 in phase && Active(phase[j.0])
      ensures KeyTally(pools[j], phase[j.0], j, v') {
      OtherTally(pools[j], phase[j.0], j, v, v');
    }
  }

  lemma TalliesReturn(pools: map<Key, CPool>, phase: map<Tid, Phase>, v: View, k: Key, p: Ptr, pool: CPool,
      ph: Phase, v': View)
    requires TalliesOk(pools, phase, v) && k in pools && k.0 in phase && !Active(phase[k.0]) && !Active(ph)
    requires ListsInHome(v) && v.used.Keys == v.home.Keys && p in v.home && v.home[p] == k
    requires v'.chunks.Keys == v.chunks.Keys && v'.frees == v.frees && v'.used == v.used - {p}
    requires forall j | j in v.chunks && j != k :: v'.chunks[j] == v.chunks[j]
    ensures TalliesOk(pools[k := pool], phase[k.0 := ph], v')
  {
    forall j | j in pools && j.0 in phase && j.0 != k.0 && Active(phase[j.0])
      ensures KeyTally(pools[j], phase[j.0], j, v') {
      OtherTally(pools[j], phase[j.0], j, v, v');
    }
  }

  lemma TalliesPhase(pools: map<Key, CPool>, phase: map<Tid, Phase>, v: View, t: Tid, ph: Phase)
    requires TalliesOk(pools, phase, v) && t in phase && (Active(ph) ==> Active(phase[t]))
    requires ph.Fetching? ==> forall k | k in pools && k == (t, ph.cls) ::
        Full(v.chunks[k], |v.frees[k]|, v.used, Cap(k.1))
    ensures TalliesOk(pools, phase[t := ph], v)
  {
    forall j | j in pools && j.0 in phase && Active(phase[t := ph][j.0])
      ensures KeyTally(pools[j], phase[t := ph][j.0], j, v) {
      assert KeyTally(pools[j], phase[j.0], j, v);
    }
  }

  // ---------------------------------------------------------------- one lemma a step

  lemma TakeTallied(pools: map<Key, CPool>, phase: map<Tid, Phase>, v: View, k: Key, m: Mem)
    requires Tallied(pools, phase, v) && k in pools && k.0 in phase && phase[k.0] == Idle && v.frees[k] != []
    ensures Tallied(pools[k := TakeFree(pools[k], m)], phase, TakenView(v, k))
  {
    TalliesTake(pools, phase, v, k, m, TakenView(v, k));
  }

  lemma GiveTallied(pools: map<Key, CPool>, phase: map<Tid, Phase>, v: View, k: Key, b: Ptr)
    requires Tallied(pools, phase, v) && k in pools && k.0 in phase && phase[k.0] == Idle
    ensures Tallied(pools[k := GaveBack(pools[k], b)], phase, GivenView(v, k, b))
  {
    TalliesGive(pools, phase, v, k, b, GivenView(v, k, b));
  }

  /** A running pool with no `free_` has an empty free list. */
  lemma NoneFree(m: Mem, pools: map<Key, CPool>, phase: map<Tid, Phase>, log: map<Ptr, BlockState>, v: View, k: Key)
    requires FreesOk(m, pools, phase, log, v) && k in pools && k.0 in phase && Active(phase[k.0]) && pools[k].free == 0
    ensures v.frees[k] == []
  {
    assert FreeListOk(m, k, pools[k], v.frees[k], log, v);
  }

  lemma CarveTallied(base: Ptr, m: Mem, pools: map<Key, CPool>, phase: map<Tid, Phase>, v: View, k: Key, b: Ptr)
    requires Tallied(pools, phase, v) && HeadersOk(m, pools, v) && ListsInHome(v) && ListedOnce(v) && ChunksOk(base, v)
    requires k in pools && Carvable(m, v, k, pools[k]) && k.0 in phase && phase[k.0] == Idle && v.frees[k] == []
    ensures Tallied(pools[k := Counted(pools[k])], phase, CarvedView(v, pools[k].head, b))
  {
    assert L.Chain(v.chunks[k], Link(m), pools[k].head);
    TalliesCarve(pools, phase, v, k, CarvedView(v, pools[k].head, b));
  }

  /** A new chunk, before its first block is carved. */
  lemma InstallTallied(pools: map<Key, CPool>, phase: map<Tid, Phase>, v: View, k: Key, p: Ptr)
    requires TalliesOk(pools, phase, v) && ListsInHome(v) && ListedOnce(v) && v.used.Keys == v.home.Keys && p !in v.home
    requires k in pools && k.0 in phase && phase[k.0].Fetching? && phase[k.0].cls == k.1
    ensures k in v.chunks && k in v.frees && v.frees[k] == []
    ensures TalliesOk(pools[k := Installed(pools[k], p)], phase[k.0 := Idle], InstalledView(v, k, p))
    ensures ListsInHome(InstalledView(v, k, p)) && L.NoDup(InstalledView(v, k, p).chunks[k])
  {
    assert KeyTally(pools[k], phase[k.0], k, v);
    TalliesInstall(pools, phase, v, k, p, InstalledView(v, k, p));
    InstallLists(v, k, p);
    InstallListed(v, k, p);
  }

  /** A new chunk with its first block carved. */
  lemma NewChunkTallied(pools: map<Key, CPool>, phase: map<Tid, Phase>, v: View, k: Key, p: Ptr, b: Ptr)
    requires Tallied(pools, phase, v) && ListsInHome(v) && ListedOnce(v) && v.used.Keys == v.home.Keys && p !in v.home
    requires k in pools && k.0 in phase && phase[k.0].Fetching? && phase[k.0].cls == k.1
    ensures Tallied(pools[k := Counted(Installed(pools[k], p))], phase[k.0 := Idle],
        CarvedView(InstalledView(v, k, p), p, b))
  {
    var pools1 := pools[k := Installed(pools[k], p)];
    InstallTallied(pools, phase, v, k, p);
    FirstCarve(pools1, phase[k.0 := Idle], InstalledView(v, k, p), k, p, b);
    assert pools1[k := Counted(pools1[k])] == pools[k := Counted(Installed(pools[k], p))];
  }

  lemma FirstCarve(pools: map<Key, CPool>, phase: map<Tid, Phase>, v: View, k: Key, p: Ptr, b: Ptr)
    requires TalliesOk(pools, phase, v) && ListsInHome(v) && v.used.Keys == v.home.Keys
    requires k in pools && k.0 in phase && phase[k.0] == Idle && v.frees[k] == []
    requires v.chunks[k] != [] && v.chunks[k][0] == p && L.NoDup(v.chunks[k]) && p in v.used
    requires forall q | q in v.used && q != p :: v.used[q] > 0
    ensures Tallied(pools[k := Counted(pools[k])], phase, CarvedView(v, p, b))
  {
    TalliesCarve(pools, phase, v, k, CarvedView(v, p, b));
  }

  lemma ReturnTallied(pools: map<Key, CPool>, phase: map<Tid, Phase>, v: View, k: Key, p: Ptr, pool: CPool, ph: Phase)
    requires Tallied(pools, phase, v) && ListsInHome(v) && v.used.Keys == v.home.Keys && IsHead(v, k, p)
    requires k in pools && k.0 in phase && !Active(phase[k.0]) && !Active(ph)
    ensures Tallied(pools[k := pool], phase[k.0 := ph], ReturnedView(v, k, p))
  {
    TalliesReturn(pools, phase, v, k, p, pool, ph, ReturnedView(v, k, p));
  }

  /** Nothing can be allocated from pool k. */
  ghost predicate Filled(pools: map<Key, CPool>, v: View, k: Key) {
    k in pools ==> k in v.frees && k in v.chunks && k.1 > 0 && Full(v.chunks[k], |v.frees[k]|, v.used, Cap(k.1))
  }

  lemma PhaseTallied(pools: map<Key, CPool>, phase: map<Tid, Phase>, v: View, t: Tid, ph: Phase)
    requires Tallied(pools, phase, v) && t in phase && (Active(ph) ==> Active(phase[t]))
    requires ph.Fetching? ==> Filled(pools, v, (t, ph.cls))
    ensures Tallied(pools, phase[t := ph], v)
  {
    TalliesPhase(pools, phase, v, t, ph);
  }

  /** A thread asks for a chunk only for a pool with nothing left. */
  lemma NoRoomFills(base: Ptr, m: Mem, pools: map<Key, CPool>, v: View, k: Key)
    requires HeadersOk(m, pools, v) && ChunksOk(base, v) && ListsInHome(v) && k in pools && k in v.frees
    requires v.frees[k] == [] && k.1 > 0 && !HasRoom(pools[k], m, k.1)
    ensures Filled(pools, v, k)
  {
    var head := pools[k].head;
    assert L.Chain(v.chunks[k], Link(m), head);
    if v.chunks[k] != [] {
      assert head in v.chunks[k];
      assert CurrOk(m, head, k.1, v.used[head]);
      FreeCountIs(pools[k], m, k.1, v.used[head]);
    }
  }
}
