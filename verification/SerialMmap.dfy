/** `mmap`'s chunk operations as the source writes them, run by one thread. */
module SerialMmap {
  import L = LfStack
  import M = Mmap
  import opened Memory
  import opened SerialStack

  /** What alloc_chunk ends in: a chunk, null when nothing is reserved, or a failed assert. */
  datatype Outcome = Chunk(p: Ptr) | Null | AssertFailed

  class ChunkManager {
    const ram: Ram
    const free: LfStack
    var base: Ptr
    var head: Ptr
    var perfAlloc: nat
    var perfDealloc: nat
    var perfFromFree: nat
    /** The chunks returned and not yet freed. */
    ghost var held: set<Ptr>

    /** Every chunk below `head` is free or held, not both, and the counters add up. */
    ghost predicate Valid()
      reads this, free, ram
    {
      && free.ram == ram && free.Valid()
      && M.GoodBase(base) && M.IsChunk(base, head) && head <= M.ChunkPtr(base, M.CHUNK_COUNT)
      && (base == 0 ==> head == 0)
      && (forall p: Ptr :: p in free.items || p in held <==> M.IsChunk(base, p) && p < head)
      && (forall p | p in free.items :: p !in held)
      && perfAlloc == (head - base) / M.CHUNK_SIZE
      && perfDealloc == perfFromFree + |free.items|
      && |held| + perfDealloc == perfAlloc + perfFromFree
    }

    /** Nothing is left below the last chunk of the reservation. */
    ghost predicate Exhausted()
      reads this, free
    {
      free.items == [] && (base == 0 || head == M.ChunkPtr(base, M.CHUNK_COUNT))
    }

    /** The state after `reserve`: `base` is null when it failed. */
    constructor (ram: Ram, base: Ptr)
      requires M.GoodBase(base)
      ensures Valid() && this.ram == ram && fresh(free) && this.base == base
      ensures free.items == [] && held == {} && head == base
    {
      this.ram := ram;
      this.base := base;
      head := base;
      perfAlloc, perfDealloc, perfFromFree := 0, 0, 0;
      held := {};
      var stack := new LfStack(ram);
      free := stack;
    }

    method AllocChunk(fails: nat) returns (r: Outcome)
      requires Valid()
      modifies this, free
      ensures Valid() && base == old(base)
      ensures r.Chunk? <==> !old(Exhausted())
      ensures r.Null? <==> old(Exhausted()) && base == 0
      ensures r.Chunk? ==>
                && r.p !in old(held) && held == old(held) + {r.p}
                && if old(free.items) != [] then r.p == old(free.items[0]) && free.items == old(free.items[1..])
                  && head == old(head)
                   else r.p == old(head) && free.items == [] && head == old(head) + M.CHUNK_SIZE
      ensures !r.Chunk? ==> held == old(held) && free.items == [] && head == old(head)
      ensures perfDealloc == old(perfDealloc)
      ensures perfFromFree == old(perfFromFree) + if r.Chunk? && old(free.items) != [] then 1 else 0
      ensures perfAlloc == old(perfAlloc) + if r.Chunk? && old(free.items) == [] then 1 else 0
    {
      var p := free.Pop(fails);
      if p != 0 {
        perfFromFree := perfFromFree + 1;
        held := held + {p};
        return Chunk(p);
      }
      r := AllocChunkFromNew(fails);
    }

    /** What the loop reads off `head`: its index, and the chunk after it. */
    lemma HeadIndex()
      requires M.GoodBase(base) && M.IsChunk(base, head) && head <= M.ChunkPtr(base, M.CHUNK_COUNT)
      ensures var index := M.ChunkIndex(base, head);
              && 0 <= index <= M.CHUNK_COUNT && M.ChunkPtr(base, index + 1) == head + M.CHUNK_SIZE
              && (index == M.CHUNK_COUNT <==> head == M.ChunkPtr(base, M.CHUNK_COUNT))
      ensures (head + M.CHUNK_SIZE - base) / M.CHUNK_SIZE == (head - base) / M.CHUNK_SIZE + 1
    {
    }

    /** The CAS loop over `head`. */
    method AllocChunkFromNew(fails: nat) returns (r: Outcome)
      requires Valid() && free.items == []
      modifies this
      ensures Valid() && base == old(base)
      ensures r.Chunk? <==> !old(Exhausted())
      ensures r.Null? <==> base == 0
      ensures r.Chunk? ==> r.p == old(head) && r.p !in old(held)
      ensures r.Chunk? ==> held == old(held) + {r.p} && head == old(head) + M.CHUNK_SIZE
      ensures !r.Chunk? ==> held == old(held) && head == old(head)
      ensures perfDealloc == old(perfDealloc) && perfFromFree == old(perfFromFree)
      ensures perfAlloc == old(perfAlloc) + if r.Chunk? then 1 else 0
    {
      var cur := head;
      var left := fails;
      HeadIndex();
      while true
        invariant cur == head == old(head) && held == old(held) && base == old(base) && Valid()
        invariant perfAlloc == old(perfAlloc)
        invariant perfDealloc == old(perfDealloc) && perfFromFree == old(perfFromFree)
        decreases left
      {
        if cur == 0 {
          return Null;
        }
        var index := M.ChunkIndex(base, cur);
        if index < 0 || M.CHUNK_COUNT < index + 1 {
          return AssertFailed;
        }
        var next := M.ChunkPtr(base, index + 1);
        if head == cur && left == 0 {
          head := next;
          break;
        }
        cur := head;
        left := left - 1;
      }
      M.NextChunk(base, cur);
      perfAlloc := perfAlloc + 1;
      held := held + {cur};
      r := Chunk(cur);
    }

    method FreeChunk(p: Ptr, fails: nat)
      requires Valid() && p in held
      modifies this, free, ram
      ensures Valid() && base == old(base) && head == old(head)
      ensures held == old(held) - {p} && free.items == [p] + old(free.items)
      ensures Touches(old(ram.m), ram.m, p, p + 8)
      ensures perfDealloc == old(perfDealloc) + 1
      ensures perfAlloc == old(perfAlloc) && perfFromFree == old(perfFromFree)
    {
      free.Push(p, fails);
      perfDealloc := perfDealloc + 1;
      held := held - {p};
    }

    /** Only the links of the free chunks matter to the manager. */
    twostate lemma Survives()
      requires old(Valid()) && unchanged(this) && unchanged(free)
      requires L.Chain(free.items, Link(ram.m), free.head.ptr)
      ensures Valid()
    {
    }
  }
}
