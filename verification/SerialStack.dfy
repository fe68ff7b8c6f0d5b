/**
 `lf_stack` as the source writes it, a class whose methods loop and update
 fields, run by one thread over the links in memory. Nothing interferes, so a
 CAS fails only spuriously, as often as the caller of the model says.
 */
module SerialStack {
  import L = LfStack
  import opened Memory

  /** The address space. */
  class Ram {
    var m: Mem

    constructor (m: Mem)
      ensures this.m == m
    {
      this.m := m;
    }
  }

  function Reversed<T>(s: seq<T>): (r: seq<T>) {
    if s == [] then [] else Reversed(s[1..]) + [s[0]]
  }

  lemma {:induction false} ReversedAppend<T>(s: seq<T>, t: seq<T>)
    ensures Reversed(s + t) == Reversed(t) + Reversed(s)
  {
    if s == [] {
      assert s + t == t;
    } else {
      ReversedAppend(s[1..], t);
      assert (s + t)[1..] == s[1..] + t;
    }
  }

  /** Reversing twice changes nothing: two walks by for_each restore the order. */
  lemma {:induction false} ReversedTwice<T>(s: seq<T>)
    ensures Reversed(Reversed(s)) == s
  {
    if s != [] {
      ReversedTwice(s[1..]);
      ReversedAppend(Reversed(s[1..]), [s[0]]);
    }
  }

  lemma {:induction false} ReversedHas<T>(s: seq<T>)
    ensures |Reversed(s)| == |s| && forall x :: x in Reversed(s) <==> x in s
  {
    if s != [] {
      ReversedHas(s[1..]);
    }
  }

  /** Nodes whose links do not overlap, at addresses that fit a word. */
  ghost predicate NodesOk(s: seq<Ptr>) {
    && L.NoDup(s)
    && (forall p | p in s :: 0 < p < WORD)
    && (forall p, q | p in s && q in s && p != q :: p + 8 <= q || q + 8 <= p)
  }

  /** The link of p overlaps none of these. */
  ghost predicate ApartFrom(p: Ptr, s: seq<Ptr>) {
    forall q | q in s :: p + 8 <= q || q + 8 <= p
  }

  /** Only links of these nodes changed. */
  ghost predicate TouchesLinks(m: Mem, m': Mem, s: seq<Ptr>) {
    forall x | (forall p | p in s :: x < p || p + 8 <= x) :: m'(x) == m(x)
  }

  lemma ConsNodes(p: Ptr, s: seq<Ptr>)
    requires NodesOk(s) && ApartFrom(p, s) && 0 < p < WORD
    ensures NodesOk([p] + s)
  {
    L.Cons(p, s);
  }

  lemma TailNodes(s: seq<Ptr>)
    requires NodesOk(s) && s != []
    ensures NodesOk(s[1..]) && ApartFrom(s[0], s[1..])
  {
    assert s == [s[0]] + s[1..];
    L.Cons(s[0], s[1..]);
  }

  /** A write to a link apart from a chain leaves the chain alone. */
  lemma ChainApart(s: seq<Ptr>, m: Mem, p: Ptr, v: nat, head: Ptr)
    requires L.Chain(s, Link(m), head) && ApartFrom(p, s) && v < WORD
    ensures L.Chain(s, Link(Write64(m, p, v)), head)
  {
    var m' := Write64(m, p, v);
    Write64Spec(m, p, v);
    forall q | q in s ensures Link(m')(q) == Link(m)(q) { ReadOutside(m, m', p, p + 8, q); }
    L.ChainFrame(s, Link(m), Link(m'), head);
  }

  lemma PushChain(s: seq<Ptr>, m: Mem, p: Ptr, head: Ptr)
    requires L.Chain(s, Link(m), head) && ApartFrom(p, s) && 0 < p && head < WORD
    ensures L.Chain([p] + s, Link(Write64(m, p, head)), p)
  {
    ChainApart(s, m, p, head, head);
    Write64Spec(m, p, head);
    assert ([p] + s)[1..] == s;
  }

  /** The node a walk is at, between those visited and those still to come. */
  lemma NextNode(all: seq<Ptr>, visited: seq<Ptr>, rest: seq<Ptr>, p: Ptr)
    requires NodesOk(all) && all == visited + rest && rest != [] && rest[0] == p
    ensures ApartFrom(p, Reversed(visited)) && 0 < p < WORD && ApartFrom(p, rest[1..]) && p in all
  {
    ReversedHas(visited);
    assert all[|visited|] == p && p in all;
    forall q | q in visited ensures p + 8 <= q || q + 8 <= p {
      var i :| 0 <= i < |visited| && visited[i] == q;
      assert all[i] == q && q in all && all[i] != all[|visited|];
    }
    forall q | q in rest[1..] ensures p + 8 <= q || q + 8 <= p {
      var i :| 0 <= i < |rest| - 1 && rest[1..][i] == q;
      assert all[|visited| + 1 + i] == q && q in all && all[|visited|] != all[|visited| + 1 + i];
    }
  }

  lemma VisitOne(all: seq<Ptr>, visited: seq<Ptr>, rest: seq<Ptr>, p: Ptr)
    requires all == visited + rest && rest != [] && rest[0] == p
    ensures all == (visited + [p]) + rest[1..] && Reversed(visited + [p]) == [p] + Reversed(visited)
  {
    assert rest == [p] + rest[1..];
    ReversedAppend(visited, [p]);
  }

  lemma TouchesMore(m0: Mem, m: Mem, m': Mem, s: seq<Ptr>, p: Ptr)
    requires TouchesLinks(m0, m, s) && p in s && Touches(m, m', p, p + 8)
    ensures TouchesLinks(m0, m', s)
  {
  }

  /** What a push of p leaves of a chain apart from p. */
  lemma Undisturbed(s: seq<Ptr>, m: Mem, m': Mem, p: Ptr, head: Ptr)
    requires L.Chain(s, Link(m), head) && ApartFrom(p, s) && Touches(m, m', p, p + 8)
    ensures L.Chain(s, Link(m'), head)
  {
    forall q | q in s ensures Link(m')(q) == Link(m)(q) { ReadOutside(m, m', p, p + 8, q); }
    L.ChainFrame(s, Link(m), Link(m'), head);
  }

  class LfStack {
    const ram: Ram
    var head: L.Head
    ghost var items: seq<Ptr>

    ghost predicate Valid()
      reads this, ram
    {
      L.Chain(items, Link(ram.m), head.ptr) && NodesOk(items)
    }

    constructor (ram: Ram)
      ensures this.ram == ram && Valid() && items == [] && head == L.Head(0, 0)
    {
      this.ram := ram;
      head := L.Head(0, 0);
      items := [];
    }

    /** `compare_exchange_weak`; a failure hands back the value found. */
    method Cas(expected: L.Head, desired: L.Head, spurious: bool) returns (ok: bool, found: L.Head)
      modifies this`head
      ensures ok == (old(head) == expected && !spurious)
      ensures head == if ok then desired else old(head)
      ensures found == old(head)
    {
      found := head;
      ok := head == expected && !spurious;
      if ok {
        head := desired;
      }
    }

    method Pop(fails: nat) returns (p: Ptr)
      requires Valid()
      modifies this
      ensures Valid()
      ensures old(items) == [] ==> p == 0 && items == [] && head == old(head)
      ensures old(items) != [] ==>
                p == old(items[0]) && items == old(items[1..]) && head.aba == old(head.aba) + 1
    {
      var curr := head;
      var left := fails;
      while curr.ptr != 0
        invariant curr == head == old(head) && items == old(items) && Valid()
        decreases left
      {
        var next := L.Head(curr.aba + 1, Read64(ram.m, curr.ptr));
        var was := curr;
        var ok;
        ok, curr := Cas(was, next, left > 0);
        if ok {
          TailNodes(items);
          items := items[1..];
          return was.ptr;
        }
        left := left - 1;
      }
      p := 0;
    }

    method Push(p: Ptr, fails: nat)
      requires Valid() && 0 < p < WORD && ApartFrom(p, items)
      modifies this, ram
      ensures Valid() && items == [p] + old(items) && head.aba == old(head.aba) + 1
      ensures Touches(old(ram.m), ram.m, p, p + 8)
    {
      var curr := head;
      var left := fails;
      while true
        invariant curr == head == old(head) && items == old(items) && Valid()
        invariant Touches(old(ram.m), ram.m, p, p + 8)
        decreases left
      {
        HeadFits();
        PushChain(items, ram.m, p, curr.ptr);
        ChainApart(items, ram.m, p, curr.ptr, curr.ptr);
        Write64Spec(ram.m, p, curr.ptr);
        ram.m := Write64(ram.m, p, curr.ptr);
        var next := L.Head(curr.aba + 1, p);
        var was := curr;
        var ok;
        ok, curr := Cas(was, next, left > 0);
        if ok {
          ConsNodes(p, items);
          items := [p] + items;
          return;
        }
        left := left - 1;
      }
    }

    /**
     `for_each`: takes the whole stack in one exchange, then visits each node and
     pushes it back, reading its link before `push` overwrites it.
     */
    method ForEach(fails: nat) returns (visited: seq<Ptr>)
      requires Valid()
      modifies this, ram
      ensures Valid() && visited == old(items) && items == Reversed(old(items))
      ensures head.aba == old(head.aba) + if old(items) == [] then 0 else 1 + |old(items)|
      ensures TouchesLinks(old(ram.m), ram.m, old(items))
    {
      visited := [];
      var ptr := Detach(fails);
      ghost var all, rest, aba := old(items), old(items), head.aba;
      while ptr != 0
        invariant Valid() && L.Chain(rest, Link(ram.m), ptr)
        invariant all == visited + rest && items == Reversed(visited)
        invariant head.aba == aba + |visited|
        invariant TouchesLinks(old(ram.m), ram.m, all)
        decreases |rest|
      {
        NextNode(all, visited, rest, ptr);
        VisitOne(all, visited, rest, ptr);
        ghost var m := ram.m;
        var next := Read64(ram.m, ptr);
        Push(ptr, fails);
        Undisturbed(rest[1..], m, ram.m, ptr, next);
        TouchesMore(old(ram.m), m, ram.m, all, ptr);
        visited, rest := visited + [ptr], rest[1..];
        ptr := next;
      }
    }

    /** The exchange of the head with null, unless the stack is empty. */
    method Detach(fails: nat) returns (ptr: Ptr)
      requires Valid()
      modifies this
      ensures Valid() && items == [] && L.Chain(old(items), Link(ram.m), ptr)
      ensures head.aba == old(head.aba) + if old(items) == [] then 0 else 1
    {
      var curr := head;
      var left := fails;
      while curr.ptr != 0
        invariant curr == head == old(head) && items == old(items) && Valid()
        decreases left
      {
        var next := L.Head(curr.aba + 1, 0);
        var was := curr;
        var ok;
        ok, curr := Cas(was, next, left > 0);
        if ok {
          items := [];
          return was.ptr;
        }
        left := left - 1;
      }
      ptr := 0;
    }

    /** `count_free_list`. */
    method CountFreeList(fails: nat) returns (c: nat)
      requires Valid()
      modifies this, ram
      ensures Valid() && c == |old(items)| && items == Reversed(old(items))
    {
      var visited := ForEach(fails);
      c := |visited|;
    }

    lemma HeadFits()
      requires Valid()
      ensures head.ptr < WORD
    {
      if items != [] {
        assert head.ptr in items;
      }
    }
  }
}
