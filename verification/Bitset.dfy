/** The bit sets of src/np_bitset.h: one word, and 64 words under a summary word, each proved to be a set of numbers. */
module Bitset {
  import opened Words
  import opened Bits

  ghost predicate IsLeast(n: nat, s: set<nat>) {
    n in s && forall j | j in s :: n <= j
  }

  /** The least element, or `size` for the empty set. */
  ghost predicate IsFirst(n: nat, s: set<nat>, size: nat) {
    if s == {} then n == size else IsLeast(n, s)
  }

  function Above(s: set<nat>, pos: nat): set<nat> {
    set j | j in s && pos < j
  }

  /** The least element of s above pos, or `size`. */
  ghost predicate IsNext(n: nat, pos: nat, s: set<nat>, size: nat) {
    IsFirst(n, Above(s, pos), size)
  }

  // ---------------------------------------------------------------- one word

  function First(x: Word): (r: nat)
    ensures IsFirst(r, Elements(x), 64) && (x == 0 <==> Elements(x) == {})
  {
    NoElements(x);
    ClzIsFirst(x);
    if x == 0 then 64 else Clz(x)
  }

  predicate Contains(x: Word, i: nat)
    requires i < 64
    ensures Contains(x, i) <==> i in Elements(x)
  {
    BitIsElement(x, i);
    x & At(AsPos(i)) != 0
  }

  function Plus(x: Word, i: nat): (y: Word)
    requires i < 64
    ensures Elements(y) == Elements(x) + {i}
  {
    SetElement(x, i);
    x | At(AsPos(i))
  }

  function Minus(x: Word, i: nat): (y: Word)
    requires i < 64
    ensures Elements(y) == Elements(x) - {i}
  {
    ClearElement(x, i);
    x & !At(AsPos(i))
  }

  /** The word without the positions before i, whose shift count is p. */
  function CutBelow(x: Word, i: nat, p: Pos): (y: Word)
    requires i < 64 && p == AsPos(i)
    ensures Elements(y) == set j | j in Elements(x) && i <= j
  {
    CutElements(x, i, p);
    (x << p) >> p
  }

  /** `bitset<64>`. */
  class Bitset64 {
    var bits: Word

    ghost function Members(): set<nat>
      reads this
    {
      Elements(bits)
    }

    constructor (b: Word)
      ensures bits == b
    {
      bits := b;
    }

    function GetFirst(): (r: nat)
      reads this
      ensures IsFirst(r, Members(), 64)
    {
      First(bits)
    }

    predicate Get(pos: nat)
      requires pos < 64
      reads this
      ensures Get(pos) <==> pos in Members()
    {
      Contains(bits, pos)
    }

    method Set(pos: nat)
      requires pos < 64
      modifies this
      ensures Members() == old(Members()) + {pos}
    {
      bits := Plus(bits, pos);
    }

    method Clear(pos: nat) returns (empty: bool)
      requires pos < 64
      modifies this
      ensures Members() == old(Members()) - {pos}
      ensures empty <==> Members() == {}
    {
      bits := Minus(bits, pos);
      NoElements(bits);
      empty := bits == 0;
    }

    method Count() returns (c: nat)
      ensures c == |Members()|
    {
      PopcntCounts(bits);
      c := Popcnt(bits);
    }

    method SetAll()
      modifies this
      ensures forall i: nat :: i in Members() <==> i < 64
    {
      bits := ONES;
      FullAndEmpty();
    }

    method ClearAll()
      modifies this
      ensures Members() == {}
    {
      bits := 0;
      FullAndEmpty();
    }
  }

  /** `bitset<64>::iterator`. */
  class Iterator64 {
    const self: Bitset64
    var pos: nat

    constructor (self: Bitset64, pos: nat)
      ensures this.self == self && this.pos == pos
    {
      this.self := self;
      this.pos := pos;
    }

    predicate End()
      reads this
    {
      pos == 64
    }

    /** Shift out the positions passed and look for the first left. */
    method Next()
      requires pos < 64
      modifies this
      ensures IsNext(pos, old(pos), self.Members(), 64) && old(pos) < pos <= 64
    {
      pos := pos + 1;
      ghost var rest := Above(self.Members(), old(pos));
      if End() {
        assert rest == {};
        return;
      }
      assert rest == set j | j in Elements(self.bits) && pos <= j;
      var p := AsPos(pos);
      pos := First(CutBelow(self.bits, pos, p));
    }
  }

  // ---------------------------------------------------------------- two levels

  const SIZE: nat := 4096

  /** Sets of numbers below 64, one for each run of 64 numbers. */
  ghost predicate Runs(es: seq<set<nat>>) {
    |es| == 64 && forall i, j | 0 <= i < 64 && j in es[i] :: j < 64
  }

  ghost function Union(es: seq<set<nat>>): set<nat>
    requires Runs(es)
  {
    set n: nat | n < SIZE && n % 64 in es[n / 64]
  }

  /** i is in the summary just when run i is not empty. */
  ghost predicate Summarizes(summary: set<nat>, es: seq<set<nat>>) {
    && Runs(es)
    && (forall i | i in summary :: i < 64)
    && (forall i | 0 <= i < 64 :: i in summary <==> es[i] != {})
  }

  lemma InRun(i: nat, j: nat)
    requires i < 64 && j < 64
    ensures i * 64 + j < SIZE && (i * 64 + j) / 64 == i && (i * 64 + j) % 64 == j
  {
  }

  lemma UnionHas(es: seq<set<nat>>, i: nat, j: nat)
    requires Runs(es) && i < 64 && j < 64
    ensures i * 64 + j in Union(es) <==> j in es[i]
  {
    InRun(i, j);
  }

  /** Changing one run by one number. */
  lemma OneRun(es: seq<set<nat>>, es': seq<set<nat>>, pos: nat, add: bool)
    requires Runs(es) && Runs(es') && pos < SIZE
    requires es' == es[pos / 64 := if add then es[pos / 64] + {pos % 64} else es[pos / 64] - {pos % 64}]
    ensures Union(es') == if add then Union(es) + {pos} else Union(es) - {pos}
  {
  }

  /** The summary tells whether there is a member at all. */
  lemma EmptySummary(summary: set<nat>, es: seq<set<nat>>)
    requires Summarizes(summary, es)
    ensures summary == {} <==> Union(es) == {}
  {
    if i :| i in summary {
      var j :| j in es[i];
      UnionHas(es, i, j);
    }
    if n :| n in Union(es) {
      assert n / 64 in summary;
    }
  }

  /** The first run that is not empty holds the least member. */
  lemma FirstOfFirst(summary: set<nat>, es: seq<set<nat>>, idx: nat, sub: nat)
    requires Summarizes(summary, es) && IsLeast(idx, summary) && IsLeast(sub, es[idx])
    ensures IsLeast(idx * 64 + sub, Union(es))
  {
    UnionHas(es, idx, sub);
    forall n | n in Union(es) ensures idx * 64 + sub <= n {
      assert n / 64 in summary && n == n / 64 * 64 + n % 64;
    }
  }

  /** The numbers of a run in their place. */
  ghost function Shifted(e: set<nat>, k: nat): set<nat> {
    set j | j in e :: k + j
  }

  lemma {:induction false} ShiftedCount(e: set<nat>, k: nat)
    ensures |Shifted(e, k)| == |e|
  {
    if j :| j in e {
      ShiftedCount(e - {j}, k);
      forall n | n in Shifted(e, k) && n != k + j ensures n in Shifted(e - {j}, k) {
        var i :| i in e && n == k + i;
        assert i in e - {j};
      }
      assert Shifted(e, k) == Shifted(e - {j}, k) + {k + j};
    } else {
      assert Shifted(e, k) == {};
    }
  }

  lemma BelowStep(es: seq<set<nat>>, i: nat)
    requires Runs(es) && i < 64
    ensures |Below(Union(es), 64 * (i + 1))| == |Below(Union(es), 64 * i)| + |es[i]|
  {
    ShiftedCount(es[i], 64 * i);
    forall n ensures n in Below(Union(es), 64 * (i + 1)) <==> n in Below(Union(es), 64 * i) + Shifted(es[i], 64 * i) {
      RunMember(es, i, n);
    }
    assert Below(Union(es), 64 * (i + 1)) == Below(Union(es), 64 * i) + Shifted(es[i], 64 * i);
    assert Below(Union(es), 64 * i) !! Shifted(es[i], 64 * i);
  }

  lemma RunMember(es: seq<set<nat>>, i: nat, n: nat)
    requires Runs(es) && i < 64
    ensures n in Shifted(es[i], 64 * i) <==> 64 * i <= n < 64 * (i + 1) && n in Union(es)
  {
    if 64 * i <= n < 64 * (i + 1) {
      UnionHas(es, i, n - 64 * i);
      assert n == 64 * i + (n - 64 * i);
    }
  }

  ghost function SetsOf(ws: seq<Word>): (es: seq<set<nat>>)
    ensures |es| == |ws| && forall i | 0 <= i < |ws| :: es[i] == Elements(ws[i])
    ensures |ws| == 64 ==> Runs(es)
  {
    seq(|ws|, i requires 0 <= i < |ws| => Elements(ws[i]))
  }

  /** `bitset<4096>`. */
  class Bitset4096 {
    var index: Word
    const subs: array<Word>

    ghost predicate Valid()
      reads this, subs
    {
      subs.Length == 64 && Summarizes(Elements(index), SetsOf(subs[..]))
    }

    ghost function Members(): set<nat>
      requires Valid()
      reads this, subs
    {
      Union(SetsOf(subs[..]))
    }

    constructor ()
      ensures Valid() && fresh(subs) && Members() == {}
    {
      index := 0;
      subs := new Word[64](_ => 0);
      new;
      FullAndEmpty();
    }

    lemma InRange()
      requires Valid()
      ensures forall j | j in Members() :: j < SIZE
    {
    }

    function GetFirst(): (r: nat)
      requires Valid()
      reads this, subs
      ensures IsFirst(r, Members(), SIZE)
    {
      EmptySummary(Elements(index), SetsOf(subs[..]));
      var idx := First(index);
      if idx >= 64 then SIZE
      else
        var sub := First(subs[idx]);
        FirstOfFirst(Elements(index), SetsOf(subs[..]), idx, sub);
        idx * 64 + sub
    }

    predicate Get(pos: nat)
      requires Valid() && pos < SIZE
      reads this, subs
      ensures Get(pos) <==> pos in Members()
    {
      Contains(subs[pos / 64], pos % 64)
    }

    method Set(pos: nat)
      requires Valid() && pos < SIZE
      modifies this, subs
      ensures Valid() && Members() == old(Members()) + {pos}
    {
      var idx, sub := pos / 64, pos % 64;
      index := Plus(index, idx);
      subs[idx] := Plus(subs[idx], sub);
      OneRun(old(SetsOf(subs[..])), SetsOf(subs[..]), pos, true);
    }

    method Clear(pos: nat) returns (empty: bool)
      requires Valid() && pos < SIZE
      modifies this, subs
      ensures Valid() && Members() == old(Members()) - {pos}
      ensures empty <==> Members() == {}
    {
      var idx, sub := pos / 64, pos % 64;
      subs[idx] := Minus(subs[idx], sub);
      OneRun(old(SetsOf(subs[..])), SetsOf(subs[..]), pos, false);
      NoElements(subs[idx]);
      if subs[idx] == 0 {
        index := Minus(index, idx);
        NoElements(index);
        empty := index == 0;
      } else {
        empty := false;
      }
      EmptySummary(Elements(index), SetsOf(subs[..]));
    }

    method Count() returns (c: nat)
      requires Valid()
      ensures c == |Members()|
    {
      c := 0;
      assert Below(Members(), 0) == {};
      for i := 0 to 64
        invariant c == |Below(Members(), 64 * i)|
      {
        BelowStep(SetsOf(subs[..]), i);
        PopcntCounts(subs[i]);
        c := c + Popcnt(subs[i]);
      }
      assert Below(Members(), 64 * 64) == Members();
    }

    method SetAll()
      requires Valid()
      modifies this, subs
      ensures Valid() && forall n: nat :: n in Members() <==> n < SIZE
    {
      FullAndEmpty();
      index := ONES;
      for i := 0 to 64
        invariant index == ONES && forall j | 0 <= j < i :: subs[j] == ONES
      {
        subs[i] := ONES;
      }
    }

    method ClearAll()
      requires Valid()
      modifies this, subs
      ensures Valid() && Members() == {}
    {
      FullAndEmpty();
      index := 0;
      for i := 0 to 64
        invariant index == 0 && forall j | 0 <= j < i :: subs[j] == 0
      {
        subs[i] := 0;
      }
    }
  }

  /** `bitset<4096>::iterator`. */
  class Iterator4096 {
    const self: Bitset4096
    var pos: nat

    constructor (self: Bitset4096, pos: nat)
      ensures this.self == self && this.pos == pos
    {
      this.self := self;
      this.pos := pos;
    }

    predicate End()
      reads this
    {
      pos == SIZE
    }

    /** Scan for the next number that is a member. */
    method Next()
      requires pos < SIZE && self.Valid()
      modifies this
      ensures IsNext(pos, old(pos), self.Members(), SIZE) && old(pos) < pos <= SIZE
    {
      ghost var members := self.Members();
      NoneYet(members, pos);
      var p := pos + 1;
      while p < SIZE && !self.Get(p)
        invariant pos == old(pos) < p <= SIZE && NoneBetween(members, pos, p)
        decreases SIZE - p
      {
        NoneHere(members, pos, p);
        p := p + 1;
      }
      self.InRange();
      NextIs(members, pos, p);
      pos := p;
    }
  }

  ghost predicate NoneBetween(s: set<nat>, from: nat, pos: nat) {
    forall j | j in s && from < j :: pos <= j
  }

  lemma NoneYet(s: set<nat>, from: nat)
    ensures NoneBetween(s, from, from + 1)
  {
  }

  lemma NoneHere(s: set<nat>, from: nat, pos: nat)
    requires NoneBetween(s, from, pos) && pos !in s
    ensures NoneBetween(s, from, pos + 1)
  {
  }

  lemma NextIs(s: set<nat>, from: nat, pos: nat)
    requires NoneBetween(s, from, pos) && from < pos <= SIZE && (pos < SIZE ==> pos in s)
    requires forall j | j in s :: j < SIZE
    ensures IsNext(pos, from, s, SIZE)
  {
    if pos < SIZE {
      assert pos in Above(s, from);
    } else {
      assert Above(s, from) == {};
    }
  }

  // ---------------------------------------------------------------- sweeps

  ghost predicate Increasing(visited: seq<nat>) {
    forall i, j | 0 <= i < j < |visited| :: visited[i] < visited[j]
  }

  /** A sweep has visited each member below n once, in order. */
  ghost predicate Swept(visited: seq<nat>, s: set<nat>, n: nat) {
    Increasing(visited) && forall j :: j in visited <==> j in s && j < n
  }

  lemma SweepStep(visited: seq<nat>, s: set<nat>, pos: nat, next: nat, size: nat)
    requires Swept(visited, s, pos) && IsNext(next, pos, s, size) && pos < next
    requires forall j | j in s :: j < size
    ensures Swept(if pos in s then visited + [pos] else visited, s, next)
  {
    forall j | j in s && pos < j ensures next <= j { assert j in Above(s, pos); }
    var visited' := if pos in s then visited + [pos] else visited;
    forall i | 0 <= i < |visited| ensures visited[i] < pos { assert visited[i] in visited; }
    assert Increasing(visited');
    assert forall j :: j in visited' <==> j in s && j < next;
  }

  lemma {:induction false} IncreasingCount(visited: seq<nat>, s: set<nat>)
    requires Increasing(visited) && forall j :: j in visited <==> j in s
    ensures |visited| == |s|
    decreases |visited|
  {
    if visited == [] {
      assert s == {};
    } else {
      var n := |visited| - 1;
      var last := visited[n];
      forall j ensures j in visited[..n] <==> j in s - {last} {
        if j in visited[..n] { var i :| 0 <= i < n && visited[i] == j; assert visited[i] < visited[n]; }
        if j in s && j != last { var i :| 0 <= i < |visited| && visited[i] == j; assert visited[..n][i] == j; }
      }
      IncreasingCount(visited[..n], s - {last});
    }
  }

  lemma SweptAll(visited: seq<nat>, s: set<nat>, size: nat)
    requires Swept(visited, s, size) && forall j | j in s :: j < size
    ensures |visited| == |s|
  {
    IncreasingCount(visited, s);
  }

  /** From begin() to end(), the positions at which `*it` is true: each member once, in increasing order, count() in
      all. */
  method Sweep64(b: Bitset64) returns (visited: seq<nat>)
    ensures Swept(visited, b.Members(), 64) && |visited| == |b.Members()|
  {
    var it := new Iterator64(b, 0);
    visited := [];
    while !it.End()
      invariant it.self == b && it.pos <= 64 && Swept(visited, b.Members(), it.pos)
      decreases 64 - it.pos
    {
      ghost var pos, before := it.pos, visited;
      if b.Get(it.pos) {
        visited := visited + [it.pos];
      }
      it.Next();
      SweepStep(before, b.Members(), pos, it.pos, 64);
    }
    SweptAll(visited, b.Members(), 64);
  }

  method Sweep4096(b: Bitset4096) returns (visited: seq<nat>)
    requires b.Valid()
    ensures Swept(visited, b.Members(), SIZE) && |visited| == |b.Members()|
  {
    var it := new Iterator4096(b, 0);
    visited := [];
    while !it.End()
      invariant it.self == b && it.pos <= SIZE && Swept(visited, b.Members(), it.pos)
      decreases SIZE - it.pos
    {
      ghost var pos, before := it.pos, visited;
      if b.Get(it.pos) {
        visited := visited + [it.pos];
      }
      it.Next();
      SweepStep(before, b.Members(), pos, it.pos, SIZE);
    }
    SweptAll(visited, b.Members(), SIZE);
  }
}
