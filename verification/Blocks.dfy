/** The layout of a block: a header, a fence, the caller's bytes, a fence; and the routing between pool and malloc. */
module Blocks {
  import opened Memory
  import opened SizeClasses

  const FENCE_0: nat := 0xbeef_babe_1977_1218
  const FENCE_1: nat := 0x5ca1_ab1e_2018_0721

  /** What the header is told besides the size: the line, the hash of the thread's id, and the file. */
  datatype Debug = Debug(line: nat, thread: nat, file: nat)

  /** `file` is a pointer. */
  predicate GoodDebug(d: Debug) {
    d.file < WORD
  }

  /** The pointer given to the caller for the block at a. */
  function UserPtr(a: nat): nat {
    a + HEADER + FENCE
  }

  /** `get_alloc_header`. */
  function HeaderOf(u: nat): int {
    u - HEADER - FENCE
  }

  function StampHeader(m: Mem, a: nat, bytes: nat, d: Debug): Mem {
    var m1 := Write64(m, a, bytes);
    var m2 := WriteLE(m1, a + 8, 2, d.line);
    var m3 := Write64(m2, a + 16, d.file);
    WriteLE(m3, a + 10, 2, d.thread)
  }

  /** The four fence words; the far fence is placed by the size read back from the header. */
  function StampFences(m: Mem, a: nat): Mem {
    var pre := a + HEADER;
    var post := pre + FENCE + Read64(m, a);
    var m1 := Write64(m, pre, FENCE_0);
    var m2 := Write64(m1, pre + 8, FENCE_1);
    var m3 := Write64(m2, post, FENCE_0);
    Write64(m3, post + 8, FENCE_1)
  }

  /** What `alloc` writes into the block at a. */
  function Stamp(m: Mem, a: nat, bytes: nat, d: Debug): Mem {
    StampFences(StampHeader(m, a, bytes, d), a)
  }

  predicate FencesOk(m: Mem, a: int, size: nat) {
    && Read64(m, a + HEADER) == FENCE_0
    && Read64(m, a + HEADER + 8) == FENCE_1
    && Read64(m, a + HEADER + FENCE + size) == FENCE_0
    && Read64(m, a + HEADER + FENCE + size + 8) == FENCE_1
  }

  /** The block at a records `bytes` and its fences are whole. */
  predicate Framed(m: Mem, a: int, bytes: nat) {
    Read64(m, a) == bytes && FencesOk(m, a, bytes)
  }

  /** The header at a names this line and thread, as far as half words hold them, and this file. */
  predicate Labelled(m: Mem, a: int, d: Debug) {
    && ReadLE(m, a + 8, a + 10) == d.line % 0x1_0000
    && ReadLE(m, a + 10, a + 12) == d.thread % 0x1_0000
    && ReadLE(m, a + 16, a + 24) == d.file
  }

  lemma HeaderStamped(m: Mem, a: nat, bytes: nat, d: Debug)
    requires bytes < WORD && GoodDebug(d)
    ensures Read64(StampHeader(m, a, bytes, d), a) == bytes
    ensures Touches(m, StampHeader(m, a, bytes, d), a, a + 24)
    ensures SameOn(m, StampHeader(m, a, bytes, d), a + 12, a + 16)
  {
    var m1 := Write64(m, a, bytes);
    var m2 := WriteLE(m1, a + 8, 2, d.line);
    var m3 := Write64(m2, a + 16, d.file);
    var m4 := WriteLE(m3, a + 10, 2, d.thread);
    Write64Spec(m, a, bytes);
    ReadOutside(m1, m2, a + 8, a + 10, a);
    Write64Spec(m2, a + 16, d.file);
    ReadOutside(m2, m3, a + 16, a + 24, a);
    ReadOutside(m3, m4, a + 10, a + 12, a);
  }

  /** The two half words of the header, and the file. */
  lemma LabelStamped(m: Mem, a: nat, bytes: nat, d: Debug)
    requires bytes < WORD && GoodDebug(d)
    ensures Labelled(StampHeader(m, a, bytes, d), a, d)
  {
    var m1 := Write64(m, a, bytes);
    var m2 := WriteLE(m1, a + 8, 2, d.line);
    var m3 := Write64(m2, a + 16, d.file);
    var m4 := WriteLE(m3, a + 10, 2, d.thread);
    HalfWordSpec(m1, a + 8, d.line);
    ReadFrame(m2, m4, a + 8, a + 10);
    HalfWordSpec(m3, a + 10, d.thread);
    Write64Spec(m2, a + 16, d.file);
    ReadFrame(m3, m4, a + 16, a + 24);
  }

  lemma FencesStamped(m: Mem, a: nat)
    ensures Read64(StampFences(m, a), a) == Read64(m, a)
    ensures FencesOk(StampFences(m, a), a, Read64(m, a))
    ensures Touches(m, StampFences(m, a), a + HEADER, a + TotalSize(Read64(m, a)))
    ensures SameOn(m, StampFences(m, a), a + HEADER + FENCE, a + HEADER + FENCE + Read64(m, a))
  {
    var pre := a + HEADER;
    var post := pre + FENCE + Read64(m, a);
    var m1 := Write64(m, pre, FENCE_0);
    var m2 := Write64(m1, pre + 8, FENCE_1);
    var m3 := Write64(m2, post, FENCE_0);
    var m4 := Write64(m3, post + 8, FENCE_1);
    Write64Spec(m, pre, FENCE_0);
    Write64Spec(m1, pre + 8, FENCE_1);
    Write64Spec(m2, post, FENCE_0);
    Write64Spec(m3, post + 8, FENCE_1);
    ReadOutside(m1, m2, pre + 8, pre + 16, pre);
    ReadOutside(m2, m3, post, post + 8, pre);
    ReadOutside(m2, m3, post, post + 8, pre + 8);
    ReadOutside(m3, m4, post + 8, post + 16, pre);
    ReadOutside(m3, m4, post + 8, post + 16, pre + 8);
    ReadOutside(m3, m4, post + 8, post + 16, post);
    ReadOutside(m, m4, pre, post + 16, a);
  }

  /** Stamping frames the block and touches nothing outside it. */
  lemma Stamped(m: Mem, a: nat, bytes: nat, d: Debug)
    requires bytes < WORD && GoodDebug(d)
    ensures Framed(Stamp(m, a, bytes, d), a, bytes)
    ensures Labelled(Stamp(m, a, bytes, d), a, d)
    ensures Touches(m, Stamp(m, a, bytes, d), a, a + TotalSize(bytes))
  {
    HeaderStamped(m, a, bytes, d);
    FencesStamped(StampHeader(m, a, bytes, d), a);
    LabelStamped(m, a, bytes, d);
    LabelKept(StampHeader(m, a, bytes, d), Stamp(m, a, bytes, d), a, d);
  }

  /** A frame depends only on the block's own bytes. */
  lemma FrameKept(m: Mem, m': Mem, a: int, bytes: nat)
    requires Framed(m, a, bytes)
    requires forall x | a <= x < a + HEADER + FENCE || a + HEADER + FENCE + bytes <= x < a + TotalSize(bytes) ::
        m'(x) == m(x)
    ensures Framed(m', a, bytes)
  {
    WordKept(m, m', a);
    WordKept(m, m', a + HEADER);
    WordKept(m, m', a + HEADER + 8);
    WordKept(m, m', a + HEADER + FENCE + bytes);
    WordKept(m, m', a + HEADER + FENCE + bytes + 8);
  }

  lemma LabelKept(m: Mem, m': Mem, a: int, d: Debug)
    requires Labelled(m, a, d) && SameOn(m, m', a + 8, a + 24)
    ensures Labelled(m', a, d)
  {
    ReadFrame(m, m', a + 8, a + 10);
    ReadFrame(m, m', a + 10, a + 12);
    ReadFrame(m, m', a + 16, a + 24);
  }

  lemma WordKept(m: Mem, m': Mem, a: int)
    requires forall x | a <= x < a + 8 :: m'(x) == m(x)
    ensures Read64(m', a) == Read64(m, a)
  {
    ReadFrame(m, m', a, a + 8);
  }

  // ---------------------------------------------------------------- byte by byte

  /** The sixteen bytes of a fence, its words stored low byte first. */
  const FENCE_BYTES: seq<byte> := [
    0x18, 0x12, 0x77, 0x19, 0xbe, 0xba, 0xef, 0xbe, 0x21, 0x07, 0x18, 0x20, 0x1e, 0xab, 0xa1, 0x5c
  ]

  predicate FenceAt(m: Mem, x: int) {
    forall i | 0 <= i < 16 :: m(x + i) == FENCE_BYTES[i]
  }

  /** Memory with a fence at x and nothing else. */
  function Fence(x: int): Mem {
    y => if x <= y < x + 16 then FENCE_BYTES[y - x] else 0
  }

  lemma FenceWords(x: int)
    ensures Read64(Fence(x), x) == FENCE_0 && Read64(Fence(x), x + 8) == FENCE_1
  {
    EightBytes(Fence(x), x);
    EightBytes(Fence(x), x + 8);
  }

  lemma FenceIsBytes(m: Mem, x: int)
    ensures Read64(m, x) == FENCE_0 && Read64(m, x + 8) == FENCE_1 <==> FenceAt(m, x)
  {
    FenceWords(x);
    SameNumber(Fence(x), m, x, x + 8);
    SameNumber(Fence(x), m, x + 8, x + 16);
    FenceIsSame(m, x);
  }

  lemma FenceIsSame(m: Mem, x: int)
    ensures FenceAt(m, x) <==> SameOn(Fence(x), m, x, x + 16)
  {
    if SameOn(Fence(x), m, x, x + 16) {
      forall i | 0 <= i < 16 ensures m(x + i) == FENCE_BYTES[i] { assert m(x + i) == Fence(x)(x + i); }
    }
    if FenceAt(m, x) {
      forall y | x <= y < x + 16 ensures m(y) == Fence(x)(y) { assert m(x + (y - x)) == FENCE_BYTES[y - x]; }
    }
  }

  /** The asserts of `dealloc` look at each of the 32 bytes around the caller's own. */
  lemma FencesAreBytes(m: Mem, a: int, size: nat)
    ensures FencesOk(m, a, size) <==> FenceAt(m, a + 32) && FenceAt(m, a + 48 + size)
  {
    FenceIsBytes(m, a + 32);
    FenceIsBytes(m, a + 48 + size);
  }

  /** The frame of a block, each byte that `alloc` gives a value. */
  predicate FrameIs(m: Mem, a: int, bytes: nat, d: Debug) {
    && ReadLE(m, a, a + 8) == bytes
    && ReadLE(m, a + 8, a + 10) == d.line % 0x1_0000
    && ReadLE(m, a + 10, a + 12) == d.thread % 0x1_0000
    && ReadLE(m, a + 16, a + 24) == d.file
    && FenceAt(m, a + 32) && FenceAt(m, a + 48 + bytes)
  }

  lemma FrameBytes(m: Mem, a: int, bytes: nat, d: Debug)
    ensures FrameIs(m, a, bytes, d) <==> Framed(m, a, bytes) && Labelled(m, a, d)
  {
    FencesAreBytes(m, a, bytes);
  }

  /** What `alloc` has done to the memory of a block: its frame, and nothing else. */
  ghost predicate StampedAs(m: Mem, m': Mem, a: int, bytes: nat, d: Debug) {
    && FrameIs(m', a, bytes, d)
    && Touches(m, m', a, a + 64 + bytes)
    && SameOn(m, m', a + 12, a + 16) && SameOn(m, m', a + 24, a + 32) && SameOn(m, m', a + 48, a + 48 + bytes)
  }

  lemma StampIsAs(m: Mem, a: nat, bytes: nat, d: Debug)
    requires bytes < WORD && GoodDebug(d)
    ensures StampedAs(m, Stamp(m, a, bytes, d), a, bytes, d)
  {
    Stamped(m, a, bytes, d);
    HeaderStamped(m, a, bytes, d);
    FencesStamped(StampHeader(m, a, bytes, d), a);
    FrameBytes(Stamp(m, a, bytes, d), a, bytes, d);
  }

  /**
   With the size still in the header, the asserts pass just when all 32 bytes
   around the caller's own are as `alloc` left them, whatever else changed.
   */
  lemma DamageShows(m: Mem, a: nat, bytes: nat, d: Debug)
    requires Read64(m, a) == bytes < WORD && GoodDebug(d)
    ensures var m' := Stamp(m, a, bytes, d);
            FencesOk(m, a, bytes) <==>
              SameOn(m', m, a + 32, a + 48) && SameOn(m', m, a + 48 + bytes, a + 64 + bytes)
  {
    var m' := Stamp(m, a, bytes, d);
    Stamped(m, a, bytes, d);
    SameFence(m', m, a + 32);
    SameFence(m', m, a + 48 + bytes);
  }

  lemma SameFence(m: Mem, m': Mem, x: int)
    requires Read64(m, x) == FENCE_0 && Read64(m, x + 8) == FENCE_1
    ensures Read64(m', x) == FENCE_0 && Read64(m', x + 8) == FENCE_1 <==> SameOn(m, m', x, x + 16)
  {
    SameNumber(m, m', x, x + 8);
    SameNumber(m, m', x + 8, x + 16);
  }

  // ---------------------------------------------------------------- routing

  datatype Route = FromPool(cls: nat) | FromMalloc(size: nat)

  /** Where a block of this total size comes from and goes back to. */
  function RouteOf(total: nat): Route {
    if total <= MAX_ALLOC then FromPool(ClassOf(total)) else FromMalloc(total)
  }

  /** The `size_t` sum of a request and what goes around it. */
  function SizeSum(bytes: nat): nat {
    (bytes + HEADER + 2 * FENCE) % WORD
  }

  /** What `alloc` decides for a request. */
  function AllocRoute(bytes: nat): Route {
    RouteOf(SizeSum(bytes))
  }

  /** What `dealloc` decides, from the header in front of the pointer it is given. */
  function DeallocRoute(m: Mem, u: nat): Route {
    RouteOf(SizeSum(Read64(m, HeaderOf(u))))
  }

  /** The least class that fits for up to 8192 bytes, else malloc; 64 bytes go around the caller's own. */
  ghost predicate RouteIs(bytes: nat, r: Route) {
    match r
    case FromPool(c) => bytes <= 8192 && LeastFit(bytes + 64, c)
    case FromMalloc(size) => bytes > 8192 && size == bytes + 64
  }

  /** For every request whose size does not wrap, this and no other way is taken. */
  lemma RouteOfRequest(bytes: nat, r: Route)
    requires bytes + 64 < 0x1_0000_0000_0000_0000
    ensures r == AllocRoute(bytes) <==> RouteIs(bytes, r)
  {
    assert SizeSum(bytes) == bytes + 64;
    if bytes <= 8192 && r.FromPool? {
      ClassIsLeast(bytes + 64, r.cls);
    }
  }

  /** A block that comes this way has room for the request. */
  predicate Holds(r: Route, bytes: nat) {
    TotalSize(bytes) <= match r case FromPool(cls) => cls case FromMalloc(size) => size
  }

  /** The block chosen holds the request just when the sum does not wrap; when it does, it is one of the smallest. */
  lemma HoldsUnlessWrapped(bytes: nat)
    requires bytes < WORD
    ensures Holds(AllocRoute(bytes), bytes) <==> bytes + 64 < 0x1_0000_0000_0000_0000
    ensures bytes + 64 >= 0x1_0000_0000_0000_0000 ==> AllocRoute(bytes) == FromPool(64)
  {
    if TotalSize(bytes) >= WORD {
      assert SizeSum(bytes) == TotalSize(bytes) - WORD < 64;
      assert ClassIndexFrom(SizeSum(bytes), 0) == 0;
    } else {
      assert SizeSum(bytes) == TotalSize(bytes);
    }
  }

  lemma RoutesBack(m: Mem, a: nat, bytes: nat)
    requires Framed(m, a, bytes)
    ensures HeaderOf(UserPtr(a)) == a && DeallocRoute(m, UserPtr(a)) == AllocRoute(bytes)
    ensures FencesOk(m, HeaderOf(UserPtr(a)), Read64(m, HeaderOf(UserPtr(a))))
  {
  }

  /**
   For every request whose size does not wrap, dealloc finds the same block, the
   same class and the same pool-or-malloc choice as alloc: the least class that
   fits, or malloc above 8192 bytes.
   */
  lemma RoutingRoundTrip(m: Mem, a: nat, bytes: nat, d: Debug)
    requires bytes + 64 < 0x1_0000_0000_0000_0000 && GoodDebug(d)
    ensures var m' := Stamp(m, a, bytes, d);
            && UserPtr(a) == a + 48 && HeaderOf(UserPtr(a)) == a
            && DeallocRoute(m', UserPtr(a)) == AllocRoute(bytes)
            && FencesOk(m', a, Read64(m', a))
    ensures RouteIs(bytes, AllocRoute(bytes)) && Holds(AllocRoute(bytes), bytes)
  {
    Stamped(m, a, bytes, d);
    RoutesBack(Stamp(m, a, bytes, d), a, bytes);
    HoldsUnlessWrapped(bytes);
    RouteOfRequest(bytes, AllocRoute(bytes));
  }
}
