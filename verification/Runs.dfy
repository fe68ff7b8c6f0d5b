/** Runs of labelled transition systems, and forward simulation between two of them. */
module Runs {

  /** States `cs` and, between each two neighbours, the label of the step taken. */
  ghost predicate Run<C(!new), E(!new)>(
    init: C -> bool, next: (C, E, C) -> bool, cs: seq<C>, evs: seq<E>)
  {
    && |cs| == |evs| + 1
    && init(cs[0])
    && forall i | 0 <= i < |evs| :: next(cs[i], evs[i], cs[i + 1])
  }

  ghost predicate Tracks<C(!new), A(!new)>(rel: (C, A) -> bool, cs: seq<C>, abs: seq<A>) {
    |cs| == |abs| && forall i | 0 <= i < |cs| :: rel(cs[i], abs[i])
  }

  ghost predicate StartsRelated<C(!new), A(!new)>(
    init: C -> bool, ainit: A -> bool, rel: (C, A) -> bool)
  {
    forall c | init(c) :: exists a :: ainit(a) && rel(c, a)
  }

  ghost predicate StaysRelated<C(!new), E(!new), A(!new)>(
    next: (C, E, C) -> bool, anext: (A, E, A) -> bool, rel: (C, A) -> bool)
  {
    forall c, e, c', a | rel(c, a) && next(c, e, c') :: exists a' :: rel(c', a') && anext(a, e, a')
  }

  lemma Prefix<C(!new), E(!new)>(
    init: C -> bool, next: (C, E, C) -> bool, cs: seq<C>, evs: seq<E>, n: nat)
    requires Run(init, next, cs, evs) && n <= |evs|
    ensures Run(init, next, cs[..n + 1], evs[..n])
  {
  }

  /** Forward simulation: the abstract machine has a run with the same labels, related throughout. */
  lemma {:induction false} Simulation<C(!new), E(!new), A(!new)>(
    init: C -> bool, next: (C, E, C) -> bool, ainit: A -> bool, anext: (A, E, A) -> bool,
    rel: (C, A) -> bool, cs: seq<C>, evs: seq<E>)
    requires StartsRelated(init, ainit, rel) && StaysRelated(next, anext, rel)
    requires Run(init, next, cs, evs)
    ensures exists abs :: Run(ainit, anext, abs, evs) && Tracks(rel, cs, abs)
    decreases |evs|
  {
    if evs == [] {
      var a :| ainit(a) && rel(cs[0], a);
      assert Run(ainit, anext, [a], evs) && Tracks(rel, cs, [a]);
    } else {
      var n := |evs| - 1;
      Prefix(init, next, cs, evs, n);
      Simulation(init, next, ainit, anext, rel, cs[..n + 1], evs[..n]);
      var abs :| Run(ainit, anext, abs, evs[..n]) && Tracks(rel, cs[..n + 1], abs);
      assert rel(cs[n], abs[n]) && next(cs[n], evs[n], cs[n + 1]);
      var a' :| rel(cs[n + 1], a') && anext(abs[n], evs[n], a');
      assert Run(ainit, anext, abs + [a'], evs) && Tracks(rel, cs, abs + [a']);
    }
  }

  /** Something of this kind goes with the step. */
  ghost predicate Has<C(!new), E(!new), F(!new)>(with: (C, E, C, F) -> bool, c: C, e: E, c': C) {
    exists f :: with(c, e, c', f)
  }

  /** These go with the steps. */
  ghost predicate Goes<C(!new), E(!new), F(!new)>(with: (C, E, C, F) -> bool, cs: seq<C>, evs: seq<E>, fs: seq<F>) {
    |cs| == |evs| + 1 && |fs| == |evs| && forall i | 0 <= i < |evs| :: with(cs[i], evs[i], cs[i + 1], fs[i])
  }

  lemma {:induction false} Choose<C(!new), E(!new), F(!new)>(with: (C, E, C, F) -> bool, cs: seq<C>, evs: seq<E>)
      returns (fs: seq<F>)
    requires |cs| == |evs| + 1
    requires forall i | 0 <= i < |evs| :: Has(with, cs[i], evs[i], cs[i + 1])
    ensures Goes(with, cs, evs, fs)
    decreases |evs|
  {
    if evs == [] {
      fs := [];
    } else {
      var n := |evs| - 1;
      fs := Choose(with, cs[..n + 1], evs[..n]);
      assert Has(with, cs[n], evs[n], cs[n + 1]);
      var f :| with(cs[n], evs[n], cs[n + 1], f);
      fs := fs + [f];
    }
  }

  ghost predicate ReachableIn<C(!new), E(!new)>(init: C -> bool, next: (C, E, C) -> bool, n: nat, c: C) {
    if n == 0 then init(c)
    else exists c0, e :: ReachableIn(init, next, n - 1, c0) && next(c0, e, c)
  }

  ghost predicate Reachable<C(!new), E(!new)>(init: C -> bool, next: (C, E, C) -> bool, c: C) {
    exists n: nat :: ReachableIn(init, next, n, c)
  }

  lemma ReachInit<C(!new), E(!new)>(init: C -> bool, next: (C, E, C) -> bool, c: C)
    requires init(c)
    ensures Reachable(init, next, c)
  {
    assert ReachableIn(init, next, 0, c);
  }

  lemma ReachStep<C(!new), E(!new)>(init: C -> bool, next: (C, E, C) -> bool, c: C, e: E, c': C)
    requires Reachable(init, next, c) && next(c, e, c')
    ensures Reachable(init, next, c')
  {
    var n: nat :| ReachableIn(init, next, n, c);
    assert ReachableIn(init, next, n + 1, c');
  }

  lemma {:induction false} ReachPath<C(!new), E(!new)>(
    init: C -> bool, next: (C, E, C) -> bool, cs: seq<C>, evs: seq<E>)
    requires |cs| == |evs| + 1 && Reachable(init, next, cs[0])
    requires forall i | 0 <= i < |evs| :: next(cs[i], evs[i], cs[i + 1])
    ensures Reachable(init, next, cs[|evs|])
    decreases |evs|
  {
    if evs != [] {
      ReachStep(init, next, cs[0], evs[0], cs[1]);
      ReachPath(init, next, cs[1..], evs[1..]);
    }
  }

  /** Reachable states are the states of runs. */
  lemma ReachableByRun<C(!new), E(!new)>(
    init: C -> bool, next: (C, E, C) -> bool, cs: seq<C>, evs: seq<E>)
    requires Run(init, next, cs, evs)
    ensures Reachable(init, next, cs[|evs|])
  {
    ReachInit(init, next, cs[0]);
    ReachPath(init, next, cs, evs);
  }

  lemma {:induction false} ReachableInRelated<C(!new), E(!new), A(!new)>(
    init: C -> bool, next: (C, E, C) -> bool, ainit: A -> bool, anext: (A, E, A) -> bool,
    rel: (C, A) -> bool, n: nat, c: C)
    requires StartsRelated(init, ainit, rel) && StaysRelated(next, anext, rel)
    requires ReachableIn(init, next, n, c)
    ensures exists a :: rel(c, a)
  {
    if n > 0 {
      var c0, e :| ReachableIn(init, next, n - 1, c0) && next(c0, e, c);
      ReachableInRelated(init, next, ainit, anext, rel, n - 1, c0);
      var a :| rel(c0, a);
      assert exists a' :: rel(c, a') && anext(a, e, a');
    }
  }

  /** Every reachable state is related to some abstract state. */
  lemma ReachableRelated<C(!new), E(!new), A(!new)>(
    init: C -> bool, next: (C, E, C) -> bool, ainit: A -> bool, anext: (A, E, A) -> bool,
    rel: (C, A) -> bool, c: C)
    requires StartsRelated(init, ainit, rel) && StaysRelated(next, anext, rel)
    requires Reachable(init, next, c)
    ensures exists a :: rel(c, a)
  {
    var n: nat :| ReachableIn(init, next, n, c);
    ReachableInRelated(init, next, ainit, anext, rel, n, c);
  }

  lemma {:induction false} ReachableInInvariant<C(!new), E(!new)>(
    init: C -> bool, next: (C, E, C) -> bool, inv: C -> bool, n: nat, c: C)
    requires forall c | init(c) :: inv(c)
    requires forall c, e, c' | inv(c) && next(c, e, c') :: inv(c')
    requires ReachableIn(init, next, n, c)
    ensures inv(c)
  {
    if n > 0 {
      var c0, e :| ReachableIn(init, next, n - 1, c0) && next(c0, e, c);
      ReachableInInvariant(init, next, inv, n - 1, c0);
    }
  }

  /** What holds at the start and is kept by every step holds in every reachable state. */
  lemma Invariant<C(!new), E(!new)>(init: C -> bool, next: (C, E, C) -> bool, inv: C -> bool, c: C)
    requires forall c | init(c) :: inv(c)
    requires forall c, e, c' | inv(c) && next(c, e, c') :: inv(c')
    requires Reachable(init, next, c)
    ensures inv(c)
  {
    var n: nat :| ReachableIn(init, next, n, c);
    ReachableInInvariant(init, next, inv, n, c);
  }

  /** Induction over the history of a run. */
  lemma {:induction false} HistoryInduction<C(!new), E(!new)>(
    init: C -> bool, next: (C, E, C) -> bool, prop: seq<C> -> bool, cs: seq<C>, evs: seq<E>)
    requires forall c | init(c) :: prop([c])
    requires forall pre, c0, e, c | prop(pre) && next(c0, e, c) && pre != [] && pre[|pre| - 1] == c0 :: prop(pre + [c])
    requires Run(init, next, cs, evs)
    ensures prop(cs)
    decreases |evs|
  {
    if evs == [] {
      assert cs == [cs[0]];
    } else {
      var n := |evs|;
      Prefix(init, next, cs, evs, n - 1);
      HistoryInduction(init, next, prop, cs[..n], evs[..n - 1]);
      assert next(cs[n - 1], evs[n - 1], cs[n]) && cs[..n][n - 1] == cs[n - 1];
      assert cs == cs[..n] + [cs[n]];
    }
  }

  /** In just so many steps. */
  ghost predicate Takes<C(!new)>(next: (C, C) -> bool, n: nat, c: C, d: C) {
    if n == 0 then d == c else exists x :: next(c, x) && Takes(next, n - 1, x, d)
  }

  lemma TakesStep<C(!new)>(next: (C, C) -> bool, n: nat, c: C, x: C, d: C)
    requires next(c, x) && Takes(next, n, x, d)
    ensures Takes(next, n + 1, c, d)
  {
  }

  lemma {:induction false} TakesJoin<C(!new)>(next: (C, C) -> bool, n: nat, m: nat, c: C, x: C, d: C)
    requires Takes(next, n, c, x) && Takes(next, m, x, d)
    ensures Takes(next, n + m, c, d)
    decreases n
  {
    if n > 0 {
      var y :| next(c, y) && Takes(next, n - 1, y, x);
      TakesJoin(next, n - 1, m, y, x, d);
      TakesStep(next, n + m - 1, c, y, d);
    }
  }

  lemma {:induction false} TakesKeeps<C(!new)>(next: (C, C) -> bool, inv: C -> bool, n: nat, c: C, d: C)
    requires inv(c) && Takes(next, n, c, d) && forall x, y | inv(x) && next(x, y) :: inv(y)
    ensures inv(d)
    decreases n
  {
    if n > 0 {
      var x :| next(c, x) && Takes(next, n - 1, x, d);
      TakesKeeps(next, inv, n - 1, x, d);
    }
  }
}
