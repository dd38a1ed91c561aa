/**
 * Metrics merge by saturating addition, field by field. Merging is commutative and associative
 * even where it saturates, so the totals do not depend on the order instances stop in.
 */
module Meters {
  import opened Common

  /** `Duration::MAX` in nanoseconds. */
  const DURATION_MAX: nat := 0x1_0000_0000_0000_0000 * 1_000_000_000 - 1

  datatype Metrics = Metrics(
    gasConsumed: nat,
    netEgress: nat,
    netIngress: nat,
    storageRead: nat,
    storageWritten: nat,
    storageUsed: nat,
    memoryUsed: nat,
    starts: nat,
    tip: nat,
    duration: nat)

  const ZERO := Metrics(0, 0, 0, 0, 0, 0, 0, 0, 0, 0)

  function Merged(a: Metrics, b: Metrics): Metrics {
    Metrics(
      gasConsumed := SatAdd(a.gasConsumed, b.gasConsumed, U64_MAX),
      netEgress := SatAdd(a.netEgress, b.netEgress, U64_MAX),
      netIngress := SatAdd(a.netIngress, b.netIngress, U64_MAX),
      storageRead := SatAdd(a.storageRead, b.storageRead, U64_MAX),
      storageWritten := SatAdd(a.storageWritten, b.storageWritten, U64_MAX),
      storageUsed := 0,
      memoryUsed := SatAdd(a.memoryUsed, b.memoryUsed, U64_MAX),
      starts := SatAdd(a.starts, b.starts, U64_MAX),
      tip := SatAdd(a.tip, b.tip, U64_MAX),
      duration := SatAdd(a.duration, b.duration, DURATION_MAX))
  }

  /** Every counter fits its type, and `storage_used` is zero, as after any merge. */
  predicate InRange(h: Metrics) {
    && h.gasConsumed <= U64_MAX && h.netEgress <= U64_MAX && h.netIngress <= U64_MAX
    && h.storageRead <= U64_MAX && h.storageWritten <= U64_MAX && h.storageUsed == 0
    && h.memoryUsed <= U64_MAX && h.starts <= U64_MAX && h.tip <= U64_MAX && h.duration <= DURATION_MAX
  }

  /** Every counter that adds up is at its maximum. */
  predicate Saturated(h: Metrics) {
    h == Metrics(U64_MAX, U64_MAX, U64_MAX, U64_MAX, U64_MAX, 0, U64_MAX, U64_MAX, U64_MAX, DURATION_MAX)
  }

  /** One more of everything. */
  const ONE := Metrics(1, 1, 1, 1, 1, 0, 1, 1, 1, 1)

  function MergedAll(init: Metrics, ms: seq<Metrics>): Metrics {
    if ms == [] then init else Merged(MergedAll(init, ms[..|ms| - 1]), ms[|ms| - 1])
  }

  lemma MergeSwap(h: Metrics, a: Metrics, b: Metrics)
    ensures Merged(Merged(h, a), b) == Merged(Merged(h, b), a)
  {}

  /** A merge with nothing changes nothing; a merge with one of everything shows unless all is saturated. */
  lemma MergeShows(h: Metrics, m: Metrics)
    requires InRange(h)
    ensures InRange(Merged(h, m)) && Merged(h, ZERO) == h
    ensures Merged(h, ONE) == h <==> Saturated(h)
    ensures Saturated(h) ==> Merged(h, m) == h
  {}

  lemma {:induction false} MergedAllInRange(ms: seq<Metrics>)
    ensures InRange(MergedAll(ZERO, ms))
  {
    if ms != [] {
      MergedAllInRange(ms[..|ms| - 1]);
      MergeShows(MergedAll(ZERO, ms[..|ms| - 1]), ms[|ms| - 1]);
    }
  }

  /** The plain sum of one counter. */
  ghost function Total(ms: seq<Metrics>, counter: Metrics -> nat): nat {
    if ms == [] then 0 else Total(ms[..|ms| - 1], counter) + counter(ms[|ms| - 1])
  }

  /** Merging adds up each counter by itself, and stops it at the greatest value of its type. */
  lemma {:induction false} MergedTotals(ms: seq<Metrics>)
    ensures MergedAll(ZERO, ms) == Metrics(
      gasConsumed := Min(Total(ms, (m: Metrics) => m.gasConsumed), U64_MAX),
      netEgress := Min(Total(ms, (m: Metrics) => m.netEgress), U64_MAX),
      netIngress := Min(Total(ms, (m: Metrics) => m.netIngress), U64_MAX),
      storageRead := Min(Total(ms, (m: Metrics) => m.storageRead), U64_MAX),
      storageWritten := Min(Total(ms, (m: Metrics) => m.storageWritten), U64_MAX),
      storageUsed := 0,
      memoryUsed := Min(Total(ms, (m: Metrics) => m.memoryUsed), U64_MAX),
      starts := Min(Total(ms, (m: Metrics) => m.starts), U64_MAX),
      tip := Min(Total(ms, (m: Metrics) => m.tip), U64_MAX),
      duration := Min(Total(ms, (m: Metrics) => m.duration), DURATION_MAX))
  {
    if ms != [] {
      MergedTotals(ms[..|ms| - 1]);
    }
  }

  lemma WithoutOne(xs: seq<Metrics>, ys: seq<Metrics>, k: nat)
    requires multiset(xs) == multiset(ys) && k < |ys|
    requires xs != [] && xs[|xs| - 1] == ys[k]
    ensures multiset(xs[..|xs| - 1]) == multiset(ys[..k] + ys[k + 1..])
  {
    var x, init, rest := ys[k], xs[..|xs| - 1], ys[..k] + ys[k + 1..];
    assert xs == init + [x];
    assert ys == ys[..k] + [x] + ys[k + 1..];
    assert multiset(rest) + multiset{x} == multiset(ys) == multiset(init) + multiset{x};
    assert multiset(rest) == multiset(rest) + multiset{x} - multiset{x};
    assert multiset(init) == multiset(init) + multiset{x} - multiset{x};
  }

  lemma MergedSnoc(init: Metrics, ms: seq<Metrics>, m: Metrics)
    ensures MergedAll(init, ms + [m]) == Merged(MergedAll(init, ms), m)
  {
    assert (ms + [m])[..|ms|] == ms;
  }

  /** The total does not depend on the order of merging. */
  lemma {:induction false} MergeAnyOrder(init: Metrics, xs: seq<Metrics>, ys: seq<Metrics>)
    requires multiset(xs) == multiset(ys)
    ensures MergedAll(init, xs) == MergedAll(init, ys)
  {
    hide Merged;
    assert |xs| == |multiset(xs)| && |ys| == |multiset(ys)|;
    if xs != [] {
      var n, x := |xs| - 1, xs[|xs| - 1];
      assert x in multiset(ys);
      var k :| 0 <= k < |ys| && ys[k] == x;
      var rest := ys[..k] + ys[k + 1..];
      WithoutOne(xs, ys, k);
      MergeAnyOrder(init, xs[..n], rest);
      assert ys == ys[..k] + [x] + ys[k + 1..];
      MergeMoves(init, ys[..k], x, ys[k + 1..]);
      MergedSnoc(init, rest, x);
    }
  }

  lemma {:induction false} MergeMoves(init: Metrics, before: seq<Metrics>, m: Metrics, after: seq<Metrics>)
    ensures MergedAll(init, before + [m] + after) == MergedAll(init, before + after + [m])
  {
    if after == [] {
      assert before + [m] + after == before + after + [m];
    } else {
      var n, a := |after| - 1, after[|after| - 1];
      MergeMoves(init, before, m, after[..n]);
      var xs, ys := before + [m] + after, before + after + [m];
      assert xs[..|xs| - 1] == before + [m] + after[..n];
      assert ys[..|ys| - 1] == before + after;
      assert (before + after)[..|before + after| - 1] == before + after[..n];
      var zs := before + after[..n] + [m];
      assert zs[..|zs| - 1] == before + after[..n];
      MergeSwap(MergedAll(init, before + after[..n]), a, m);
    }
  }
}
