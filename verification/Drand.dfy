/** The time of a drand round, computed in 64-bit arithmetic as `parseResponse` computes it, and what it
    says about anchored events. */
module Drand {
  import opened Wire
  import opened Encoding
  import opened RunLoop
  import opened RunLoopProofs
  import opened Pool
  import opened PoolProofs
  import opened PoolTheorems

  const TWO_63: int := 0x8000_0000_0000_0000
  const TWO_64: int := 0x1_0000_0000_0000_0000
  const SECOND: int := 1_000_000_000

  /** Conversion to, and overflow of, a signed 64-bit integer. */
  function Wrap64(x: int): int {
    var m := x % TWO_64;
    if m < TWO_63 then m else m - TWO_64
  }

  predicate Fits64(x: int) {
    -TWO_63 <= x < TWO_63
  }

  /** Nanoseconds since the epoch: the genesis second plus the wrapped product of the round's
      predecessor and the period. */
  function RoundTime(genesis: int, period: int, round: nat): int {
    genesis * SECOND + Wrap64(Wrap64(round - 1) * period)
  }

  lemma WrapIsCongruent(x: int) returns (k: int)
    ensures Wrap64(x) == x + k * TWO_64
  {
    k := -(x / TWO_64) - if x % TWO_64 < TWO_63 then 0 else 1;
  }

  lemma WrapUnique(x: int, y: int, k: int)
    requires y == x + k * TWO_64
    ensures Wrap64(x) == Wrap64(y)
  {
    assert x % TWO_64 == y % TWO_64;
  }

  lemma WrapFits(x: int)
    ensures Wrap64(x) == x <==> Fits64(x)
  {
  }

  /** Wrapping the factor first makes no difference to the wrapped product. */
  lemma WrapProduct(a: int, b: int)
    ensures Wrap64(Wrap64(a) * b) == Wrap64(a * b)
  {
    var k := WrapIsCongruent(a);
    assert (a + k * TWO_64) * b == a * b + (k * b) * TWO_64;
    WrapUnique(a * b, Wrap64(a) * b, k * b);
  }

  /** The round's time is the intended one exactly when the product fits in 64 bits. */
  lemma RoundTimeExact(genesis: int, period: int, round: nat)
    ensures RoundTime(genesis, period, round) == genesis * SECOND + (round - 1) * period
       <==> Fits64((round - 1) * period)
  {
    WrapProduct(round - 1, period);
    WrapFits((round - 1) * period);
  }

  lemma ProductsApart(x: int, y: int, period: int)
    requires x < y && period > 0
    ensures x * period + period <= y * period
  {
    var d := y - x;
    assert y * period == x * period + d * period;
    assert d * period == (d - 1) * period + period;
  }

  /** Later rounds are later by at least a period, as long as the later product fits. */
  lemma LaterRoundsAreLater(genesis: int, period: int, a: nat, b: nat)
    requires 0 < period < TWO_63 && a < b && Fits64((b - 1) * period)
    ensures RoundTime(genesis, period, a) + period <= RoundTime(genesis, period, b)
  {
    ProductsApart(a - 1, b - 1, period);
    ProductsApart(-2, a - 1, period);
    hide Wrap64, RoundTime;
    RoundTimeExact(genesis, period, a);
    RoundTimeExact(genesis, period, b);
  }

  /** Past that point time runs backwards: with a period of thirty seconds, from this round to the next. */
  lemma OverflowRewinds(genesis: int)
    ensures var p, r := 30 * SECOND, 307_445_735;
            RoundTime(genesis, p, r + 1) < RoundTime(genesis, p, r) && !Fits64(r * p)
  {
  }

  /** The times of anchored events respect causality by at least a period. */
  lemma AncestorsAreAPeriodEarlier(p: Params, run: seq<Action>, s: State, path: seq<Id>, genesis: int, period: int)
    requires p.interval > 0 && CollisionFree(p.h) && Reached(p, run, s)
    requires IsAncestry(s.loop.store, path) && path[0] in s.loop.store && path[|path| - 1] in s.loop.store
    requires RoundOf(s.loop.store, path[0]).Some? && RoundOf(s.loop.store, path[|path| - 1]).Some?
    requires 0 < period < TWO_63 && Fits64((RoundOf(s.loop.store, path[0]).value - 1) * period)
    ensures RoundTime(genesis, period, RoundOf(s.loop.store, path[|path| - 1]).value) + period
         <= RoundTime(genesis, period, RoundOf(s.loop.store, path[0]).value)
  {
    hide Reached;
    AnchorsRespectAncestry(p, run, s, path);
    var earlier, later := RoundOf(s.loop.store, path[|path| - 1]).value, RoundOf(s.loop.store, path[0]).value;
    LaterRoundsAreLater(genesis, period, earlier, later);
  }
}
