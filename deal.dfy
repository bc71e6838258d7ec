/** The drawing loop of round generation: `pool.splice(randInt(0,
    pool.length - 1), 1)[0]` pushed for each of a number of iterations,
    the first ones drawing from the large pool and the rest from the small
    pool. */
module Deal {
  import opened Wrappers
  import Prng
  import JsArrays

  /** The drawing loop's variables: the tiles pushed so far and what is
      left of the two pools. */
  datatype Dealing = Dealing(drawn: seq<int>, large: seq<int>, small: seq<int>)

  /** `xs` without its element at `k`. */
  function RemoveAt(xs: seq<int>, k: nat): (r: seq<int>)
    requires k < |xs|
    ensures |r| == |xs| - 1
    decreases k
  {
    if k == 0 then xs[1..] else [xs[0]] + RemoveAt(xs[1..], k - 1)
  }

  /** Removing the element at `k` takes exactly one copy of it out. */
  lemma {:induction false} RemoveAtTakesOne(xs: seq<int>, k: nat)
    requires k < |xs|
    ensures multiset(RemoveAt(xs, k)) + multiset{xs[k]} == multiset(xs)
    decreases k
  {
    assert xs == [xs[0]] + xs[1..];
    if k > 0 {
      RemoveAtTakesOne(xs[1..], k - 1);
    }
  }

  /** `RemoveAt` is what `splice(k, 1)` leaves of an array. */
  lemma {:induction false} RemoveAtSplices(xs: seq<int>, k: nat)
    requires k < |xs|
    ensures RemoveAt(xs, k) == JsArrays.SpliceOne(xs, k)
    decreases k
  {
    if k > 0 {
      RemoveAtSplices(xs[1..], k - 1);
      assert xs[1..][..k - 1] == xs[1..k];
      assert xs[1..][k..] == xs[k + 1..];
      assert xs[..k] == [xs[0]] + xs[1..k];
    }
  }

  /** One iteration of the drawing loop at position `k`: the tile there is
      spliced out of the large pool when `fromLarge`, out of the small
      pool otherwise, and pushed. A position outside the pool, which
      PositionsFit rules out, leaves everything as it is. */
  function Step(d: Dealing, k: int, fromLarge: bool): Dealing {
    if fromLarge then
      if 0 <= k < |d.large| then Dealing(d.drawn + [d.large[k]], RemoveAt(d.large, k), d.small) else d
    else
      if 0 <= k < |d.small| then Dealing(d.drawn + [d.small[k]], d.large, RemoveAt(d.small, k)) else d
  }

  /** The loop's variables after `n` iterations at the positions `ks`, the
      first `largeCount` iterations drawing from the large pool. */
  function DealAfter(ks: seq<int>, n: nat, largeCount: nat, large: seq<int>, small: seq<int>): Dealing
    requires n <= |ks|
    decreases n
  {
    if n == 0 then Dealing([], large, small)
    else Step(DealAfter(ks, n - 1, largeCount, large, small), ks[n - 1], n - 1 < largeCount)
  }

  /** The pool size iteration `i` draws from: the large pool shrinks during
      the first `largeCount` iterations, the small one after. */
  function PoolSize(i: nat, largeCount: nat, largeSize: int, smallSize: int): int {
    if i < largeCount then largeSize - i else smallSize - (i - largeCount)
  }

  /** The positions the loop's `randInt(0, pool.length - 1)` calls pick in
      iterations `from` to `n - 1`, the first of them drawing from
      generator state `s`. */
  function Positions(s: Prng.Sfc32State, from: nat, n: nat, largeCount: nat, largeSize: int, smallSize: int): (ks: seq<int>)
    ensures |ks| == if from <= n then n - from else 0
    decreases n - from
  {
    if n <= from then []
    else [Prng.RandIntOf(Prng.Output(s), 0, Some(PoolSize(from, largeCount, largeSize, smallSize) - 1))]
         + Positions(Prng.Advance(s), from + 1, n, largeCount, largeSize, smallSize)
  }

  /** Every position lies in the pool it is drawn from. */
  predicate Fit(ks: seq<int>, largeCount: nat, largeSize: int, smallSize: int) {
    forall i :: 0 <= i < |ks| ==> 0 <= ks[i] < PoolSize(i, largeCount, largeSize, smallSize)
  }

  /** With tiles enough in both pools, every drawn position fits its
      pool. */
  lemma {:induction false} PositionsFit(s: Prng.Sfc32State, from: nat, n: nat, largeCount: nat, largeSize: int, smallSize: int)
    requires from <= n && largeCount <= largeSize && n <= largeCount + smallSize
    ensures FitFrom(Positions(s, from, n, largeCount, largeSize, smallSize), from, largeCount, largeSize, smallSize)
    decreases n - from
  {
    if from < n {
      PositionsFit(Prng.Advance(s), from + 1, n, largeCount, largeSize, smallSize);
      var ks := Positions(s, from, n, largeCount, largeSize, smallSize);
      var tail := Positions(Prng.Advance(s), from + 1, n, largeCount, largeSize, smallSize);
      assert ks[1..] == tail;
      forall m | 0 <= m < |ks|
        ensures 0 <= ks[m] < PoolSize(from + m, largeCount, largeSize, smallSize)
      {
        if m == 0 {
          assert PoolSize(from, largeCount, largeSize, smallSize) >= 1;
        } else {
          assert ks[m] == tail[m - 1];
          assert from + 1 + (m - 1) == from + m;
        }
      }
    }
  }

  /** The first position of iteration `from` on is drawn from `s`, the
      rest from the state after it. */
  lemma PositionsHead(s: Prng.Sfc32State, from: nat, n: nat, largeCount: nat, largeSize: int, smallSize: int, size: int)
    requires from < n && size == PoolSize(from, largeCount, largeSize, smallSize)
    ensures var ks := Positions(s, from, n, largeCount, largeSize, smallSize);
            ks[0] == Prng.RandIntOf(Prng.Output(s), 0, Some(size - 1)) &&
            ks[1..] == Positions(Prng.Advance(s), from + 1, n, largeCount, largeSize, smallSize)
  {
  }

  /** Positions `ks` of iterations `from` on fit their pools. */
  predicate FitFrom(ks: seq<int>, from: nat, largeCount: nat, largeSize: int, smallSize: int) {
    forall m :: 0 <= m < |ks| ==> 0 <= ks[m] < PoolSize(from + m, largeCount, largeSize, smallSize)
  }

  /** Every position the loop draws fits its pool. */
  lemma PositionsFitAll(s: Prng.Sfc32State, n: nat, largeCount: nat, largeSize: int, smallSize: int)
    requires largeCount <= largeSize && n <= largeCount + smallSize
    ensures Fit(Positions(s, 0, n, largeCount, largeSize, smallSize), largeCount, largeSize, smallSize)
  {
    PositionsFit(s, 0, n, largeCount, largeSize, smallSize);
    var ks := Positions(s, 0, n, largeCount, largeSize, smallSize);
    forall m | 0 <= m < |ks|
      ensures 0 <= ks[m] < PoolSize(m, largeCount, largeSize, smallSize)
    {
      assert 0 + m == m;
    }
  }

  /** During the large draws: one tile per iteration out of the large
      pool, the small pool untouched. */
  lemma {:induction false} DealAfterLarge(ks: seq<int>, n: nat, largeCount: nat, large: seq<int>, small: seq<int>)
    requires n <= |ks| && n <= largeCount && Fit(ks, largeCount, |large|, |small|)
    ensures var d := DealAfter(ks, n, largeCount, large, small);
            |d.drawn| == n && |d.large| == |large| - n && d.small == small
    decreases n
  {
    if n > 0 {
      DealAfterLarge(ks, n - 1, largeCount, large, small);
    }
  }

  /** After the large draws: one tile per iteration out of the small
      pool. */
  lemma {:induction false} DealAfterSmall(ks: seq<int>, n: nat, largeCount: nat, large: seq<int>, small: seq<int>)
    requires largeCount <= n <= |ks| && Fit(ks, largeCount, |large|, |small|)
    ensures var d := DealAfter(ks, n, largeCount, large, small);
            |d.drawn| == n && |d.small| == |small| - (n - largeCount)
    decreases n
  {
    if n == largeCount {
      DealAfterLarge(ks, n, largeCount, large, small);
    } else {
      DealAfterSmall(ks, n - 1, largeCount, large, small);
    }
  }

  /** The small draws go behind the large ones, which stay as they were. */
  lemma {:induction false} LargeDrawsKept(ks: seq<int>, n: nat, largeCount: nat, large: seq<int>, small: seq<int>)
    requires largeCount <= n <= |ks| && Fit(ks, largeCount, |large|, |small|)
    ensures var d := DealAfter(ks, n, largeCount, large, small);
            var front := DealAfter(ks, largeCount, largeCount, large, small);
            largeCount <= |d.drawn| && |front.drawn| == largeCount &&
            forall j :: 0 <= j < largeCount ==> d.drawn[j] == front.drawn[j]
    decreases n
  {
    DealAfterSmall(ks, n, largeCount, large, small);
    DealAfterSmall(ks, largeCount, largeCount, large, small);
    if n > largeCount {
      LargeDrawsKept(ks, n - 1, largeCount, large, small);
      DealAfterSmall(ks, n - 1, largeCount, large, small);
    }
  }

  /** The deal after `n` iterations starts with the large draws. */
  lemma LargeDrawsFirst(ks: seq<int>, n: nat, largeCount: nat, large: seq<int>, small: seq<int>)
    requires largeCount <= n <= |ks| && Fit(ks, largeCount, |large|, |small|)
    ensures var d := DealAfter(ks, n, largeCount, large, small);
            largeCount <= |d.drawn| &&
            d.drawn[..largeCount] == DealAfter(ks, largeCount, largeCount, large, small).drawn
  {
    LargeDrawsKept(ks, n, largeCount, large, small);
  }

  /** The large draws come out of the large pool, none twice. */
  lemma {:induction false} LargeDrawn(ks: seq<int>, n: nat, largeCount: nat, large: seq<int>, small: seq<int>)
    requires n <= |ks| && n <= largeCount && Fit(ks, largeCount, |large|, |small|)
    ensures var d := DealAfter(ks, n, largeCount, large, small);
            multiset(d.drawn) + multiset(d.large) == multiset(large)
    decreases n
  {
    if n > 0 {
      LargeDrawn(ks, n - 1, largeCount, large, small);
      DealAfterLarge(ks, n - 1, largeCount, large, small);
      var d := DealAfter(ks, n - 1, largeCount, large, small);
      Moved(d.drawn, d.large, ks[n - 1]);
    }
  }

  /** The small draws come out of the small pool, none twice: what is
      drawn after the large draws, together with what is left of the small
      pool, is the small pool. */
  lemma {:induction false} SmallDrawn(ks: seq<int>, n: nat, largeCount: nat, large: seq<int>, small: seq<int>)
    requires largeCount <= n <= |ks| && Fit(ks, largeCount, |large|, |small|)
    ensures var d := DealAfter(ks, n, largeCount, large, small);
            multiset(d.drawn) + multiset(d.small) ==
            multiset(DealAfter(ks, largeCount, largeCount, large, small).drawn) + multiset(small)
    decreases n
  {
    if n == largeCount {
      DealAfterLarge(ks, n, largeCount, large, small);
    } else {
      SmallDrawn(ks, n - 1, largeCount, large, small);
      DealAfterSmall(ks, n - 1, largeCount, large, small);
      var d := DealAfter(ks, n - 1, largeCount, large, small);
      Moved(d.drawn, d.small, ks[n - 1]);
    }
  }

  /** The deal after `n` iterations: the first `largeCount` tiles come out
      of the large pool and the others out of the small pool, none twice. */
  lemma DealtFrom(ks: seq<int>, n: nat, largeCount: nat, large: seq<int>, small: seq<int>)
    requires largeCount <= n <= |ks| && Fit(ks, largeCount, |large|, |small|)
    ensures var drawn := DealAfter(ks, n, largeCount, large, small).drawn;
            |drawn| == n &&
            multiset(drawn[..largeCount]) <= multiset(large) &&
            multiset(drawn[largeCount..]) <= multiset(small)
  {
    DealAfterSmall(ks, n, largeCount, large, small);
    LargeDrawsFirst(ks, n, largeCount, large, small);
    LargeDrawn(ks, largeCount, largeCount, large, small);
    SmallDrawnAfter(ks, n, largeCount, large, small);
  }

  /** The tiles drawn after the large draws come out of the small pool. */
  lemma SmallDrawnAfter(ks: seq<int>, n: nat, largeCount: nat, large: seq<int>, small: seq<int>)
    requires largeCount <= n <= |ks| && Fit(ks, largeCount, |large|, |small|)
    ensures var drawn := DealAfter(ks, n, largeCount, large, small).drawn;
            largeCount <= |drawn| &&
            multiset(drawn[largeCount..]) + multiset(DealAfter(ks, n, largeCount, large, small).small) == multiset(small)
  {
    LargeDrawsFirst(ks, n, largeCount, large, small);
    SmallDrawn(ks, n, largeCount, large, small);
    var d := DealAfter(ks, n, largeCount, large, small);
    var front := DealAfter(ks, largeCount, largeCount, large, small);
    assert d.drawn == front.drawn + d.drawn[largeCount..];
    assert multiset(d.drawn) == multiset(front.drawn) + multiset(d.drawn[largeCount..]);
    forall x ensures (multiset(d.drawn[largeCount..]) + multiset(d.small))[x] == multiset(small)[x] {
      assert (multiset(d.drawn) + multiset(d.small))[x] == (multiset(front.drawn) + multiset(small))[x];
    }
  }

  /** Moving the tile at `k` from `pool` onto `drawn` keeps their joint
      multiset. */
  lemma Moved(drawn: seq<int>, pool: seq<int>, k: nat)
    requires k < |pool|
    ensures multiset(drawn + [pool[k]]) + multiset(RemoveAt(pool, k)) == multiset(drawn) + multiset(pool)
  {
    RemoveAtTakesOne(pool, k);
    assert multiset(drawn + [pool[k]]) == multiset(drawn) + multiset{pool[k]};
  }

  /** `pool.splice(random.randInt(0, pool.length - 1), 1)[0]`: the tile at
      the drawn position, and the pool without it. */
  method Draw(r: Prng.Random, pool: seq<int>) returns (tile: int, rest: seq<int>)
    requires pool != []
    modifies r.gen
    ensures var k := Prng.RandIntOf(Prng.Output(old(r.gen.State())), 0, Some(|pool| - 1));
            0 <= k < |pool| && tile == pool[k] && rest == RemoveAt(pool, k)
    ensures r.gen.State() == Prng.Advance(old(r.gen.State()))
  {
    var k := r.RandInt(0, Some(|pool| - 1));
    tile := pool[k];
    rest := JsArrays.SpliceOne(pool, k);
    RemoveAtSplices(pool, k);
  }

  /** The loop itself: `count` iterations, the first `largeCount` from
      `large`, the rest from `small`, one draw each. */
  method DealLoop(r: Prng.Random, largeCount: nat, count: nat, large: seq<int>, small: seq<int>) returns (drawn: seq<int>)
    requires largeCount <= |large| && count <= largeCount + |small|
    modifies r.gen
    ensures drawn == DealAfter(Positions(old(r.gen.State()), 0, count, largeCount, |large|, |small|),
                               count, largeCount, large, small).drawn
  {
    ghost var ks := Positions(r.gen.State(), 0, count, largeCount, |large|, |small|);
    PositionsFitAll(r.gen.State(), count, largeCount, |large|, |small|);
    var largePool, smallPool := large, small;
    drawn := [];
    for i := 0 to count
      invariant ks[i..] == Positions(r.gen.State(), i, count, largeCount, |large|, |small|)
      invariant Dealing(drawn, largePool, smallPool) == DealAfter(ks, i, largeCount, large, small)
    {
      if i < largeCount {
        drawn, largePool := DrawLarge(r, ks, i, count, largeCount, large, small, drawn, largePool, smallPool);
      } else {
        drawn, smallPool := DrawSmall(r, ks, i, count, largeCount, large, small, drawn, largePool, smallPool);
      }
    }
  }

  /** The loop body with large draws left: a tile drawn from the large
      pool is pushed. */
  method DrawLarge(r: Prng.Random, ghost ks: seq<int>, ghost i: nat, ghost count: nat, ghost largeCount: nat,
                   ghost large: seq<int>, ghost small: seq<int>, drawn: seq<int>, largePool: seq<int>, ghost smallPool: seq<int>)
    returns (drawn': seq<int>, largePool': seq<int>)
    requires i < count == |ks| && i < largeCount && Fit(ks, largeCount, |large|, |small|)
    requires ks[i..] == Positions(r.gen.State(), i, count, largeCount, |large|, |small|)
    requires Dealing(drawn, largePool, smallPool) == DealAfter(ks, i, largeCount, large, small)
    modifies r.gen
    ensures ks[i + 1..] == Positions(r.gen.State(), i + 1, count, largeCount, |large|, |small|)
    ensures Dealing(drawn', largePool', smallPool) == DealAfter(ks, i + 1, largeCount, large, small)
  {
    NextLarge(ks, i, count, largeCount, large, small, r.gen.State());
    var tile;
    tile, largePool' := Draw(r, largePool);
    assert tile == largePool[ks[i]] && largePool' == RemoveAt(largePool, ks[i]);
    drawn' := drawn + [tile];
  }

  /** The loop body after the large draws: a tile drawn from the small
      pool is pushed. */
  method DrawSmall(r: Prng.Random, ghost ks: seq<int>, ghost i: nat, ghost count: nat, ghost largeCount: nat,
                   ghost large: seq<int>, ghost small: seq<int>, drawn: seq<int>, ghost largePool: seq<int>, smallPool: seq<int>)
    returns (drawn': seq<int>, smallPool': seq<int>)
    requires i < count == |ks| && largeCount <= i && Fit(ks, largeCount, |large|, |small|)
    requires ks[i..] == Positions(r.gen.State(), i, count, largeCount, |large|, |small|)
    requires Dealing(drawn, largePool, smallPool) == DealAfter(ks, i, largeCount, large, small)
    modifies r.gen
    ensures ks[i + 1..] == Positions(r.gen.State(), i + 1, count, largeCount, |large|, |small|)
    ensures Dealing(drawn', largePool, smallPool') == DealAfter(ks, i + 1, largeCount, large, small)
  {
    NextSmall(ks, i, count, largeCount, large, small, r.gen.State());
    var tile;
    tile, smallPool' := Draw(r, smallPool);
    assert tile == smallPool[ks[i]] && smallPool' == RemoveAt(smallPool, ks[i]);
    drawn' := drawn + [tile];
  }

  /** One iteration of the loop with large draws left, from generator
      state `s`: the position drawn from `s` is spliced out of the large
      pool, and the later positions are drawn from the state after it. */
  lemma NextLarge(ks: seq<int>, i: nat, count: nat, largeCount: nat, large: seq<int>, small: seq<int>, s: Prng.Sfc32State)
    requires i < count == |ks| && i < largeCount && Fit(ks, largeCount, |large|, |small|)
    requires ks[i..] == Positions(s, i, count, largeCount, |large|, |small|)
    ensures ks[i + 1..] == Positions(Prng.Advance(s), i + 1, count, largeCount, |large|, |small|)
    ensures var d := DealAfter(ks, i, largeCount, large, small);
            ks[i] == Prng.RandIntOf(Prng.Output(s), 0, Some(|d.large| - 1)) &&
            0 <= ks[i] < |d.large| &&
            DealAfter(ks, i + 1, largeCount, large, small) == Dealing(d.drawn + [d.large[ks[i]]], RemoveAt(d.large, ks[i]), d.small)
  {
    DealAfterLarge(ks, i, largeCount, large, small);
    var d := DealAfter(ks, i, largeCount, large, small);
    PositionsHead(s, i, count, largeCount, |large|, |small|, |d.large|);
    assert ks[i] == ks[i..][0];
    assert ks[i + 1..] == ks[i..][1..];
  }

  /** One iteration of the loop after the large draws, from generator
      state `s`. */
  lemma NextSmall(ks: seq<int>, i: nat, count: nat, largeCount: nat, large: seq<int>, small: seq<int>, s: Prng.Sfc32State)
    requires i < count == |ks| && largeCount <= i && Fit(ks, largeCount, |large|, |small|)
    requires ks[i..] == Positions(s, i, count, largeCount, |large|, |small|)
    ensures ks[i + 1..] == Positions(Prng.Advance(s), i + 1, count, largeCount, |large|, |small|)
    ensures var d := DealAfter(ks, i, largeCount, large, small);
            ks[i] == Prng.RandIntOf(Prng.Output(s), 0, Some(|d.small| - 1)) &&
            0 <= ks[i] < |d.small| &&
            DealAfter(ks, i + 1, largeCount, large, small) == Dealing(d.drawn + [d.small[ks[i]]], d.large, RemoveAt(d.small, ks[i]))
  {
    DealAfterSmall(ks, i, largeCount, large, small);
    var d := DealAfter(ks, i, largeCount, large, small);
    PositionsHead(s, i, count, largeCount, |large|, |small|, |d.small|);
    assert ks[i] == ks[i..][0];
    assert ks[i + 1..] == ks[i..][1..];
  }
}
