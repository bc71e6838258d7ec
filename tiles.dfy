/** The tile pools both round engines deal from: four large tiles and two
    copies of each small tile from 1 to 10. */
module Tiles {
  const LargeTiles: seq<int> := [25, 50, 75, 100]
  /** [1, 1, 2, 2, ..., 10, 10]. */
  const SmallTiles: seq<int> := Pairs(10)

  /** Two copies of each of 1..n, in increasing order. */
  function Pairs(n: nat): (s: seq<int>)
    ensures |s| == 2 * n
    ensures forall i :: 0 <= i < |s| ==> 1 <= s[i] <= n
  {
    if n == 0 then [] else Pairs(n - 1) + [n, n]
  }

  lemma SmallTilesBounds()
    ensures |SmallTiles| == 20
    ensures forall i :: 0 <= i < |SmallTiles| ==> 1 <= SmallTiles[i] <= 10
  {
  }

  /** How many large tiles `xs` holds. */
  function LargeTileCount(xs: seq<int>): nat {
    var m := multiset(xs);
    m[25] + m[50] + m[75] + m[100]
  }

  /** Tiles drawn without replacement from the two pools. */
  predicate FromPools(xs: seq<int>) {
    multiset(xs) <= multiset(LargeTiles) + multiset(SmallTiles)
  }

  predicate IsLarge(x: int) {
    x == 25 || x == 50 || x == 75 || x == 100
  }

  /** A sequence of large tiles only: each counts once. */
  lemma {:induction false} AllLargeCount(a: seq<int>)
    requires forall i :: 0 <= i < |a| ==> IsLarge(a[i])
    ensures LargeTileCount(a) == |a|
    decreases |a|
  {
    if a != [] {
      var init, last := a[..|a| - 1], a[|a| - 1];
      assert a == init + [last];
      assert multiset(a) == multiset(init) + multiset{last};
      AllLargeCount(init);
    }
  }

  /** Draws from the large pool are all large tiles. */
  lemma LargeDrawsCount(a: seq<int>)
    requires multiset(a) <= multiset(LargeTiles)
    ensures LargeTileCount(a) == |a|
  {
    forall i | 0 <= i < |a|
      ensures IsLarge(a[i])
    {
      assert a[i] in multiset(a);
      assert a[i] in LargeTiles;
    }
    AllLargeCount(a);
  }

  /** Draws from the small pool hold no large tile. */
  lemma SmallDrawsCount(b: seq<int>)
    requires multiset(b) <= multiset(SmallTiles)
    ensures LargeTileCount(b) == 0
  {
    NotSmall(25);
    NotSmall(50);
    NotSmall(75);
    NotSmall(100);
  }

  lemma NotSmall(x: int)
    requires x > 10
    ensures multiset(SmallTiles)[x] == 0
  {
    SmallTilesBounds();
    assert x !in SmallTiles;
  }

  /** A deal whose first `n` tiles are large draws and whose others are
      small draws: it comes from the pools and holds exactly `n` large
      tiles. */
  lemma DealComposition(d: seq<int>, n: nat)
    requires n <= |d|
    requires multiset(d[..n]) <= multiset(LargeTiles)
    requires multiset(d[n..]) <= multiset(SmallTiles)
    ensures FromPools(d)
    ensures LargeTileCount(d) == n
  {
    LargeDrawsCount(d[..n]);
    SmallDrawsCount(d[n..]);
    DrawnFromBoth(d, n, LargeTiles, SmallTiles);
  }

  /** Splitting a deal into the draws from two pools. */
  lemma DrawnFromBoth(d: seq<int>, n: nat, first: seq<int>, second: seq<int>)
    requires n <= |d|
    requires multiset(d[..n]) <= multiset(first)
    requires multiset(d[n..]) <= multiset(second)
    ensures multiset(d) <= multiset(first) + multiset(second)
    ensures LargeTileCount(d) == LargeTileCount(d[..n]) + LargeTileCount(d[n..])
  {
    assert d == d[..n] + d[n..];
    assert multiset(d) == multiset(d[..n]) + multiset(d[n..]);
  }

  /** Every tile in the pools is at most 100. */
  lemma PoolTilesAtMost100(xs: seq<int>)
    requires FromPools(xs)
    ensures forall i :: 0 <= i < |xs| ==> 1 <= xs[i] <= 100
  {
    forall i | 0 <= i < |xs| ensures 1 <= xs[i] <= 100 {
      assert xs[i] in multiset(xs);
      assert xs[i] in multiset(LargeTiles) + multiset(SmallTiles);
      if xs[i] in multiset(LargeTiles) {
        assert xs[i] in LargeTiles;
      } else {
        SmallTilesBounds();
        assert xs[i] in SmallTiles;
      }
    }
  }
}
