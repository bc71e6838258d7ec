/** The seeded round of the arithmetic puzzle (ArithmeticRound): the
    target and six tiles dealt from the generator seeded with the game id
    and round number, the operand history the operations extend, and the
    checks that decide whether saved round data is taken over. */
module Round {
  import opened Wrappers
  import opened JsArrays
  import opened Utilities
  import opened Text
  import opened Stored
  import opened Moves
  import opened Tiles
  import opened Deal
  import Prng

  const TargetMin: int := 101
  const TargetMax: int := 999
  const OperandCount: nat := 6

  /** The large-tile count weights .01, .4, .5, .08, .01, scaled to
      integers. */
  const LargeWeights: seq<nat> := [1, 40, 50, 8, 1]

  lemma LargeWeightsTotal()
    ensures Folds.Sum(LargeWeights) == 100
  {
    assert Folds.Sum([1]) == 1 by { assert [1][..0] == []; }
    assert Folds.Sum([1, 40]) == 41 by { assert [1, 40][..1] == [1]; }
    assert Folds.Sum([1, 40, 50]) == 91 by { assert [1, 40, 50][..2] == [1, 40]; }
    assert Folds.Sum([1, 40, 50, 8]) == 99 by { assert [1, 40, 50, 8][..3] == [1, 40, 50]; }
    assert LargeWeights[..4] == [1, 40, 50, 8];
  }

  // ---------------------------------------------------------------------
  // Generation

  /** The decimal digits of `n` as UTF-16 code units. */
  function DecimalUnits(n: nat): (us: seq<Prng.CodeUnit>)
    ensures |us| == |NatToString(n)|
  {
    var s := NatToString(n);
    seq(|s|, i requires 0 <= i < |s| => (s[i] as int) as Prng.CodeUnit)
  }

  /** The seed string `${gameId}${roundNumber}`. */
  function SeedUnits(gameId: seq<Prng.CodeUnit>, roundNumber: nat): seq<Prng.CodeUnit> {
    gameId + DecimalUnits(roundNumber)
  }

  /** `randIntWeighted(...largeProbabilities)` for the draw at state `s`. */
  function LargeCountAt(s: Prng.Sfc32State): (n: nat)
    ensures n < |LargeWeights|
  {
    var t := Prng.Output(s);
    LargeWeightsTotal();
    Prng.WeightedIndexInRange(LargeWeights, t);
    Prng.WeightedIndex(LargeWeights, t)
  }

  /** The operands generation produces from state `s`: the large-tile
      count is drawn, then six tiles, then they are sorted descending. */
  function TilesFrom(s: Prng.Sfc32State): seq<int> {
    var largeCount := LargeCountAt(s);
    var ks := Positions(Prng.Advance(s), 0, OperandCount, largeCount, |LargeTiles|, |SmallTiles|);
    SortDesc(DealAfter(ks, OperandCount, largeCount, LargeTiles, SmallTiles).drawn)
  }

  /** The target a fresh round of this seed gets: the first draw. */
  function GeneratedTarget(seed: seq<Prng.CodeUnit>): int {
    Prng.RandIntOf(Prng.Output(Prng.SeedState(seed)), TargetMin, Some(TargetMax))
  }

  /** The tiles a fresh round of this seed gets, from the second draw on. */
  function GeneratedOperands(seed: seq<Prng.CodeUnit>): seq<int> {
    TilesFrom(Prng.Advance(Prng.SeedState(seed)))
  }

  /** A deal of `largeCount` large draws and then small draws takes its
      tiles from the pools and holds exactly `largeCount` large tiles. */
  lemma DealShape(ks: seq<int>, n: nat, largeCount: nat)
    requires largeCount <= n <= |ks| && Fit(ks, largeCount, |LargeTiles|, |SmallTiles|)
    ensures var drawn := DealAfter(ks, n, largeCount, LargeTiles, SmallTiles).drawn;
            |drawn| == n && FromPools(drawn) && LargeTileCount(drawn) == largeCount
  {
    DealtFrom(ks, n, largeCount, LargeTiles, SmallTiles);
    var drawn := DealAfter(ks, n, largeCount, LargeTiles, SmallTiles).drawn;
    DealComposition(drawn, largeCount);
  }

  /** The tiles dealt from any generator state: six descending tiles,
      without replacement from the pools, of which the drawn large-tile
      count (at most four) are large. */
  lemma TilesFromShape(s: Prng.Sfc32State)
    ensures var tiles := TilesFrom(s);
            |tiles| == OperandCount && Descending(tiles) && FromPools(tiles) &&
            LargeTileCount(tiles) == LargeCountAt(s) <= 4
  {
    var lc := LargeCountAt(s);
    var ks := Positions(Prng.Advance(s), 0, OperandCount, lc, |LargeTiles|, |SmallTiles|);
    PositionsFitAll(Prng.Advance(s), OperandCount, lc, |LargeTiles|, |SmallTiles|);
    DealShape(ks, OperandCount, lc);
  }

  /** The shape of a fresh round: a target in [101, 999] and six
      descending tiles from the pools with at most four large ones. */
  lemma FreshRoundShape(seed: seq<Prng.CodeUnit>)
    ensures TargetMin <= GeneratedTarget(seed) <= TargetMax
    ensures var tiles := GeneratedOperands(seed);
            |tiles| == OperandCount && Descending(tiles) && FromPools(tiles) &&
            LargeTileCount(tiles) == LargeCountAt(Prng.Advance(Prng.SeedState(seed))) <= 4
  {
    TilesFromShape(Prng.Advance(Prng.SeedState(seed)));
  }

  /** A fresh round is never already solved: every tile is at most 100
      and the target at least 101. */
  lemma FreshRoundUnsolved(seed: seq<Prng.CodeUnit>)
    ensures GeneratedTarget(seed) !in GeneratedOperands(seed)
  {
    FreshRoundShape(seed);
    PoolTilesAtMost100(GeneratedOperands(seed));
  }

  /** The generation loop: draws the large-tile count and the six tiles
      from `r`, seven draws in all. */
  method DrawOperands(r: Prng.Random) returns (tiles: seq<int>)
    modifies r.gen
    ensures tiles == TilesFrom(old(r.gen.State()))
  {
    ghost var s := r.gen.State();
    var weighted := r.RandIntWeighted(LargeWeights);
    assert weighted == LargeCountAt(s);
    var largeCount: nat := weighted;
    var drawn := DealLoop(r, largeCount, OperandCount, LargeTiles, SmallTiles);
    tiles := SortDesc(drawn);
  }

  /** Where a round starts: the saved round when loading is asked for and
      the saved data passes the checks, otherwise the generated one. */
  function Start(gameId: seq<Prng.CodeUnit>, roundNumber: nat, loadSavedRound: bool, saved: SavedRound): (int, History) {
    var restored := if loadSavedRound then Restore(saved) else None;
    if restored.Some? then restored.value
    else
      var seed := SeedUnits(gameId, roundNumber);
      (GeneratedTarget(seed), History([GeneratedOperands(seed)], []))
  }

  /** What a round keeps true between operations. */
  predicate RoundInvariant(target: int, h: History) {
    Consistent(h) && 100 <= target <= 999 &&
    forall i :: 0 <= i < |h.operations| ==> h.operations[i] != []
  }

  /** A round starts in a state that keeps the invariant; a generated
      round starts unsolved with no operations. */
  lemma StartKeepsInvariant(gameId: seq<Prng.CodeUnit>, roundNumber: nat, loadSavedRound: bool, saved: SavedRound)
    ensures var (target, h) := Start(gameId, roundNumber, loadSavedRound, saved);
            RoundInvariant(target, h)
    ensures !loadSavedRound ==> var (target, h) := Start(gameId, roundNumber, loadSavedRound, saved);
            !Solved(target, h) && h.operations == []
  {
    var seed := SeedUnits(gameId, roundNumber);
    GeneratedStartKeepsInvariant(seed);
  }

  /** The generated start of a round: invariant kept, not solved, no
      operations. */
  lemma GeneratedStartKeepsInvariant(seed: seq<Prng.CodeUnit>)
    ensures RoundInvariant(GeneratedTarget(seed), History([GeneratedOperands(seed)], []))
    ensures !Solved(GeneratedTarget(seed), History([GeneratedOperands(seed)], []))
  {
    FreshRoundShape(seed);
    FreshRoundUnsolved(seed);
    FreshHistory(GeneratedTarget(seed), GeneratedOperands(seed));
  }

  lemma FreshHistory(target: int, tiles: seq<int>)
    requires TargetMin <= target <= TargetMax && target !in tiles
    ensures RoundInvariant(target, History([tiles], []))
    ensures !Solved(target, History([tiles], []))
  {
  }

  /** Every operation keeps the round invariant. */
  lemma PerformKeepsInvariant(target: int, h: History, op: Op)
    requires RoundInvariant(target, h)
    ensures RoundInvariant(target, Perform(h, op))
    ensures RoundInvariant(target, Moves.Undo(h))
    ensures RoundInvariant(target, Moves.Reset(h))
  {
  }

  // ---------------------------------------------------------------------
  // Saved data

  /** The four values the round's `load` reads. */
  datatype SavedRound = SavedRound(roundNumber: Value, target: Value, operands: Value, operations: Value)

  /** The checks of `load`: integers and arrays of the right kinds, the
      target in [100, 999], one snapshot more than descriptions, only
      integers in the snapshots and only non-empty strings as descriptions.
      When any fails nothing is taken over. */
  function Restore(d: SavedRound): (r: Option<(int, History)>)
    ensures r.Some? ==> RoundInvariant(r.value.0, r.value.1)
    ensures r.Some? <==>
      IsInteger(d.roundNumber) && IsInteger(d.target) && d.operands.Array? && d.operations.Array? &&
      100 <= IntOf(d.target) <= 999 && |d.operands.items| == |d.operations.items| + 1 &&
      IsSnapshotArray(d.operands) && IsDescriptionArray(d.operations)
  {
    if !IsInteger(d.roundNumber) || !IsInteger(d.target) || !d.operands.Array? || !d.operations.Array? then None
    else if IntOf(d.target) < 100 || IntOf(d.target) > 999 || |d.operands.items| != |d.operations.items| + 1 then None
    else if !IsSnapshotArray(d.operands) then None
    else if !IsDescriptionArray(d.operations) then None
    else Some((IntOf(d.target), History(Snapshots(d.operands), Descriptions(d.operations))))
  }

  /** The data `save` writes. */
  function Save(roundNumber: nat, target: int, h: History): SavedRound {
    SavedRound(FromInt(roundNumber), FromInt(target), FromSnapshots(h.operands), FromDescriptions(h.operations))
  }

  /** Saving a round and loading it back gives the same round. */
  lemma SaveRestoreRoundTrip(roundNumber: nat, target: int, h: History)
    requires RoundInvariant(target, h)
    ensures Restore(Save(roundNumber, target, h)) == Some((target, h))
  {
  }

  // ---------------------------------------------------------------------
  // The round object

  class ArithmeticRound {
    const gameId: seq<Prng.CodeUnit>
    const roundNumber: nat
    var target: int
    var operands: seq<seq<int>>
    var operations: seq<string>

    function State(): History
      reads this
    {
      History(operands, operations)
    }

    predicate Valid()
      reads this
    {
      RoundInvariant(target, State())
    }

    /** The `solved` getter. */
    predicate Solved()
      reads this
      requires Valid()
    {
      Moves.Solved(target, State())
    }

    constructor (gameId: seq<Prng.CodeUnit>, roundNumber: nat, loadSavedRound: bool, saved: SavedRound)
      ensures this.gameId == gameId && this.roundNumber == roundNumber
      ensures (target, State()) == Start(gameId, roundNumber, loadSavedRound, saved)
      ensures Valid()
    {
      var r := new Prng.Random(SeedUnits(gameId, roundNumber));
      this.gameId := gameId;
      this.roundNumber := roundNumber;
      var restored := if loadSavedRound then Restore(saved) else None;
      if restored.Some? {
        target := restored.value.0;
        operands := restored.value.1.operands;
        operations := restored.value.1.operations;
      } else {
        var t := r.RandInt(TargetMin, Some(TargetMax));
        var tiles := DrawOperands(r);
        target := t;
        operands := [tiles];
        operations := [];
      }
      new;
      StartKeepsInvariant(gameId, roundNumber, loadSavedRound, saved);
    }

    method Reset()
      requires Valid()
      modifies this
      ensures Valid() && target == old(target)
      ensures State() == Moves.Reset(old(State()))
    {
      operands := [operands[0]];
      operations := [];
    }

    method Undo() returns (ok: bool)
      requires Valid()
      modifies this
      ensures Valid() && target == old(target)
      ensures ok <==> |old(operands)| > 1
      ensures State() == Moves.Undo(old(State()))
    {
      if |operands| > 1 {
        operands := operands[..|operands| - 1];
        operations := operations[..|operations| - 1];
        ok := true;
      } else {
        ok := false;
      }
    }

    /** Appends one snapshot and its description. */
    method Push(next: seq<int>, text: string)
      modifies this
      ensures State() == History(old(operands) + [next], old(operations) + [text])
      ensures target == old(target)
    {
      operands := operands + [next];
      operations := operations + [text];
    }

    method Add(addends: seq<int>) returns (ok: bool)
      requires Valid()
      modifies this
      ensures State() == Perform(old(State()), Op.Add(addends))
      ensures ok == Legal(Op.Add(addends), Current(old(State())))
      ensures Valid() && target == old(target)
    {
      var work := operands[|operands| - 1];
      AddGuard(State(), addends);
      ghost var after := Perform(State(), Op.Add(addends));
      PerformKeepsInvariant(target, State(), Op.Add(addends));
      if AllIncluded(addends, work) && Additive(addends) {
        var sum, rest := SumAndTake(work, addends);
        var next := SortDesc(rest + [sum]);
        var text := Join(addends, " + ") + " = " + IntToString(sum);
        AddStep(State(), addends, rest, sum, text);
        operands := operands + [next];
        operations := operations + [text];
        ok := true;
      } else {
        ok := false;
      }
      assert State() == after;
    }

    method Subtract(minuend: int, subtrahend: int) returns (ok: bool)
      requires Valid()
      modifies this
      ensures State() == Perform(old(State()), Op.Subtract(minuend, subtrahend))
      ensures ok == Legal(Op.Subtract(minuend, subtrahend), Current(old(State())))
      ensures Valid() && target == old(target)
    {
      var work := operands[|operands| - 1];
      SubtractGuard(State(), minuend, subtrahend);
      ghost var after := Perform(State(), Op.Subtract(minuend, subtrahend));
      PerformKeepsInvariant(target, State(), Op.Subtract(minuend, subtrahend));
      if minuend in work && subtrahend in work && Subtractive([minuend, subtrahend]) {
        var difference := minuend - subtrahend;
        var rest := Take(Take(work, minuend), subtrahend);
        var next := SortDesc(rest + [difference]);
        var text := IntToString(minuend) + " \U{2212} " + IntToString(subtrahend) + " = " + IntToString(difference);
        SubtractStep(State(), minuend, subtrahend, rest, text);
        Push(next, text);
        ok := true;
      } else {
        ok := false;
      }
      assert State() == after;
    }

    method Multiply(factors: seq<int>) returns (ok: bool)
      requires Valid()
      modifies this
      ensures State() == Perform(old(State()), Op.Multiply(factors))
      ensures ok == Legal(Op.Multiply(factors), Current(old(State())))
      ensures Valid() && target == old(target)
    {
      var work := operands[|operands| - 1];
      MultiplyGuard(State(), factors);
      ghost var after := Perform(State(), Op.Multiply(factors));
      PerformKeepsInvariant(target, State(), Op.Multiply(factors));
      if AllIncluded(factors, work) && Multiplicative(factors) {
        var product, rest := ProductAndTake(work, factors);
        var next := SortDesc(rest + [product]);
        var text := Join(factors, " \U{00d7} ") + " = " + IntToString(product);
        MultiplyStep(State(), factors, rest, product, text);
        operands := operands + [next];
        operations := operations + [text];
        ok := true;
      } else {
        ok := false;
      }
      assert State() == after;
    }

    method Divide(dividend: int, divisor: int) returns (ok: bool)
      requires Valid()
      modifies this
      ensures State() == Perform(old(State()), Op.Divide(dividend, divisor))
      ensures ok == Legal(Op.Divide(dividend, divisor), Current(old(State())))
      ensures Valid() && target == old(target)
    {
      var work := operands[|operands| - 1];
      DivideGuard(State(), dividend, divisor);
      ghost var after := Perform(State(), Op.Divide(dividend, divisor));
      PerformKeepsInvariant(target, State(), Op.Divide(dividend, divisor));
      if dividend in work && divisor in work && Divisible([dividend, divisor]) {
        var quotient := dividend / divisor;
        var rest := Take(Take(work, dividend), divisor);
        var next := SortDesc(rest + [quotient]);
        var text := IntToString(dividend) + " \U{00f7} " + IntToString(divisor) + " = " + IntToString(quotient);
        DivideStep(State(), dividend, divisor, rest, text);
        operands := operands + [next];
        operations := operations + [text];
        ok := true;
      } else {
        ok := false;
      }
      assert State() == after;
    }
  }
}
