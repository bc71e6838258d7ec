/** The legacy round engine (CountdownRound): the same history of snapshots
    and descriptions as the seeded round, but its target and tiles come
    from `Math.random`, modelled here as an arbitrary choice within the
    requested range, its tiles have a fixed shape (one or two large), and
    the target is drawn even when a saved round was restored. */
module Countdown {
  import opened Wrappers
  import opened JsArrays
  import opened Utilities
  import opened Stored
  import opened Moves
  import opened Tiles
  import opened Text
  import Round

  /** `randInt(min, max)` and `randInt(count)` over an arbitrary
      `Math.random()` in [0, 1): `floor(x * (max - min + 1)) + min`, with
      `randInt(count)` meaning `randInt(0, count - 1)`. */
  method RandInt(min: int, max: Option<int>) returns (r: int)
    ensures max.Some? && min <= max.value ==> min <= r <= max.value
    ensures max.Some? && max.value < min ==> max.value < r <= min
    ensures max.None? && min >= 1 ==> 0 <= r < min
    ensures max.None? && min < 1 ==> min - 1 < r <= 0
  {
    var lo := if max.None? then 0 else min;
    var hi := if max.None? then min - 1 else max.value;
    if lo <= hi {
      r :| lo <= r <= hi;
    } else {
      r :| hi < r <= lo;
    }
  }

  /** `pool.splice(this.randInt(pool.length), 1)[0]`: one tile drawn from
      the pool without replacement. */
  method DrawFrom(pool: seq<int>) returns (tile: int, rest: seq<int>)
    requires pool != []
    ensures tile in pool && |rest| == |pool| - 1
    ensures multiset(rest) + multiset{tile} == multiset(pool)
  {
    var k := RandInt(|pool|, None);
    SpliceOneAt(pool, k);
    tile := pool[k];
    rest := SpliceOne(pool, k);
  }

  /** The fresh tiles: one large tile, then a large or a small one on a
      coin flip, then four small ones, sorted descending. The ghost
      results name which tiles came from which pool. */
  method DealTiles(large: seq<int>, small: seq<int>)
      returns (tiles: seq<int>, ghost largeDrawn: seq<int>, ghost smallDrawn: seq<int>)
    requires |large| >= 2 && |small| >= 5
    ensures |tiles| == 6 && Descending(tiles)
    ensures multiset(tiles) == multiset(largeDrawn) + multiset(smallDrawn)
    ensures 1 <= |largeDrawn| <= 2 && |smallDrawn| == 6 - |largeDrawn|
    ensures multiset(largeDrawn) <= multiset(large) && multiset(smallDrawn) <= multiset(small)
  {
    var first, l1 := DrawFrom(large);
    var coin := RandInt(0, Some(1));
    var second, l2, s;
    if coin == 0 {
      second, l2 := DrawFrom(l1);
      s := small;
    } else {
      second, s := DrawFrom(small);
      l2 := l1;
    }
    var rest, left := DrawSmallFour(s);
    var drawn := [first, second] + rest;
    if coin == 0 {
      largeDrawn, smallDrawn := [first, second], rest;
      SecondFromLarge(large, first, second, l1, l2, rest, drawn);
    } else {
      largeDrawn, smallDrawn := [first], [second] + rest;
      SecondFromSmall(small, first, second, s, rest, left, drawn);
    }
    tiles := SortDesc(drawn);
  }

  /** The deal's bookkeeping when the coin gave a second large tile. */
  lemma SecondFromLarge(large: seq<int>, first: int, second: int, l1: seq<int>, l2: seq<int>, rest: seq<int>, drawn: seq<int>)
    requires multiset(l1) + multiset{first} == multiset(large)
    requires multiset(l2) + multiset{second} == multiset(l1)
    requires drawn == [first, second] + rest
    ensures multiset(drawn) == multiset([first, second]) + multiset(rest)
    ensures multiset([first, second]) <= multiset(large)
  {
    assert multiset([first, second]) == multiset{first} + multiset{second};
  }

  /** The deal's bookkeeping when the coin gave a small second tile. */
  lemma SecondFromSmall(small: seq<int>, first: int, second: int, s: seq<int>, rest: seq<int>, left: seq<int>, drawn: seq<int>)
    requires multiset(s) + multiset{second} == multiset(small)
    requires multiset(rest) + multiset(left) == multiset(s)
    requires drawn == [first, second] + rest
    ensures multiset(drawn) == multiset([first]) + multiset([second] + rest)
    ensures multiset([second] + rest) <= multiset(small)
  {
    assert drawn == [first] + ([second] + rest);
  }

  /** Four successive small draws, in the order they were made. */
  method DrawSmallFour(pool: seq<int>) returns (drawn: seq<int>, rest: seq<int>)
    requires |pool| >= 4
    ensures |drawn| == 4 && |rest| == |pool| - 4
    ensures multiset(drawn) + multiset(rest) == multiset(pool)
  {
    var third, fourth, fifth, sixth, r1, r2, r3;
    third, r1 := DrawFrom(pool);
    fourth, r2 := DrawFrom(r1);
    fifth, r3 := DrawFrom(r2);
    sixth, rest := DrawFrom(r3);
    drawn := [third, fourth, fifth, sixth];
    FourDraws(pool, r1, r2, r3, rest, drawn);
  }

  lemma FourDraws(pool: seq<int>, r1: seq<int>, r2: seq<int>, r3: seq<int>, rest: seq<int>, drawn: seq<int>)
    requires |drawn| == 4
    requires multiset(r1) + multiset{drawn[0]} == multiset(pool)
    requires multiset(r2) + multiset{drawn[1]} == multiset(r1)
    requires multiset(r3) + multiset{drawn[2]} == multiset(r2)
    requires multiset(rest) + multiset{drawn[3]} == multiset(r3)
    ensures multiset(drawn) + multiset(rest) == multiset(pool)
  {
    assert drawn == [drawn[0]] + [drawn[1]] + [drawn[2]] + [drawn[3]];
  }

  /** Tiles split into large draws and small draws come from the pools and
      hold as many large tiles as there were large draws. */
  lemma DrawnShape(tiles: seq<int>, largeDrawn: seq<int>, smallDrawn: seq<int>)
    requires multiset(tiles) == multiset(largeDrawn) + multiset(smallDrawn)
    requires multiset(largeDrawn) <= multiset(LargeTiles) && multiset(smallDrawn) <= multiset(SmallTiles)
    ensures FromPools(tiles) && LargeTileCount(tiles) == |largeDrawn|
  {
    var d := largeDrawn + smallDrawn;
    assert d[..|largeDrawn|] == largeDrawn && d[|largeDrawn|..] == smallDrawn;
    DealComposition(d, |largeDrawn|);
    assert multiset(d) == multiset(tiles);
  }

  /** The saved keys `Round`, `Wins`, `Target`, `Numbers`, `Operations`,
      as parsed values (`Undefined` when missing or unreadable). */
  datatype SavedCountdown = SavedCountdown(round: Value, wins: Value, target: Value, numbers: Value, operations: Value)

  /** The restored fields: round, wins, target and history. */
  datatype Restored = Restored(round: int, wins: int, target: int, history: History)

  /** The checks of `load`: integers and arrays, non-negative round and
      wins, the target in [100, 999], one snapshot more than descriptions,
      only integers in the snapshots and only non-empty strings as
      descriptions. When any fails nothing is taken over. */
  function Restore(d: SavedCountdown): (r: Option<Restored>)
    ensures r.Some? <==>
      IsInteger(d.round) && IsInteger(d.wins) && IsInteger(d.target) && d.numbers.Array? && d.operations.Array? &&
      IntOf(d.round) >= 0 && IntOf(d.wins) >= 0 && 100 <= IntOf(d.target) <= 999 &&
      |d.numbers.items| == |d.operations.items| + 1 &&
      IsSnapshotArray(d.numbers) && IsDescriptionArray(d.operations)
    ensures r.Some? ==> Consistent(r.value.history) && r.value.round >= 0 && r.value.wins >= 0 &&
                        100 <= r.value.target <= 999
  {
    if !IsInteger(d.round) || !IsInteger(d.wins) || !IsInteger(d.target) || !d.numbers.Array? || !d.operations.Array? then None
    else if IntOf(d.round) < 0 || IntOf(d.wins) < 0 || IntOf(d.target) < 100 || IntOf(d.target) > 999 ||
            |d.numbers.items| != |d.operations.items| + 1 then None
    else if !IsSnapshotArray(d.numbers) then None
    else if !IsDescriptionArray(d.operations) then None
    else Some(Restored(IntOf(d.round), IntOf(d.wins), IntOf(d.target),
                       History(Snapshots(d.numbers), Descriptions(d.operations))))
  }

  /** A saved round whose target is 100 passes the checks, yet the
      constructed round never keeps it: its target is always drawn anew
      from [101, 999]. */
  lemma SavedTargetDiscarded()
    ensures var d := SavedCountdown(FromInt(1), FromInt(0), FromInt(100), FromSnapshots([[100]]), FromDescriptions([]));
            Restore(d).Some? && Restore(d).value.target == 100 < Round.TargetMin
  {
    var d := SavedCountdown(FromInt(1), FromInt(0), FromInt(100), FromSnapshots([[100]]), FromDescriptions([]));
    assert IsDescriptionArray(d.operations);
  }

  /** A field as `save` writes it and the next `load` reads it back. A
      field still `undefined` is written as the text "undefined", which
      `JSON.parse` rejects, so it reads back as `Undefined`. */
  function SavedField(v: Option<int>): (r: Value)
    ensures v.Some? ==> IsInteger(r) && IntOf(r) == v.value
    ensures v.None? ==> !IsInteger(r)
  {
    if v.Some? then FromInt(v.value) else Undefined
  }

  /** The five keys `save` writes, as the next `load` reads them back. */
  function Save(round: Option<int>, wins: Option<int>, target: int, h: History): SavedCountdown {
    SavedCountdown(SavedField(round), SavedField(wins), FromInt(target), FromSnapshots(h.operands), FromDescriptions(h.operations))
  }

  /** A round that was restored saves data the next load takes over
      unchanged. */
  lemma SaveRestoreRoundTrip(round: nat, wins: nat, target: int, h: History)
    requires Consistent(h) && 100 <= target <= 999
    requires forall i :: 0 <= i < |h.operations| ==> h.operations[i] != []
    ensures Restore(Save(Some(round), Some(wins), target, h)) == Some(Restored(round, wins, target, h))
  {
  }

  /** A freshly dealt round has neither a round number nor a win count, so
      the next load never takes over what it saves. */
  lemma FreshRoundNotRestored(target: int, h: History)
    ensures Restore(Save(None, None, target, h)).None?
  {
  }

  class CountdownRound {
    var round: Option<int>
    var wins: Option<int>
    var target: int
    var numbers: seq<seq<int>>
    var operations: seq<string>

    function State(): History
      reads this
    {
      History(numbers, operations)
    }

    predicate Valid()
      reads this
    {
      Consistent(State()) && Round.TargetMin <= target <= Round.TargetMax
    }

    /** Loads the saved round when asked and it passes the checks, draws
        the target in every case, and deals fresh tiles only when nothing
        was restored. */
    constructor (loadSavedGame: bool, saved: SavedCountdown)
      ensures Valid()
      ensures var restored := if loadSavedGame then Restore(saved) else None;
              if restored.Some? then
                round == Some(restored.value.round) && wins == Some(restored.value.wins) &&
                State() == restored.value.history
              else
                round.None? && wins.None? && operations == [] && |numbers| == 1 &&
                |numbers[0]| == 6 && Descending(numbers[0]) && FromPools(numbers[0]) &&
                1 <= LargeTileCount(numbers[0]) <= 2
    {
      var restored := if loadSavedGame then Restore(saved) else None;
      var loadedNumbers: seq<seq<int>> := [];
      round, wins, operations := None, None, [];
      if restored.Some? {
        round := Some(restored.value.round);
        wins := Some(restored.value.wins);
        target := restored.value.target;
        loadedNumbers := restored.value.history.operands;
        operations := restored.value.history.operations;
      }
      var drawnTarget := RandInt(Round.TargetMin, Some(Round.TargetMax));
      target := drawnTarget;
      if |loadedNumbers| == 0 {
        SmallTilesBounds();
        var tiles;
        ghost var largeDrawn, smallDrawn;
        tiles, largeDrawn, smallDrawn := DealTiles(LargeTiles, SmallTiles);
        DrawnShape(tiles, largeDrawn, smallDrawn);
        loadedNumbers := [tiles];
      }
      numbers := loadedNumbers;
    }

    method Reset()
      requires Valid()
      modifies this
      ensures Valid() && target == old(target)
      ensures State() == Moves.Reset(old(State()))
    {
      numbers := [numbers[0]];
      operations := [];
    }

    /** Drops the last snapshot and description when there is more than one
        snapshot; otherwise does nothing. */
    method Undo()
      requires Valid()
      modifies this
      ensures Valid() && target == old(target)
      ensures State() == Moves.Undo(old(State()))
    {
      if |numbers| > 1 {
        numbers := numbers[..|numbers| - 1];
        operations := if operations == [] then [] else operations[..|operations| - 1];
      }
    }

    /** Appends one snapshot and its description. */
    method Push(next: seq<int>, text: string)
      modifies this
      ensures State() == History(old(numbers) + [next], old(operations) + [text])
      ensures target == old(target)
    {
      numbers := numbers + [next];
      operations := operations + [text];
    }

    /** `add(...addends)`, or with no arguments the selected values. */
    method Add(addends: seq<int>, checked: seq<int>)
      requires Valid()
      modifies this
      ensures State() == Perform(old(State()), Op.Add(if addends == [] then Selected(checked) else addends))
      ensures Valid() && target == old(target)
    {
      var xs := if addends == [] then Selected(checked) else addends;
      var work := numbers[|numbers| - 1];
      AddGuard(State(), xs);
      ghost var after := Perform(State(), Op.Add(xs));
      OperationsKeepConsistent(State(), Op.Add(xs));
      if AllIncluded(xs, work) && Additive(xs) {
        var sum, rest := SumAndTake(work, xs);
        var next := SortDesc(rest + [sum]);
        var text := Join(xs, " + ") + " = " + IntToString(sum);
        AddStep(State(), xs, rest, sum, text);
        Push(next, text);
      }
      assert State() == after;
    }

    /** `subtract(minuend, subtrahend)`, or when either is missing the
        first two selected values. */
    method Subtract(minuend: Option<int>, subtrahend: Option<int>, checked: seq<int>)
      requires Valid()
      modifies this
      ensures var pair := Arguments(minuend, subtrahend, checked);
              State() == if pair.None? then old(State())
                         else Perform(old(State()), Op.Subtract(pair.value.0, pair.value.1))
      ensures Valid() && target == old(target)
    {
      var pair := Arguments(minuend, subtrahend, checked);
      if pair.Some? {
        var (m, s) := pair.value;
        var work := numbers[|numbers| - 1];
        SubtractGuard(State(), m, s);
        ghost var after := Perform(State(), Op.Subtract(m, s));
        OperationsKeepConsistent(State(), Op.Subtract(m, s));
        if m in work && s in work && Subtractive([m, s]) {
          var difference := m - s;
          var rest := Take(Take(work, m), s);
          var next := SortDesc(rest + [difference]);
          var text := IntToString(m) + " \U{2212} " + IntToString(s) + " = " + IntToString(difference);
          SubtractStep(State(), m, s, rest, text);
          Push(next, text);
        }
        assert State() == after;
      }
    }

    /** `multiply(...factors)`, or with no arguments the selected values. */
    method Multiply(factors: seq<int>, checked: seq<int>)
      requires Valid()
      modifies this
      ensures State() == Perform(old(State()), Op.Multiply(if factors == [] then Selected(checked) else factors))
      ensures Valid() && target == old(target)
    {
      var xs := if factors == [] then Selected(checked) else factors;
      var work := numbers[|numbers| - 1];
      MultiplyGuard(State(), xs);
      ghost var after := Perform(State(), Op.Multiply(xs));
      OperationsKeepConsistent(State(), Op.Multiply(xs));
      if AllIncluded(xs, work) && Multiplicative(xs) {
        var product, rest := ProductAndTake(work, xs);
        var next := SortDesc(rest + [product]);
        var text := Join(xs, " \U{00d7} ") + " = " + IntToString(product);
        MultiplyStep(State(), xs, rest, product, text);
        Push(next, text);
      }
      assert State() == after;
    }

    /** `divide(dividend, divisor)`, or when either is missing the first
        two selected values. */
    method Divide(dividend: Option<int>, divisor: Option<int>, checked: seq<int>)
      requires Valid()
      modifies this
      ensures var pair := Arguments(dividend, divisor, checked);
              State() == if pair.None? then old(State())
                         else Perform(old(State()), Op.Divide(pair.value.0, pair.value.1))
      ensures Valid() && target == old(target)
    {
      var pair := Arguments(dividend, divisor, checked);
      if pair.Some? {
        var (a, b) := pair.value;
        var work := numbers[|numbers| - 1];
        DivideGuard(State(), a, b);
        ghost var after := Perform(State(), Op.Divide(a, b));
        OperationsKeepConsistent(State(), Op.Divide(a, b));
        if a in work && b in work && Divisible([a, b]) {
          var quotient := a / b;
          var rest := Take(Take(work, a), b);
          var next := SortDesc(rest + [quotient]);
          var text := IntToString(a) + " \U{00f7} " + IntToString(b) + " = " + IntToString(quotient);
          DivideStep(State(), a, b, rest, text);
          Push(next, text);
        }
        assert State() == after;
      }
    }
  }

  /** The two operands subtract and divide work on: the arguments when both
      are given, otherwise the first two selected values; `None` when one
      of them is still `undefined`, which no snapshot includes. */
  function Arguments(first: Option<int>, second: Option<int>, checked: seq<int>): (p: Option<(int, int)>)
    ensures first.Some? && second.Some? ==> p == Some((first.value, second.value))
    ensures !(first.Some? && second.Some?) ==> p == Pair(Selected(checked))
  {
    if first.Some? && second.Some? then Some((first.value, second.value)) else Pair(Selected(checked))
  }
}
