/** The game bookkeeping around the seeded rounds (ArithmeticGame): one
    record per round played, whose `solved` flag follows the current round,
    and the win and round counts shown from them. Records are kept as the
    parsed values they are saved and restored as. */
module Game {
  import opened Wrappers
  import opened JsArrays
  import opened Utilities
  import opened Stored
  import opened Moves
  import Round
  import Prng

  /** The record `{}` a new round starts with. */
  const EmptyRecord: Value := Object(map[])

  /** `r.solved` read for its truthiness, as `filter(r => r.solved)` does.
      Only an object can carry the flag. */
  predicate IsSolved(r: Value) {
    r.Object? && "solved" in r.fields && Truthy(r.fields["solved"])
  }

  /** `r.solved = true` or `delete r.solved` on one record. */
  function SetSolved(r: Value, solved: bool): (s: Value)
    ensures r.Object? ==> s.Object? && IsSolved(s) == solved
    ensures r.Object? ==> forall k :: k != "solved" ==> (k in s.fields <==> k in r.fields)
    ensures r.Object? ==> forall k :: k != "solved" && k in r.fields ==> s.fields[k] == r.fields[k]
    ensures !r.Object? ==> s == r
  {
    match r
    case Object(f) => if solved then Object(f["solved" := Bool(true)]) else Object(f - {"solved"})
    case _ => r
  }

  /** `sync`: the last record's flag follows the current round; no other
      record is touched. */
  function Sync(rounds: seq<Value>, solved: bool): (r: seq<Value>)
    requires rounds != []
    ensures |r| == |rounds|
    ensures r[..|r| - 1] == rounds[..|rounds| - 1]
    ensures rounds[|rounds| - 1].Object? ==> IsSolved(r[|r| - 1]) == solved
  {
    rounds[..|rounds| - 1] + [SetSolved(rounds[|rounds| - 1], solved)]
  }

  /** The win count shown: `rounds.filter(r => r.solved).length`. */
  function Wins(rounds: seq<Value>): (w: nat)
    decreases |rounds|
  {
    if rounds == [] then 0
    else Wins(rounds[..|rounds| - 1]) + (if IsSolved(rounds[|rounds| - 1]) then 1 else 0)
  }

  /** There are never more wins than rounds. */
  lemma {:induction false} WinsAtMostRounds(rounds: seq<Value>)
    ensures Wins(rounds) <= |rounds|
    decreases |rounds|
  {
    if rounds != [] {
      WinsAtMostRounds(rounds[..|rounds| - 1]);
    }
  }

  /** The win count counts exactly the records whose flag is set. */
  lemma {:induction false} WinsCountsSolved(rounds: seq<Value>)
    ensures Wins(rounds) == |set i | 0 <= i < |rounds| && IsSolved(rounds[i])|
    decreases |rounds|
  {
    if rounds != [] {
      var n := |rounds| - 1;
      var init := rounds[..n];
      WinsCountsSolved(init);
      var before := set i | 0 <= i < n && IsSolved(init[i]);
      var after := set i | 0 <= i < |rounds| && IsSolved(rounds[i]);
      assert before == set i | 0 <= i < n && IsSolved(rounds[i]);
      if IsSolved(rounds[n]) {
        assert after == before + {n};
      } else {
        assert after == before;
      }
    }
  }

  /** Syncing twice with the same outcome is syncing once. */
  lemma SyncIdempotent(rounds: seq<Value>, solved: bool)
    requires rounds != []
    ensures Sync(Sync(rounds, solved), solved) == Sync(rounds, solved)
  {
    var r := Sync(rounds, solved);
    var n := |rounds| - 1;
    assert r[n] == SetSolved(rounds[n], solved);
    assert SetSolved(r[n], solved) == r[n] by {
      if rounds[n].Object? {
        var f := rounds[n].fields;
        if solved {
          assert f["solved" := Bool(true)]["solved" := Bool(true)] == f["solved" := Bool(true)];
        } else {
          assert (f - {"solved"}) - {"solved"} == f - {"solved"};
        }
      }
    }
  }

  /** After a sync the wins are those of the earlier rounds plus one when
      the current round is solved. */
  lemma SyncWins(rounds: seq<Value>, solved: bool)
    requires rounds != [] && rounds[|rounds| - 1].Object?
    ensures Wins(Sync(rounds, solved)) == Wins(rounds[..|rounds| - 1]) + (if solved then 1 else 0)
  {
    var r := Sync(rounds, solved);
    assert r[..|r| - 1] == rounds[..|rounds| - 1];
  }

  /** `rounds.push({})`: one more round, no more wins. */
  lemma PushKeepsWins(rounds: seq<Value>)
    ensures Wins(rounds + [EmptyRecord]) == Wins(rounds)
    ensures |rounds + [EmptyRecord]| == |rounds| + 1
  {
    assert (rounds + [EmptyRecord])[..|rounds|] == rounds;
  }

  /** The records a game starts from: the saved array when loading is
      asked for and the saved value is an array, `[{}]` when that leaves
      nothing. */
  function LoadedRounds(loadSavedGame: bool, stored: Value): (rounds: seq<Value>)
    ensures rounds != []
    ensures loadSavedGame && stored.Array? && stored.items != [] ==> rounds == stored.items
    ensures !(loadSavedGame && stored.Array? && stored.items != []) ==> rounds == [EmptyRecord]
  {
    var loaded := if loadSavedGame && stored.Array? then stored.items else [];
    if loaded == [] then [EmptyRecord] else loaded
  }

  /** On the sorted selection the pair passed to subtract is the largest
      value and the next one, so subtract applies exactly to two distinct
      values. */
  lemma SelectedPairOrdered(checked: seq<int>)
    requires |checked| >= 2
    ensures var p := Pair(Selected(checked)).value;
            p.0 >= p.1 && (Subtractive(Selected(checked)) <==> |checked| == 2 && p.0 != p.1)
  {
  }

  /** The enabled state of the four operator buttons for a selection. */
  function Enabled(selected: seq<int>): (flags: (bool, bool, bool, bool))
    ensures flags.0 == flags.2
    ensures flags.1 ==> |selected| == 2 && selected[0] > selected[1]
    ensures flags.3 ==> |selected| == 2 && selected[1] != 0
  {
    (Additive(selected), Subtractive(selected), Multiplicative(selected), Divisible(selected))
  }

  class ArithmeticGame {
    const gameId: seq<Prng.CodeUnit>
    var rounds: seq<Value>
    var round: Round.ArithmeticRound

    /** The records and the current round agree: one record per round
        number and the last one synced with the round. */
    predicate Valid()
      reads this, round
    {
      round.Valid() && rounds != [] &&
      round.gameId == gameId && round.roundNumber == |rounds| &&
      Sync(rounds, round.Solved()) == rounds
    }

    /** The displayed counts. */
    function Counts(): (c: (nat, nat))
      reads this
      ensures c.0 <= c.1
    {
      WinsAtMostRounds(rounds);
      (Wins(rounds), |rounds|)
    }

    /** A game that loads asks for the saved round too; one that does not
        pushes a second record before its first round. */
    constructor (gameId: seq<Prng.CodeUnit>, loadSavedGame: bool, storedRounds: Value, savedRound: Round.SavedRound)
      ensures Valid() && fresh(round)
      ensures this.gameId == gameId
      ensures var loaded := LoadedRounds(loadSavedGame, storedRounds);
              var pushed := if loadSavedGame then loaded else loaded + [EmptyRecord];
              rounds == Sync(pushed, round.Solved())
      ensures (round.target, round.State()) == Round.Start(gameId, |rounds|, loadSavedGame, savedRound)
    {
      this.gameId := gameId;
      var loaded := LoadedRounds(loadSavedGame, storedRounds);
      if !loadSavedGame {
        loaded := loaded + [EmptyRecord];
      }
      var r := new Round.ArithmeticRound(gameId, |loaded|, loadSavedGame, savedRound);
      rounds := Sync(loaded, r.Solved());
      round := r;
      new;
      SyncIdempotent(loaded, r.Solved());
    }

    /** `newRound`: a fresh record unless the saved round is asked for,
        then the round numbered by the record count. */
    method NewRound(loadSavedRound: bool, savedRound: Round.SavedRound)
      requires Valid()
      modifies this
      ensures Valid() && fresh(round)
      ensures var pushed := if loadSavedRound then old(rounds) else old(rounds) + [EmptyRecord];
              rounds == Sync(pushed, round.Solved())
      ensures (round.target, round.State()) == Round.Start(gameId, |rounds|, loadSavedRound, savedRound)
    {
      var pushed := rounds;
      if !loadSavedRound {
        pushed := pushed + [EmptyRecord];
      }
      var r := new Round.ArithmeticRound(gameId, |pushed|, loadSavedRound, savedRound);
      rounds := Sync(pushed, r.Solved());
      round := r;
      SyncIdempotent(pushed, r.Solved());
    }

    method Reset()
      requires Valid()
      modifies this, round
      ensures Valid() && round == old(round)
      ensures round.State() == Moves.Reset(old(round.State()))
      ensures rounds == Sync(old(rounds), round.Solved())
    {
      round.Reset();
      rounds := Sync(rounds, round.Solved());
      SyncIdempotent(old(rounds), round.Solved());
    }

    method Undo()
      requires Valid()
      modifies this, round
      ensures Valid() && round == old(round)
      ensures round.State() == Moves.Undo(old(round.State()))
      ensures rounds == if |old(round.operands)| > 1 then Sync(old(rounds), round.Solved()) else old(rounds)
    {
      var ok := round.Undo();
      if ok {
        rounds := Sync(rounds, round.Solved());
        SyncIdempotent(old(rounds), round.Solved());
      }
    }

    method Add(checked: seq<int>) returns (ok: bool)
      requires Valid()
      modifies this, round
      ensures Valid() && round == old(round)
      ensures round.State() == Perform(old(round.State()), Op.Add(Selected(checked)))
      ensures ok == Legal(Op.Add(Selected(checked)), Current(old(round.State())))
      ensures rounds == if ok then Sync(old(rounds), round.Solved()) else old(rounds)
    {
      ok := round.Add(Selected(checked));
      if ok {
        rounds := Sync(rounds, round.Solved());
        SyncIdempotent(old(rounds), round.Solved());
      }
    }

    method Subtract(checked: seq<int>) returns (ok: bool)
      requires Valid()
      modifies this, round
      ensures Valid() && round == old(round)
      ensures Pair(Selected(checked)).None? ==> !ok && round.State() == old(round.State())
      ensures Pair(Selected(checked)).Some? ==>
                var (minuend, subtrahend) := Pair(Selected(checked)).value;
                round.State() == Perform(old(round.State()), Op.Subtract(minuend, subtrahend)) &&
                ok == Legal(Op.Subtract(minuend, subtrahend), Current(old(round.State())))
      ensures rounds == if ok then Sync(old(rounds), round.Solved()) else old(rounds)
    {
      var pair := Pair(Selected(checked));
      if pair.None? {
        ok := false;
      } else {
        ok := round.Subtract(pair.value.0, pair.value.1);
        if ok {
          rounds := Sync(rounds, round.Solved());
          SyncIdempotent(old(rounds), round.Solved());
        }
      }
    }

    method Multiply(checked: seq<int>) returns (ok: bool)
      requires Valid()
      modifies this, round
      ensures Valid() && round == old(round)
      ensures round.State() == Perform(old(round.State()), Op.Multiply(Selected(checked)))
      ensures ok == Legal(Op.Multiply(Selected(checked)), Current(old(round.State())))
      ensures rounds == if ok then Sync(old(rounds), round.Solved()) else old(rounds)
    {
      ok := round.Multiply(Selected(checked));
      if ok {
        rounds := Sync(rounds, round.Solved());
        SyncIdempotent(old(rounds), round.Solved());
      }
    }

    method Divide(checked: seq<int>) returns (ok: bool)
      requires Valid()
      modifies this, round
      ensures Valid() && round == old(round)
      ensures Pair(Selected(checked)).None? ==> !ok && round.State() == old(round.State())
      ensures Pair(Selected(checked)).Some? ==>
                var (dividend, divisor) := Pair(Selected(checked)).value;
                round.State() == Perform(old(round.State()), Op.Divide(dividend, divisor)) &&
                ok == Legal(Op.Divide(dividend, divisor), Current(old(round.State())))
      ensures rounds == if ok then Sync(old(rounds), round.Solved()) else old(rounds)
    {
      var pair := Pair(Selected(checked));
      if pair.None? {
        ok := false;
      } else {
        ok := round.Divide(pair.value.0, pair.value.1);
        if ok {
          rounds := Sync(rounds, round.Solved());
          SyncIdempotent(old(rounds), round.Solved());
        }
      }
    }
  }
}
