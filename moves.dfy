/** What an arithmetic operation does to a round: the guard that admits it,
    the snapshot it produces, the description it records, and the history of
    snapshots and descriptions that `undo` and `reset` walk back. The newer
    ArithmeticRound and the older CountdownRound share these semantics. */
module Moves {
  import opened Wrappers
  import opened Folds
  import opened JsArrays
  import opened Utilities
  import opened Text

  /** `xs.splice(xs.indexOf(v), 1)` on a working copy. When `v` does not
      occur, `indexOf` gives -1 and the splice removes the last element. */
  function Take(xs: seq<int>, v: int): seq<int> {
    SpliceOne(xs, IndexOf(xs, v))
  }

  lemma TakePresent(xs: seq<int>, v: int)
    requires v in xs
    ensures multiset(Take(xs, v)) == multiset(xs) - multiset{v}
    ensures |Take(xs, v)| == |xs| - 1
  {
    SpliceOneAt(xs, IndexOf(xs, v));
  }

  lemma TakeAbsent(xs: seq<int>, v: int)
    requires v !in xs
    ensures Take(xs, v) == if xs == [] then [] else xs[..|xs| - 1]
  {
    SpliceOneMinusOne(xs);
  }

  /** Whatever `v` is, one element goes (when there is one) and nothing
      is added. */
  lemma TakeShrinks(xs: seq<int>, v: int)
    ensures multiset(Take(xs, v)) <= multiset(xs)
    ensures |Take(xs, v)| == if xs == [] then 0 else |xs| - 1
  {
    if v in xs {
      TakePresent(xs, v);
    } else {
      TakeAbsent(xs, v);
      if xs != [] {
        assert xs == xs[..|xs| - 1] + [xs[|xs| - 1]];
      }
    }
  }

  /** Removing each of `vs` in turn, as the `add` and `multiply` loops do. */
  function TakeAll(xs: seq<int>, vs: seq<int>): seq<int>
    decreases |vs|
  {
    if vs == [] then xs else Take(TakeAll(xs, vs[..|vs| - 1]), vs[|vs| - 1])
  }

  lemma TakeAllPair(xs: seq<int>, a: int, b: int)
    ensures TakeAll(xs, [a, b]) == Take(Take(xs, a), b)
  {
    assert [a, b][..1] == [a];
    assert [a][..0] == [];
    assert TakeAll(xs, [a]) == Take(xs, a);
  }

  /** When the selection is a sub-multiset of the snapshot, exactly the
      selected tiles are removed. */
  lemma {:induction false} TakeAllConserves(xs: seq<int>, vs: seq<int>)
    requires multiset(vs) <= multiset(xs)
    ensures multiset(TakeAll(xs, vs)) == multiset(xs) - multiset(vs)
    ensures |TakeAll(xs, vs)| == |xs| - |vs|
    decreases |vs|
  {
    if vs != [] {
      var init, last := vs[..|vs| - 1], vs[|vs| - 1];
      assert vs == init + [last];
      assert multiset(vs) == multiset(init) + multiset{last};
      TakeAllConserves(xs, init);
      var r := TakeAll(xs, init);
      assert multiset(r)[last] == multiset(xs)[last] - multiset(init)[last] >= 1;
      TakePresent(r, last);
    }
  }

  /** In every case the loop removes one element per selected value, until
      the copy is empty, and never adds one. */
  lemma {:induction false} TakeAllShrinks(xs: seq<int>, vs: seq<int>)
    ensures multiset(TakeAll(xs, vs)) <= multiset(xs)
    ensures |TakeAll(xs, vs)| == if |vs| <= |xs| then |xs| - |vs| else 0
    decreases |vs|
  {
    if vs != [] {
      TakeAllShrinks(xs, vs[..|vs| - 1]);
      TakeShrinks(TakeAll(xs, vs[..|vs| - 1]), vs[|vs| - 1]);
    }
  }

  datatype Op =
    | Add(addends: seq<int>)
    | Subtract(minuend: int, subtrahend: int)
    | Multiply(factors: seq<int>)
    | Divide(dividend: int, divisor: int)

  /** The selected values, in the order the operation splices them out. */
  function Operands(op: Op): seq<int> {
    match op
    case Add(xs) => xs
    case Subtract(m, s) => [m, s]
    case Multiply(xs) => xs
    case Divide(a, b) => [a, b]
  }

  /** `vs.every(v => snapshot.includes(v))`. */
  predicate AllIncluded(vs: seq<int>, snapshot: seq<int>) {
    forall v :: v in vs ==> v in snapshot
  }

  /** The guard of each operation: every selected value occurs in the
      snapshot (`includes`, checked per value, not per tile) and the
      operator's validity predicate holds. */
  predicate Legal(op: Op, snapshot: seq<int>) {
    AllIncluded(Operands(op), snapshot) &&
    match op
    case Add(xs) => Additive(xs)
    case Subtract(m, s) => Subtractive([m, s])
    case Multiply(xs) => Multiplicative(xs)
    case Divide(a, b) => Divisible([a, b])
  }

  /** The value pushed onto the working copy: sum, difference, product or
      quotient. */
  function Produced(op: Op): int
    requires op.Divide? ==> op.divisor != 0
  {
    match op
    case Add(xs) => Sum(xs)
    case Subtract(m, s) => m - s
    case Multiply(xs) => Product(xs)
    case Divide(a, b) => a / b
  }

  /** A legal division is exact, so the integer quotient is the value the
      real division `dividend / divisor` gives. */
  lemma DivideIsExact(a: int, b: int, snapshot: seq<int>)
    requires Legal(Divide(a, b), snapshot)
    ensures Produced(Divide(a, b)) as real == a as real / b as real
  {
    DivisibleIffExactQuotient(a, b);
    var q := a / b;
    assert a as real == q as real * b as real;
  }

  /** The text recorded for an operation: "a + b = s", "m − s = d",
      "a × b = p" or "a ÷ b = q". */
  function Description(op: Op): (d: string)
    requires op.Divide? ==> op.divisor != 0
    ensures d != []
  {
    match op
    case Add(xs) => Join(xs, " + ") + " = " + IntToString(Produced(op))
    case Subtract(m, s) =>
      IntToString(m) + " \U{2212} " + IntToString(s) + " = " + IntToString(Produced(op))
    case Multiply(xs) => Join(xs, " \U{00d7} ") + " = " + IntToString(Produced(op))
    case Divide(a, b) =>
      IntToString(a) + " \U{00f7} " + IntToString(b) + " = " + IntToString(Produced(op))
  }

  /** The snapshot an operation appends when legal: the working copy with the
      selection spliced out and the result pushed, sorted descending. */
  function Outcome(op: Op, snapshot: seq<int>): (next: seq<int>)
    requires op.Divide? ==> op.divisor != 0
  {
    SortDesc(TakeAll(snapshot, Operands(op)) + [Produced(op)])
  }

  /** Operand conservation: when the selection is a sub-multiset of the
      snapshot, the selected tiles are replaced by the single result. */
  lemma MoveConserves(op: Op, snapshot: seq<int>)
    requires Legal(op, snapshot)
    requires multiset(Operands(op)) <= multiset(snapshot)
    ensures multiset(Outcome(op, snapshot))
         == multiset(snapshot) - multiset(Operands(op)) + multiset{Produced(op)}
    ensures |Outcome(op, snapshot)| == |snapshot| - |Operands(op)| + 1
  {
    TakeAllConserves(snapshot, Operands(op));
  }

  /** Whatever the selection, the next snapshot has one tile more than
      what the splices leave, and holds only old tiles and the result. */
  lemma MoveShape(op: Op, snapshot: seq<int>)
    requires Legal(op, snapshot)
    ensures |Outcome(op, snapshot)|
         == (if |Operands(op)| <= |snapshot| then |snapshot| - |Operands(op)| else 0) + 1
    ensures multiset(Outcome(op, snapshot)) <= multiset(snapshot) + multiset{Produced(op)}
    ensures Produced(op) in Outcome(op, snapshot)
  {
    TakeAllShrinks(snapshot, Operands(op));
    var next := Outcome(op, snapshot);
    assert Produced(op) in multiset(next);
  }

  /** A subtraction names two different values, so its selection is always
      a sub-multiset of the snapshot; a division does too unless it divides
      a value by itself. */
  lemma PairSelectionFits(op: Op, snapshot: seq<int>)
    requires Legal(op, snapshot)
    requires op.Subtract? || (op.Divide? && op.dividend != op.divisor)
    ensures multiset(Operands(op)) <= multiset(snapshot)
  {
    var a, b := Operands(op)[0], Operands(op)[1];
    assert a in snapshot && b in snapshot && a != b;
    assert multiset(Operands(op)) == multiset{a} + multiset{b};
    assert a in multiset(snapshot) && b in multiset(snapshot);
  }

  /** The `includes` guard admits selections that repeat a value more often
      than it occurs; the missing copy is then taken from the end of the
      snapshot: adding 5 and 5 on [5, 3] uses up the 3, and dividing 5 by 5
      on [7, 5] uses up the 7. */
  lemma RepeatedValueHazard()
    ensures Legal(Add([5, 5]), [5, 3]) && Outcome(Add([5, 5]), [5, 3]) == [10]
    ensures Legal(Divide(5, 5), [7, 5]) && Outcome(Divide(5, 5), [7, 5]) == [1]
  {
    RepeatedAddend();
    RepeatedDivisor();
  }

  lemma RepeatedAddend()
    ensures Legal(Add([5, 5]), [5, 3])
    ensures TakeAll([5, 3], [5, 5]) == []
    ensures Outcome(Add([5, 5]), [5, 3]) == [10]
  {
    TakeFirstThenLast(5, 3);
    assert Sum([5, 5]) == 10 by {
      assert [5, 5][..1] == [5];
      assert [5][..0] == [];
    }
    SortDescFixesDescending([10]);
  }

  lemma RepeatedDivisor()
    ensures Legal(Divide(5, 5), [7, 5])
    ensures TakeAll([7, 5], [5, 5]) == []
    ensures Outcome(Divide(5, 5), [7, 5]) == [1]
  {
    TakeLastThenFirst(7, 5);
    DivisibleIffExactQuotient(5, 5);
    SortDescFixesDescending([1]);
  }

  /** Removing `v` twice from `[v, w]` (`w != v`) removes both tiles. */
  lemma TakeFirstThenLast(v: int, w: int)
    requires v != w
    ensures TakeAll([v, w], [v, v]) == []
  {
    TakeAllPair([v, w], v, v);
    assert IndexOf([v, w], v) == 0;
    assert Take([v, w], v) == [w];
    assert IndexOf([w], v) == -1;
    TakeAbsent([w], v);
  }

  /** Removing `v` twice from `[w, v]` (`w != v`) removes both tiles. */
  lemma TakeLastThenFirst(w: int, v: int)
    requires v != w
    ensures TakeAll([w, v], [v, v]) == []
  {
    TakeAllPair([w, v], v, v);
    assert IndexOf([w, v], v) == 1;
    assert Take([w, v], v) == [w];
    assert IndexOf([w], v) == -1;
    TakeAbsent([w], v);
  }

  /** Positive tiles stay positive: differences are positive because the
      minuend is larger, quotients because the division is exact. */
  lemma MovesKeepPositive(op: Op, snapshot: seq<int>)
    requires Legal(op, snapshot)
    requires forall i :: 0 <= i < |snapshot| ==> snapshot[i] > 0
    ensures forall i :: 0 <= i < |Outcome(op, snapshot)| ==> Outcome(op, snapshot)[i] > 0
  {
    ProducedPositive(op, snapshot);
    MoveShape(op, snapshot);
    var next := Outcome(op, snapshot);
    forall i | 0 <= i < |next| ensures next[i] > 0 {
      assert next[i] in multiset(snapshot) + multiset{Produced(op)};
      if next[i] != Produced(op) {
        assert next[i] in multiset(snapshot);
        var j :| 0 <= j < |snapshot| && snapshot[j] == next[i];
      }
    }
  }

  lemma ProducedPositive(op: Op, snapshot: seq<int>)
    requires Legal(op, snapshot)
    requires forall i :: 0 <= i < |snapshot| ==> snapshot[i] > 0
    ensures Produced(op) > 0
  {
    SelectionPositive(Operands(op), snapshot);
    match op
    case Add(xs) => PositiveFolds(xs);
    case Multiply(xs) => PositiveFolds(xs);
    case Subtract(m, s) =>
    case Divide(a, b) =>
      assert b > 0 && a > 0 by { assert Operands(op)[0] == a && Operands(op)[1] == b; }
      DivisibleIffExactQuotient(a, b);
      QuotientPositive(a, b);
  }

  lemma QuotientPositive(a: int, b: int)
    requires a > 0 && b > 0 && a == (a / b) * b
    ensures a / b > 0
  {
  }

  lemma SelectionPositive(xs: seq<int>, snapshot: seq<int>)
    requires AllIncluded(xs, snapshot)
    requires forall i :: 0 <= i < |snapshot| ==> snapshot[i] > 0
    ensures forall i :: 0 <= i < |xs| ==> xs[i] > 0
  {
    forall i | 0 <= i < |xs| ensures xs[i] > 0 {
      assert xs[i] in xs;
      var j :| 0 <= j < |snapshot| && snapshot[j] == xs[i];
    }
  }

  /** The round's state: the operand snapshots, oldest first, and one
      description per operation performed. */
  datatype History = History(operands: seq<seq<int>>, operations: seq<string>)

  /** `|operands| = |operations| + 1`: the invariant every operation keeps. */
  predicate Consistent(h: History) {
    |h.operands| == |h.operations| + 1
  }

  function Current(h: History): seq<int>
    requires h.operands != []
  {
    h.operands[|h.operands| - 1]
  }

  /** `solved`: the target is among the current tiles. */
  predicate Solved(target: int, h: History)
    requires h.operands != []
  {
    target in Current(h)
  }

  /** An operation on the history: appends one snapshot and one
      description when legal, changes nothing otherwise. */
  function Perform(h: History, op: Op): History
    requires h.operands != []
  {
    if Legal(op, Current(h)) then
      History(h.operands + [Outcome(op, Current(h))], h.operations + [Description(op)])
    else
      h
  }

  /** `undo`: drops the last snapshot and the last description, unless only
      the first snapshot is left. */
  function Undo(h: History): History {
    if |h.operands| > 1 then
      History(h.operands[..|h.operands| - 1],
              if h.operations == [] then [] else h.operations[..|h.operations| - 1])
    else
      h
  }

  /** `reset`: back to the first snapshot with no operations. */
  function Reset(h: History): History
    requires h.operands != []
  {
    History([h.operands[0]], [])
  }

  lemma OperationsKeepConsistent(h: History, op: Op)
    requires Consistent(h)
    ensures Consistent(Perform(h, op))
    ensures Consistent(Undo(h))
    ensures Consistent(Reset(h))
    ensures Perform(h, op).operands[0] == Undo(h).operands[0] == h.operands[0]
  {
  }

  /** Undo right after a successful operation restores the state before it. */
  lemma UndoInvertsPerform(h: History, op: Op)
    requires h.operands != []
    requires Legal(op, Current(h))
    ensures Undo(Perform(h, op)) == h
  {
    var p := Perform(h, op);
    assert p.operands[..|p.operands| - 1] == h.operands;
    assert p.operations[..|p.operations| - 1] == h.operations;
  }

  /** Undo on a history with only its first snapshot changes nothing; a
      reset history is one. */
  lemma UndoAfterReset(h: History)
    requires h.operands != []
    ensures Undo(Reset(h)) == Reset(h)
  {
  }

  lemma ResetIdempotent(h: History)
    requires h.operands != []
    ensures Reset(Reset(h)) == Reset(h)
  {
  }

  /** Applies a sequence of operations in order. */
  function PerformAll(h: History, ops: seq<Op>): (r: History)
    requires h.operands != []
    ensures r.operands != [] && r.operands[0] == h.operands[0]
    ensures Consistent(h) ==> Consistent(r)
    decreases |ops|
  {
    if ops == [] then h else Perform(PerformAll(h, ops[..|ops| - 1]), ops[|ops| - 1])
  }

  /** Reset discards every operation performed since the round began. */
  lemma ResetDiscardsMoves(h: History, ops: seq<Op>)
    requires h.operands != []
    ensures Reset(PerformAll(h, ops)) == Reset(h)
  {
  }

  /** A legal operation whose result is the target solves the round. */
  lemma ReachingTargetSolves(h: History, op: Op, target: int)
    requires h.operands != []
    requires Legal(op, Current(h))
    requires Produced(op) == target
    ensures Solved(target, Perform(h, op))
  {
    MoveShape(op, Current(h));
  }

  // The four operations as the engines' methods compute them: the guard
  // each tests, and the snapshot and description each appends.

  /** Equal arguments sort alike; stated apart so that the sorted
      results are compared by congruence alone. */
  lemma SortedAlike(a: seq<int>, b: seq<int>)
    requires a == b
    ensures SortDesc(a) == SortDesc(b)
  {
  }

  lemma AddGuard(h: History, addends: seq<int>)
    requires h.operands != []
    ensures Legal(Op.Add(addends), Current(h)) == (AllIncluded(addends, Current(h)) && Additive(addends))
    ensures !Legal(Op.Add(addends), Current(h)) ==> Perform(h, Op.Add(addends)) == h
  {
  }

  lemma AddStep(h: History, addends: seq<int>, rest: seq<int>, sum: int, text: string)
    requires h.operands != [] && Legal(Op.Add(addends), Current(h))
    requires rest == TakeAll(Current(h), addends) && sum == Folds.Sum(addends)
    requires text == Join(addends, " + ") + " = " + IntToString(sum)
    ensures Perform(h, Op.Add(addends)) == History(h.operands + [SortDesc(rest + [sum])], h.operations + [text])
  {
    SortedAlike(TakeAll(Current(h), addends) + [Folds.Sum(addends)], rest + [sum]);
  }

  lemma SubtractGuard(h: History, minuend: int, subtrahend: int)
    requires h.operands != []
    ensures Legal(Op.Subtract(minuend, subtrahend), Current(h)) ==
            (minuend in Current(h) && subtrahend in Current(h) && Subtractive([minuend, subtrahend]))
    ensures !Legal(Op.Subtract(minuend, subtrahend), Current(h)) ==> Perform(h, Op.Subtract(minuend, subtrahend)) == h
  {
    assert Operands(Op.Subtract(minuend, subtrahend)) == [minuend, subtrahend];
  }

  lemma SubtractStep(h: History, minuend: int, subtrahend: int, rest: seq<int>, text: string)
    requires h.operands != [] && Legal(Op.Subtract(minuend, subtrahend), Current(h))
    requires rest == Take(Take(Current(h), minuend), subtrahend)
    requires text == IntToString(minuend) + " \U{2212} " + IntToString(subtrahend) + " = " + IntToString(minuend - subtrahend)
    ensures Perform(h, Op.Subtract(minuend, subtrahend)) == History(h.operands + [SortDesc(rest + [minuend - subtrahend])], h.operations + [text])
  {
    SubtractOutcome(Current(h), minuend, subtrahend);
    SortedAlike(Take(Take(Current(h), minuend), subtrahend) + [minuend - subtrahend], rest + [minuend - subtrahend]);
    SubtractDescription(minuend, subtrahend);
  }

  lemma SubtractOutcome(work: seq<int>, minuend: int, subtrahend: int)
    ensures Outcome(Op.Subtract(minuend, subtrahend), work) == SortDesc(Take(Take(work, minuend), subtrahend) + [minuend - subtrahend])
  {
    var op := Op.Subtract(minuend, subtrahend);
    assert Operands(op) == [minuend, subtrahend];
    TakeAllPair(work, minuend, subtrahend);
    SortedAlike(TakeAll(work, Operands(op)) + [Produced(op)], Take(Take(work, minuend), subtrahend) + [minuend - subtrahend]);
  }

  lemma SubtractDescription(minuend: int, subtrahend: int)
    ensures Description(Op.Subtract(minuend, subtrahend)) == IntToString(minuend) + " \U{2212} " + IntToString(subtrahend) + " = " + IntToString(minuend - subtrahend)
  {
  }


  lemma MultiplyGuard(h: History, factors: seq<int>)
    requires h.operands != []
    ensures Legal(Op.Multiply(factors), Current(h)) == (AllIncluded(factors, Current(h)) && Multiplicative(factors))
    ensures !Legal(Op.Multiply(factors), Current(h)) ==> Perform(h, Op.Multiply(factors)) == h
  {
  }

  lemma MultiplyStep(h: History, factors: seq<int>, rest: seq<int>, product: int, text: string)
    requires h.operands != [] && Legal(Op.Multiply(factors), Current(h))
    requires rest == TakeAll(Current(h), factors) && product == Folds.Product(factors)
    requires text == Join(factors, " \U{00d7} ") + " = " + IntToString(product)
    ensures Perform(h, Op.Multiply(factors)) == History(h.operands + [SortDesc(rest + [product])], h.operations + [text])
  {
    SortedAlike(TakeAll(Current(h), factors) + [Folds.Product(factors)], rest + [product]);
  }

  lemma DivideGuard(h: History, dividend: int, divisor: int)
    requires h.operands != []
    ensures Legal(Op.Divide(dividend, divisor), Current(h)) ==
            (dividend in Current(h) && divisor in Current(h) && Divisible([dividend, divisor]))
    ensures !Legal(Op.Divide(dividend, divisor), Current(h)) ==> Perform(h, Op.Divide(dividend, divisor)) == h
  {
    assert Operands(Op.Divide(dividend, divisor)) == [dividend, divisor];
  }

  lemma DivideStep(h: History, dividend: int, divisor: int, rest: seq<int>, text: string)
    requires h.operands != [] && Legal(Op.Divide(dividend, divisor), Current(h))
    requires rest == Take(Take(Current(h), dividend), divisor)
    requires text == IntToString(dividend) + " \U{00f7} " + IntToString(divisor) + " = " + IntToString(dividend / divisor)
    ensures Perform(h, Op.Divide(dividend, divisor)) == History(h.operands + [SortDesc(rest + [dividend / divisor])], h.operations + [text])
  {
    DivideOutcome(Current(h), dividend, divisor);
    SortedAlike(Take(Take(Current(h), dividend), divisor) + [dividend / divisor], rest + [dividend / divisor]);
    DivideDescription(dividend, divisor);
  }

  lemma DivideOutcome(work: seq<int>, dividend: int, divisor: int)
    requires divisor != 0
    ensures Outcome(Op.Divide(dividend, divisor), work) == SortDesc(Take(Take(work, dividend), divisor) + [dividend / divisor])
  {
    var op := Op.Divide(dividend, divisor);
    assert Operands(op) == [dividend, divisor];
    TakeAllPair(work, dividend, divisor);
    SortedAlike(TakeAll(work, Operands(op)) + [Produced(op)], Take(Take(work, dividend), divisor) + [dividend / divisor]);
  }

  lemma DivideDescription(dividend: int, divisor: int)
    requires divisor != 0
    ensures Description(Op.Divide(dividend, divisor)) == IntToString(dividend) + " \U{00f7} " + IntToString(divisor) + " = " + IntToString(dividend / divisor)
  {
  }


  /** `selectedOperands`: the values of the checked tiles, sorted
      descending. */
  function Selected(checked: seq<int>): (s: seq<int>)
    ensures Descending(s) && multiset(s) == multiset(checked)
  {
    SortDesc(checked)
  }

  /** The pair `const [a, b] = selected` hands to subtract or divide; with
      fewer than two values one of them is `undefined`, which no snapshot
      includes. */
  function Pair(selected: seq<int>): (p: Option<(int, int)>)
    ensures p.Some? <==> |selected| >= 2
    ensures p.Some? ==> p.value == (selected[0], selected[1])
  {
    if |selected| >= 2 then Some((selected[0], selected[1])) else None
  }

  /** The `add` loop: accumulates the sum while splicing each addend out of
      the working copy. */
  method SumAndTake(work: seq<int>, addends: seq<int>) returns (sum: int, rest: seq<int>)
    ensures sum == Sum(addends)
    ensures rest == TakeAll(work, addends)
  {
    sum, rest := 0, work;
    for i := 0 to |addends|
      invariant sum == Sum(addends[..i])
      invariant rest == TakeAll(work, addends[..i])
    {
      assert addends[..i + 1][..i] == addends[..i];
      sum := sum + addends[i];
      rest := SpliceOne(rest, IndexOf(rest, addends[i]));
    }
    assert addends[..|addends|] == addends;
  }

  /** The `multiply` loop: accumulates the product while splicing each
      factor out of the working copy. */
  method ProductAndTake(work: seq<int>, factors: seq<int>) returns (product: int, rest: seq<int>)
    ensures product == Product(factors)
    ensures rest == TakeAll(work, factors)
  {
    product, rest := 1, work;
    for i := 0 to |factors|
      invariant product == Product(factors[..i])
      invariant rest == TakeAll(work, factors[..i])
    {
      assert factors[..i + 1][..i] == factors[..i];
      product := product * factors[i];
      rest := SpliceOne(rest, IndexOf(rest, factors[i]));
    }
    assert factors[..|factors|] == factors;
  }
}
