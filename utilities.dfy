/** The operator-legality predicates of utilities.ts. They look at the
    selected operand values only (not at the operand pool), keep no state,
    and both enable the operator buttons and guard the engine's moves. */
module Utilities {
  import opened JsArrays

  /** The sort comparator `(x, y) => y - x`: negative exactly when `x`
      must come first, so sorting with it puts larger values first. */
  function SortIntReverse(x: int, y: int): (r: int)
    ensures r < 0 <==> x > y
    ensures r == 0 <==> x == y
  {
    y - x
  }

  /** A sequence is descending exactly when the comparator puts no pair of
      it out of order. */
  lemma DescendingByComparator(xs: seq<int>)
    ensures Descending(xs) <==> forall i, j :: 0 <= i < j < |xs| ==> SortIntReverse(xs[i], xs[j]) <= 0
  {
  }

  predicate Additive(numbers: seq<int>) {
    |numbers| > 1
  }

  predicate Subtractive(numbers: seq<int>) {
    |numbers| == 2 && numbers[0] > numbers[1]
  }

  predicate Multiplicative(numbers: seq<int>) {
    |numbers| > 1
  }

  /** `numbers[0] % numbers[1] === 0`; a zero divisor yields NaN, which is
      never `=== 0`. */
  predicate Divisible(numbers: seq<int>) {
    |numbers| == 2 && numbers[1] != 0 && JsRem(numbers[0], numbers[1]) == 0
  }

  function Abs(x: int): nat {
    if x < 0 then -x else x
  }

  /** JavaScript's `%` on integers: it truncates, so the remainder carries
      the dividend's sign and is smaller than the divisor in magnitude. */
  function JsRem(a: int, b: int): (r: int)
    requires b != 0
    ensures Abs(r) < Abs(b)
    ensures a >= 0 ==> r >= 0
    ensures a < 0 ==> r <= 0
    ensures (a - r) % b == 0
  {
    var m := Abs(a) % Abs(b);
    RemainderStep(a, b, m);
    if a < 0 then -m else m
  }

  lemma RemainderStep(a: int, b: int, m: int)
    requires b != 0 && m == Abs(a) % Abs(b)
    ensures a >= 0 ==> (a - m) % b == 0
    ensures a < 0 ==> (a + m) % b == 0
  {
    var q := Abs(a) / Abs(b);
    assert Abs(a) == q * Abs(b) + m;
    var k := if (a >= 0) == (b > 0) then q else -q;
    if a >= 0 {
      assert a - m == q * Abs(b);
      assert a - m == k * b;
      MultipleMod(k, b);
    } else {
      assert a + m == -(q * Abs(b));
      assert a + m == k * b;
      MultipleMod(k, b);
    }
  }

  lemma MultipleMod(k: int, b: int)
    requires b != 0
    ensures (k * b) % b == 0
  {
    var q, r := (k * b) / b, (k * b) % b;
    assert k * b == q * b + r;
    assert (k - q) * b == k * b - q * b;
    if k != q {
      AbsProduct(k - q, b);
    }
  }

  /** The truncated remainder is zero exactly when the divisor divides the
      dividend, so `Divisible` means an exact integer quotient. */
  lemma DivisibleIffExactQuotient(a: int, b: int)
    ensures Divisible([a, b]) <==> b != 0 && a == (a / b) * b
  {
    if b != 0 {
      assert a == (a / b) * b + a % b;
      if a % b == 0 {
        ExactHasNoRemainder(a, b);
      }
    }
  }

  /** An exact quotient leaves no truncated remainder. */
  lemma ExactHasNoRemainder(a: int, b: int)
    requires b != 0 && a % b == 0
    ensures JsRem(a, b) == 0
  {
    var r := JsRem(a, b);
    if r != 0 {
      MultipleDifference(a, r, b);
    }
  }

  lemma MultipleDifference(a: int, r: int, b: int)
    requires b != 0 && a % b == 0 && (a - r) % b == 0
    requires Abs(r) < Abs(b)
    ensures r == 0
  {
    var q1 := a / b;
    var q2 := (a - r) / b;
    assert a == q1 * b;
    assert a - r == q2 * b;
    assert r == (q1 - q2) * b;
    if q1 - q2 != 0 {
      AbsProduct(q1 - q2, b);
    }
  }

  lemma AbsProduct(k: int, b: int)
    requires k != 0 && b != 0
    ensures Abs(k * b) >= Abs(b)
  {
    if k > 0 {
      if b > 0 { assert k * b >= b; } else { assert k * b <= b; }
    } else {
      if b > 0 { assert k * b <= -b; } else { assert k * b >= -b; }
    }
  }

  /** Two equal values are never subtractable, and on a descending
      selection subtraction needs exactly two distinct values. */
  lemma SubtractiveOnDescending(numbers: seq<int>)
    requires Descending(numbers)
    ensures Subtractive(numbers) <==> |numbers| == 2 && numbers[0] != numbers[1]
  {
  }

  /** The guards read only the length and the first two values. */
  lemma GuardsReadLeadingPair(xs: seq<int>, ys: seq<int>)
    requires |xs| == |ys|
    requires |xs| >= 2 ==> xs[0] == ys[0] && xs[1] == ys[1]
    ensures Additive(xs) == Additive(ys) && Multiplicative(xs) == Multiplicative(ys)
    ensures Subtractive(xs) == Subtractive(ys) && Divisible(xs) == Divisible(ys)
  {
  }
}
