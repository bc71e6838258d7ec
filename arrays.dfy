/** The JavaScript array built-ins the engine relies on, over sequences of
    integers: `indexOf`, `splice(start, 1)` and `sort` with the descending
    comparator. */
module JsArrays {
  /** `xs.indexOf(v)`: the first position holding `v`, or -1. */
  function IndexOf(xs: seq<int>, v: int): (i: int)
    ensures -1 <= i < |xs|
    ensures i == -1 <==> v !in xs
    ensures 0 <= i ==> xs[i] == v && v !in xs[..i]
    decreases |xs|
  {
    if xs == [] then -1
    else if xs[0] == v then 0
    else
      var k := IndexOf(xs[1..], v);
      assert k >= 0 ==> xs[..k + 1] == [xs[0]] + xs[1..][..k];
      if k == -1 then -1 else k + 1
  }

  /** `xs.splice(start, 1)` applied to a copy of `xs`: a negative start
      counts back from the end (clamped at 0), a start past the end removes
      nothing. */
  function SpliceOne(xs: seq<int>, start: int): (r: seq<int>)
    ensures 0 <= start < |xs| ==> |r| == |xs| - 1
  {
    var k := if start < 0 then (if |xs| + start < 0 then 0 else |xs| + start)
             else (if start > |xs| then |xs| else start);
    if k < |xs| then xs[..k] + xs[k + 1..] else xs
  }

  /** Splicing out a position removes exactly the element there. */
  lemma SpliceOneAt(xs: seq<int>, k: nat)
    requires k < |xs|
    ensures SpliceOne(xs, k) == xs[..k] + xs[k + 1..]
    ensures |SpliceOne(xs, k)| == |xs| - 1
    ensures multiset(SpliceOne(xs, k)) + multiset{xs[k]} == multiset(xs)
  {
    assert xs == xs[..k] + [xs[k]] + xs[k + 1..];
  }

  /** `splice(-1, 1)` removes the last element of a non-empty array, and
      nothing from an empty one. */
  lemma SpliceOneMinusOne(xs: seq<int>)
    ensures xs != [] ==> SpliceOne(xs, -1) == xs[..|xs| - 1]
    ensures xs == [] ==> SpliceOne(xs, -1) == []
  {
  }

  predicate Descending(xs: seq<int>) {
    forall i, j :: 0 <= i < j < |xs| ==> xs[i] >= xs[j]
  }

  /** Inserts `x` into a descending sequence. */
  function Insert(x: int, s: seq<int>): (r: seq<int>)
    requires Descending(s)
    ensures Descending(r)
    ensures multiset(r) == multiset(s) + multiset{x}
    ensures |r| == |s| + 1
    ensures r[0] == x || (s != [] && r[0] == s[0])
    decreases |s|
  {
    if s == [] || x >= s[0] then
      [x] + s
    else
      var rest := Insert(x, s[1..]);
      InsertBehind(x, s, rest);
      [s[0]] + rest
  }

  /** The step of `Insert` that keeps the head in front. */
  lemma InsertBehind(x: int, s: seq<int>, rest: seq<int>)
    requires Descending(s) && s != [] && x < s[0]
    requires Descending(rest) && multiset(rest) == multiset(s[1..]) + multiset{x}
    requires |rest| == |s| && (rest[0] == x || (|s| > 1 && rest[0] == s[1]))
    ensures Descending([s[0]] + rest)
    ensures multiset([s[0]] + rest) == multiset(s) + multiset{x}
  {
    assert s == [s[0]] + s[1..];
    assert forall j :: 0 <= j < |rest| ==> s[0] >= rest[j];
  }

  /** `xs.sort((x, y) => y - x)` on a copy of `xs`: a descending
      permutation of `xs`. */
  function SortDesc(xs: seq<int>): (r: seq<int>)
    ensures Descending(r)
    ensures multiset(r) == multiset(xs)
    ensures |r| == |xs|
    decreases |xs|
  {
    if xs == [] then []
    else
      assert xs == [xs[0]] + xs[1..];
      Insert(xs[0], SortDesc(xs[1..]))
  }

  /** A multiset has exactly one descending arrangement, so any sort with
      the descending comparator gives the same sequence as SortDesc. */
  lemma {:induction false} DescendingUnique(xs: seq<int>, ys: seq<int>)
    requires Descending(xs) && Descending(ys)
    requires multiset(xs) == multiset(ys)
    ensures xs == ys
    decreases |xs|
  {
    if xs != [] && ys != [] {
      SameHeads(xs, ys);
      DescendingUnique(xs[1..], ys[1..]);
      assert xs == [xs[0]] + xs[1..];
      assert ys == [ys[0]] + ys[1..];
    } else {
      assert |multiset(xs)| == |xs| && |multiset(ys)| == |ys|;
    }
  }

  /** Two descending arrangements of one multiset start alike, and what
      follows is again two descending arrangements of one multiset. */
  lemma SameHeads(xs: seq<int>, ys: seq<int>)
    requires Descending(xs) && Descending(ys)
    requires multiset(xs) == multiset(ys)
    requires xs != [] && ys != []
    ensures xs[0] == ys[0]
    ensures Descending(xs[1..]) && Descending(ys[1..])
    ensures multiset(xs[1..]) == multiset(ys[1..])
  {
    HeadIsLargest(xs, ys[0]);
    HeadIsLargest(ys, xs[0]);
    WithoutHead(xs);
    WithoutHead(ys);
  }

  /** The head of a descending sequence is at least any of its elements. */
  lemma HeadIsLargest(xs: seq<int>, v: int)
    requires Descending(xs) && v in multiset(xs)
    ensures xs != [] && xs[0] >= v
  {
    var j :| 0 <= j < |xs| && xs[j] == v;
  }

  /** Dropping the head removes one copy of it. */
  lemma WithoutHead(xs: seq<int>)
    requires xs != []
    ensures multiset(xs[1..]) == multiset(xs) - multiset{xs[0]}
  {
    assert xs == [xs[0]] + xs[1..];
  }

  /** Sorting an already descending sequence leaves it as it is. */
  lemma SortDescFixesDescending(xs: seq<int>)
    requires Descending(xs)
    ensures SortDesc(xs) == xs
  {
    DescendingUnique(SortDesc(xs), xs);
  }
}
