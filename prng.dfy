/** The seeded pseudo-random generator of random.ts: the xmur3a string
    hash feeds four words to the sfc32 generator, whose 32-bit draws are
    turned into integers in a range and into weighted bucket indices.
    All generator arithmetic is on 32-bit words and wraps around. */
module Prng {
  import opened Wrappers
  import opened Folds

  type Word = bv32

  /** One UTF-16 code unit of a JavaScript string (what `charCodeAt` returns). */
  type CodeUnit = bv16

  const TwoTo32: int := 0x1_0000_0000

  // ---------------------------------------------------------------------
  // The 32-bit operators the generator code uses. Each wraps modulo 2^32;
  // the code is stated in terms of these so that every step reads as the
  // JavaScript operator it models.

  /** `x + y | 0`. */
  function Add(x: Word, y: Word): Word { x + y }

  /** `x ^ y`. */
  function Xor(x: Word, y: Word): Word { x ^ y }

  /** `x | y`. */
  function Or(x: Word, y: Word): Word { x | y }

  /** `x << n`. */
  function Shl(x: Word, n: nat): Word
    requires n < 32
  {
    x << n
  }

  /** `x >>> n`: the unsigned shift. */
  function Ushr(x: Word, n: nat): Word
    requires n < 32
  {
    x >> n
  }

  /** `Math.imul(x, y)`: the low 32 bits of the product. */
  function Imul(x: Word, y: Word): Word { x * y }

  /** `charCodeAt` as a 32-bit operand. */
  function Widen(c: CodeUnit): Word { c as Word }

  /** A word read as the unsigned number `x >>> 0`. */
  function Unsigned(x: Word): (n: nat)
    ensures n < TwoTo32
  {
    x as int
  }

  // ---------------------------------------------------------------------
  // xmur3a: the seed hash

  const HashBasis: Word := 2166136261

  /** One iteration of the hash loop over a code unit `c`. */
  function MixUnit(h: Word, c: CodeUnit): Word {
    var k0 := Imul(Widen(c), 3432918353);
    var k := Or(Shl(k0, 15), Ushr(k0, 17));
    var h1 := Xor(h, Imul(k, 461845907));
    var h2 := Or(Shl(h1, 13), Ushr(h1, 19));
    Add(Imul(h2, 5), 3864292196)
  }

  /** The hash loop run over all of `s`, from the first unit to the last. */
  function MixString(h: Word, s: seq<CodeUnit>): Word
    decreases |s|
  {
    if s == [] then h else MixUnit(MixString(h, s[..|s| - 1]), s[|s| - 1])
  }

  /** A JavaScript length converted to a 32-bit word by `^`. */
  function LengthWord(n: nat): Word {
    (n % TwoTo32) as Word
  }

  /** The hash state after the loop and the final `h ^= l`. */
  function SeedHash(s: seq<CodeUnit>): Word {
    Xor(MixString(HashBasis, s), LengthWord(|s|))
  }

  /** What one call of the returned closure does to the carried hash state. */
  function Finalize(h: Word): Word {
    var h1 := Xor(h, Ushr(h, 16));
    var h2 := Imul(h1, 2246822507);
    var h3 := Xor(h2, Ushr(h2, 13));
    var h4 := Imul(h3, 3266489909);
    Xor(h4, Ushr(h4, 16))
  }

  /** The closure returned by xmur3a: its constructor runs the hash loop,
      `Next` is one call of the closure. */
  class Xmur3a {
    var h: Word

    constructor (str: seq<CodeUnit>)
      ensures h == SeedHash(str)
    {
      var l := |str|;
      var acc := HashBasis;
      var i := 0;
      while i < l
        invariant 0 <= i <= l
        invariant acc == MixString(HashBasis, str[..i])
      {
        var k := Imul(Widen(str[i]), 3432918353);
        k := Or(Shl(k, 15), Ushr(k, 17));
        acc := Xor(acc, Imul(k, 461845907));
        acc := Or(Shl(acc, 13), Ushr(acc, 19));
        acc := Add(Imul(acc, 5), 3864292196);
        assert str[..i + 1][..i] == str[..i];
        i := i + 1;
      }
      assert str[..l] == str;
      h := Xor(acc, LengthWord(l));
    }

    /** Mixes the carried state, stores it back and returns it unsigned,
        so that successive calls chain. */
    method Next() returns (r: Word)
      modifies this
      ensures h == Finalize(old(h))
      ensures r == h
    {
      h := Xor(h, Ushr(h, 16));
      h := Imul(h, 2246822507);
      h := Xor(h, Ushr(h, 13));
      h := Imul(h, 3266489909);
      h := Xor(h, Ushr(h, 16));
      r := h;
    }
  }

  // ---------------------------------------------------------------------
  // sfc32: the generator

  datatype Sfc32State = Sfc32State(a: Word, b: Word, c: Word, d: Word)

  /** The word a draw returns: `t = (a + b | 0) + d | 0`. */
  function Output(s: Sfc32State): Word {
    Add(Add(s.a, s.b), s.d)
  }

  /** The generator state after one draw. */
  function Advance(s: Sfc32State): Sfc32State {
    var t := Add(Add(s.a, s.b), s.d);
    Sfc32State(Xor(s.b, Ushr(s.b, 9)),
               Add(s.c, Shl(s.c, 3)),
               Add(Or(Shl(s.c, 21), Ushr(s.c, 11)), t),
               Add(s.d, 1))
  }

  /** The state after `n` draws. */
  function Iterate(s: Sfc32State, n: nat): Sfc32State
    decreases n
  {
    if n == 0 then s else Advance(Iterate(s, n - 1))
  }

  /** The first `n` words drawn from state `s`, in order. */
  function Draws(s: Sfc32State, n: nat): (ws: seq<Word>)
    ensures |ws| == n
    decreases n
  {
    if n == 0 then [] else Draws(s, n - 1) + [Output(Iterate(s, n - 1))]
  }

  /** The float `rand()` returns for the word `t`: `t / 2^32`, which a
      double represents exactly. */
  function UnitFraction(t: Word): (x: real)
    ensures 0.0 <= x < 1.0
  {
    Unsigned(t) as real / (TwoTo32 as real)
  }

  /** The counter word is the only draw-count state: after `n` draws it
      has been incremented `n` times, whatever the other three words were. */
  lemma {:induction false} CounterCountsDraws(s1: Sfc32State, s2: Sfc32State, n: nat)
    requires s1.d == s2.d
    ensures Iterate(s1, n).d == Iterate(s2, n).d == Increments(s1.d, n)
    decreases n
  {
    if n > 0 {
      CounterCountsDraws(s1, s2, n - 1);
      var p1, p2 := Iterate(s1, n - 1), Iterate(s2, n - 1);
      assert Iterate(s1, n).d == Add(p1.d, 1);
      assert Iterate(s2, n).d == Add(p2.d, 1);
    }
  }

  /** `d = d + 1 | 0`, applied `n` times. */
  function Increments(d: Word, n: nat): Word
    decreases n
  {
    if n == 0 then d else Add(Increments(d, n - 1), 1)
  }

  /** The generator closure returned by sfc32, over its four captured words. */
  class Sfc32 {
    var a: Word
    var b: Word
    var c: Word
    var d: Word

    function State(): Sfc32State
      reads this
    {
      Sfc32State(a, b, c, d)
    }

    constructor (a: Word, b: Word, c: Word, d: Word)
      ensures State() == Sfc32State(a, b, c, d)
    {
      this.a, this.b, this.c, this.d := a, b, c, d;
    }

    /** One draw; returns `t`, of which `rand()` returns `t / 2^32`. */
    method Next() returns (t: Word)
      modifies this
      ensures t == Output(old(State()))
      ensures State() == Advance(old(State()))
    {
      t := Add(Add(a, b), d);
      d := Add(d, 1);
      a := Xor(b, Ushr(b, 9));
      b := Add(c, Shl(c, 3));
      c := Or(Shl(c, 21), Ushr(c, 11));
      c := Add(c, t);
    }
  }

  /** The generator state a seed string determines: four chained calls of
      the hash closure give the words a, b, c, d in order. */
  function SeedState(seed: seq<CodeUnit>): Sfc32State {
    var h1 := Finalize(SeedHash(seed));
    var h2 := Finalize(h1);
    var h3 := Finalize(h2);
    var h4 := Finalize(h3);
    Sfc32State(h1, h2, h3, h4)
  }

  // ---------------------------------------------------------------------
  // randInt and randIntWeighted over one draw

  /** `Math.floor(rand() * ((max - min) + 1)) + min` for the word `t`.
      With `rand() = t / 2^32` the floor is the integer quotient below,
      since Dafny's division by a positive divisor rounds down. */
  function Scale(t: Word, min: int, max: int): (r: int)
    ensures min <= max ==> min <= r <= max
    ensures max < min ==> max + 1 <= r <= min
  {
    var width := max - min + 1;
    var q := (Unsigned(t) * width) / TwoTo32;
    ScaleBounds(Unsigned(t), width);
    min + q
  }

  lemma ScaleBounds(t: int, width: int)
    requires 0 <= t < TwoTo32
    ensures width > 0 ==> 0 <= (t * width) / TwoTo32 < width
    ensures width <= 0 ==> width <= (t * width) / TwoTo32 <= 0
  {
    if width > 0 {
      assert 0 <= t * width < TwoTo32 * width;
    } else {
      assert TwoTo32 * width <= t * width <= 0;
    }
  }

  /** `randInt(min, max)`; with `max` left out, `min` is a count and the
      range is `[0, min - 1]`. */
  function RandIntOf(t: Word, min: int, max: Option<int>): (r: int)
    ensures max.Some? && min <= max.value ==> min <= r <= max.value
    ensures max.None? && min >= 1 ==> 0 <= r < min
  {
    match max
    case None => Scale(t, 0, min - 1)
    case Some(m) => Scale(t, min, m)
  }

  /** The running prefix sums of `ws` (the `map(cur => prev += cur)`). */
  function PrefixSums(ws: seq<nat>): (ps: seq<int>)
    ensures |ps| == |ws|
    ensures forall i :: 0 <= i < |ws| ==> ps[i] == Sum(ws[..i + 1])
    decreases |ws|
  {
    if ws == [] then []
    else
      var init := ws[..|ws| - 1];
      var ps := PrefixSums(init) + [Sum(ws)];
      assert forall i :: 0 <= i < |init| ==> ps[i] == Sum(ws[..i + 1]) by {
        forall i | 0 <= i < |init| ensures ps[i] == Sum(ws[..i + 1]) {
          assert init[..i + 1] == ws[..i + 1];
        }
      }
      assert ws[..|ws|] == ws;
      ps
  }

  /** `p > rand() * total` for the word `t`, compared exactly. */
  predicate Exceeds(p: int, t: Word, total: int) {
    p * TwoTo32 > Unsigned(t) * total
  }

  /** `findIndex`: the first position whose prefix sum exceeds the draw,
      or -1 when there is none. */
  function FirstExceeding(ps: seq<int>, t: Word, total: int): (i: int)
    ensures -1 <= i < |ps|
    ensures i >= 0 ==> Exceeds(ps[i], t, total)
    ensures i >= 0 ==> forall j :: 0 <= j < i ==> !Exceeds(ps[j], t, total)
    ensures i == -1 ==> forall j :: 0 <= j < |ps| ==> !Exceeds(ps[j], t, total)
    decreases |ps|
  {
    if ps == [] then -1
    else if Exceeds(ps[0], t, total) then 0
    else
      var k := FirstExceeding(ps[1..], t, total);
      if k == -1 then -1 else k + 1
  }

  /** `randIntWeighted(...ws)` for the draw `t`. */
  function WeightedIndex(ws: seq<nat>, t: Word): int {
    FirstExceeding(PrefixSums(ws), t, Sum(ws))
  }

  /** With a positive total some bucket is always chosen: the last prefix
      sum is the total, which exceeds every draw. */
  lemma WeightedIndexInRange(ws: seq<nat>, t: Word)
    requires Sum(ws) > 0
    ensures 0 <= WeightedIndex(ws, t) < |ws|
  {
    var ps := PrefixSums(ws);
    assert ws != [];
    assert ws[..|ws|] == ws;
    assert ps[|ws| - 1] == Sum(ws);
    DrawBelowTotal(Unsigned(t), Sum(ws));
  }

  lemma DrawBelowTotal(u: nat, total: int)
    requires u < TwoTo32 && total > 0
    ensures total * TwoTo32 > u * total
  {
  }

  /** The random source of a seed. `gen` holds the sfc32 closure. */
  class Random {
    const gen: Sfc32

    constructor (seed: seq<CodeUnit>)
      ensures fresh(gen)
      ensures gen.State() == SeedState(seed)
    {
      var hash := new Xmur3a(seed);
      var h1 := hash.Next();
      var h2 := hash.Next();
      var h3 := hash.Next();
      var h4 := hash.Next();
      gen := new Sfc32(h1, h2, h3, h4);
    }

    /** `rand()`: returns the drawn word `t`; the float is `UnitFraction(t)`. */
    method Rand() returns (t: Word)
      modifies gen
      ensures t == Output(old(gen.State()))
      ensures gen.State() == Advance(old(gen.State()))
    {
      t := gen.Next();
    }

    method RandInt(min: int, max: Option<int>) returns (r: int)
      modifies gen
      ensures r == RandIntOf(Output(old(gen.State())), min, max)
      ensures gen.State() == Advance(old(gen.State()))
    {
      var t := gen.Next();
      r := RandIntOf(t, min, max);
    }

    method RandIntWeighted(ws: seq<nat>) returns (i: int)
      modifies gen
      ensures i == WeightedIndex(ws, Output(old(gen.State())))
      ensures gen.State() == Advance(old(gen.State()))
    {
      var t := gen.Next();
      i := WeightedIndex(ws, t);
    }
  }

  /** Two generators built from the same seed draw the same words: the
      state depends on the seed string alone. */
  method SameSeedSameDraws(seed: seq<CodeUnit>, n: nat) returns (xs: seq<Word>, ys: seq<Word>)
    ensures xs == ys == Draws(SeedState(seed), n)
  {
    var r1 := new Random(seed);
    var r2 := new Random(seed);
    xs, ys := [], [];
    var i := 0;
    while i < n
      invariant 0 <= i <= n
      invariant r1.gen != r2.gen
      invariant r1.gen.State() == r2.gen.State() == Iterate(SeedState(seed), i)
      invariant xs == ys == Draws(SeedState(seed), i)
      modifies r1.gen, r2.gen
    {
      var x := r1.Rand();
      var y := r2.Rand();
      xs, ys := xs + [x], ys + [y];
      i := i + 1;
    }
  }
}
