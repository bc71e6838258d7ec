# Arithmetic puzzle engine in Dafny

This project models the engine of a numbers puzzle game in the style of the
Countdown numbers round. A round has a target between 101 and 999 and six
tiles. The tiles are dealt from four large tiles (25, 50, 75, 100) and two
copies of each small tile from 1 to 10. The player combines tiles with
addition, subtraction, multiplication and exact division until the target
appears among the tiles.

The model covers five parts of the program:

- **The seeded generator** (`Random`, module `Prng`). The xmur3a string hash
  seeds the sfc32 generator. Both work on 32-bit words (`bv32`) with
  wrap-around. On top of them sit `randInt` and `randIntWeighted`. The hash
  closure and the generator closure are classes whose methods update their
  captured words.
- **The legality predicates** (module `Utilities`). `additive`,
  `subtractive`, `multiplicative` and `divisible` decide which operator
  applies to a selection. `sortIntReverse` is the descending comparator.
  JavaScript's truncating `%` is written out as `JsRem`.
- **The seeded round** (`ArithmeticRound`, modules `Round`, `Moves`, `Deal`,
  `Tiles`). The target and tiles are generated from the seed
  `${gameId}${roundNumber}`. The round keeps a history of tile snapshots and
  a parallel list of operation descriptions. The class supports `reset`,
  `undo`, the four operations and the `solved` getter. It also checks saved
  data before taking it over. The operations share one meaning, `Perform` on
  a `History`. Each class method is proved to compute it, and the invariants
  and round trips are proved about it.
- **The game bookkeeping** (`ArithmeticGame`, module `Game`). It keeps one
  record per round, whose `solved` flag follows the current round. It derives
  the win and round counts from the records. It also passes the sorted
  selection to the round.
- **The legacy round** (`CountdownRound`, module `Countdown`). It is an older
  copy of the round with a fixed deal shape: one large tile, a coin flip
  between large and small, then four small tiles. `Math.random` is replaced
  by an arbitrary choice within the requested range. Its target is drawn
  again even after a saved round was restored. A freshly dealt legacy round
  leaves its round number and win count undefined. What it saves therefore
  never passes the next load's checks (`Countdown.FreshRoundNotRestored`).

The saved data is modelled as already-parsed JSON values (module `Stored`).
A missing key and an unreadable entry are both `Undefined`. Decimal
rendering of numbers in the descriptions is in module `Text`.

The repeated-value hazard of the operations is modelled as written. The
membership guard checks each selected value with `includes`, not each tile.
When a selection repeats a value more often than it occurs, the guard
passes. `splice(indexOf(v), 1)` with `indexOf` equal to -1 then removes the
last, smallest tile instead. `Moves.RepeatedValueHazard` shows two concrete
cases. Conservation of tiles (`Moves.MoveConserves`) is proved for
selections that are sub-multisets of the snapshot. Selections made by
checking tiles in the interface always are.

## Model

| member | source | states |
|---|---|---|
| Prng.Xmur3a.constructor | scripts/random.ts:44-54 | Starting from 2166136261, the hash loop over the UTF-16 units, followed by `h ^= length`, leaves the carried state equal to `SeedHash(str)`. Each unit step is imul by 3432918353, rotate left 15, xor with imul by 461845907, rotate left 13, then `5h + 3864292196`, all mod 2^32. |
| Prng.Xmur3a.Next | scripts/random.ts:55-62 | One closure call applies xor-shift 16, ×2246822507, xor-shift 13, ×3266489909 and xor-shift 16 to the carried state. It stores the state back and returns it, so successive calls chain. |
| Prng.MixUnit | scripts/random.ts:48-52 | Definition of one hash-loop iteration on a code unit: imul by 3432918353, rotate left 15, xor the state with its imul by 461845907, rotate left 13, then `5h + 3864292196`, all mod 2^32. |
| Prng.MixString | scripts/random.ts:47-53 | Definition of the hash loop over every code unit, first to last. |
| Prng.SeedHash | scripts/random.ts:45-54 | Definition of the state the hash leaves: the basis 2166136261 mixed with every unit, then xored with the length mod 2^32. |
| Prng.Finalize | scripts/random.ts:56-61 | Definition of one call of the returned closure on the carried state. |
| Prng.Sfc32.constructor | scripts/random.ts:27-28 | The generator captures its four seed words unchanged. |
| Prng.Sfc32.Next | scripts/random.ts:27-41 | One draw returns `t = a + b + d` and moves to `Advance` of the old state: `a = b ^ b >>> 9`, `b = c + (c << 3)`, `c = rotl(c, 21) + t`, `d = d + 1`, all mod 2^32. |
| Prng.Output | scripts/random.ts:33 | Definition of the word a draw returns: `t = a + b + d` mod 2^32. |
| Prng.Advance | scripts/random.ts:34-38 | Definition of the four words after a draw. |
| Prng.Draws | scripts/random.ts:27-41 | The words `n` successive draws return from a state: exactly `n` of them, in draw order. |
| Prng.UnitFraction | scripts/random.ts:39 | `t / 2^32` lies in [0, 1) for every word `t`. |
| Prng.CounterCountsDraws | scripts/random.ts:34 | After `n` draws the counter word has been incremented exactly `n` times (mod 2^32). It does not depend on the other three words, so no other draw-count state exists. |
| Prng.Random.constructor | scripts/random.ts:2-5 | The generator starts in `SeedState(seed)`: four chained hash calls give `a`, `b`, `c`, `d` in order. |
| Prng.SeedState | scripts/random.ts:3-4 | Definition of the seeded state: four chained closure calls after the hash give `a`, `b`, `c`, `d`. |
| Prng.SameSeedSameDraws | scripts/random.ts:2-5 | Two generators built from the same seed draw the same words, namely `Draws(SeedState(seed), n)`, for every `n`. |
| Prng.Random.Rand | scripts/random.ts:7 | `rand()` draws the next word of the generator (its fraction is `UnitFraction` of it) and advances it by exactly one step. |
| Prng.Scale | scripts/random.ts:14-16 | `min + floor(t·(max − min + 1) / 2^32)` lies in [min, max] whenever min ≤ max. |
| Prng.RandIntOf | scripts/random.ts:9-17 | `randInt(min, max)` lies in [min, max]. With `max` undefined, `min` is a count and the result lies in [0, count − 1]. |
| Prng.Random.RandInt | scripts/random.ts:9-17 | The method returns `RandIntOf` of the next word and advances the generator by one draw. |
| Prng.PrefixSums | scripts/random.ts:21-23 | Entry `i` of `map(cur => prev += cur)` is the sum of the first `i + 1` weights. |
| Prng.FirstExceeding | scripts/random.ts:23 | `findIndex` returns the first position whose prefix sum exceeds `rand()·total`, and -1 exactly when no prefix sum does. |
| Prng.WeightedIndex | scripts/random.ts:19-24 | Definition of `randIntWeighted` for one draw: `findIndex` over the prefix sums against the draw times the total. |
| Prng.WeightedIndexInRange | scripts/random.ts:19-24 | With a positive total, `randIntWeighted` always returns an index in [0, n − 1]. |
| Prng.Random.RandIntWeighted | scripts/random.ts:19-24 | The method returns the weighted index of the next word and advances the generator by one draw. |
| Utilities.SortIntReverse | scripts/utilities.ts:58 | `y − x` is negative exactly when `x > y` and zero exactly when they are equal. |
| Utilities.DescendingByComparator | scripts/utilities.ts:58 | A sequence is descending exactly when the comparator orders every pair of it. |
| Utilities.Additive | scripts/utilities.ts:60-62 | Definition of `additive`: more than one value. |
| Utilities.Subtractive | scripts/utilities.ts:64-66 | Definition of `subtractive`: exactly two values, the first larger. |
| Utilities.Multiplicative | scripts/utilities.ts:68-70 | Definition of `multiplicative`: more than one value. |
| Utilities.Divisible | scripts/utilities.ts:72-74 | Definition of `divisible`: exactly two values, a non-zero divisor (a zero one gives NaN), and a zero truncating remainder. |
| Utilities.JsRem | scripts/utilities.ts:73 | The truncating `%` is smaller than the divisor in magnitude and has the dividend's sign. The dividend minus the remainder is a multiple of the divisor. |
| Utilities.DivisibleIffExactQuotient | scripts/utilities.ts:72-74 | `divisible([a, b])` holds exactly when `b ≠ 0` and `a` is `b` times an integer. A zero divisor (NaN in JavaScript) is never divisible. |
| Utilities.SubtractiveOnDescending | scripts/utilities.ts:64-66 | On a descending selection, `subtractive` holds exactly when there are two distinct values, so equal values never subtract. |
| Utilities.GuardsReadLeadingPair | scripts/utilities.ts:60-74 | All four predicates depend only on the length and the first two values. |
| JsArrays.IndexOf | scripts/arithmetic-round.ts:97 | `indexOf` is -1 exactly when the value is absent. Otherwise it is the position of the first occurrence. |
| JsArrays.SpliceOne | scripts/arithmetic-round.ts:97 | `splice(start, 1)` at a valid position leaves one element fewer. `SpliceOneAt` and `SpliceOneMinusOne` state which one goes. |
| JsArrays.SpliceOneAt | scripts/arithmetic-round.ts:115 | `splice(k, 1)` at a valid position removes exactly the element at `k`: one copy less, the rest in order. |
| JsArrays.SpliceOneMinusOne | scripts/arithmetic-round.ts:115-116 | `splice(-1, 1)` removes the last element, or nothing from an empty array. |
| JsArrays.SortDesc | scripts/arithmetic-round.ts:100 | Sorting with `sortIntReverse` yields a descending permutation of the input. |
| JsArrays.DescendingUnique | scripts/arithmetic-round.ts:100 | Two descending sequences with the same elements are equal, so the sorted snapshot does not depend on the sorting algorithm. |
| JsArrays.SortDescFixesDescending | scripts/arithmetic-round.ts:100 | Sorting an already descending sequence leaves it as it is. |
| Folds.PositiveFolds | scripts/arithmetic-round.ts:94-98 | The sum of a non-empty selection of positive values is positive, and so is the product of any selection of positive values. |
| Folds.Sum | scripts/arithmetic-round.ts:94-96 | Definition of the sum accumulated from 0, as `sum += addend` does. |
| Folds.Product | scripts/arithmetic-round.ts:132-134 | Definition of the product accumulated from 1, as `product *= factor` does. |
| Text.IntToStringRoundTrip | scripts/arithmetic-round.ts:103 | The decimal rendering of an integer reads back as the same integer. |
| Text.IntToString | scripts/arithmetic-round.ts:103 | The decimal rendering `${n}` is never empty. `IntToStringRoundTrip` states that it reads back. |
| Text.Join | scripts/arithmetic-round.ts:103 | `join` of a non-empty selection is a non-empty text. |
| Stored.FromSnapshots | scripts/arithmetic-round.ts:191-198 | Saved snapshots form an array of integer arrays that reads back as the same snapshots. |
| Stored.FromDescriptions | scripts/arithmetic-round.ts:182-184 | Saved descriptions pass the description check exactly when none is empty, and they then read back unchanged. |
| Stored.IsInteger | scripts/arithmetic-round.ts:170 | Definition of `Number.isInteger` on a parsed value. |
| Stored.IsSnapshotArray | scripts/arithmetic-round.ts:178 | Definition of the snapshot check: an array of arrays of integers. |
| Stored.IsDescriptionArray | scripts/arithmetic-round.ts:182 | Definition of the description check: an array of non-empty strings. |
| Stored.FromInt | scripts/arithmetic-round.ts:193-194 | An integer is saved as a number that passes `Number.isInteger` and reads back as itself. |
| Stored.Truthy | scripts/arithmetic-game.ts:202 | Definition of JavaScript truthiness on a parsed value. |
| Tiles.Pairs | scripts/arithmetic-round.ts:9 | The small pool holds two copies each of 1..n, so it has 2n tiles, each in [1, n]. |
| Tiles.SmallTilesBounds | scripts/arithmetic-round.ts:9 | The small pool has 20 tiles, each in [1, 10]. |
| Tiles.LargeDrawsCount | scripts/arithmetic-round.ts:8 | Every tile drawn from the large pool counts as large. |
| Tiles.SmallDrawsCount | scripts/arithmetic-round.ts:9 | No tile drawn from the small pool counts as large. |
| Tiles.DealComposition | scripts/arithmetic-round.ts:59-65 | `n` large draws followed by small draws come from the pools without replacement and hold exactly `n` large tiles. |
| Tiles.PoolTilesAtMost100 | scripts/arithmetic-round.ts:8-9 | Every tile dealt from the pools lies in [1, 100]. |
| Tiles.FromPools | scripts/arithmetic-round.ts:8-9 | Definition: the tiles are a sub-multiset of the two pools together, so none is used twice. |
| Tiles.LargeTileCount | scripts/arithmetic-round.ts:8 | Definition: how many of the tiles are 25, 50, 75 or 100. |
| Deal.RemoveAtSplices | scripts/arithmetic-round.ts:61 | Removing the drawn position is what `splice(k, 1)` does to the pool. |
| Deal.RemoveAtTakesOne | scripts/arithmetic-round.ts:61-63 | A draw takes exactly one copy of the drawn tile out of its pool. |
| Deal.RemoveAt | scripts/arithmetic-round.ts:61 | Removing a valid position leaves one element fewer. `RemoveAtSplices` shows that it is `splice(k, 1)`. |
| Deal.Step | scripts/arithmetic-round.ts:60-64 | Definition of one iteration of the drawing loop: splice the tile at the drawn position out of the large pool (during the first `largeCount` iterations) or the small pool, and push it. |
| Deal.DealAfter | scripts/arithmetic-round.ts:59-65 | Definition of the loop variables after `n` iterations at the given positions. |
| Deal.Positions | scripts/arithmetic-round.ts:59-65 | The positions the loop's `randInt(0, pool.length − 1)` calls pick, one per remaining iteration, each from the next generator state. |
| Deal.PositionsFitAll | scripts/arithmetic-round.ts:59-65 | With enough tiles in both pools, every position `randInt(0, pool.length − 1)` picks lies inside the pool it is drawn from. |
| Deal.DealAfterLarge | scripts/arithmetic-round.ts:60-61 | During the large draws, each iteration moves one tile from the large pool to the drawn tiles, and the small pool is untouched. |
| Deal.DealAfterSmall | scripts/arithmetic-round.ts:62-63 | After the large draws, each iteration moves one tile from the small pool, and the large pool is not touched again. |
| Deal.LargeDrawsKept | scripts/arithmetic-round.ts:59-65 | The small draws go behind the large ones, which stay as they were. |
| Deal.LargeDrawn | scripts/arithmetic-round.ts:60-61 | The large draws and the remaining large pool together make up the initial large pool exactly. |
| Deal.SmallDrawn | scripts/arithmetic-round.ts:62-63 | The small draws and the remaining small pool together make up the initial small pool exactly. |
| Deal.DealtFrom | scripts/arithmetic-round.ts:59-65 | The first `largeCount` drawn tiles come from the large pool and the rest from the small pool, none twice. |
| Deal.Draw | scripts/arithmetic-round.ts:61 | One draw returns the tile at the position `randInt(0, pool.length − 1)` gives, and the pool without it. |
| Deal.DrawLarge | scripts/arithmetic-round.ts:60-61 | The loop body with large draws left performs the large-pool step of the loop specification. |
| Deal.DrawSmall | scripts/arithmetic-round.ts:62-63 | The loop body after the large draws performs the small-pool step of the loop specification. |
| Deal.DealLoop | scripts/arithmetic-round.ts:59-65 | The loop yields exactly `DealAfter` at the positions the generator draws from its starting state. |
| Round.LargeWeightsTotal | scripts/arithmetic-round.ts:7 | The large-count weights .01, .4, .5, .08 and .01, scaled to integers, total 100. |
| Round.LargeCountAt | scripts/arithmetic-round.ts:58 | The drawn large-tile count is an index of the 5-entry weight table, so at most 4. |
| Round.DecimalUnits | scripts/arithmetic-round.ts:42 | The round number enters the seed string as one code unit per decimal digit. |
| Round.SeedUnits | scripts/arithmetic-round.ts:42 | Definition of the seed string `${gameId}${roundNumber}`. |
| Round.GeneratedTarget | scripts/arithmetic-round.ts:51 | Definition of the target: the first draw of the seeded generator, scaled to [101, 999]. |
| Round.TilesFrom | scripts/arithmetic-round.ts:55-66 | Definition of the tiles generation yields from a generator state: the large count, then six draws, then the sort. |
| Round.GeneratedOperands | scripts/arithmetic-round.ts:54-67 | Definition of the tiles a fresh round gets: `TilesFrom` the state after the target draw. |
| Round.Start | scripts/arithmetic-round.ts:46-67 | Definition of where a round starts: the restored data when loading is asked for and it passes the checks, otherwise the generated target and one snapshot. |
| Round.RoundInvariant | scripts/arithmetic-round.ts:170-184 | Definition of what the load checks guarantee and the operations keep: one more snapshot than descriptions, the target in [100, 999], no empty description. |
| Round.Save | scripts/arithmetic-round.ts:191-199 | Definition of the data `save` writes: round number, target, snapshots and descriptions. |
| Round.DealShape | scripts/arithmetic-round.ts:55-65 | A deal with `largeCount` large draws has `n` tiles, comes from the pools, and holds exactly `largeCount` large tiles. |
| Round.TilesFromShape | scripts/arithmetic-round.ts:55-67 | From any generator state, generation yields six descending tiles from the pools, of which the drawn count (at most 4) are large. |
| Round.DrawOperands | scripts/arithmetic-round.ts:55-67 | The generation code computes exactly `TilesFrom` of the generator state it starts from. |
| Round.FreshRoundShape | scripts/arithmetic-round.ts:4-6 | For every seed, the generated target lies in [101, 999] and the six generated tiles are descending, from the pools, with at most four large. |
| Round.FreshRoundUnsolved | scripts/arithmetic-round.ts:50-67 | A freshly generated round is never already solved: every tile is at most 100 and the target at least 101. |
| Round.StartKeepsInvariant | scripts/arithmetic-round.ts:42-68 | Every start, restored or generated, satisfies the round invariant. A generated start has no operations and is not solved. |
| Round.GeneratedStartKeepsInvariant | scripts/arithmetic-round.ts:50-67 | The generated start `([tiles], [])` keeps the invariant and is unsolved. |
| Round.PerformKeepsInvariant | scripts/arithmetic-round.ts:73-165 | Every operation, undo and reset keeps the invariant: one more snapshot than descriptions, the target in [100, 999], and no empty description. |
| Round.Restore | scripts/arithmetic-round.ts:167-189 | Saved data is taken over exactly when all checks pass: integers, arrays, target in [100, 999], one more snapshot than descriptions, integer snapshots, non-empty descriptions. What is taken over keeps the invariant. |
| Round.SaveRestoreRoundTrip | scripts/arithmetic-round.ts:191-199 | Loading what `save` wrote for a valid round gives back the same target and history. |
| Round.ArithmeticRound.constructor | scripts/arithmetic-round.ts:30-71 | The round starts from the restored data when loading is asked for and the checks pass. Otherwise it starts from the seeded target and tiles. It then satisfies the invariant. |
| Round.ArithmeticRound.Solved | scripts/arithmetic-round.ts:11-14 | Definition of the `solved` getter: the target is among the current tiles. |
| Round.ArithmeticRound.Push | scripts/arithmetic-round.ts:102-103 | Appends one snapshot and one description and leaves the target alone. |
| Round.ArithmeticRound.Reset | scripts/arithmetic-round.ts:73-78 | `reset` leaves `[operands[0]]` and `[]`. |
| Round.ArithmeticRound.Undo | scripts/arithmetic-round.ts:80-89 | `undo` drops the last snapshot and description and returns true exactly when there was more than one snapshot. Otherwise it returns false and changes nothing. |
| Round.ArithmeticRound.Add | scripts/arithmetic-round.ts:91-109 | `add` returns true exactly when every addend occurs in the last snapshot and there are at least two. It then appends the sorted snapshot and the description "a + b = s". Otherwise nothing changes. |
| Round.ArithmeticRound.Subtract | scripts/arithmetic-round.ts:111-127 | `subtract` returns true exactly when both values occur and the minuend is larger. It then appends the sorted snapshot with the difference and "m − s = d". Otherwise nothing changes. |
| Round.ArithmeticRound.Multiply | scripts/arithmetic-round.ts:129-147 | As `add`, with the product and "a × b = p". |
| Round.ArithmeticRound.Divide | scripts/arithmetic-round.ts:149-165 | `divide` returns true exactly when both values occur and the remainder is zero. It then appends the sorted snapshot with the quotient and "a ÷ b = q". Otherwise nothing changes. |
| Moves.TakePresent | scripts/arithmetic-round.ts:97 | Splicing out a present value removes exactly one copy of it. |
| Moves.TakeAbsent | scripts/arithmetic-round.ts:97 | Splicing out an absent value removes the last tile instead. |
| Moves.TakeShrinks | scripts/arithmetic-round.ts:97 | Whatever the value, at most one tile goes and none is added. |
| Moves.TakeAllPair | scripts/arithmetic-round.ts:115-116 | Taking a pair is splicing the first value and then the second. |
| Moves.TakeAllConserves | scripts/arithmetic-round.ts:95-98 | When the selection is a sub-multiset of the snapshot, the loop removes exactly the selected tiles. |
| Moves.TakeAllShrinks | scripts/arithmetic-round.ts:95-98 | For any selection, the loop removes one tile per selected value until the copy is empty, and adds none. |
| Moves.Take | scripts/arithmetic-round.ts:97 | Definition of `splice(indexOf(v), 1)` on the working copy. |
| Moves.TakeAll | scripts/arithmetic-round.ts:95-98 | Definition of splicing out each selected value in turn. |
| Moves.Operands | scripts/arithmetic-round.ts:113-116 | Definition of the selected values in the order an operation splices them out. |
| Moves.AllIncluded | scripts/arithmetic-round.ts:93 | Definition of `every(v => operands.includes(v))`. |
| Moves.Legal | scripts/arithmetic-round.ts:93-151 | Definition of each operation's guard: every selected value included, and the operator's predicate from `Utilities` holds. |
| Moves.Produced | scripts/arithmetic-round.ts:94-152 | Definition of the pushed value: sum, difference, product or quotient. |
| Moves.Outcome | scripts/arithmetic-round.ts:92-100 | Definition of the appended snapshot: the working copy with the selection spliced out and the result pushed, sorted descending. |
| Moves.Current | scripts/arithmetic-round.ts:92 | Definition of the last snapshot, which every operation copies. |
| Moves.Consistent | scripts/arithmetic-round.ts:174 | Definition of one more snapshot than descriptions. |
| Moves.Solved | scripts/arithmetic-round.ts:11-14 | Definition of `solved` on a history. |
| Moves.Perform | scripts/arithmetic-round.ts:91-165 | Definition of an operation: when the guard holds, append the outcome and the description; otherwise change nothing. |
| Moves.Undo | scripts/arithmetic-round.ts:80-89 | Definition of `undo`: drop the last snapshot and description unless only one snapshot is left. |
| Moves.Reset | scripts/arithmetic-round.ts:73-78 | Definition of `reset`: the first snapshot and no descriptions. |
| Moves.SumAndTake | scripts/arithmetic-round.ts:94-98 | The `add` loop computes the sum of the addends and the copy with each addend spliced out in turn. |
| Moves.ProductAndTake | scripts/arithmetic-round.ts:132-136 | The `multiply` loop computes the product and the copy with each factor spliced out in turn. |
| Moves.DivideIsExact | scripts/arithmetic-round.ts:152 | On a legal division, the integer quotient equals the real quotient `dividend / divisor`. |
| Moves.Description | scripts/arithmetic-round.ts:103 | Every recorded description is non-empty. |
| Moves.MoveConserves | scripts/arithmetic-round.ts:92-100 | For a sub-multiset selection, the next snapshot is the old one minus the selection plus the result, one tile per selected value fewer plus one. |
| Moves.MoveShape | scripts/arithmetic-round.ts:92-100 | For any legal selection, the next snapshot contains the result and otherwise only old tiles, and its size follows the splices. |
| Moves.PairSelectionFits | scripts/arithmetic-round.ts:113-116 | A subtraction always names two different tiles. A division does too unless a value is divided by itself. |
| Moves.RepeatedValueHazard | scripts/arithmetic-round.ts:93-98 | Adding 5 and 5 on [5, 3] passes the guard and yields [10], using up the 3. Dividing 5 by 5 on [7, 5] yields [1], using up the 7. |
| Moves.MovesKeepPositive | scripts/arithmetic-round.ts:113-118 | From positive tiles, every legal operation yields positive tiles. |
| Moves.OperationsKeepConsistent | scripts/arithmetic-round.ts:73-165 | Every operation, undo and reset keeps one more snapshot than descriptions. Neither an operation nor undo changes the first snapshot. |
| Moves.UndoInvertsPerform | scripts/arithmetic-round.ts:80-89 | `undo` right after a successful operation restores the state before it exactly. |
| Moves.UndoAfterReset | scripts/arithmetic-round.ts:80-89 | `undo` right after `reset` changes nothing. |
| Moves.ResetIdempotent | scripts/arithmetic-round.ts:73-78 | Resetting twice is resetting once. |
| Moves.PerformAll | scripts/arithmetic-round.ts:91-165 | Any sequence of operations keeps the first snapshot and the snapshot/description invariant. |
| Moves.ResetDiscardsMoves | scripts/arithmetic-round.ts:73-78 | `reset` after any sequence of operations gives the same state as `reset` before them. |
| Moves.ReachingTargetSolves | scripts/arithmetic-round.ts:11-14 | A legal operation whose result is the target makes `solved` true. |
| Moves.AddGuard | scripts/arithmetic-round.ts:93 | Proof step for the class method. The add guard is every addend included plus `additive`. When it fails, the history is unchanged. |
| Moves.AddStep | scripts/arithmetic-round.ts:99-103 | A successful add appends the sorted snapshot with the sum and the description "a + b = s". |
| Moves.SubtractGuard | scripts/arithmetic-round.ts:113 | Proof step for the class method. The subtract guard is both values included plus `subtractive`. When it fails, the history is unchanged. |
| Moves.SubtractStep | scripts/arithmetic-round.ts:114-121 | A successful subtract appends the sorted snapshot with the difference and "m − s = d". |
| Moves.SubtractOutcome | scripts/arithmetic-round.ts:114-118 | The snapshot after a subtraction is the copy with the minuend and then the subtrahend spliced out, plus the difference, sorted. |
| Moves.SubtractDescription | scripts/arithmetic-round.ts:121 | Proof step for the class method: the subtraction text is "m − s = d" with U+2212. |
| Moves.MultiplyGuard | scripts/arithmetic-round.ts:131 | Proof step for the class method. The multiply guard is every factor included plus `multiplicative`. When it fails, the history is unchanged. |
| Moves.MultiplyStep | scripts/arithmetic-round.ts:137-141 | A successful multiply appends the sorted snapshot with the product and "a × b = p". |
| Moves.DivideGuard | scripts/arithmetic-round.ts:151 | Proof step for the class method. The divide guard is both values included plus `divisible`. When it fails, the history is unchanged. |
| Moves.DivideStep | scripts/arithmetic-round.ts:152-159 | A successful divide appends the sorted snapshot with the quotient and "a ÷ b = q". |
| Moves.DivideOutcome | scripts/arithmetic-round.ts:152-156 | The snapshot after a division is the copy with the dividend and then the divisor spliced out, plus the quotient, sorted. |
| Moves.DivideDescription | scripts/arithmetic-round.ts:159 | Proof step for the class method: the division text is "a ÷ b = q" with U+00F7. |
| Moves.Selected | scripts/arithmetic-game.ts:7-16 | The selected operands are the checked values, sorted descending. |
| Moves.Pair | scripts/arithmetic-game.ts:105 | The destructured pair exists exactly when at least two values are selected, and it is the first two. |
| Game.SetSolved | scripts/arithmetic-game.ts:178-182 | On an object record, the flag is set or deleted as asked and every other key is kept. |
| Game.Sync | scripts/arithmetic-game.ts:177-183 | `sync` touches only the last record, whose flag then follows the round, and keeps the length. |
| Game.SyncIdempotent | scripts/arithmetic-game.ts:177-183 | Syncing twice with the same outcome is syncing once. |
| Game.SyncWins | scripts/arithmetic-game.ts:177-183 | After a sync, the wins are those of the earlier records plus one exactly when the round is solved. |
| Game.PushKeepsWins | scripts/arithmetic-game.ts:71 | Pushing `{}` adds a round and no win. |
| Game.WinsAtMostRounds | scripts/arithmetic-game.ts:202-203 | The displayed wins never exceed the displayed rounds. |
| Game.WinsCountsSolved | scripts/arithmetic-game.ts:202 | The win count is the number of records whose flag is set. |
| Game.IsSolved | scripts/arithmetic-game.ts:202 | Definition of `r.solved` read for its truthiness on a record. |
| Game.Wins | scripts/arithmetic-game.ts:202 | Definition of the win count, `filter(r => r.solved).length`, counted from the first record on. |
| Game.LoadedRounds | scripts/arithmetic-game.ts:54-60 | The records are the stored array when loading is asked for and the stored value is a non-empty array. Otherwise they are `[{}]`. They are never empty. |
| Game.SelectedPairOrdered | scripts/arithmetic-game.ts:104-106 | The pair passed to subtract is the largest selected value and the next one. Subtract applies exactly to two distinct values. |
| Game.Enabled | scripts/arithmetic-game.ts:136-144 | Add and multiply are enabled together. Subtract is enabled only for two values with the first larger. Divide is enabled only for two values with a non-zero divisor. |
| Game.ArithmeticGame.Counts | scripts/arithmetic-game.ts:201-204 | The pair the page shows, wins and rounds, read from the game state. It carries the bound of `WinsAtMostRounds` (wins never exceed rounds). |
| Game.ArithmeticGame.constructor | scripts/arithmetic-game.ts:35-67 | The records are loaded (or `[{}]`), pushed once more when not loading, and synced. The round numbered by their count starts as `Round.Start` says. |
| Game.ArithmeticGame.NewRound | scripts/arithmetic-game.ts:69-77 | Without loading, `newRound` pushes one empty record and starts the round numbered by the new count. With loading, it pushes nothing. Either way it syncs. |
| Game.ArithmeticGame.Reset | scripts/arithmetic-game.ts:79-84 | The round is reset and the records synced. |
| Game.ArithmeticGame.Undo | scripts/arithmetic-game.ts:86-92 | The round undoes one step. The records are synced only when the undo succeeded. |
| Game.ArithmeticGame.Add | scripts/arithmetic-game.ts:94-102 | The round adds the sorted selection. The result is returned, and the records are synced only on success. |
| Game.ArithmeticGame.Subtract | scripts/arithmetic-game.ts:104-113 | The round subtracts the first two sorted values, or fails with fewer than two. The records are synced only on success. |
| Game.ArithmeticGame.Multiply | scripts/arithmetic-game.ts:115-123 | As `add`, with multiplication. |
| Game.ArithmeticGame.Divide | scripts/arithmetic-game.ts:125-134 | As `subtract`, with division. |
| Countdown.RandInt | scripts/main.ts:454-465 | `randInt(min, max)` lies in [min, max], and `randInt(count)` lies in [0, count − 1]. |
| Countdown.DrawFrom | scripts/main.ts:235 | `pool.splice(randInt(pool.length), 1)[0]` returns a tile of the pool and the pool with exactly that copy removed. |
| Countdown.DrawSmallFour | scripts/main.ts:237-240 | Four small draws take four tiles out of the small pool without replacement. |
| Countdown.SecondFromLarge | scripts/main.ts:235-236 | When the coin gives a second large tile, both large tiles come out of the large pool without replacement. |
| Countdown.SecondFromSmall | scripts/main.ts:236-240 | When the coin gives a small tile, it and the four later small tiles come out of the small pool without replacement. |
| Countdown.DealTiles | scripts/main.ts:231-243 | The fresh tiles are six descending tiles: one or two large draws from the large pool, the rest from the small pool, none twice. |
| Countdown.DrawnShape | scripts/main.ts:231-243 | Such a deal comes from the pools and holds as many large tiles as there were large draws. |
| Countdown.Restore | scripts/main.ts:354-389 | Saved data is taken over exactly when all checks pass: integer round and wins, both non-negative, target in [100, 999], one more snapshot than descriptions, integer snapshots, non-empty descriptions. |
| Countdown.SavedTargetDiscarded | scripts/main.ts:225-229 | Saved data with target 100 passes the checks, yet no constructed round can keep it, because its target is always in [101, 999]. |
| Countdown.SavedField | scripts/main.ts:396-397 | A set field saves as an integer and reads back as itself. A field still `undefined` is written as text that `JSON.parse` rejects, so it never reads back as an integer. |
| Countdown.Save | scripts/main.ts:392-405 | Definition of the five keys `save` writes, as the next `load` reads them back. |
| Countdown.SaveRestoreRoundTrip | scripts/main.ts:354-405 | A restored round (round number and wins set) saves data that the next load takes over unchanged. |
| Countdown.FreshRoundNotRestored | scripts/main.ts:396-397 | A freshly dealt round, whose round number and wins are undefined, saves data that the next load never takes over. |
| Countdown.CountdownRound.constructor | scripts/main.ts:224-248 | A restored round keeps its round, wins and history. Otherwise the round starts with one snapshot of six descending tiles from the pools, one or two of them large. Either way the target is drawn in [101, 999]. |
| Countdown.CountdownRound.Reset | scripts/main.ts:250-255 | `reset` leaves `[numbers[0]]` and `[]`. |
| Countdown.CountdownRound.Undo | scripts/main.ts:257-264 | `undo` drops the last snapshot and description when there is more than one snapshot. Otherwise it changes nothing. |
| Countdown.CountdownRound.Push | scripts/main.ts:288-289 | Appends one snapshot and one description and leaves the target alone. |
| Countdown.CountdownRound.Add | scripts/main.ts:274-293 | `add` performs the shared addition on the given addends, or on the sorted selection when none are given. |
| Countdown.CountdownRound.Subtract | scripts/main.ts:295-312 | `subtract` performs the shared subtraction on the given pair. When either value is missing, it uses the first two selected values, and with fewer than two selected it changes nothing. |
| Countdown.CountdownRound.Multiply | scripts/main.ts:314-333 | As `add`, with multiplication. |
| Countdown.CountdownRound.Divide | scripts/main.ts:335-352 | As `subtract`, with division. |
| Countdown.Arguments | scripts/main.ts:296-298 | The pair used is the given pair when both values are given, otherwise the first two selected values. |

## Left out

- Rendering and the document: `update`, `updateInterface`, the static element setup and the button states are not modelled. So are the `Countdown` class (event handlers, key mapping, fullscreen) and the firework animation. The operator enabling of `toggleOperators` is modelled by `Game.Enabled` only.
- Reading the checked tiles is not modelled. `selectedOperands` and `selectedNumbers` receive the checked tiles' values as a sequence.
- Storage input and output are not modelled: `localStorage`, `JSON.parse`/`JSON.stringify`, the `btoa` key prefixes, and `Utilities.load`/`save`/`getStorageKeys`. Saved data enters as parsed values, and `Round.Save` gives the data a round writes. Missing storage, a missing key and an unreadable entry all become `Undefined`. The `save` calls after each change are not modelled.
- `getGameId` is not modelled (URL parameters, storage-key matching, `atob` and `Date.now`). The game id is a parameter.
- `Math.random` is not modelled. `Countdown.RandInt` returns an arbitrary value in the requested range.
- Prng.WeightedIndex: the weights `.01, .4, .5, .08, .01` are scaled to the integers `1, 40, 50, 8, 1`. The rounding of the floating-point running sums is not modelled.
- Prng.Scale: computes `floor(rand()·width)` exactly as `(t·width) / 2^32`. This matches the double computation while `t·width` stays below 2^53. The widths used here are at most 899.
- Numbers are unbounded integers. Sums and products beyond 2^53, where JavaScript loses precision, are not modelled.
- Game.IsSolved: counts a `null` record as unsolved. In JavaScript, `filter(r => r.solved)` throws a TypeError on it (arithmetic-game.ts:202). `update` runs at the end of the constructor, so stored records holding `null` make construction throw. The model does not capture that failure.
- Game.Wins: counts a `null` record as no win, where the source throws as described for `Game.IsSolved`.
- Game.SetSolved: leaves a record that is not an object unchanged. In JavaScript, setting a flag on `null` or on a primitive in a module throws, and on an array it adds a property.
- Countdown.CountdownRound.constructor: does not state the drawn target beyond its range, because the draw is an arbitrary choice.
- The `round` and `wins` fields of `CountdownRound` are only set by `load`. Nothing updates them, and a fresh round leaves them undefined. `Countdown.FreshRoundNotRestored` shows that a freshly dealt round is therefore never restored.
- The `Countdown` predicates `additive`, `subtractive`, `multiplicative` and `divisible` are textually the same as those of `utilities.ts`, so the model uses the `Utilities` ones. Its `divisible` has no explicit zero test, but `n % 0` is NaN, which is never `=== 0`.
