# Pudelko: a verified model of the box value type

`Pudelko` ("box") is an immutable C# value type. It holds three dimensions:
length, width and height, stored in meters. Its construction rules are:

- The constructor takes each dimension in millimeters, centimeters or meters.
- It converts each one to meters (mm / 1000, cm / 100, m unchanged).
- It rejects a converted dimension that is not positive, and then one above 10 m.

The type also offers:

- volume (`Objetosc`) and surface area (`Pole`), each rounded with `Math.Round`;
- rendering as `"A m × B m × C m"` (or the same in cm or mm) and `Parse` back;
- exact value equality, `==`, `!=` and a hash code;
- `+` as the per-axis maximum;
- three views of the dimensions: the indexer, the `double[]` cast and the enumerator;
- an implicit conversion from an integer triple.

Two small pieces sit on top of the type:

- the extension `Kompresuj`, which builds the cube of the same volume;
- the three-key comparison that `Main` uses to sort boxes.

The model has four modules, in four files:

- `Text` (`text.dfy`): the .NET string primitives Parse is built from.
  - `String.Split` on one character, or on white space with empty entries kept.
  - `StringSplitOptions.RemoveEmptyEntries`.
  - `Trim` with `char.IsWhiteSpace`.
  - `ToLower`.
- `Numeric` (`numeric.dfy`): unchecked 32-bit `int` arithmetic, and
  `Math.Round(value, digits)` with its default round-half-to-even rule.
- `Pudelko` (`pudelko.dfy`): the type itself.
  - A value is a `Dims` datatype restricted by the subset type `Pudelko` to the constructor's invariant: each side is in (0, 10].
  - Every throwing operation returns a `Result`, whose `Error` names which exception the C# code throws.
- `PudelkoExtensions` and `Program` (`extensions.dfy`): `Kompresuj` and the sort comparison.

Dimensions are `real`. Four .NET library calls are not modelled. Each one is a
function parameter, and the lemmas state what they assume about it:

| .NET call | parameter |
|---|---|
| `F3`/`F1`/`F0` number formatting | `fixed` |
| `double.Parse` | `parseNumber` |
| `double.GetHashCode` | `hashDouble` |
| `Math.Pow(v, 1.0 / 3)` | `cubeRoot` |

Two consequences of the code are worth stating:

- **`+` never fails.** The maximum of two values in (0, 10] is itself in (0, 10], so `Pudelko.Add` is always `Ok`.
- **`Kompresuj` can fail for a valid box.** `Objetosc` rounds to 9 decimals, so a box of 0.1 mm a side has volume 0. With a cube root that maps 0 to 0, `Kompresuj` then gets `OutOfRange(NotPositive)` (`Pudelko.TinyBoxHasZeroVolume`, `PudelkoExtensions.KompresujOfTinyBoxFails`).

## Model

| member | source | states |
|---|---|---|
| `Text.Split` | Pudelko.cs:166 | String.Split never returns an empty array: at least one piece |
| `Text.RemoveEmptyEntries` | Pudelko.cs:160 | the result holds no empty piece, every piece comes from the input, and it is no longer than the input |
| `Text.SplitAtSeparator` | Pudelko.cs:160 | splitting at a separator character splits the two sides independently |
| `Text.SplitLeadingSeparator` | Pudelko.cs:160 | a leading separator gives an empty first piece |
| `Text.SplitWithoutSeparator` | Pudelko.cs:166 | a text with no separator is one piece |
| `Text.SplitCount` | Pudelko.cs:166-167 | Split gives one piece more than the number of separator characters |
| `Text.SplitPiecesHaveNoSeparator` | Pudelko.cs:160 | no piece contains a separator |
| `Text.JoinSplit` | Pudelko.cs:160 | joining the pieces with the separator restores the text (Split loses nothing) |
| `Text.RemoveEmptyEntriesAppend` | Pudelko.cs:160 | dropping empty entries distributes over concatenation |
| `Text.RemoveEmptyEntriesOfNonEmpty` | Pudelko.cs:160 | with no empty piece nothing is dropped |
| `Text.TrimStart` | Pudelko.cs:166 | String.TrimStart; described by `TrimStartBounds` and `TrimStartEnds` |
| `Text.TrimEnd` | Pudelko.cs:166 | String.TrimEnd; described by `TrimEndBounds` and `TrimEndEnds` |
| `Text.Trim` | Pudelko.cs:166 | String.Trim: never longer than its argument, and a non-empty result neither starts nor ends with white space; `TrimBounds` adds that only white space is removed |
| `Text.TrimStartEnds` | Pudelko.cs:166 | TrimStart never lengthens and leaves a non-blank first character |
| `Text.TrimEndEnds` | Pudelko.cs:166 | TrimEnd keeps a prefix and leaves a non-blank last character |
| `Text.TrimBounds` | Pudelko.cs:166 | Trim removes only white space, from the two ends, and leaves none at either end |
| `Text.TrimStartBounds` | Pudelko.cs:166 | TrimStart removes a white-space prefix and leaves a non-blank first character |
| `Text.TrimEndBounds` | Pudelko.cs:166 | TrimEnd removes a white-space suffix and leaves a non-blank last character |
| `Text.TrimSurrounded` | Pudelko.cs:166 | Trim of white space around a text with non-blank ends is that text |
| `Text.TrimStartPrefix` | Pudelko.cs:166 | TrimStart drops exactly a white-space prefix |
| `Text.TrimEndSuffix` | Pudelko.cs:166 | TrimEnd drops exactly a white-space suffix |
| `Text.ToLower` | Pudelko.cs:171 | keeps the length, leaves no upper-case letter A–Z, keeps every character that is not one, and changes a character only to the one 32 code points above it, its lower-case letter |
| `Text.IsWhiteSpace` | Pudelko.cs:166 | the characters `char.IsWhiteSpace` accepts, used by `Trim()` and by `Split()` with no separator |
| `Text.ToLowerIdempotent` | Pudelko.cs:171 | lower-casing twice is lower-casing once |
| `Numeric.WrapInt32` | Pudelko.cs:86-93 | unchecked int arithmetic: a 32-bit signed value congruent to the exact one modulo 2^32 |
| `Numeric.WrapCongruent` | Pudelko.cs:86-93 | values congruent modulo 2^32 wrap to the same int |
| `Numeric.WrapInt32OfInt32` | Pudelko.cs:86-93 | a value already in int range is unchanged |
| `Numeric.WrapMulAdd` | Pudelko.cs:89-91 | wrapping after each `hash * 23 + x` step equals wrapping once at the end |
| `Numeric.RoundHalfEven` | Pudelko.cs:46-48 | Math.Round: within 0.5 of the argument, and an exact tie goes to the even integer |
| `Numeric.RoundHalfEvenOfInteger` | Pudelko.cs:46-48 | an integer rounds to itself |
| `Numeric.RoundHalfEvenMonotone` | Pudelko.cs:46-48 | rounding is monotone |
| `Numeric.ScaledRound` | Pudelko.cs:46-48 | the scaled rounding inside Math.Round; described by `ScaledRoundError` and `ScaledRoundBetween` |
| `Numeric.ScaledRoundError` | Pudelko.cs:46-48 | scaling by p, rounding and scaling back moves a value by at most 0.5 / p |
| `Numeric.Round` | Pudelko.cs:46-48 | Math.Round(x, d): below the 1e16 limit within half a unit of the d-th decimal of x, and a whole number of units of 10^-d (`RoundHasDigits`, `RoundKeepsDecimals`); at or above it, x unchanged |
| `Numeric.RoundHasDigits` | Pudelko.cs:46-48 | below the limit, Math.Round(x, d) is n / 10^d for an integer n |
| `Numeric.RoundKeepsDecimals` | Pudelko.cs:46-48 | below the limit, Math.Round(x, d) has at most d decimals: times 10^d it is a whole number |
| `Numeric.RoundOfExact` | Pudelko.cs:46-48 | a value with at most d decimals is unchanged by Math.Round(x, d) |
| `Numeric.RoundBetween` | Pudelko.cs:46-48 | Math.Round(x, d) stays between two bounds that have at most d decimals |
| `Numeric.ScaledRoundBetween` | Pudelko.cs:46-48 | the scaled rounding stays between two bounds that are whole units of 1 / p |
| `Pudelko.UnitsPerMeter` | Pudelko.cs:189-201 | every unit holds at least one per meter (so conversion never enlarges) |
| `Pudelko.ConvertToMeters` | Pudelko.cs:189-201 | the meter value times the unit's factor (1000, 100, 1) is the argument |
| `Pudelko.New` | Pudelko.cs:21-40 | succeeds iff all three converted sides are in (0, 10]; the fields, times the unit factor, are the arguments in order; the non-positive error is reported iff some side is not positive, else the too-large one |
| `Pudelko.NewOfFields` | Pudelko.cs:21-40 | building from a box's own fields in meters gives the same box |
| `Pudelko.NewUnitIndependent` | Pudelko.cs:21-40 | the same physical size gives the same box in every unit |
| `Pudelko.ConvertScaled` | Pudelko.cs:189-201 | converting a value expressed in a unit back to meters gives the value |
| `Pudelko.NewBoundaries` | Pudelko.cs:21-40 | defaults 10 x 10 x 10 m; 10 m, 10000 mm and 1000 cm accepted; 0, 10.000001 m, 11 m and 10001 mm rejected; positivity is checked first |
| `Pudelko.NewKeepsArgumentOrder` | Pudelko.cs:37-39 | fields keep argument order: (1,2,3) and (3,2,1) are different boxes |
| `Pudelko.FromTuple` | Pudelko.cs:123-126 | the conversion as written, on three 32-bit `int` components: succeeds iff each is in (0, 10^7], the sides being n / 10^6 m |
| `Pudelko.FromMillimeterTuple` | Pudelko.cs:123-126 | the conversion as intended, on three 32-bit `int` components: succeeds iff each is in (0, 10^4], the sides being n / 1000 m |
| `Pudelko.FromTupleDividesTwice` | Pudelko.cs:125 | (1000, 2000, 3000) gives a 1 x 2 x 3 mm box instead of 1 x 2 x 3 m, and (20000, 20000, 20000) is accepted |
| `Pudelko.FromMillimeterTupleIsConstructor` | Pudelko.cs:123-126 | the intended conversion is the millimeter constructor, and it agrees with the as-written one only where both fail with the same error |
| `Pudelko.ProductBounds` | Pudelko.cs:46-48 | helper of `ExactVolumeBounds` and `ExactAreaBounds`: a product of two positive bounded values is positive and bounded by the product of the bounds |
| `Pudelko.ExactVolumeBounds` | Pudelko.cs:46 | the exact volume of a valid box lies in (0, 1000] |
| `Pudelko.ExactAreaBounds` | Pudelko.cs:48 | the exact surface area of a valid box lies in (0, 600] |
| `Pudelko.Objetosc` | Pudelko.cs:46 | volume lies in [0, 1000], is within 5e-10 of length * width * height, and has at most 9 decimals |
| `Pudelko.Pole` | Pudelko.cs:48 | area lies in [0, 600], is within 5e-7 of 2(lw + lh + wh), and has at most 6 decimals |
| `Pudelko.MetricsOf234` | Pudelko.cs:46-48 | the 2 x 3 x 4 box has volume 24 and area 52 |
| `Pudelko.TinyBoxHasZeroVolume` | Pudelko.cs:46 | a valid 0.1 mm cube has volume 0 after rounding |
| `Pudelko.UnitOfSuffix` | Pudelko.cs:57-66 | exactly the tokens "m", "cm" and "mm" name a unit |
| `Pudelko.Scale` | Pudelko.cs:60-64 | the scaled value (x1, x100, x1000) converts back to the meter value |
| `Pudelko.ToString` | Pudelko.cs:55-68 | succeeds iff the format is "m", "cm" or "mm"; any other format is a FormatException |
| `Pudelko.ToStringDefault` | Pudelko.cs:50-53 | ToString() is ToString("m") |
| `Pudelko.Render` | Pudelko.cs:60-64 | one String.Format pattern, "a u × b u × c u"; described by `ToStringIsRender`, `PartsOfJoin3` and `ParseToString` |
| `Pudelko.ToStringIsRender` | Pudelko.cs:59-64 | each format renders the fields scaled to its unit, with its decimals (3, 1, 0) and its suffix |
| `Pudelko.ParseToken` | Pudelko.cs:170-183 | succeeds iff the number parses and the lower-cased unit is m, cm or mm; the value is the number converted to meters; an unparsable number is reported before an unknown unit |
| `Pudelko.ParsePart` | Pudelko.cs:166-168 | a trimmed part without exactly one white-space character is a layout error; otherwise its two tokens are parsed |
| `Pudelko.FromParts` | Pudelko.cs:164-186 | the first failing part's error wins; otherwise the meter values go to the constructor |
| `Pudelko.Parts` | Pudelko.cs:160 | Split on '×' with empty entries removed: every part is non-empty and holds no '×' |
| `Pudelko.Parse` | Pudelko.cs:158-187 | not exactly three non-empty '×' parts is a layout error; otherwise the parts are parsed in order and passed to the constructor |
| `Pudelko.NoSeparatorAppend` | Pudelko.cs:160-166 | concatenating separator-free texts keeps them separator-free |
| `Pudelko.ParsePartOfClause` | Pudelko.cs:166-183 | a "number unit" clause with white space around it parses as its two tokens |
| `Pudelko.PartsOfJoin3` | Pudelko.cs:160 | "a × b × c" splits into the three clauses and their spaces |
| `Pudelko.ClauseHasNoTimes` | Pudelko.cs:160 | a clause of two tokens contains no '×' |
| `Pudelko.ParseClauses` | Pudelko.cs:158-187 | any "n1 u1 × n2 u2 × n3 u3" parses clause by clause into the constructor |
| `Pudelko.ParseToString` | Pudelko.cs:55-68 | round trip: for each format, Parse of ToString gives the box back when the number rendering is exact |
| `Pudelko.FormatTokenFacts` | Pudelko.cs:59-64 | the three format suffixes are single tokens and already lower case |
| `Pudelko.ParseNeedsMultiplicationSign` | Pudelko.cs:160-162 | a text without '×' is a layout error |
| `Pudelko.ParseRejectsLetterX` | Pudelko.cs:160-162 | "1 m x 2 m x 3 m" (letter x) is a layout error |
| `Pudelko.ParseIgnoresLeadingTimes` | Pudelko.cs:160 | a leading '×' does not change the result |
| `Pudelko.ParseIgnoresDoubledTimes` | Pudelko.cs:160 | a doubled '×' counts as one |
| `Pudelko.PartsOfDoubledTimes` | Pudelko.cs:160 | a doubled '×' gives the same parts as a single one |
| `Pudelko.ParsePartRejectsDoubleSpace` | Pudelko.cs:166-168 | "1  m" (two spaces) has three tokens and is a layout error |
| `Pudelko.UnitIsCaseInsensitive` | Pudelko.cs:171 | "M", "Cm" and "MM" mean m, cm and mm |
| `Pudelko.ParseRejectsUnknownUnit` | Pudelko.cs:181-182 | "1 kg × 2 m × 3 m" is an unknown-unit error |
| `Pudelko.ParseInheritsRangeCheck` | Pudelko.cs:186 | "11 m × 1 m × 1 m" parses, then fails the constructor's upper bound |
| `Pudelko.ParseMixedUnits` | Pudelko.cs:173-186 | "1 m × 200 cm × 3000 MM" is the 1 x 2 x 3 m box |
| `Pudelko.MixedUnitTokens` | Pudelko.cs:173-180 | "200 cm" is 2 m and "3000 MM" is 3 m |
| `Pudelko.TokenFacts` | Pudelko.cs:166 | the sample numbers and units are single tokens |
| `Pudelko.Equals` | Pudelko.cs:70-74 | true iff the other box is present and has the same three fields |
| `Pudelko.OpEquals` | Pudelko.cs:96-103 | == holds iff both are null or both are the same box |
| `Pudelko.OpNotEquals` | Pudelko.cs:105-108 | != is the negation of == |
| `Pudelko.OpEqualsIsEquivalence` | Pudelko.cs:96-103 | == is reflexive, symmetric and transitive |
| `Pudelko.EqualityIsOrderSensitive` | Pudelko.cs:70-74 | (1,2,3) != (3,2,1); null is equal only to null |
| `Pudelko.HashOf` | Pudelko.cs:84-94 | the closed form of the hash, 17*23^3 + 23^2 h(l) + 23 h(w) + h(h) wrapped to int; `GetHashCode` is proved to compute it |
| `Pudelko.GetHashCode` | Pudelko.cs:84-94 | the three unchecked steps from 17 compute 17*23^3 + 23^2 h(l) + 23 h(w) + h(h), wrapped to int |
| `Pudelko.EqualBoxesHashEqual` | Pudelko.cs:84-94 | equal boxes have equal hash codes |
| `Pudelko.Max` | Pudelko.cs:112-114 | Math.Max: at least both arguments and one of them |
| `Pudelko.Add` | Pudelko.cs:110-116 | + never fails; each side is the larger of the two operands' sides on that axis |
| `Pudelko.AddIsJoin` | Pudelko.cs:110-116 | + is commutative, idempotent and associative, and is the least box both operands fit in |
| `Pudelko.AddExample` | Pudelko.cs:110-116 | (1,5,2) + (2,3,4) = (2,5,4) |
| `Pudelko.Index` | Pudelko.cs:128-144 | defined iff the index is 0, 1 or 2, else IndexOutOfRangeException; index 0, 1, 2 returns length, width, height; a defined value is a valid side |
| `Pudelko.IndexExample` | Pudelko.cs:132-141 | indexes 0, 1, 2 give length, width, height; 3 and -1 fail |
| `Pudelko.IndexDeterminesBox` | Pudelko.cs:128-144 | two boxes with the same indexer values are the same box |
| `Pudelko.ToDoubleArray` | Pudelko.cs:118-121 | a new three-element array holding this[0], this[1], this[2], i.e. length, width, height |
| `Pudelko.GetEnumerator` | Pudelko.cs:146-151 | yields exactly this[0], this[1], this[2], i.e. length, width, height, in that order |
| `PudelkoExtensions.Kompresuj` | Pudelko.cs:206-211 | succeeds iff the cube root of the rounded volume is a valid side; then the three sides are equal to it |
| `PudelkoExtensions.CubeAbove` | Pudelko.cs:209-210 | helper of `KompresujKeepsVolume`: a side above 10 has a cube above 1000 |
| `PudelkoExtensions.KompresujKeepsVolume` | Pudelko.cs:206-211 | given a true cube root of a positive volume, the cube is valid and its exact volume is the box's volume |
| `PudelkoExtensions.KompresujOfTinyBoxFails` | Pudelko.cs:206-211 | the 0.1 mm cube, whose volume rounds to 0, cannot be compressed |
| `PudelkoExtensions.KompresujExample` | Pudelko.cs:206-211 | 2 x 4 x 1 compresses to the 2 m cube |
| `Program.CompareTo` | Pudelko.cs:234-237 | double.CompareTo: -1, 0 or 1 as the first is smaller, equal or larger |
| `Program.Compare` | Pudelko.cs:231-238 | -1, 0 or 1; 0 iff volume, area and side sum all agree; -1 iff lexicographically smaller on (volume, area, side sum), 1 iff larger |
| `Program.CompareIsTotalPreorder` | Pudelko.cs:231-238 | the comparison is reflexive, antisymmetric and transitive, as List.Sort needs |
| `Program.MainOrder` | Pudelko.cs:218-238 | Main's boxes sort as 1 x 5 x 2 (10), 3 x 3 x 3 (27), 2.5 x 3 x 4 (30) |

## Left out

- Floating point: dimensions are exact reals. Binary rounding of each division and product is not modelled, and neither are NaN and the infinities. The C# constructor lets NaN through, because `NaN <= 0` and `NaN > 10` are both false.
- Math.Round is modelled on exact reals. Its rounding of the scaled double is not.
- `F3`/`F1`/`F0` formatting and the culture-dependent `double.Parse` are the parameters `fixed` and `parseNumber`.
- `Pudelko.ParseToString`: the round trip is stated only for boxes whose scaled sides render and parse back exactly (`RendersFieldsExactly`). A side with more decimals than the format keeps is rounded by the rendering, and then it does not come back unchanged.
- `Math.Pow(volume, 1.0 / 3)` in Kompresuj is the parameter `cubeRoot`.
- `double.GetHashCode` is the parameter `hashDouble`.
- `Text.ToLower`: it lower-cases only A–Z. The model compares lower-cased units with "m", "cm" and "mm" only. A non-ASCII character that `String.ToLower` maps to one of those letters would be accepted by the C# code and rejected by the model.
- The `GetType()` check in `Equals(object)` and the `object` overload itself are not modelled. Dafny's types already exclude other kinds of object.
- `ReferenceEquals` in `==` is not modelled: a box has no identity in the model.
- The unused `IFormatProvider` parameter and the unused constant `MaxDimensionCentimeters` are not modelled.
- The `NullReferenceException` for a null argument is not modelled: every operation takes a box or a string. This covers `+`, the cast and the indexer on a null box, `Parse(null)` at `dimensionsString.Split`, and `Kompresuj(null)` at `original.Objetosc`.
- `ToString(null)` is not modelled. In C# it reaches `default:` and throws a FormatException; a Dafny string cannot be null.
- The `default:` branch of `ConvertToMeters` is not modelled. It treats an undefined enum value such as `(UnitOfMeasure)7` as meters. `UnitOfMeasure` is a closed datatype with only the three declared units, so no such value exists in the model.
- The non-generic `IEnumerable.GetEnumerator` is not modelled: it returns the same enumerator.
- The laziness of the `yield` enumerator is not modelled: `GetEnumerator` returns the three values as a sequence.
- `Main`'s console output is left out. So is `List.Sort` itself: only the comparison it is given is modelled.

## Findings

| source | as written | input that shows it | evidently intended | confidence | as-written member | corrected member |
|---|---|---|---|---|---|---|
| Pudelko.cs:125 | each component is divided by 1000.0 and then passed with `UnitOfMeasure.Milimeter`, which divides by 1000 again | (1000, 2000, 3000) gives a 1 x 2 x 3 mm box; (20000, 20000, 20000) is accepted | the integers are millimeters: one division, n / 1000 m, and at most 10000 each | not executed | `Pudelko.FromTupleDividesTwice` | `Pudelko.FromMillimeterTuple` |
