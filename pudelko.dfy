/**
 * The Pudelko ("box") value type: three dimensions held in meters, each in
 * (0, 10], built by a validating constructor that converts from millimeters,
 * centimeters or meters; its volume and surface area; rendering in three
 * units and parsing back; value equality and a hash code; the per-axis
 * maximum `+`; and three views of the dimensions (indexer, array cast,
 * enumerator).
 *
 * Dimensions are exact reals. The C# class holds doubles: binary rounding of
 * every arithmetic step is not modelled, and neither is NaN, which the
 * constructor's `<= 0` and `> 10` tests both let through.
 */
module Pudelko {
  import opened Text
  import opened Numeric

  datatype UnitOfMeasure = Milimeter | Centimeter | Meter

  /** Which of the constructor's two ArgumentOutOfRangeException throws fired. */
  datatype RangeViolation = NotPositive | ExceedsMaximum

  /** Which FormatException was thrown. */
  datatype FormatViolation =
    | UnknownFormat     // ToString with a format other than "m", "cm", "mm"
    | WrongLayout       // Parse: not three '×' parts, or a part not two tokens
    | UnparsableNumber  // Parse: double.Parse rejected the number token
    | UnknownUnit       // Parse: unit token not m, cm or mm

  /** The exceptions the type throws. */
  datatype Error =
    | OutOfRange(range: RangeViolation)
    | FormatError(format: FormatViolation)
    | IndexOutOfRange

  datatype Option<+T> = None | Some(value: T)

  datatype Result<+T> = Ok(value: T) | Err(error: Error)

  const MaxDimensionMeters: real := 10.0

  /** The multiplication sign U+00D7 that separates the three clauses. */
  const Times: char := '\U{00D7}'

  predicate InRange(d: real)
  {
    0.0 < d <= MaxDimensionMeters
  }

  /** The three readonly fields, in constructor-argument order. */
  datatype Dims = Dims(length: real, width: real, height: real)
  {
    predicate Valid()
    {
      InRange(length) && InRange(width) && InRange(height)
    }
  }

  /** Every Pudelko that exists has passed the constructor's validation. */
  type Pudelko = d: Dims | d.Valid() witness Dims(10.0, 10.0, 10.0)

  // ---------------------------------------------------------------------
  // Construction

  /** How many of the unit make one meter. */
  function UnitsPerMeter(unit: UnitOfMeasure): (k: real)
    ensures k >= 1.0
  {
    match unit
    case Milimeter => 1000.0
    case Centimeter => 100.0
    case Meter => 1.0
  }

  /** ConvertToMeters: mm / 1000, cm / 100, m unchanged. */
  function ConvertToMeters(value: real, unit: UnitOfMeasure): (r: real)
    ensures r * UnitsPerMeter(unit) == value
  {
    match unit
    case Milimeter => value / 1000.0
    case Centimeter => value / 100.0
    case Meter => value
  }

  /** The constructor Pudelko(a = 10, b = 10, c = 10, unit = Meter): converts
      each argument to meters, then rejects a non-positive dimension, then one
      above 10 m; otherwise the converted values become the fields, in
      argument order. */
  function New(a: real := 10.0, b: real := 10.0, c: real := 10.0,
               unit: UnitOfMeasure := Meter): (r: Result<Pudelko>)
    ensures r.Ok? <==>
      InRange(ConvertToMeters(a, unit)) && InRange(ConvertToMeters(b, unit)) &&
      InRange(ConvertToMeters(c, unit))
    ensures r.Ok? ==>
      r.value.length * UnitsPerMeter(unit) == a &&
      r.value.width * UnitsPerMeter(unit) == b &&
      r.value.height * UnitsPerMeter(unit) == c
    ensures r.Err? ==> r.error.OutOfRange?
    ensures r.Err? ==> (r.error.range == NotPositive <==>
      ConvertToMeters(a, unit) <= 0.0 || ConvertToMeters(b, unit) <= 0.0 ||
      ConvertToMeters(c, unit) <= 0.0)
  {
    var lengthInMeters := ConvertToMeters(a, unit);
    var widthInMeters := ConvertToMeters(b, unit);
    var heightInMeters := ConvertToMeters(c, unit);
    if lengthInMeters <= 0.0 || widthInMeters <= 0.0 || heightInMeters <= 0.0 then
      Err(OutOfRange(NotPositive))
    else if lengthInMeters > MaxDimensionMeters || widthInMeters > MaxDimensionMeters ||
            heightInMeters > MaxDimensionMeters then
      Err(OutOfRange(ExceedsMaximum))
    else
      Ok(Dims(lengthInMeters, widthInMeters, heightInMeters))
  }

  /** Rebuilding a box from its own fields in meters gives the same box. */
  lemma NewOfFields(p: Pudelko)
    ensures New(p.length, p.width, p.height, Meter) == Ok(p)
  {
  }

  /** The same physical size gives the same box whatever the unit. */
  lemma NewUnitIndependent(a: real, b: real, c: real, unit: UnitOfMeasure)
    ensures New(a * UnitsPerMeter(unit), b * UnitsPerMeter(unit), c * UnitsPerMeter(unit), unit)
         == New(a, b, c, Meter)
  {
    var k := UnitsPerMeter(unit);
    ConvertScaled(a, unit);
    ConvertScaled(b, unit);
    ConvertScaled(c, unit);
  }

  lemma ConvertScaled(v: real, unit: UnitOfMeasure)
    ensures ConvertToMeters(v * UnitsPerMeter(unit), unit) == v
  {
  }

  /** The closed boundary: exactly 10 m (10000 mm, 1000 cm) is accepted;
      0, 10.000001 m and 10001 mm are not; the positivity test comes first. */
  lemma NewBoundaries()
    ensures New(10.0, 10.0, 10.0) == Ok(Dims(10.0, 10.0, 10.0))
    ensures New() == Ok(Dims(10.0, 10.0, 10.0))
    ensures New(2.0) == Ok(Dims(2.0, 10.0, 10.0))
    ensures New(10_000.0, 1.0, 1.0, Milimeter) == Ok(Dims(10.0, 0.001, 0.001))
    ensures New(1_000.0, 1.0, 1.0, Centimeter) == Ok(Dims(10.0, 0.01, 0.01))
    ensures New(0.0, 1.0, 1.0) == Err(OutOfRange(NotPositive))
    ensures New(11.0, 1.0, 1.0) == Err(OutOfRange(ExceedsMaximum))
    ensures New(10.000001, 1.0, 1.0) == Err(OutOfRange(ExceedsMaximum))
    ensures New(10_001.0, 1.0, 1.0, Milimeter) == Err(OutOfRange(ExceedsMaximum))
    ensures New(20.0, -1.0, 1.0) == Err(OutOfRange(NotPositive))
  {
  }

  /** The fields keep argument order: no sorting. */
  lemma NewKeepsArgumentOrder()
    ensures New(1.0, 2.0, 3.0).Ok? && New(3.0, 2.0, 1.0).Ok?
    ensures New(1.0, 2.0, 3.0).value.length == 1.0 && New(3.0, 2.0, 1.0).value.length == 3.0
    ensures New(1.0, 2.0, 3.0) != New(3.0, 2.0, 1.0)
  {
  }

  /** The implicit conversion from (int a, int b, int c): each component is
      divided by 1000.0 and the result passed with UnitOfMeasure.Milimeter,
      so ConvertToMeters divides by 1000 a second time. */
  function FromTuple(a: Int32, b: Int32, c: Int32): (r: Result<Pudelko>)
    ensures r.Ok? <==> 0 < a <= 10_000_000 && 0 < b <= 10_000_000 && 0 < c <= 10_000_000
    ensures r.Ok? ==> r.value == Dims(a as real / 1_000_000.0, b as real / 1_000_000.0,
                                      c as real / 1_000_000.0)
  {
    New(a as real / 1000.0, b as real / 1000.0, c as real / 1000.0, Milimeter)
  }

  /** The conversion as its declared meaning reads (the integers are
      millimeters): one division by 1000. */
  function FromMillimeterTuple(a: Int32, b: Int32, c: Int32): (r: Result<Pudelko>)
    ensures r.Ok? <==> 0 < a <= 10_000 && 0 < b <= 10_000 && 0 < c <= 10_000
    ensures r.Ok? ==> r.value == Dims(a as real / 1000.0, b as real / 1000.0, c as real / 1000.0)
  {
    New(a as real, b as real, c as real, Milimeter)
  }

  /** The double division: (1000, 2000, 3000) mm, i.e. 1 m x 2 m x 3 m, becomes
      a 1 mm x 2 mm x 3 mm box, and (20000, 20000, 20000), 20 m a side, is
      accepted instead of rejected. */
  lemma FromTupleDividesTwice()
    ensures FromTuple(1000, 2000, 3000) == Ok(Dims(0.001, 0.002, 0.003))
    ensures FromMillimeterTuple(1000, 2000, 3000) == Ok(Dims(1.0, 2.0, 3.0))
    ensures FromTuple(20_000, 20_000, 20_000).Ok?
    ensures FromMillimeterTuple(20_000, 20_000, 20_000) == Err(OutOfRange(ExceedsMaximum))
  {
  }

  /** The intended conversion agrees with the constructor in millimeters. */
  lemma FromMillimeterTupleIsConstructor(a: Int32, b: Int32, c: Int32)
    ensures FromMillimeterTuple(a, b, c) == New(a as real, b as real, c as real, Milimeter)
    ensures FromTuple(a, b, c) == FromMillimeterTuple(a, b, c) <==>
      FromTuple(a, b, c).Err? && FromMillimeterTuple(a, b, c).Err? &&
      FromTuple(a, b, c).error == FromMillimeterTuple(a, b, c).error
  {
    var t, m := FromTuple(a, b, c), FromMillimeterTuple(a, b, c);
    if t.Ok? && m.Ok? {
      assert t.value.length * 1000.0 == m.value.length;
      assert t.value.length != m.value.length;
    }
  }

  // ---------------------------------------------------------------------
  // Derived metrics

  lemma ProductBounds(x: real, y: real, xMax: real, yMax: real)
    requires 0.0 < x <= xMax && 0.0 < y <= yMax
    ensures 0.0 < x * y <= xMax * yMax
  {
  }

  /** The exact product of the sides lies in (0, 1000] m^3. */
  lemma ExactVolumeBounds(p: Pudelko)
    ensures 0.0 < p.length * p.width * p.height <= 1000.0
  {
    ProductBounds(p.length, p.width, 10.0, 10.0);
    ProductBounds(p.length * p.width, p.height, 100.0, 10.0);
  }

  /** The exact surface area lies in (0, 600] m^2. */
  lemma ExactAreaBounds(p: Pudelko)
    ensures 0.0 < 2.0 * (p.length * p.width + p.length * p.height + p.width * p.height) <= 600.0
  {
    var lw, lh, wh := p.length * p.width, p.length * p.height, p.width * p.height;
    ProductBounds(p.length, p.width, 10.0, 10.0);
    ProductBounds(p.length, p.height, 10.0, 10.0);
    ProductBounds(p.width, p.height, 10.0, 10.0);
    assert 0.0 < lw <= 100.0 && 0.0 < lh <= 100.0 && 0.0 < wh <= 100.0;
  }

  /** Objetosc: Math.Round(length * width * height, 9). It is within half a
      unit of the ninth decimal of the exact volume, keeps nine decimals and
      lies in [0, 1000]; a small enough box rounds to 0. */
  function Objetosc(p: Pudelko): (r: real)
    ensures 0.0 <= r <= 1000.0
    ensures -0.000_000_000_5 <= r - p.length * p.width * p.height <= 0.000_000_000_5
    ensures HasDecimals(r, 9)
  {
    var v := p.length * p.width * p.height;
    ExactVolumeBounds(p);
    RoundBetween(v, 9, 0, 1_000_000_000_000);
    RoundKeepsDecimals(v, 9);
    Round(v, 9)
  }

  /** Pole: Math.Round(2 * (lw + lh + wh), 6). It is within half a unit of
      the sixth decimal of the exact area, keeps six decimals and lies in
      [0, 600]. */
  function Pole(p: Pudelko): (r: real)
    ensures 0.0 <= r <= 600.0
    ensures -0.000_000_5 <= r - 2.0 * (p.length * p.width + p.length * p.height + p.width * p.height)
                         <= 0.000_000_5
    ensures HasDecimals(r, 6)
  {
    var s := 2.0 * (p.length * p.width + p.length * p.height + p.width * p.height);
    ExactAreaBounds(p);
    RoundBetween(s, 6, 0, 600_000_000);
    RoundKeepsDecimals(s, 6);
    Round(s, 6)
  }

  /** The 2 x 3 x 4 box: volume 24, area 2 * (6 + 8 + 12) = 52. */
  lemma MetricsOf234()
    ensures Objetosc(Dims(2.0, 3.0, 4.0)) == 24.0
    ensures Pole(Dims(2.0, 3.0, 4.0)) == 52.0
  {
    RoundOfExact(24.0, 9, 24_000_000_000);
    RoundOfExact(52.0, 6, 52_000_000);
  }

  /** A 0.1 mm cube is a valid box whose volume, 1e-12 m^3, rounds to 0. */
  lemma TinyBoxHasZeroVolume()
    ensures Dims(0.0001, 0.0001, 0.0001).Valid()
    ensures Objetosc(Dims(0.0001, 0.0001, 0.0001)) == 0.0
  {
    var v := 0.0001 * 0.0001 * 0.0001;
    assert v == 0.000_000_000_001;
    assert v * RoundPower10[9] == 0.001;
    assert RoundHalfEven(0.001) == 0;
  }

  // ---------------------------------------------------------------------
  // Formatting

  /** The unit a format token or a lower-cased unit token names. */
  function UnitOfSuffix(s: string): (u: Option<UnitOfMeasure>)
    ensures u.Some? <==> s == "m" || s == "cm" || s == "mm"
  {
    if s == "m" then Some(Meter)
    else if s == "cm" then Some(Centimeter)
    else if s == "mm" then Some(Milimeter)
    else None
  }

  /** A length in meters expressed in the unit: the inverse of ConvertToMeters. */
  function Scale(x: real, u: UnitOfMeasure): (r: real)
    ensures ConvertToMeters(r, u) == x
    ensures r == x * UnitsPerMeter(u)
  {
    match u
    case Meter => x
    case Centimeter => x * 100.0
    case Milimeter => x * 1000.0
  }

  /** Decimal places of each format: F3 for m, F1 for cm, F0 for mm. */
  function Decimals(unit: UnitOfMeasure): nat
  {
    match unit
    case Meter => 3
    case Centimeter => 1
    case Milimeter => 0
  }

  /** "<number> <unit>" */
  function Clause(number: string, unit: string): string
  {
    number + " " + unit
  }

  /** "<a> × <b> × <c>" */
  function Join3(a: string, b: string, c: string): string
  {
    a + [' ', Times, ' '] + b + [' ', Times, ' '] + c
  }

  /** One String.Format pattern: the three values rendered with `fixed`
      (the runtime's "F<decimals>" formatting) and the unit suffix. */
  function Render(x: real, y: real, z: real, decimals: nat, suffix: string,
                  fixed: (real, nat) -> string): string
  {
    Join3(Clause(fixed(x, decimals), suffix), Clause(fixed(y, decimals), suffix),
          Clause(fixed(z, decimals), suffix))
  }

  /** ToString(format, provider): "m", "cm" and "mm" render the fields scaled
      by 1, 100 and 1000 with 3, 1 and 0 decimals; any other format is a
      FormatException. */
  function ToString(p: Pudelko, format: string, fixed: (real, nat) -> string): (r: Result<string>)
    ensures r.Ok? <==> UnitOfSuffix(format).Some?
    ensures r.Err? ==> r.error == FormatError(UnknownFormat)
  {
    if format == "m" then
      Ok(Render(p.length, p.width, p.height, 3, "m", fixed))
    else if format == "cm" then
      Ok(Render(p.length * 100.0, p.width * 100.0, p.height * 100.0, 1, "cm", fixed))
    else if format == "mm" then
      Ok(Render(p.length * 1000.0, p.width * 1000.0, p.height * 1000.0, 0, "mm", fixed))
    else
      Err(FormatError(UnknownFormat))
  }

  /** ToString() is ToString("m", null). */
  function ToStringDefault(p: Pudelko, fixed: (real, nat) -> string): (r: string)
    ensures ToString(p, "m", fixed) == Ok(r)
  {
    ToString(p, "m", fixed).value
  }

  /** The text each format produces: the scaled fields, the format's
      decimals and the format token as suffix. */
  lemma ToStringIsRender(p: Pudelko, format: string, fixed: (real, nat) -> string)
    requires UnitOfSuffix(format).Some?
    ensures var u := UnitOfSuffix(format).value;
      ToString(p, format, fixed) ==
        Ok(Render(Scale(p.length, u), Scale(p.width, u), Scale(p.height, u), Decimals(u), format, fixed))
  {
  }

  // ---------------------------------------------------------------------
  // Parsing

  /** The numeric-literal-and-unit step of one clause: double.Parse on the
      number (given as `parseNumber`), then the lower-cased unit mapped to
      value, value / 100 or value / 1000. */
  function ParseToken(number: string, unit: string, parseNumber: string -> Option<real>): (r: Result<real>)
    ensures r.Ok? <==> parseNumber(number).Some? && UnitOfSuffix(ToLower(unit)).Some?
    ensures r.Ok? ==>
      r.value == ConvertToMeters(parseNumber(number).value, UnitOfSuffix(ToLower(unit)).value)
    ensures parseNumber(number).None? ==> r == Err(FormatError(UnparsableNumber))
    ensures r.Err? && parseNumber(number).Some? ==> r == Err(FormatError(UnknownUnit))
  {
    match parseNumber(number)
    case None => Err(FormatError(UnparsableNumber))
    case Some(value) =>
      var unitString := ToLower(unit);
      if unitString == "m" then Ok(value)
      else if unitString == "cm" then Ok(value / 100.0)
      else if unitString == "mm" then Ok(value / 1000.0)
      else Err(FormatError(UnknownUnit))
  }

  /** One '×'-separated part: trimmed, split on every white-space character
      with empty tokens kept, and required to give exactly two tokens, i.e.
      to hold exactly one white-space character once trimmed. */
  function ParsePart(part: string, parseNumber: string -> Option<real>): (r: Result<real>)
    ensures SeparatorCount(Trim(part), WhiteSpace) != 1 ==> r == Err(FormatError(WrongLayout))
    ensures SeparatorCount(Trim(part), WhiteSpace) == 1 ==>
      var tokens := Split(Trim(part), WhiteSpace);
      |tokens| == 2 && r == ParseToken(tokens[0], tokens[1], parseNumber)
  {
    var valueUnitPair := Split(Trim(part), WhiteSpace);
    SplitCount(Trim(part), WhiteSpace);
    if |valueUnitPair| != 2 then Err(FormatError(WrongLayout))
    else ParseToken(valueUnitPair[0], valueUnitPair[1], parseNumber)
  }

  /** The parts are converted in order and the first failure is thrown;
      otherwise the three meter values go to the constructor. */
  function FromParts(a: Result<real>, b: Result<real>, c: Result<real>): (r: Result<Pudelko>)
    ensures a.Err? ==> r == Err(a.error)
    ensures a.Ok? && b.Err? ==> r == Err(b.error)
    ensures a.Ok? && b.Ok? && c.Err? ==> r == Err(c.error)
    ensures a.Ok? && b.Ok? && c.Ok? ==> r == New(a.value, b.value, c.value, Meter)
  {
    if a.Err? then Err(a.error)
    else if b.Err? then Err(b.error)
    else if c.Err? then Err(c.error)
    else New(a.value, b.value, c.value, Meter)
  }

  /** The '×' parts of a text, empty entries removed: each part is non-empty
      and holds no '×'. */
  function Parts(s: string): (r: seq<string>)
    ensures forall i :: 0 <= i < |r| ==> r[i] != [] && NoSeparator(r[i], Char(Times))
  {
    SplitPiecesHaveNoSeparator(s, Char(Times));
    RemoveEmptyEntries(Split(s, Char(Times)))
  }

  /** Parse: three non-empty '×' parts, each "<number> <unit>", the results
      passed to the constructor in meters. */
  function Parse(s: string, parseNumber: string -> Option<real>): (r: Result<Pudelko>)
    ensures |Parts(s)| != 3 ==> r == Err(FormatError(WrongLayout))
    ensures |Parts(s)| == 3 ==>
      r == FromParts(ParsePart(Parts(s)[0], parseNumber), ParsePart(Parts(s)[1], parseNumber),
                     ParsePart(Parts(s)[2], parseNumber))
  {
    var dimensionsParts := RemoveEmptyEntries(Split(s, Char(Times)));
    if |dimensionsParts| != 3 then Err(FormatError(WrongLayout))
    else
      FromParts(ParsePart(dimensionsParts[0], parseNumber),
                ParsePart(dimensionsParts[1], parseNumber),
                ParsePart(dimensionsParts[2], parseNumber))
  }

  /** A non-empty token with no white space and no '×' in it. */
  predicate IsToken(t: string)
  {
    t != [] && NoSeparator(t, WhiteSpace) && NoSeparator(t, Char(Times))
  }

  lemma NoSeparatorAppend(a: string, b: string, sep: Separator)
    requires NoSeparator(a, sep) && NoSeparator(b, sep)
    ensures NoSeparator(a + b, sep)
  {
    forall i | 0 <= i < |a + b| ensures !Separates(sep, (a + b)[i]) {
      if i >= |a| {
        assert (a + b)[i] == b[i - |a|];
      }
    }
  }

  /** A clause with white space around it parses as its two tokens. */
  lemma {:induction false} ParsePartOfClause(pre: string, number: string, unit: string, post: string,
                                             parseNumber: string -> Option<real>)
    requires AllWhiteSpace(pre) && AllWhiteSpace(post)
    requires IsToken(number) && IsToken(unit)
    ensures ParsePart(pre + Clause(number, unit) + post, parseNumber) == ParseToken(number, unit, parseNumber)
  {
    var c := Clause(number, unit);
    assert c == number + [' '] + unit;
    assert c[0] == number[0];
    assert c[|c| - 1] == unit[|unit| - 1];
    TrimSurrounded(pre, c, post);
    SplitAtSeparator(number, ' ', unit, WhiteSpace);
    SplitWithoutSeparator(number, WhiteSpace);
    SplitWithoutSeparator(unit, WhiteSpace);
    assert Split(c, WhiteSpace) == [number, unit];
    SplitCount(c, WhiteSpace);
  }

  /** The three '×' parts of a Join3. */
  lemma {:induction false} PartsOfJoin3(c1: string, c2: string, c3: string)
    requires NoSeparator(c1, Char(Times)) && NoSeparator(c2, Char(Times)) && NoSeparator(c3, Char(Times))
    ensures Parts(Join3(c1, c2, c3)) == [c1 + " ", " " + c2 + " ", " " + c3]
  {
    var p1, p2, p3 := c1 + " ", " " + c2 + " ", " " + c3;
    assert Join3(c1, c2, c3) == p1 + [Times] + (p2 + [Times] + p3);
    SplitAtSeparator(p1, Times, p2 + [Times] + p3, Char(Times));
    SplitAtSeparator(p2, Times, p3, Char(Times));
    assert NoSeparator(" ", Char(Times));
    NoSeparatorAppend(c1, " ", Char(Times));
    NoSeparatorAppend(" ", c2, Char(Times));
    NoSeparatorAppend(" " + c2, " ", Char(Times));
    NoSeparatorAppend(" ", c3, Char(Times));
    SplitWithoutSeparator(p1, Char(Times));
    SplitWithoutSeparator(p2, Char(Times));
    SplitWithoutSeparator(p3, Char(Times));
    RemoveEmptyEntriesOfNonEmpty([p1, p2, p3]);
  }

  /** A clause built from two tokens has no '×' in it. */
  lemma ClauseHasNoTimes(number: string, unit: string)
    requires IsToken(number) && IsToken(unit)
    ensures NoSeparator(Clause(number, unit), Char(Times))
  {
    assert NoSeparator(" ", Char(Times));
    NoSeparatorAppend(number, " ", Char(Times));
    NoSeparatorAppend(number + " ", unit, Char(Times));
  }

  /** Any text of the form "<n1> <u1> × <n2> <u2> × <n3> <u3>" parses clause
      by clause. */
  lemma ParseClauses(n1: string, u1: string, n2: string, u2: string,
                     n3: string, u3: string, parseNumber: string -> Option<real>)
    requires IsToken(n1) && IsToken(u1) && IsToken(n2) && IsToken(u2) && IsToken(n3) && IsToken(u3)
    ensures Parse(Join3(Clause(n1, u1), Clause(n2, u2), Clause(n3, u3)), parseNumber) ==
      FromParts(ParseToken(n1, u1, parseNumber), ParseToken(n2, u2, parseNumber),
                ParseToken(n3, u3, parseNumber))
  {
    var c1, c2, c3 := Clause(n1, u1), Clause(n2, u2), Clause(n3, u3);
    ClauseHasNoTimes(n1, u1);
    ClauseHasNoTimes(n2, u2);
    ClauseHasNoTimes(n3, u3);
    PartsOfJoin3(c1, c2, c3);
    assert AllWhiteSpace(" ") && AllWhiteSpace("");
    ParsePartOfClause("", n1, u1, " ", parseNumber);
    assert "" + c1 + " " == c1 + " ";
    ParsePartOfClause(" ", n2, u2, " ", parseNumber);
    ParsePartOfClause(" ", n3, u3, "", parseNumber);
    assert " " + c3 + "" == " " + c3;
  }

  /** `fixed` renders v with d decimals as a single token that `parseNumber`
      reads back as exactly v: the value has no more decimals than the
      format keeps, and the two agree on the decimal separator. */
  predicate RendersExactly(v: real, d: nat, fixed: (real, nat) -> string,
                           parseNumber: string -> Option<real>)
  {
    IsToken(fixed(v, d)) && parseNumber(fixed(v, d)) == Some(v)
  }

  /** The three fields, scaled to the unit, render exactly. */
  predicate RendersFieldsExactly(p: Pudelko, u: UnitOfMeasure, fixed: (real, nat) -> string,
                                 parseNumber: string -> Option<real>)
  {
    RendersExactly(Scale(p.length, u), Decimals(u), fixed, parseNumber) &&
    RendersExactly(Scale(p.width, u), Decimals(u), fixed, parseNumber) &&
    RendersExactly(Scale(p.height, u), Decimals(u), fixed, parseNumber)
  }

  /** Parse inverts ToString for each of the three formats wherever the
      number rendering is exact: each format's scale factor is undone by the
      divisor Parse applies to the same suffix. */
  lemma ParseToString(p: Pudelko, format: string, fixed: (real, nat) -> string,
                      parseNumber: string -> Option<real>)
    requires UnitOfSuffix(format).Some?
    requires RendersFieldsExactly(p, UnitOfSuffix(format).value, fixed, parseNumber)
    ensures ToString(p, format, fixed).Ok?
    ensures Parse(ToString(p, format, fixed).value, parseNumber) == Ok(p)
  {
    var u := UnitOfSuffix(format).value;
    var d := Decimals(u);
    ToStringIsRender(p, format, fixed);
    FormatTokenFacts(format);
    var t1, t2, t3 := fixed(Scale(p.length, u), d), fixed(Scale(p.width, u), d), fixed(Scale(p.height, u), d);
    assert ToString(p, format, fixed).value == Join3(Clause(t1, format), Clause(t2, format), Clause(t3, format));
    ParseClauses(t1, format, t2, format, t3, format, parseNumber);
    var a := ParseToken(t1, format, parseNumber);
    var b := ParseToken(t2, format, parseNumber);
    var c := ParseToken(t3, format, parseNumber);
    assert a == Ok(p.length) && b == Ok(p.width) && c == Ok(p.height);
    NewOfFields(p);
  }

  /** The three format tokens are single tokens, already lower case. */
  lemma FormatTokenFacts(format: string)
    requires UnitOfSuffix(format).Some?
    ensures IsToken(format) && ToLower(format) == format
  {
    if format == "m" {
      assert ToLower("m") == "m";
    } else if format == "cm" {
      assert ToLower("cm")[1] == 'm';
      assert ToLower("cm") == "cm";
    } else {
      assert ToLower("mm")[1] == 'm';
      assert ToLower("mm") == "mm";
    }
  }

  /** Without a '×' there is at most one part. */
  lemma ParseNeedsMultiplicationSign(s: string, parseNumber: string -> Option<real>)
    requires NoSeparator(s, Char(Times))
    ensures Parse(s, parseNumber) == Err(FormatError(WrongLayout))
  {
    SplitWithoutSeparator(s, Char(Times));
  }

  /** An ASCII 'x' is not a separator. */
  lemma ParseRejectsLetterX(parseNumber: string -> Option<real>)
    ensures Parse("1 m x 2 m x 3 m", parseNumber) == Err(FormatError(WrongLayout))
  {
    var s := "1 m x 2 m x 3 m";
    assert forall i :: 0 <= i < |s| ==> s[i] != Times;
    ParseNeedsMultiplicationSign(s, parseNumber);
  }

  /** A leading '×' is absorbed by RemoveEmptyEntries. */
  lemma ParseIgnoresLeadingTimes(s: string, parseNumber: string -> Option<real>)
    ensures Parse([Times] + s, parseNumber) == Parse(s, parseNumber)
  {
    SplitLeadingSeparator(Times, s, Char(Times));
    RemoveEmptyEntriesAppend([""], Split(s, Char(Times)));
    assert Parts([Times] + s) == Parts(s);
  }

  /** A doubled '×' counts as one. */
  lemma ParseIgnoresDoubledTimes(s: string, t: string, parseNumber: string -> Option<real>)
    ensures Parse(s + [Times, Times] + t, parseNumber) == Parse(s + [Times] + t, parseNumber)
  {
    PartsOfDoubledTimes(s, t);
  }

  lemma PartsOfDoubledTimes(s: string, t: string)
    ensures Parts(s + [Times, Times] + t) == Parts(s + [Times] + t)
  {
    var a, b := Split(s, Char(Times)), Split(t, Char(Times));
    var doubled, single := s + [Times, Times] + t, s + [Times] + t;
    assert doubled == s + [Times] + ([Times] + t);
    SplitAtSeparator(s, Times, [Times] + t, Char(Times));
    SplitLeadingSeparator(Times, t, Char(Times));
    var eb := [""] + b;
    assert Split(doubled, Char(Times)) == a + eb;
    SplitAtSeparator(s, Times, t, Char(Times));
    assert Split(single, Char(Times)) == a + b;
    RemoveEmptyEntriesAppend(a, eb);
    RemoveEmptyEntriesAppend([""], b);
    assert RemoveEmptyEntries([""]) == [];
    assert RemoveEmptyEntries(eb) == RemoveEmptyEntries(b);
    RemoveEmptyEntriesAppend(a, b);
  }

  /** A clause whose trimmed text has two white-space characters in a row
      ("1  m") has three tokens and is rejected. */
  lemma ParsePartRejectsDoubleSpace(number: string, unit: string, parseNumber: string -> Option<real>)
    requires IsToken(number) && IsToken(unit)
    ensures ParsePart(number + "  " + unit, parseNumber) == Err(FormatError(WrongLayout))
  {
    var t := number + "  " + unit;
    assert t[0] == number[0] && t[|t| - 1] == unit[|unit| - 1];
    TrimSurrounded("", t, "");
    assert "" + t + "" == t;
    assert t == number + [' '] + ([' '] + unit);
    SplitAtSeparator(number, ' ', [' '] + unit, WhiteSpace);
    SplitLeadingSeparator(' ', unit, WhiteSpace);
    SplitCount(t, WhiteSpace);
  }

  /** The unit token is matched case-insensitively. */
  lemma UnitIsCaseInsensitive(number: string, parseNumber: string -> Option<real>)
    ensures ParseToken(number, "M", parseNumber) == ParseToken(number, "m", parseNumber)
    ensures ParseToken(number, "Cm", parseNumber) == ParseToken(number, "cm", parseNumber)
    ensures ParseToken(number, "MM", parseNumber) == ParseToken(number, "mm", parseNumber)
  {
    assert ToLower("M") == "m";
    assert ToLower("Cm")[1] == 'm' && ToLower("Cm") == "cm";
    assert ToLower("MM")[1] == 'm' && ToLower("MM") == "mm";
    FormatTokenFacts("m");
    FormatTokenFacts("cm");
    FormatTokenFacts("mm");
  }

  /** "1 kg × 2 m × 3 m" fails on the unit. */
  lemma ParseRejectsUnknownUnit(parseNumber: string -> Option<real>)
    requires parseNumber("1") == Some(1.0)
    ensures Parse(Join3("1 kg", "2 m", "3 m"), parseNumber) == Err(FormatError(UnknownUnit))
  {
    TokenFacts();
    assert Clause("1", "kg") == "1 kg" && Clause("2", "m") == "2 m" && Clause("3", "m") == "3 m";
    ParseClauses("1", "kg", "2", "m", "3", "m", parseNumber);
    assert ToLower("kg")[1] == 'g';
  }

  /** "11 m × 1 m × 1 m" gets through the parser and fails in the constructor. */
  lemma ParseInheritsRangeCheck(parseNumber: string -> Option<real>)
    requires parseNumber("1") == Some(1.0) && parseNumber("11") == Some(11.0)
    ensures Parse(Join3("11 m", "1 m", "1 m"), parseNumber) == Err(OutOfRange(ExceedsMaximum))
  {
    TokenFacts();
    assert Clause("11", "m") == "11 m" && Clause("1", "m") == "1 m";
    ParseClauses("11", "m", "1", "m", "1", "m", parseNumber);
    FormatTokenFacts("m");
  }

  /** Each clause carries its own unit: "1 m × 200 cm × 3000 MM" is 1 x 2 x 3 m. */
  lemma ParseMixedUnits(parseNumber: string -> Option<real>)
    requires parseNumber("1") == Some(1.0) && parseNumber("200") == Some(200.0)
    requires parseNumber("3000") == Some(3000.0)
    ensures Parse(Join3("1 m", "200 cm", "3000 MM"), parseNumber) == Ok(Dims(1.0, 2.0, 3.0))
  {
    TokenFacts();
    assert Clause("1", "m") == "1 m" && Clause("200", "cm") == "200 cm" && Clause("3000", "MM") == "3000 MM";
    ParseClauses("1", "m", "200", "cm", "3000", "MM", parseNumber);
    MixedUnitTokens(parseNumber);
  }

  lemma MixedUnitTokens(parseNumber: string -> Option<real>)
    requires parseNumber("1") == Some(1.0) && parseNumber("200") == Some(200.0)
    requires parseNumber("3000") == Some(3000.0)
    ensures ParseToken("1", "m", parseNumber) == Ok(1.0)
    ensures ParseToken("200", "cm", parseNumber) == Ok(2.0)
    ensures ParseToken("3000", "MM", parseNumber) == Ok(3.0)
  {
    UnitIsCaseInsensitive("3000", parseNumber);
    FormatTokenFacts("m");
    FormatTokenFacts("cm");
    FormatTokenFacts("mm");
  }

  lemma TokenFacts()
    ensures IsToken("1") && IsToken("2") && IsToken("3") && IsToken("11") && IsToken("200")
    ensures IsToken("3000") && IsToken("m") && IsToken("cm") && IsToken("MM") && IsToken("kg")
  {
  }

  // ---------------------------------------------------------------------
  // Equality and hashing

  /** Equals(Pudelko other): false for null, else the three fields compared
      exactly, in order. */
  function Equals(p: Pudelko, other: Option<Pudelko>): (r: bool)
    ensures r <==> other == Some(p)
  {
    if other.None? then false
    else p.length == other.value.length && p.width == other.value.width &&
         p.height == other.value.height
  }

  /** operator ==: two nulls are equal, a null and a box are not, two boxes
      are equal when Equals says so. (Same-object references also short-cut
      to true; Equals gives true for them as well.) */
  function OpEquals(p1: Option<Pudelko>, p2: Option<Pudelko>): (r: bool)
    ensures r <==> p1 == p2
  {
    if p1.None? && p2.None? then true
    else if p1.None? then false
    else Equals(p1.value, p2)
  }

  /** operator != is the negation of ==. */
  function OpNotEquals(p1: Option<Pudelko>, p2: Option<Pudelko>): (r: bool)
    ensures r <==> p1 != p2
    ensures r == !OpEquals(p1, p2)
  {
    !OpEquals(p1, p2)
  }

  /** == is an equivalence relation, and it sees the order of the fields. */
  lemma OpEqualsIsEquivalence(a: Option<Pudelko>, b: Option<Pudelko>, c: Option<Pudelko>)
    ensures OpEquals(a, a)
    ensures OpEquals(a, b) == OpEquals(b, a)
    ensures OpEquals(a, b) && OpEquals(b, c) ==> OpEquals(a, c)
  {
  }

  lemma EqualityIsOrderSensitive()
    ensures !OpEquals(Some(Dims(1.0, 2.0, 3.0)), Some(Dims(3.0, 2.0, 1.0)))
    ensures OpNotEquals(Some(Dims(1.0, 2.0, 3.0)), Some(Dims(3.0, 2.0, 1.0)))
    ensures !OpEquals(Some(Dims(1.0, 2.0, 3.0)), None) && !OpEquals(None, Some(Dims(1.0, 2.0, 3.0)))
    ensures OpEquals(None, None)
  {
  }

  /** The hash as one polynomial in the three field hashes, wrapped once. */
  function HashOf(p: Pudelko, hashDouble: real -> Int32): Int32
  {
    WrapInt32(17 * 23 * 23 * 23 + hashDouble(p.length) * 23 * 23 +
              hashDouble(p.width) * 23 + hashDouble(p.height))
  }

  /** GetHashCode: hash = 17, then hash = hash * 23 + field.GetHashCode() for
      length, width and height, in unchecked int arithmetic. The field hash
      double.GetHashCode is the parameter `hashDouble`. */
  method GetHashCode(p: Pudelko, hashDouble: real -> Int32) returns (hash: Int32)
    ensures hash == HashOf(p, hashDouble)
  {
    var a: int, b: int, c: int := hashDouble(p.length), hashDouble(p.width), hashDouble(p.height);
    hash := 17;
    hash := WrapInt32(hash * 23 + a);
    WrapMulAdd(17 * 23 + a, 23, b);
    hash := WrapInt32(hash * 23 + b);
    WrapMulAdd((17 * 23 + a) * 23 + b, 23, c);
    hash := WrapInt32(hash * 23 + c);
  }

  /** Equal boxes have equal hash codes. */
  lemma EqualBoxesHashEqual(a: Pudelko, b: Pudelko, hashDouble: real -> Int32)
    requires OpEquals(Some(a), Some(b))
    ensures HashOf(a, hashDouble) == HashOf(b, hashDouble)
  {
  }

  // ---------------------------------------------------------------------
  // Operators and access

  /** Math.Max on two doubles (NaN aside). */
  function Max(x: real, y: real): (r: real)
    ensures r >= x && r >= y && (r == x || r == y)
  {
    if x > y then x else y
  }

  /** operator +: the per-axis maximum, passed back through the
      constructor, which never rejects it. */
  function Add(p1: Pudelko, p2: Pudelko): (r: Result<Pudelko>)
    ensures r.Ok?
    ensures r.value.length >= p1.length && r.value.length >= p2.length
    ensures r.value.width >= p1.width && r.value.width >= p2.width
    ensures r.value.height >= p1.height && r.value.height >= p2.height
    ensures r.value.length in {p1.length, p2.length} && r.value.width in {p1.width, p2.width}
    ensures r.value.height in {p1.height, p2.height}
  {
    var newLength := Max(p1.length, p2.length);
    var newWidth := Max(p1.width, p2.width);
    var newHeight := Max(p1.height, p2.height);
    New(newLength, newWidth, newHeight)
  }

  /** Per-axis containment. */
  predicate Fits(p: Pudelko, q: Pudelko)
  {
    p.length <= q.length && p.width <= q.width && p.height <= q.height
  }

  /** + is the least upper bound for Fits: commutative, idempotent,
      associative, and below every box both operands fit in. */
  lemma AddIsJoin(a: Pudelko, b: Pudelko, c: Pudelko)
    ensures Add(a, b) == Add(b, a)
    ensures Add(a, a) == Ok(a)
    ensures Add(Add(a, b).value, c) == Add(a, Add(b, c).value)
    ensures Fits(a, Add(a, b).value) && Fits(b, Add(a, b).value)
    ensures Fits(a, c) && Fits(b, c) ==> Fits(Add(a, b).value, c)
  {
  }

  lemma AddExample()
    ensures Add(Dims(1.0, 5.0, 2.0), Dims(2.0, 3.0, 4.0)) == Ok(Dims(2.0, 5.0, 4.0))
  {
  }

  /** The indexer: 0, 1, 2 give length, width, height; any other index is an
      IndexOutOfRangeException. */
  function Index(p: Pudelko, index: int): (r: Result<real>)
    ensures r.Ok? <==> 0 <= index < 3
    ensures r.Err? ==> r.error == IndexOutOfRange
    ensures r.Ok? ==> r.value == [p.length, p.width, p.height][index]
    ensures r.Ok? ==> InRange(r.value)
  {
    if index == 0 then Ok(p.length)
    else if index == 1 then Ok(p.width)
    else if index == 2 then Ok(p.height)
    else Err(IndexOutOfRange)
  }

  lemma IndexExample()
    ensures Index(Dims(1.0, 2.0, 3.0), 0) == Ok(1.0)
    ensures Index(Dims(1.0, 2.0, 3.0), 1) == Ok(2.0)
    ensures Index(Dims(1.0, 2.0, 3.0), 2) == Ok(3.0)
    ensures Index(Dims(1.0, 2.0, 3.0), 3) == Err(IndexOutOfRange)
    ensures Index(Dims(1.0, 2.0, 3.0), -1) == Err(IndexOutOfRange)
  {
  }

  /** A box is determined by what its indexer returns. */
  lemma IndexDeterminesBox(p: Pudelko, q: Pudelko)
    requires forall i :: 0 <= i < 3 ==> Index(p, i) == Index(q, i)
    ensures p == q
  {
    assert Index(p, 0) == Index(q, 0);
    assert Index(p, 1) == Index(q, 1);
    assert Index(p, 2) == Index(q, 2);
  }

  /** The explicit cast to double[]: a new three-element array holding what
      the indexer returns, in index order. */
  method ToDoubleArray(p: Pudelko) returns (a: array<real>)
    ensures fresh(a) && a.Length == 3
    ensures forall i :: 0 <= i < 3 ==> Index(p, i) == Ok(a[i])
  {
    a := new real[3];
    a[0], a[1], a[2] := p.length, p.width, p.height;
  }

  /** GetEnumerator: yields length, width, height, the same values as the
      indexer in index order. */
  method GetEnumerator(p: Pudelko) returns (items: seq<real>)
    ensures |items| == 3
    ensures forall i :: 0 <= i < |items| ==> Index(p, i) == Ok(items[i])
  {
    items := [];
    items := items + [p.length];
    items := items + [p.width];
    items := items + [p.height];
  }
}
