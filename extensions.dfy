/**
 * PudelkoExtensions.Kompresuj: the cube with the same (rounded) volume.
 * Math.Pow(volume, 1.0 / 3) is a floating-point library call; it is the
 * parameter `cubeRoot`.
 */
module PudelkoExtensions {
  import opened Numeric
  import opened Pudelko

  /** Kompresuj: side = cubeRoot(Objetosc), then the constructor with
      (side, side, side) in meters. */
  function Kompresuj(original: Pudelko, cubeRoot: real -> real): (r: Result<Pudelko>)
    ensures r.Ok? <==> InRange(cubeRoot(Objetosc(original)))
    ensures r.Ok? ==> r.value.length == r.value.width == r.value.height == cubeRoot(Objetosc(original))
    ensures r.Err? ==> r.error.OutOfRange?
  {
    var volume := Objetosc(original);
    var sideLength := cubeRoot(volume);
    New(sideLength, sideLength, sideLength)
  }

  lemma CubeAbove(s: real)
    requires s > 10.0
    ensures s * s * s > 1000.0
  {
    assert s * s > 100.0;
  }

  /** Given a true cube root of a positive volume, Kompresuj succeeds and the
      cube's exact volume is the original's rounded volume. */
  lemma KompresujKeepsVolume(original: Pudelko, cubeRoot: real -> real)
    requires Objetosc(original) > 0.0
    requires cubeRoot(Objetosc(original)) >= 0.0
    requires cubeRoot(Objetosc(original)) * cubeRoot(Objetosc(original)) * cubeRoot(Objetosc(original))
             == Objetosc(original)
    ensures Kompresuj(original, cubeRoot).Ok?
    ensures var c := Kompresuj(original, cubeRoot).value;
      c.length * c.width * c.height == Objetosc(original)
  {
    var v := Objetosc(original);
    var s := cubeRoot(v);
    if s > 10.0 {
      CubeAbove(s);
    }
  }

  /** Where the rounded volume is 0 (a 0.1 mm cube) and the cube root of 0 is
      0, the constructor rejects the cube. */
  lemma KompresujOfTinyBoxFails(cubeRoot: real -> real)
    requires cubeRoot(0.0) == 0.0
    ensures Kompresuj(Dims(0.0001, 0.0001, 0.0001), cubeRoot) == Err(OutOfRange(NotPositive))
  {
    TinyBoxHasZeroVolume();
  }

  /** 2 x 4 x 1 has volume 8 and becomes the 2 m cube. */
  lemma KompresujExample(cubeRoot: real -> real)
    requires cubeRoot(8.0) == 2.0
    ensures Kompresuj(Dims(2.0, 4.0, 1.0), cubeRoot) == Ok(Dims(2.0, 2.0, 2.0))
  {
    RoundOfExact(8.0, 9, 8_000_000_000);
  }
}

/**
 * The comparison Main passes to List.Sort: by volume, then by surface area,
 * then by the sum of the three dimensions, each with double.CompareTo.
 */
module Program {
  import opened Pudelko

  /** double.CompareTo (NaN aside): -1, 0 or 1. */
  function CompareTo(x: real, y: real): (r: int)
    ensures r == -1 <==> x < y
    ensures r == 0 <==> x == y
    ensures r == 1 <==> x > y
  {
    if x < y then -1 else if x > y then 1 else 0
  }

  /** The three sort keys. */
  function SortKey(p: Pudelko): (real, real, real)
  {
    (Objetosc(p), Pole(p), p.length + p.width + p.height)
  }

  /** Strict lexicographic order on the keys. */
  predicate KeyLess(k1: (real, real, real), k2: (real, real, real))
  {
    k1.0 < k2.0 || (k1.0 == k2.0 && (k1.1 < k2.1 || (k1.1 == k2.1 && k1.2 < k2.2)))
  }

  /** The comparator lambda of Main. */
  function Compare(p1: Pudelko, p2: Pudelko): (r: int)
    ensures r == -1 || r == 0 || r == 1
    ensures r == 0 <==> SortKey(p1) == SortKey(p2)
    ensures r == -1 <==> KeyLess(SortKey(p1), SortKey(p2))
    ensures r == 1 <==> KeyLess(SortKey(p2), SortKey(p1))
  {
    if Objetosc(p1) != Objetosc(p2) then CompareTo(Objetosc(p1), Objetosc(p2))
    else if Pole(p1) != Pole(p2) then CompareTo(Pole(p1), Pole(p2))
    else CompareTo(p1.length + p1.width + p1.height, p2.length + p2.width + p2.height)
  }

  /** Compare is a consistent comparer for List.Sort: reflexive,
      antisymmetric and transitive. */
  lemma CompareIsTotalPreorder(a: Pudelko, b: Pudelko, c: Pudelko)
    ensures Compare(a, a) == 0
    ensures Compare(a, b) == -Compare(b, a)
    ensures Compare(a, b) <= 0 && Compare(b, c) <= 0 ==> Compare(a, c) <= 0
    ensures Compare(a, b) == 0 && Compare(b, c) == 0 ==> Compare(a, c) == 0
  {
  }

  /** Main's three boxes compare by volume: 1 x 5 x 2 (10) before 3 x 3 x 3
      (27) before 2.5 x 3 x 4 (30). */
  lemma MainOrder()
    ensures Compare(Dims(1.0, 5.0, 2.0), Dims(3.0, 3.0, 3.0)) == -1
    ensures Compare(Dims(3.0, 3.0, 3.0), Dims(2.5, 3.0, 4.0)) == -1
  {
    Numeric.RoundOfExact(10.0, 9, 10_000_000_000);
    Numeric.RoundOfExact(27.0, 9, 27_000_000_000);
    Numeric.RoundOfExact(30.0, 9, 30_000_000_000);
  }
}
