/** The Dynamic Surface Water Extent classifier of runGEEperPathRow.py (the USGS
    Landsat Collection 2 DSWE decision rules) and the "algae" extension of the DSWE 1a
    pulls. Reflectances are exact reals; an index whose denominator is zero is
    undefined (None) and every threshold test on it fails. */
module Dswe {
  import opened Text

  /** The scaled surface reflectance of one pixel, under the names the pulls give it. */
  datatype Bands = Bands(blue: real, green: real, red: real, nir: real, swir1: real, swir2: real)

  /** A normalized difference `(a - b) / (a + b)`, defined where `a + b` is not 0. */
  function NormalizedDifference(a: real, b: real): (r: Option<real>)
    ensures r.Some? <==> a + b != 0.0
    ensures r.Some? ==> r.value * (a + b) == a - b
    ensures r.Some? && a >= 0.0 && b >= 0.0 ==> -1.0 <= r.value <= 1.0
  {
    if a + b == 0.0 then None
    else
      var q := (a - b) / (a + b);
      assert q * (a + b) == a - b;
      assert a >= 0.0 && b >= 0.0 ==> -1.0 <= q <= 1.0 by {
        if a >= 0.0 && b >= 0.0 {
          var s := a + b;
          assert (q - 1.0) * s == -2.0 * b;
          assert (q + 1.0) * s == 2.0 * a;
        }
      }
      Some(q)
  }

  /** Modified normalized difference water index (Green, Swir1). */
  function Mndwi(b: Bands): Option<real> { NormalizedDifference(b.green, b.swir1) }

  /** Normalized difference vegetation index (Nir, Red). */
  function Ndvi(b: Bands): Option<real> { NormalizedDifference(b.nir, b.red) }

  /** Multi-band spectral relationship, visible and near infrared. */
  function Mbsrv(b: Bands): real { b.green + b.red }
  function Mbsrn(b: Bands): real { b.nir + b.swir1 }

  /** Automated water extent index, shadow version. */
  function Awesh(b: Bands): real
  {
    b.blue + 2.5 * b.green + (-1.5) * Mbsrn(b) + (-0.25) * b.swir2
  }

  /** `x.gt(t)` and `x.lt(t)` on an index that may be undefined. */
  predicate Above(x: Option<real>, t: real) { x.Some? && x.value > t }
  predicate Below(x: Option<real>, t: real) { x.Some? && x.value < t }

  /** The five DSWE tests of one pixel. */
  datatype Tests = Tests(t1: bool, t2: bool, t3: bool, t4: bool, t5: bool)

  function RunTests(b: Bands): Tests
  {
    Tests(
      Above(Mndwi(b), 0.124),
      Mbsrv(b) > Mbsrn(b),
      Awesh(b) > 0.0,
      Above(Mndwi(b), -0.44) && b.swir1 < 0.09 && b.nir < 0.15 && Below(Ndvi(b), 0.7),
      Above(Mndwi(b), -0.5) && b.blue < 0.1 && b.swir1 < 0.3 && b.swir2 < 0.1 && b.nir < 0.25)
  }

  /** A boolean band as the 0/1 image Earth Engine makes of it. */
  function Ind(x: bool): nat { if x then 1 else 0 }

  /** The decimal-digit code `t1 + 10 t2 + 100 t3 + 1000 t4 + 10000 t5`. */
  function Code(t: Tests): nat
  {
    Ind(t.t1) + 10 * Ind(t.t2) + 100 * Ind(t.t3) + 1000 * Ind(t.t4) + 10000 * Ind(t.t5)
  }

  const NoWaterCodes: set<nat> := {0, 1, 10, 100, 1000}
  const HighCodes: set<nat> := {1111, 10111, 11011, 11101, 11110, 11111}
  const ModerateCodes: set<nat> := {111, 1011, 1101, 1110, 10011, 10101, 10110, 11001, 11010, 11100}
  const PartialWetlandCodes: set<nat> := {11000}
  const LowCodes: set<nat> := {11, 101, 110, 1001, 1010, 1100, 10000, 10001, 10010, 10100}

  /** The source's weighted sum of the five class indicators:
      `0 noWater + 1 hWater + 2 mWater + 3 pWetland + 4 lWater`. */
  function ClassOfCode(c: nat): nat
  {
    0 * Ind(c in NoWaterCodes) + 1 * Ind(c in HighCodes) + 2 * Ind(c in ModerateCodes)
    + 3 * Ind(c in PartialWetlandCodes) + 4 * Ind(c in LowCodes)
  }

  /** The `dswe` band of a pixel. */
  function Classify(b: Bands): nat
  {
    ClassOfCode(Code(RunTests(b)))
  }

  /** How many of the five tests pass. */
  function Passed(t: Tests): nat
  {
    Ind(t.t1) + Ind(t.t2) + Ind(t.t3) + Ind(t.t4) + Ind(t.t5)
  }

  /** The class read off the tests directly: 1 (high confidence water) for four or five
      passes, 2 (moderate) for three, 3 (partial surface water, wetland) for exactly t4
      and t5, 4 (low) for any other pair or t5 alone, 0 (not water) otherwise. */
  function ClassByTests(t: Tests): nat
  {
    var n := Passed(t);
    if n >= 4 then 1
    else if n == 3 then 2
    else if n == 2 && t.t4 && t.t5 then 3
    else if n == 2 || (n == 1 && t.t5) then 4
    else 0
  }

  /** The five lookup sets are pairwise disjoint: a code in one set is in none of the
      sets listed after it. */
  lemma LookupSetsDisjoint(c: nat)
    ensures c in NoWaterCodes ==> c !in HighCodes && c !in ModerateCodes && c !in PartialWetlandCodes && c !in LowCodes
    ensures c in HighCodes ==> c !in ModerateCodes && c !in PartialWetlandCodes && c !in LowCodes
    ensures c in ModerateCodes ==> c !in PartialWetlandCodes && c !in LowCodes
    ensures c in PartialWetlandCodes ==> c !in LowCodes
  {
  }

  /** Every code the tests can produce lies in exactly one lookup set, so no pixel falls
      through the lookup, and the weighted sum is the class read off the tests; in
      particular the class is always in 0..4. */
  lemma ClassMatchesTests(t: Tests)
    ensures Ind(Code(t) in NoWaterCodes) + Ind(Code(t) in HighCodes) + Ind(Code(t) in ModerateCodes)
      + Ind(Code(t) in PartialWetlandCodes) + Ind(Code(t) in LowCodes) == 1
    ensures ClassOfCode(Code(t)) == ClassByTests(t)
    ensures ClassOfCode(Code(t)) <= 4
  {
    if t.t1 {
      ClassMatchesTestsFrom(t.(t1 := false));
      assert Code(t) == Code(t.(t1 := false)) + 1;
      ClassMatchesTestsT1(t);
    } else {
      ClassMatchesTestsFrom(t);
    }
  }

  /** The sixteen cases with t1 clear. */
  lemma ClassMatchesTestsFrom(t: Tests)
    requires !t.t1
    ensures Ind(Code(t) in NoWaterCodes) + Ind(Code(t) in HighCodes) + Ind(Code(t) in ModerateCodes)
      + Ind(Code(t) in PartialWetlandCodes) + Ind(Code(t) in LowCodes) == 1
    ensures ClassOfCode(Code(t)) == ClassByTests(t)
  {
    match t
    case Tests(_, b, c, d, e) =>
      if b { if c { if d { if e { } else { } } else { if e { } else { } } }
             else { if d { if e { } else { } } else { if e { } else { } } } }
      else { if c { if d { if e { } else { } } else { if e { } else { } } }
             else { if d { if e { } else { } } else { if e { } else { } } } }
  }

  /** The sixteen cases with t1 set. */
  lemma ClassMatchesTestsT1(t: Tests)
    requires t.t1
    ensures Ind(Code(t) in NoWaterCodes) + Ind(Code(t) in HighCodes) + Ind(Code(t) in ModerateCodes)
      + Ind(Code(t) in PartialWetlandCodes) + Ind(Code(t) in LowCodes) == 1
    ensures ClassOfCode(Code(t)) == ClassByTests(t)
  {
    match t
    case Tests(_, b, c, d, e) =>
      if b { if c { if d { if e { } else { } } else { if e { } else { } } }
             else { if d { if e { } else { } } else { if e { } else { } } } }
      else { if c { if d { if e { } else { } } else { if e { } else { } } }
             else { if d { if e { } else { } } else { if e { } else { } } } }
  }

  /** Of a pixel: the class is in 0..4, and it is 3 exactly when t4 and t5 are the only
      tests passed. */
  lemma ClassifyRange(b: Bands)
    ensures Classify(b) <= 4
    ensures Classify(b) == ClassByTests(RunTests(b))
    ensures Classify(b) == 3 <==> Code(RunTests(b)) == 11000
  {
    ClassMatchesTests(RunTests(b));
  }

  // ---------------------------------------------------------------------------
  // The algae extension used for DSWE 1a

  /** `d.gt(1).And(Green.gt(0.05)).And(Red.lt(0.04))`. */
  predicate Algae(d: nat, b: Bands)
  {
    d > 1 && b.green > 0.05 && b.red < 0.04
  }

  /** `d.eq(1).Or(alg.eq(1))`. */
  predicate Dswe1a(d: nat, b: Bands)
  {
    d == 1 || Algae(d, b)
  }

  /** DSWE 1a widens DSWE 1 and never takes a pixel classed as not water. */
  lemma Dswe1aWidens(d: nat, b: Bands)
    ensures d == 1 ==> Dswe1a(d, b)
    ensures Dswe1a(d, b) ==> d >= 1
    ensures Dswe1a(d, b) && d != 1 ==> b.green > 0.05 && b.red < 0.04
  {
  }

  /** A bright green, dark red pixel over moderate confidence water: its class is 2, so it
      is in DSWE 1a but not in DSWE 1. */
  const AlgaeWater: Bands := Bands(0.05, 0.3, 0.01, 0.25, 0.01, 0.01)

  lemma AlgaeWaterIsModerate()
    ensures RunTests(AlgaeWater) == Tests(true, true, true, false, false)
    ensures Classify(AlgaeWater) == 2
    ensures Dswe1a(Classify(AlgaeWater), AlgaeWater)
  {
    var b := AlgaeWater;
    assert Mndwi(b) == Some(0.29 / 0.31);
    ClassifyRange(b);
  }
}
