/** What one pixel of a region carries into a pull, the per-pixel gates the pulls build
    from it, and the reducers `reduceRegions` applies to the unmasked values of a band.
    A region is the sequence of its pixels at the 30 m reduction scale. */
module Zonal {
  import opened Text
  import QaBits
  import Dswe

  /** The surface-temperature auxiliary bands the altered pulls summarise. */
  datatype StBands = StBands(tempQa: real, atran: real, drad: real, emis: real, emsd: real,
                             trad: real, urad: real, cloudDist: real)

  /** One pixel of a region. `valid` is the image's own mask there; the QA words are as
      stored; `srCloud` is the `sr_cloud` band, whose computation is not part of this
      model; `illuminated` is the hillShadow band (1 lit, 0 in terrain shadow) and
      `hillShade` the hillShade band, both computed from a DEM and so present at every
      region pixel. */
  datatype Pixel = Pixel(
    valid: bool,
    refl: Dswe.Bands,
    aerosol: real,
    surfaceTemp: real,
    st: StBands,
    pixelQa: nat,
    radsatQa: nat,
    aerosolQa: nat,
    srCloud: nat,
    illuminated: bool,
    hillShade: real)

  /** The image bands the pulls select, under their renamed names. */
  datatype ImageBand = Aerosol | Blue | Green | Red | Nir | Swir1 | Swir2 | SurfaceTemp
                     | TempQa | Atran | Drad | Emis | Emsd | Trad | Urad | CloudDist

  function BandValue(p: Pixel, b: ImageBand): real
  {
    match b
    case Aerosol => p.aerosol
    case Blue => p.refl.blue
    case Green => p.refl.green
    case Red => p.refl.red
    case Nir => p.refl.nir
    case Swir1 => p.refl.swir1
    case Swir2 => p.refl.swir2
    case SurfaceTemp => p.surfaceTemp
    case TempQa => p.st.tempQa
    case Atran => p.st.atran
    case Drad => p.st.drad
    case Emis => p.st.emis
    case Emsd => p.st.emsd
    case Trad => p.st.trad
    case Urad => p.st.urad
    case CloudDist => p.st.cloudDist
  }

  // ---------------------------------------------------------------------------
  // Per-pixel gates

  /** The `dswe` band. */
  function D(p: Pixel): nat { Dswe.Classify(p.refl) }

  /** `f.eq(0)`: cf_mask reports no dilated cloud, cloud, shadow or snow. */
  predicate Clear(p: Pixel) { QaBits.CfMask(p.pixelQa) == 0 }

  /** `r.eq(1)`: the radsat band of add_rad_mask is present and 1. */
  predicate Unsaturated(p: Pixel) { QaBits.RadsatBand(p.radsatQa) == Some(1) }

  /** `hs.eq(1)`. */
  predicate Illuminated(p: Pixel) { p.illuminated }

  /** The gates in terms of the QA words themselves. */
  lemma GatesDecode(p: Pixel)
    ensures Clear(p) <==> !QaBits.Dilated(p.pixelQa) && !QaBits.Cloud(p.pixelQa)
                          && !QaBits.Shadow(p.pixelQa) && !QaBits.Snow(p.pixelQa)
    ensures Unsaturated(p) <==> p.radsatQa == 0
  {
    QaBits.CfMaskDecodes(p.pixelQa);
    QaBits.UnsaturatedGate(p.radsatQa);
  }

  // ---------------------------------------------------------------------------
  // Reducers

  datatype Reducer = Median | Min | StdDev | Mean | Kurtosis | Sum | Count

  /** A reducer's output for one band of one region: Null when the band has no unmasked
      pixel there (count and sum give 0 instead), a number for the reducers this model
      evaluates, and for median, standard deviation and kurtosis the non-empty sample they
      were computed from. */
  datatype Stat = Null | Num(v: real) | Of(reducer: Reducer, sample: seq<real>)

  function SumOf(xs: seq<real>): real
  {
    if xs == [] then 0.0 else xs[0] + SumOf(xs[1..])
  }

  function MinOf(xs: seq<real>): (m: real)
    requires |xs| > 0
    ensures m in xs
    ensures forall i :: 0 <= i < |xs| ==> m <= xs[i]
  {
    if |xs| == 1 then xs[0]
    else
      var rest := MinOf(xs[1..]);
      assert forall i :: 1 <= i < |xs| ==> xs[i] == xs[1..][i - 1];
      if xs[0] <= rest then xs[0] else rest
  }

  function Reduce(r: Reducer, xs: seq<real>): (s: Stat)
    ensures s == Null <==> xs == [] && r != Count && r != Sum
    ensures r == Count ==> s == Num(|xs| as real)
    ensures r == Min && xs != [] ==> s.Num? && s.v in xs && forall i :: 0 <= i < |xs| ==> s.v <= xs[i]
  {
    match r
    case Count => Num(|xs| as real)
    case Sum => Num(SumOf(xs))
    case Min => if xs == [] then Null else Num(MinOf(xs))
    case Mean => if xs == [] then Null else Num(SumOf(xs) / (|xs| as real))
    case _ => if xs == [] then Null else Of(r, xs)
  }

  /** Every value a 0/1 band. */
  predicate Flags(xs: seq<real>)
  {
    forall i :: 0 <= i < |xs| ==> xs[i] == 0.0 || xs[i] == 1.0
  }

  /** The number of ones among 0/1 values. */
  function Ones(xs: seq<real>): nat
  {
    if xs == [] then 0 else (if xs[0] == 1.0 then 1 else 0) + Ones(xs[1..])
  }

  lemma {:induction false} SumOfFlags(xs: seq<real>)
    requires Flags(xs)
    ensures SumOf(xs) == Ones(xs) as real
    ensures Ones(xs) <= |xs|
  {
    if xs != [] {
      assert Flags(xs[1..]) by {
        forall i | 0 <= i < |xs[1..]| ensures xs[1..][i] == 0.0 || xs[1..][i] == 1.0 {
          assert xs[1..][i] == xs[i + 1];
        }
      }
      SumOfFlags(xs[1..]);
    }
  }

  /** The mean of a 0/1 band is the share of its ones, a proportion in [0, 1]. */
  lemma MeanOfFlags(xs: seq<real>)
    requires Flags(xs) && xs != []
    ensures Reduce(Mean, xs) == Num(Ones(xs) as real / |xs| as real)
    ensures 0.0 <= Reduce(Mean, xs).v <= 1.0
  {
    SumOfFlags(xs);
    var n := |xs| as real;
    var k := Ones(xs) as real;
    assert k / n <= 1.0 by {
      assert k <= n;
      assert k / n * n == k;
    }
  }
}
