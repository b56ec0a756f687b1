/** The `ref_pull_*` functions of runGEEperPathRow.py and gee_pull_altered.py: which
    pixels of a region each output band sees, which reducer summarises it, and the row
    each pull emits per site. A band selected from the image before
    `updateMask(window)` sees the primary window; a band added after it keeps its own
    mask. With `sharedInputs = False` every band is reduced over its own unmasked
    pixels. */
module Pulls {
  import opened Text
  import opened Zonal
  import QaBits
  import Dswe

  /** The four shapes of pull: the Landsat 4/5/7 and 8/9 pulls of runGEEperPathRow.py
      and the altered Landsat 4/5/7 and 8/9 pulls of gee_pull_altered.py. */
  datatype Family = PathRow457 | PathRow89 | Altered457 | Altered89

  /** The class a pull summarises: DSWE 1, DSWE 1a (1 or algae) or DSWE 3. The altered
      file defines DSWE 1 and DSWE 3 pulls only. */
  datatype ClassSel = D1 | D1a | D3

  datatype Pull = Pull(family: Family, cls: ClassSel)

  predicate Altered(f: Family) { f == Altered457 || f == Altered89 }

  // ---------------------------------------------------------------------------
  // Masks

  predicate ClassOk(cls: ClassSel, p: Pixel)
  {
    match cls
    case D1 => D(p) == 1
    case D1a => Dswe.Dswe1a(D(p), p.refl)
    case D3 => D(p) == 3
  }

  /** The primary window: the class, a lit pixel, a clear pixel and an unsaturated one.
      The altered pulls leave `sr_cloud` out of it (the line is commented out there). */
  predicate InWindow(pull: Pull, p: Pixel)
  {
    p.valid && ClassOk(pull.cls, p) && Illuminated(p) && Clear(p) && Unsaturated(p)
  }

  /** The masks on the self-masked count bands dswe_gt0, dswe1, dswe3 and dswe1a: the
      path/row pulls use hillShadow, cfmask and radsat; the altered pulls drop
      hillShadow, and the altered Landsat 4/5/7 pulls add `sr_cloud == 0`. */
  predicate CountGates(f: Family, p: Pixel)
  {
    match f
    case PathRow457 => Illuminated(p) && Clear(p) && Unsaturated(p)
    case PathRow89 => Illuminated(p) && Clear(p) && Unsaturated(p)
    case Altered457 => Clear(p) && Unsaturated(p) && p.srCloud == 0
    case Altered89 => Clear(p) && Unsaturated(p)
  }

  datatype CountKind = Gt0 | Dswe1 | Dswe3 | Dswe1a | MedHighAero

  predicate CountFlag(k: CountKind, p: Pixel)
  {
    match k
    case Gt0 => D(p) > 0
    case Dswe1 => D(p) == 1
    case Dswe3 => D(p) == 3
    case Dswe1a => Dswe.Dswe1a(D(p), p.refl)
    case MedHighAero => QaBits.MedHighAero(p.aerosolQa) != 0
  }

  // ---------------------------------------------------------------------------
  // Bands and their per-pixel values

  /** Where an output band's values come from. */
  datatype Source =
    | Windowed(b: ImageBand)   // an image band selected before updateMask(window)
    | WindowedSrCloud          // sr_cloud, added before updateMask(img_mask)
    | CountBand(k: CountKind)  // a count band added after the window
    | CloudsBand               // clouds = cfmask >= 1
    | HillShadowBand           // hillShadow
    | HillShadeBand            // hillShade

  /** The value of a band at a pixel, None where the band is masked. `medHighAero` is
      added without `selfMask()`, so it is present (0 or 128) wherever the image is. */
  function Value(pull: Pull, src: Source, p: Pixel): Option<real>
  {
    match src
    case Windowed(b) => if InWindow(pull, p) then Some(BandValue(p, b)) else None
    case WindowedSrCloud => if InWindow(pull, p) then Some(p.srCloud as real) else None
    case CountBand(k) =>
      if k == MedHighAero then
        if p.valid then Some(QaBits.MedHighAero(p.aerosolQa) as real) else None
      else if p.valid && CountGates(pull.family, p) && CountFlag(k, p) then Some(1.0)
      else None
    case CloudsBand => if p.valid then Some(QaBits.CloudsFlag(p.pixelQa) as real) else None
    case HillShadowBand => Some(if p.illuminated then 1.0 else 0.0)
    case HillShadeBand => Some(p.hillShade)
  }

  /** The unmasked values of a band over a region, in pixel order. */
  function Sample(pull: Pull, src: Source, region: seq<Pixel>): (xs: seq<real>)
    ensures |xs| <= |region|
  {
    if region == [] then []
    else
      (match Value(pull, src, region[0]) case Some(v) => [v] case None => [])
      + Sample(pull, src, region[1..])
  }

  // ---------------------------------------------------------------------------
  // Output columns

  /** An output property of a pull row: a reducer over one image band (renamed with the
      reducer's prefix), or one of the extra bands. */
  datatype Col =
    | BandStat(r: Reducer, b: ImageBand) | SumSrCloudCol | PCountCol(k: CountKind)
    | PropCloudsCol | PropHillShadowCol | MeanHillShadeCol

  function BandName(b: ImageBand): string
  {
    match b
    case Aerosol => "Aerosol"
    case Blue => "Blue"
    case Green => "Green"
    case Red => "Red"
    case Nir => "Nir"
    case Swir1 => "Swir1"
    case Swir2 => "Swir2"
    case SurfaceTemp => "SurfaceTemp"
    case TempQa => "temp_qa"
    case Atran => "atran"
    case Drad => "drad"
    case Emis => "emis"
    case Emsd => "emsd"
    case Trad => "trad"
    case Urad => "urad"
    case CloudDist => "cloud_dist"
  }

  function CountName(k: CountKind): string
  {
    match k
    case Gt0 => "dswe_gt0"
    case Dswe1 => "dswe1"
    case Dswe3 => "dswe3"
    case Dswe1a => "dswe1a"
    case MedHighAero => "medHighAero"
  }

  function Prefix(r: Reducer): string
  {
    match r
    case Median => "med_"
    case Min => "min_"
    case StdDev => "sd_"
    case Mean => "mean_"
    case Kurtosis => "kurt_"
    case Sum => "sum_"
    case Count => "pCount_"
  }

  /** The property name in the exported table. */
  function ColName(c: Col): string
  {
    match c
    case BandStat(r, b) => Prefix(r) + BandName(b)
    case SumSrCloudCol => "sum_sr_cloud"
    case PCountCol(k) => "pCount_" + CountName(k)
    case PropCloudsCol => "prop_clouds"
    case PropHillShadowCol => "prop_hillShadow"
    case MeanHillShadeCol => "mean_hillShade"
  }

  function ReducerOf(c: Col): Reducer
  {
    match c
    case BandStat(r, _) => r
    case SumSrCloudCol => Sum
    case PCountCol(_) => Count
    case PropCloudsCol => Mean
    case PropHillShadowCol => Mean
    case MeanHillShadeCol => Mean
  }

  function SourceOf(c: Col): Source
  {
    match c
    case BandStat(_, b) => Windowed(b)
    case SumSrCloudCol => WindowedSrCloud
    case PCountCol(k) => CountBand(k)
    case PropCloudsCol => CloudsBand
    case PropHillShadowCol => HillShadowBand
    case MeanHillShadeCol => HillShadeBand
  }

  /** One reducer over one band of one region. */
  function Eval(pull: Pull, c: Col, region: seq<Pixel>): Stat
  {
    Reduce(ReducerOf(c), Sample(pull, SourceOf(c), region))
  }

  // ---------------------------------------------------------------------------
  // Reducer layouts

  /** `forEachBand` over the optical bands and SurfaceTemp, renamed with a reducer's
      prefix. */
  const Med7: seq<Col> := [BandStat(Median, Blue), BandStat(Median, Green), BandStat(Median, Red),
    BandStat(Median, Nir), BandStat(Median, Swir1), BandStat(Median, Swir2), BandStat(Median, SurfaceTemp)]
  const Sd7: seq<Col> := [BandStat(StdDev, Blue), BandStat(StdDev, Green), BandStat(StdDev, Red),
    BandStat(StdDev, Nir), BandStat(StdDev, Swir1), BandStat(StdDev, Swir2), BandStat(StdDev, SurfaceTemp)]
  const Mean7: seq<Col> := [BandStat(Mean, Blue), BandStat(Mean, Green), BandStat(Mean, Red),
    BandStat(Mean, Nir), BandStat(Mean, Swir1), BandStat(Mean, Swir2), BandStat(Mean, SurfaceTemp)]
  /** The medians of the surface-temperature auxiliary bands of the altered pulls. */
  const MedSt: seq<Col> := [BandStat(Median, TempQa), BandStat(Median, Atran), BandStat(Median, Drad),
    BandStat(Median, Emis), BandStat(Median, Emsd), BandStat(Median, Trad), BandStat(Median, Urad)]

  const Props: seq<Col> := [PropCloudsCol, PropHillShadowCol, MeanHillShadeCol]

  /** The columns of the combined reducer of each pull, in reducer order. */
  function Layout(f: Family): seq<Col>
  {
    match f
    case PathRow457 =>
      Med7 + [BandStat(Min, SurfaceTemp)] + Sd7 + Mean7
      + [PCountCol(Gt0), PCountCol(Dswe1), PCountCol(Dswe3), PCountCol(Dswe1a)] + Props
    case PathRow89 =>
      [BandStat(Median, Aerosol)] + Med7 + [BandStat(Min, SurfaceTemp)]
      + [BandStat(StdDev, Aerosol)] + Sd7 + [BandStat(Mean, Aerosol)] + Mean7
      + [PCountCol(Gt0), PCountCol(Dswe1), PCountCol(Dswe3), PCountCol(Dswe1a)] + Props
    case Altered457 =>
      Med7 + MedSt + [BandStat(Min, SurfaceTemp), BandStat(Min, CloudDist)] + Sd7 + Mean7
      + [BandStat(Kurtosis, SurfaceTemp), SumSrCloudCol, PCountCol(Gt0), PCountCol(Dswe1), PCountCol(Dswe3)] + Props
    case Altered89 =>
      [BandStat(Median, Aerosol)] + Med7 + MedSt + [BandStat(Min, SurfaceTemp), BandStat(Min, CloudDist)]
      + [BandStat(StdDev, Aerosol)] + Sd7 + [BandStat(Mean, Aerosol)] + Mean7
      + [BandStat(Kurtosis, SurfaceTemp), PCountCol(Gt0), PCountCol(Dswe1), PCountCol(Dswe3), PCountCol(MedHighAero)]
      + Props
  }

  /** The properties `reduceRegions` gives one region. */
  function Row(pull: Pull, region: seq<Pixel>): (m: map<Col, Stat>)
    ensures forall c :: c in m <==> c in Layout(pull.family)
  {
    map c | c in Layout(pull.family) :: Eval(pull, c, region)
  }

  /** A buffered site and the pixels of its region in one image. */
  datatype Site = Site(id: string, pixels: seq<Pixel>)

  /** A row of the output table: the site's id and its properties; `remove_geo` has
      dropped the geometry. */
  datatype Feature = Feature(id: string, props: map<Col, Stat>)

  /** `pixOut.reduceRegions(feat, combinedReducer, 30).map(remove_geo)` for one image;
      the 30 m reduction scale is the pixel grid the regions' pixels come from. */
  function PullImage(pull: Pull, sites: seq<Site>): (rows: seq<Feature>)
    ensures |rows| == |sites|
    ensures forall i :: 0 <= i < |sites| ==> rows[i].id == sites[i].id
  {
    if sites == [] then []
    else [Feature(sites[0].id, Row(pull, sites[0].pixels))] + PullImage(pull, sites[1..])
  }

  /** `collection.map(pull).flatten()`: the rows of every image, image by image. */
  function PullStack(pull: Pull, scenes: seq<seq<Site>>): seq<Feature>
  {
    if scenes == [] then [] else PullImage(pull, scenes[0]) + PullStack(pull, scenes[1..])
  }

  /** `filter(ee.Filter.notNull(["med_Blue"]))`. */
  function NotNullMedBlue(rows: seq<Feature>): seq<Feature>
  {
    if rows == [] then []
    else
      (if BandStat(Median, Blue) in rows[0].props && rows[0].props[BandStat(Median, Blue)] != Null then [rows[0]] else [])
      + NotNullMedBlue(rows[1..])
  }

  // ---------------------------------------------------------------------------
  // Counting pixels

  function WindowCount(pull: Pull, region: seq<Pixel>): nat
  {
    if region == [] then 0 else (if InWindow(pull, region[0]) then 1 else 0) + WindowCount(pull, region[1..])
  }

  function ValidCount(region: seq<Pixel>): nat
  {
    if region == [] then 0 else (if region[0].valid then 1 else 0) + ValidCount(region[1..])
  }

  function IlluminatedCount(region: seq<Pixel>): nat
  {
    if region == [] then 0 else (if region[0].illuminated then 1 else 0) + IlluminatedCount(region[1..])
  }

  /** Valid pixels that cf_mask flags (cfmask >= 1). */
  function CloudyCount(region: seq<Pixel>): nat
  {
    if region == [] then 0
    else (if region[0].valid && QaBits.CloudsFlag(region[0].pixelQa) == 1 then 1 else 0) + CloudyCount(region[1..])
  }

  /** Valid pixels whose SR_QA_AEROSOL bit 7 (medium or high aerosol) is set. */
  function FlaggedAeroCount(region: seq<Pixel>): nat
  {
    if region == [] then 0
    else (if region[0].valid && QaBits.BitSet(region[0].aerosolQa, 7) then 1 else 0) + FlaggedAeroCount(region[1..])
  }

  /** Valid pixels of the region that a self-masked count band flags and that pass the
      family's count gates. */
  function GatedCount(f: Family, k: CountKind, region: seq<Pixel>): nat
  {
    if region == [] then 0
    else
      var here := if region[0].valid && CountGates(f, region[0]) && CountFlag(k, region[0]) then 1 else 0;
      here + GatedCount(f, k, region[1..])
  }

  lemma {:induction false} WindowedSampleSize(pull: Pull, b: ImageBand, region: seq<Pixel>)
    ensures |Sample(pull, Windowed(b), region)| == WindowCount(pull, region)
    ensures |Sample(pull, WindowedSrCloud, region)| == WindowCount(pull, region)
  {
    if region != [] {
      WindowedSampleSize(pull, b, region[1..]);
    }
  }

  lemma {:induction false} WindowCountZero(pull: Pull, region: seq<Pixel>)
    ensures WindowCount(pull, region) == 0 <==> forall i :: 0 <= i < |region| ==> !InWindow(pull, region[i])
  {
    if region != [] {
      WindowCountZero(pull, region[1..]);
      assert forall i :: 1 <= i < |region| ==> region[i] == region[1..][i - 1];
    }
  }

  /** A count band is never present where a second band is absent, so it counts no more
      pixels. */
  lemma {:induction false} SampleMonotone(pull: Pull, s1: Source, s2: Source, region: seq<Pixel>)
    requires forall p: Pixel :: Value(pull, s1, p).Some? ==> Value(pull, s2, p).Some?
    ensures |Sample(pull, s1, region)| <= |Sample(pull, s2, region)|
  {
    if region != [] {
      SampleMonotone(pull, s1, s2, region[1..]);
    }
  }

  // ---------------------------------------------------------------------------
  // What the pulls promise

  /** A pixel enters the primary statistics exactly when it is valid, in the pull's
      class, lit, clear of every cf_mask flag and saturated in no band; `sr_cloud` plays
      no part. */
  lemma WindowGates(pull: Pull, p: Pixel, s: nat)
    ensures InWindow(pull, p) <==>
      p.valid && ClassOk(pull.cls, p) && p.illuminated
      && !QaBits.Dilated(p.pixelQa) && !QaBits.Cloud(p.pixelQa) && !QaBits.Shadow(p.pixelQa)
      && !QaBits.Snow(p.pixelQa) && p.radsatQa == 0
    ensures InWindow(pull, p) == InWindow(pull, p.(srCloud := s))
  {
    GatesDecode(p);
  }

  /** The gates of the self-masked count bands, family by family: the altered pulls
      count pixels in terrain shadow, and only the altered Landsat 4/5/7 pulls require
      `sr_cloud == 0`. */
  lemma CountBandGates(pull: Pull, k: CountKind, p: Pixel)
    requires k != MedHighAero
    ensures Value(pull, CountBand(k), p).Some? <==>
      p.valid && Clear(p) && Unsaturated(p) && CountFlag(k, p)
      && (!Altered(pull.family) ==> p.illuminated)
      && (pull.family == Altered457 ==> p.srCloud == 0)
    ensures Value(pull, CountBand(k), p).Some? ==> Value(pull, CountBand(k), p) == Some(1.0)
  {
  }

  /** `pCount_<band>` of a self-masked count band is the number of region pixels that
      are valid, flagged by the band and pass the family's count gates; it is at most
      the region size. */
  lemma {:induction false} PCountIsGatedCount(pull: Pull, k: CountKind, region: seq<Pixel>)
    requires k != MedHighAero
    ensures Eval(pull, PCountCol(k), region) == Num(GatedCount(pull.family, k, region) as real)
    ensures GatedCount(pull.family, k, region) <= |region|
  {
    GatedSampleSize(pull, k, region);
  }

  lemma {:induction false} GatedSampleSize(pull: Pull, k: CountKind, region: seq<Pixel>)
    requires k != MedHighAero
    ensures |Sample(pull, CountBand(k), region)| == GatedCount(pull.family, k, region)
  {
    if region != [] {
      GatedSampleSize(pull, k, region[1..]);
    }
  }

  /** pCount_dswe1 <= pCount_dswe1a, and pCount_dswe1 and pCount_dswe3 are each at most
      pCount_dswe_gt0. */
  lemma CountsOrdered(pull: Pull, region: seq<Pixel>)
    ensures GatedCount(pull.family, Dswe1, region) <= GatedCount(pull.family, Dswe1a, region)
    ensures GatedCount(pull.family, Dswe1, region) <= GatedCount(pull.family, Gt0, region)
    ensures GatedCount(pull.family, Dswe3, region) <= GatedCount(pull.family, Gt0, region)
  {
    forall p: Pixel ensures Value(pull, CountBand(Dswe1), p).Some? ==> Value(pull, CountBand(Dswe1a), p).Some? {
      Dswe.Dswe1aWidens(D(p), p.refl);
    }
    SampleMonotone(pull, CountBand(Dswe1), CountBand(Dswe1a), region);
    SampleMonotone(pull, CountBand(Dswe1), CountBand(Gt0), region);
    SampleMonotone(pull, CountBand(Dswe3), CountBand(Gt0), region);
    GatedSampleSize(pull, Dswe1, region);
    GatedSampleSize(pull, Dswe1a, region);
    GatedSampleSize(pull, Dswe3, region);
    GatedSampleSize(pull, Gt0, region);
  }

  lemma {:induction false} SampleEmptyIffNoWindow(pull: Pull, b: ImageBand, region: seq<Pixel>)
    ensures Sample(pull, Windowed(b), region) == [] <==>
      forall i :: 0 <= i < |region| ==> !InWindow(pull, region[i])
  {
    WindowedSampleSize(pull, b, region);
    WindowCountZero(pull, region);
  }

  /** Every layout has med_Blue, and it is null exactly when no pixel of the region is in
      the primary window. */
  lemma MedBlueNullIffEmptyWindow(pull: Pull, region: seq<Pixel>)
    ensures BandStat(Median, Blue) in Row(pull, region)
    ensures Row(pull, region)[BandStat(Median, Blue)] == Null <==>
      forall i :: 0 <= i < |region| ==> !InWindow(pull, region[i])
  {
    assert BandStat(Median, Blue) in Med7;
    SampleEmptyIffNoWindow(pull, Blue, region);
  }

  /** The sites of one image whose primary window is not empty. */
  function SitesWithWater(pull: Pull, sites: seq<Site>): seq<Site>
  {
    if sites == [] then []
    else
      (if exists i :: 0 <= i < |sites[0].pixels| && InWindow(pull, sites[0].pixels[i]) then [sites[0]] else [])
      + SitesWithWater(pull, sites[1..])
  }

  lemma {:induction false} NotNullConcat(a: seq<Feature>, b: seq<Feature>)
    ensures NotNullMedBlue(a + b) == NotNullMedBlue(a) + NotNullMedBlue(b)
  {
    if a != [] {
      var head := if BandStat(Median, Blue) in a[0].props && a[0].props[BandStat(Median, Blue)] != Null then [a[0]] else [];
      assert (a + b)[0] == a[0];
      assert (a + b)[1..] == a[1..] + b;
      NotNullConcat(a[1..], b);
      calc {
        NotNullMedBlue(a + b);
        head + NotNullMedBlue(a[1..] + b);
        head + (NotNullMedBlue(a[1..]) + NotNullMedBlue(b));
        (head + NotNullMedBlue(a[1..])) + NotNullMedBlue(b);
        NotNullMedBlue(a) + NotNullMedBlue(b);
      }
    } else {
      assert a + b == b;
    }
  }

  lemma {:induction false} NotNullImage(pull: Pull, sites: seq<Site>)
    ensures NotNullMedBlue(PullImage(pull, sites)) == PullImage(pull, SitesWithWater(pull, sites))
  {
    if sites != [] {
      var rows := PullImage(pull, sites);
      assert rows[1..] == PullImage(pull, sites[1..]);
      MedBlueNullIffEmptyWindow(pull, sites[0].pixels);
      NotNullImage(pull, sites[1..]);
      var keep := if exists i :: 0 <= i < |sites[0].pixels| && InWindow(pull, sites[0].pixels[i]) then [sites[0]] else [];
      assert SitesWithWater(pull, sites) == keep + SitesWithWater(pull, sites[1..]);
      PullImageConcat(pull, keep, SitesWithWater(pull, sites[1..]));
    }
  }

  lemma {:induction false} PullImageConcat(pull: Pull, a: seq<Site>, b: seq<Site>)
    ensures PullImage(pull, a + b) == PullImage(pull, a) + PullImage(pull, b)
  {
    if a != [] {
      var head := [Feature(a[0].id, Row(pull, a[0].pixels))];
      assert (a + b)[0] == a[0];
      assert (a + b)[1..] == a[1..] + b;
      PullImageConcat(pull, a[1..], b);
      calc {
        PullImage(pull, a + b);
        head + PullImage(pull, a[1..] + b);
        head + (PullImage(pull, a[1..]) + PullImage(pull, b));
        (head + PullImage(pull, a[1..])) + PullImage(pull, b);
      }
    } else {
      assert a + b == b;
    }
  }

  /** The notNull(med_Blue) filter keeps, image by image and site by site in order,
      exactly the rows of sites whose primary window holds a pixel. */
  lemma {:induction false} NotNullKeepsWaterRows(pull: Pull, scenes: seq<seq<Site>>)
    ensures NotNullMedBlue(PullStack(pull, scenes)) ==
      PullStack(pull, seq(|scenes|, j requires 0 <= j < |scenes| => SitesWithWater(pull, scenes[j])))
  {
    var kept := seq(|scenes|, j requires 0 <= j < |scenes| => SitesWithWater(pull, scenes[j]));
    if scenes != [] {
      NotNullConcat(PullImage(pull, scenes[0]), PullStack(pull, scenes[1..]));
      NotNullImage(pull, scenes[0]);
      NotNullKeepsWaterRows(pull, scenes[1..]);
      var keptRest := seq(|scenes[1..]|, j requires 0 <= j < |scenes[1..]| => SitesWithWater(pull, scenes[1..][j]));
      assert kept[1..] == keptRest;
    }
  }

  lemma {:induction false} HillSamples(pull: Pull, region: seq<Pixel>)
    ensures Flags(Sample(pull, HillShadowBand, region))
    ensures |Sample(pull, HillShadowBand, region)| == |region|
    ensures Ones(Sample(pull, HillShadowBand, region)) == IlluminatedCount(region)
    ensures |Sample(pull, HillShadeBand, region)| == |region|
  {
    if region != [] {
      HillSamples(pull, region[1..]);
      var hs := Sample(pull, HillShadowBand, region);
      assert hs == [if region[0].illuminated then 1.0 else 0.0] + Sample(pull, HillShadowBand, region[1..]);
      assert hs[1..] == Sample(pull, HillShadowBand, region[1..]);
    }
  }

  lemma {:induction false} CloudSamples(pull: Pull, region: seq<Pixel>)
    ensures Flags(Sample(pull, CloudsBand, region))
    ensures |Sample(pull, CloudsBand, region)| == ValidCount(region)
    ensures Ones(Sample(pull, CloudsBand, region)) == CloudyCount(region)
  {
    if region != [] {
      CloudSamples(pull, region[1..]);
      var rest := Sample(pull, CloudsBand, region[1..]);
      var cl := Sample(pull, CloudsBand, region);
      if region[0].valid {
        var c0 := QaBits.CloudsFlag(region[0].pixelQa);
        assert cl == [c0 as real] + rest;
        assert cl[1..] == rest;
        assert cl[0] == 1.0 <==> c0 == 1;
      } else {
        assert cl == rest;
      }
    }
  }

  /** prop_hillShadow is the share of lit pixels among all region pixels, a proportion in
      [0, 1], null only for an empty region. */
  lemma HillShadowShare(pull: Pull, region: seq<Pixel>)
    ensures region == [] ==> Eval(pull, PropHillShadowCol, region) == Null
    ensures region != [] ==>
      Eval(pull, PropHillShadowCol, region) == Num(IlluminatedCount(region) as real / |region| as real)
    ensures Eval(pull, PropHillShadowCol, region).Num? ==> 0.0 <= Eval(pull, PropHillShadowCol, region).v <= 1.0
  {
    HillSamples(pull, region);
    var hs := Sample(pull, HillShadowBand, region);
    var e := Eval(pull, PropHillShadowCol, region);
    assert e == Reduce(Mean, hs);
    if region != [] {
      MeanOfFlags(hs);
      var k, n := Ones(hs) as real, |hs| as real;
      assert e == Num(k / n);
      assert k == IlluminatedCount(region) as real && n == |region| as real;
    }
  }

  /** hillShade comes from the DEM, not the image: mean_hillShade averages every pixel
      of the region, masked or not, and is null only for an empty region. */
  lemma MeanHillShadeOverRegion(pull: Pull, region: seq<Pixel>)
    ensures Eval(pull, MeanHillShadeCol, region) == Null <==> region == []
    ensures region != [] ==>
      Eval(pull, MeanHillShadeCol, region) == Num(SumOf(Sample(pull, HillShadeBand, region)) / |region| as real)
  {
    HillSamples(pull, region);
  }

  /** prop_clouds is the share of cf_mask-flagged pixels among the valid ones, a
      proportion in [0, 1], null when no pixel is valid. */
  lemma CloudShare(pull: Pull, region: seq<Pixel>)
    ensures Eval(pull, PropCloudsCol, region) == Null <==> ValidCount(region) == 0
    ensures ValidCount(region) > 0 ==>
      Eval(pull, PropCloudsCol, region) == Num(CloudyCount(region) as real / ValidCount(region) as real)
    ensures Eval(pull, PropCloudsCol, region).Num? ==> 0.0 <= Eval(pull, PropCloudsCol, region).v <= 1.0
  {
    CloudSamples(pull, region);
    var cl := Sample(pull, CloudsBand, region);
    assert Eval(pull, PropCloudsCol, region) == Reduce(Mean, cl);
    if cl != [] { MeanOfFlags(cl); }
  }

  /** The kurtosis of the unrenamed SurfaceTemp band and the sum of sr_cloud are taken
      over exactly the primary window, the same pixels as the med_ statistics. */
  lemma WindowedReducers(pull: Pull, region: seq<Pixel>)
    ensures Eval(pull, BandStat(Kurtosis, SurfaceTemp), region) == Null <==> WindowCount(pull, region) == 0
    ensures Eval(pull, BandStat(Kurtosis, SurfaceTemp), region) != Null ==>
      Eval(pull, BandStat(Kurtosis, SurfaceTemp), region) == Of(Kurtosis, Sample(pull, Windowed(SurfaceTemp), region))
    ensures Eval(pull, SumSrCloudCol, region).Num?
    ensures |Sample(pull, WindowedSrCloud, region)| == |Sample(pull, Windowed(Blue), region)|
  {
    WindowedSampleSize(pull, SurfaceTemp, region);
    WindowedSampleSize(pull, Blue, region);
  }

  // ---------------------------------------------------------------------------
  // medHighAero is never self-masked

  lemma {:induction false} AeroSampleSize(pull: Pull, region: seq<Pixel>)
    ensures |Sample(pull, CountBand(MedHighAero), region)| == ValidCount(region)
  {
    if region != [] {
      AeroSampleSize(pull, region[1..]);
    }
  }

  /** As written, pCount_medHighAero counts every valid pixel of the region, flagged or
      not. */
  lemma AeroCountCountsValidPixels(pull: Pull, region: seq<Pixel>)
    ensures Eval(pull, PCountCol(MedHighAero), region) == Num(ValidCount(region) as real)
  {
    AeroSampleSize(pull, region);
  }

  /** A valid pixel with aerosol level 0: it is counted although its bit 7 is clear. */
  const LowAeroPixel: Pixel := Pixel(true, Dswe.AlgaeWater, 0.0, 290.0,
    StBands(0.0, 0.0, 0.0, 0.0, 0.0, 0.0, 0.0, 0.0), 0, 0, 0, 0, true, 200.0)

  lemma AeroCountCountsUnflagged()
    ensures Eval(Pull(Altered89, D1), PCountCol(MedHighAero), [LowAeroPixel]) == Num(1.0)
    ensures FlaggedAeroCount([LowAeroPixel]) == 0
  {
    AeroCountCountsValidPixels(Pull(Altered89, D1), [LowAeroPixel]);
    assert !QaBits.BitSet(0, 7);
  }

  /** The intended band: medHighAero with `selfMask()`, present only where bit 7 is
      set. */
  function SelfMaskedAero(p: Pixel): Option<real>
  {
    var a := QaBits.MedHighAero(p.aerosolQa);
    if p.valid && a != 0 then Some(a as real) else None
  }

  function SelfMaskedAeroSample(region: seq<Pixel>): seq<real>
  {
    if region == [] then []
    else (match SelfMaskedAero(region[0]) case Some(v) => [v] case None => []) + SelfMaskedAeroSample(region[1..])
  }

  /** With the self-mask, the count is the number of valid pixels flagged medium or high
      aerosol, at most the as-written count. */
  lemma {:induction false} SelfMaskedAeroCount(region: seq<Pixel>)
    ensures Reduce(Count, SelfMaskedAeroSample(region)) == Num(FlaggedAeroCount(region) as real)
    ensures FlaggedAeroCount(region) <= ValidCount(region)
  {
    if region != [] {
      SelfMaskedAeroCount(region[1..]);
      var a := QaBits.MedHighAero(region[0].aerosolQa);
    }
  }

  /** The rows the pulls were meant to give: the Landsat 8/9 pulls of both scripts carry
      pCount_medHighAero, counted over the self-masked band. The path/row pulls never add
      the band at all. */
  function CorrectedRow(pull: Pull, region: seq<Pixel>): map<Col, Stat>
  {
    if pull.family == PathRow89 || pull.family == Altered89 then
      Row(pull, region)[PCountCol(MedHighAero) := Reduce(Count, SelfMaskedAeroSample(region))]
    else Row(pull, region)
  }

  /** In the corrected Landsat 8/9 rows pCount_medHighAero is the number of valid pixels
      flagged medium or high aerosol; every other column is the as-written one. */
  lemma CorrectedRowAero(pull: Pull, region: seq<Pixel>)
    ensures pull.family == PathRow89 || pull.family == Altered89 ==>
      PCountCol(MedHighAero) in CorrectedRow(pull, region)
      && CorrectedRow(pull, region)[PCountCol(MedHighAero)] == Num(FlaggedAeroCount(region) as real)
    ensures forall c :: c in Row(pull, region) && c != PCountCol(MedHighAero) ==>
      c in CorrectedRow(pull, region) && CorrectedRow(pull, region)[c] == Row(pull, region)[c]
    ensures forall c :: c in CorrectedRow(pull, region) ==> c in Row(pull, region) || c == PCountCol(MedHighAero)
  {
    SelfMaskedAeroCount(region);
  }

  // ---------------------------------------------------------------------------
  // ref_pull_457_DSWE3_altered binds `img_maks` and applies `img_mask`

  /** What a Python name resolves to inside the pull: the function's locals first, then
      the module's globals; an unbound name raises NameError. */
  datatype Resolved = Bound(cls: ClassSel) | NameError(name: string)

  function Lookup(name: string, locals: map<string, ClassSel>, globals: map<string, ClassSel>): (r: Resolved)
    ensures name in locals ==> r == Bound(locals[name])
    ensures name !in locals && name !in globals ==> r == NameError(name)
  {
    if name in locals then Bound(locals[name])
    else if name in globals then Bound(globals[name])
    else NameError(name)
  }

  /** The window mask `updateMask(img_mask.eq(1))` uses, as written: the local binding
      is `img_maks`, so `img_mask` is looked up among the globals. */
  function Altered457D3MaskAsWritten(globals: map<string, ClassSel>): Resolved
  {
    Lookup("img_mask", map["img_maks" := D3], globals)
  }

  /** The rows of ref_pull_457_DSWE3_altered as written for one region: a NameError when
      no global `img_mask` exists, otherwise the statistics of whatever class that
      global selects. */
  function Altered457D3RowAsWritten(globals: map<string, ClassSel>, region: seq<Pixel>): Option<map<Col, Stat>>
  {
    match Altered457D3MaskAsWritten(globals)
    case Bound(cls) => Some(Row(Pull(Altered457, cls), region))
    case NameError(_) => None
  }

  lemma Altered457D3AsWrittenFails(globals: map<string, ClassSel>, region: seq<Pixel>)
    ensures "img_mask" !in globals ==>
      Altered457D3MaskAsWritten(globals) == NameError("img_mask") && Altered457D3RowAsWritten(globals, region) == None
    ensures "img_mask" in globals ==>
      Altered457D3RowAsWritten(globals, region) == Some(Row(Pull(Altered457, globals["img_mask"]), region))
  {
    assert "img_mask" != "img_maks";
  }

  /** The intended pull binds `img_mask` itself: whatever the globals hold, the window is
      the DSWE 3 one. */
  function Altered457D3MaskFixed(globals: map<string, ClassSel>): (r: Resolved)
    ensures r == Bound(D3)
  {
    Lookup("img_mask", map["img_mask" := D3], globals)
  }
}
