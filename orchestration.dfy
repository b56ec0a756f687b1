/** The script bodies of runGEEperPathRow.py and runGEEperTile.py: the locations of one
    tile are cut into batches of 10 000, every batch is exported once per sensor group
    and selected DSWE variant, each export is admitted by `maximum_no_of_tasks(10, 120)`
    and then started, the two metadata exports follow, and the tile script writes the
    scene-id manifests. Exports are values; the Earth Engine calls are not modelled. */
module Orchestration {
  import opened Text
  import opened Zonal
  import opened Pulls
  import Dswe
  import QaBits

  // ---------------------------------------------------------------------------
  // Locations and batches

  /** A row of the locations table: the site's id and the WRS-2 path/row it lies in. */
  datatype Location = Location(id: string, wrs2pr: string)

  /** ``locations.query("`WRS2_PR` == @tiles")``: the rows of the tile, in table order. */
  function TileSubset(locs: seq<Location>, tile: string): (r: seq<Location>)
    ensures |r| <= |locs|
    ensures forall l :: l in r <==> l in locs && l.wrs2pr == tile
  {
    if locs == [] then []
    else
      (if locs[0].wrs2pr == tile then [locs[0]] else []) + TileSubset(locs[1..], tile)
  }

  /** The query keeps the table's order and each matching row's multiplicity: the subset
      of a table split in two is the first part's subset followed by the second's. */
  lemma {:induction false} TileSubsetConcat(a: seq<Location>, b: seq<Location>, tile: string)
    ensures TileSubset(a + b, tile) == TileSubset(a, tile) + TileSubset(b, tile)
    ensures forall l :: multiset(TileSubset(a, tile))[l] == if l.wrs2pr == tile then multiset(a)[l] else 0
  {
    TileSubsetMultiset(a, tile);
    if a != [] {
      assert (a + b)[1..] == a[1..] + b;
      TileSubsetConcat(a[1..], b, tile);
    } else {
      assert a + b == b;
    }
  }

  lemma {:induction false} TileSubsetMultiset(a: seq<Location>, tile: string)
    ensures forall l :: multiset(TileSubset(a, tile))[l] == if l.wrs2pr == tile then multiset(a)[l] else 0
  {
    if a != [] {
      TileSubsetMultiset(a[1..], tile);
      var head := if a[0].wrs2pr == tile then [a[0]] else [];
      assert TileSubset(a, tile) == head + TileSubset(a[1..], tile);
      assert a == [a[0]] + a[1..];
      assert multiset(TileSubset(a, tile)) == multiset(head) + multiset(TileSubset(a[1..], tile));
      assert multiset(a) == multiset([a[0]]) + multiset(a[1..]);
    }
  }

  const BatchSize: nat := 10000

  /** `math.ceil(len(locations_subset) / 10000)`. */
  function NumBatches(n: nat): nat
  {
    (n + BatchSize - 1) / BatchSize
  }

  /** `locations_subset[loc_10k * 10000:((loc_10k + 1) * 10000)]`, clamped as Python
      slices are. */
  function Batch<T>(xs: seq<T>, k: nat): seq<T>
  {
    var hi := if (k + 1) * BatchSize <= |xs| then (k + 1) * BatchSize else |xs|;
    var lo := if k * BatchSize <= hi then k * BatchSize else hi;
    xs[lo..hi]
  }

  /** Every batch the loop visits holds between 1 and 10 000 rows, and they are the rows
      from 10 000 k on; there are no more batches than rows. */
  lemma BatchBounds<T>(xs: seq<T>, k: nat)
    requires k < NumBatches(|xs|)
    ensures k * BatchSize < |xs|
    ensures 1 <= |Batch(xs, k)| <= BatchSize
    ensures Batch(xs, k) == xs[k * BatchSize..if (k + 1) * BatchSize <= |xs| then (k + 1) * BatchSize else |xs|]
    ensures NumBatches(|xs|) <= |xs|
  {
    assert (k + 1) * BatchSize <= |xs| + BatchSize - 1;
  }

  /** The concatenation of a sequence of batches, last batch last. */
  function Flatten<T>(bss: seq<seq<T>>): seq<T>
  {
    if bss == [] then [] else Flatten(bss[..|bss| - 1]) + bss[|bss| - 1]
  }

  /** The batches the loop cuts `xs` into, in loop order. */
  function Batches<T>(xs: seq<T>): (bss: seq<seq<T>>)
    ensures |bss| == NumBatches(|xs|)
    ensures forall k :: 0 <= k < |bss| ==> bss[k] == Batch(xs, k)
  {
    seq(NumBatches(|xs|), k requires 0 <= k => Batch(xs, k))
  }

  lemma {:induction false} FlattenPrefix<T>(xs: seq<T>, m: nat)
    requires m <= NumBatches(|xs|)
    ensures Flatten(Batches(xs)[..m]) == xs[..if m * BatchSize <= |xs| then m * BatchSize else |xs|]
  {
    var bss := Batches(xs);
    if m == 0 {
      assert bss[..0] == [];
    } else {
      FlattenPrefix(xs, m - 1);
      assert bss[..m][..m - 1] == bss[..m - 1];
      BatchBounds(xs, m - 1);
      var lo := (m - 1) * BatchSize;
      var hi := if m * BatchSize <= |xs| then m * BatchSize else |xs|;
      assert Flatten(bss[..m]) == xs[..lo] + xs[lo..hi];
      assert xs[..lo] + xs[lo..hi] == xs[..hi];
    }
  }

  /** The batches are a partition of the rows: concatenated in loop order they give the
      location subset back. */
  lemma FlattenBatches<T>(xs: seq<T>)
    ensures Flatten(Batches(xs)) == xs
  {
    var n := NumBatches(|xs|);
    FlattenPrefix(xs, n);
    assert Batches(xs)[..n] == Batches(xs);
    assert n * BatchSize >= |xs|;
  }

  // ---------------------------------------------------------------------------
  // Path and row

  /** `int(str(tiles)[0:3])` and `int(str(tiles)[3:6])`; None is the ValueError of a
      slice that is empty or not all digits. */
  function ParsePathRow(tile: string): (r: Option<(nat, nat)>)
    ensures r.Some? <==> ParseNat(Slice(tile, 0, 3)).Some? && ParseNat(Slice(tile, 3, 6)).Some?
  {
    match (ParseNat(Slice(tile, 0, 3)), ParseNat(Slice(tile, 3, 6)))
    case (Some(p), Some(r)) => Some((p, r))
    case _ => None
  }

  /** A path or row number written with three digits, as WRS-2 tile names write them. */
  function Pad3(n: nat): (s: string)
    requires n < 1000
    ensures |s| == 3
  {
    [DigitChar(n / 100), DigitChar(n / 10 % 10), DigitChar(n % 10)]
  }

  lemma Pad3Value(n: nat)
    requires n < 1000
    ensures ParseNat(Pad3(n)) == Some(n)
  {
    var a, b, c := n / 100, n / 10 % 10, n % 10;
    ThreeDigits(DigitChar(a), DigitChar(b), DigitChar(c));
    DigitRoundTrip(a);
    DigitRoundTrip(b);
    DigitRoundTrip(c);
    assert (a * 10 + b) * 10 + c == n;
  }

  lemma DigitRoundTrip(d: nat)
    requires d < 10
    ensures DigitValue(DigitChar(d)) == d
  {
  }

  lemma ThreeDigits(x: char, y: char, z: char)
    requires IsDigit(x) && IsDigit(y) && IsDigit(z)
    ensures DigitsValue([x, y, z]) == (DigitValue(x) * 10 + DigitValue(y)) * 10 + DigitValue(z)
  {
    assert [x, y, z][..2] == [x, y];
    assert [x, y][..1] == [x];
    assert [x][..0] == [];
    assert DigitsValue([x]) == DigitValue(x);
    assert DigitsValue([x, y]) == DigitValue(x) * 10 + DigitValue(y);
  }

  /** The tile of path p and row r parses back to (p, r), whatever follows it. */
  lemma ParsePathRowOfTile(p: nat, r: nat, rest: string)
    requires p < 1000 && r < 1000
    ensures ParsePathRow(Pad3(p) + Pad3(r) + rest) == Some((p, r))
  {
    var tile := Pad3(p) + Pad3(r) + rest;
    assert Slice(tile, 0, 3) == Pad3(p);
    assert Slice(tile, 3, 6) == Pad3(r);
    Pad3Value(p);
    Pad3Value(r);
  }

  // ---------------------------------------------------------------------------
  // Variants, names and selectors

  datatype Script = PathRowScript | TileScript
  datatype SensorGroup = LS457 | LS89

  /** Which pull a script maps over a sensor group's stack. For the tile script's Landsat
      4/5/7 stack this follows its selectors, which name columns only the altered
      Landsat 4/5/7 pulls compute. */
  function FamilyOf(script: Script, s: SensorGroup): Family
  {
    match (script, s)
    case (PathRowScript, LS457) => PathRow457
    case (PathRowScript, LS89) => PathRow89
    case (TileScript, LS457) => Altered457
    case (TileScript, LS89) => Altered89
  }

  /** The DSWE variants a script exports: `"1" in dswe`, (path/row script only)
      `"1a" in dswe`, `"3" in dswe`, each tested on its own. */
  function Classes(script: Script, dswe: string): seq<ClassSel>
  {
    (if Contains(dswe, "1") then [D1] else [])
    + (if script == PathRowScript && Contains(dswe, "1a") then [D1a] else [])
    + (if Contains(dswe, "3") then [D3] else [])
  }

  /** A setting that selects DSWE 1a also selects DSWE 1, and the variants come in the
      order 1, 1a, 3 without repeats. */
  lemma VariantSelection(script: Script, dswe: string)
    ensures Contains(dswe, "1a") ==> Contains(dswe, "1")
    ensures D1 in Classes(script, dswe) <==> Contains(dswe, "1")
    ensures D1a in Classes(script, dswe) <==> script == PathRowScript && Contains(dswe, "1a")
    ensures D3 in Classes(script, dswe) <==> Contains(dswe, "3")
    ensures |Classes(script, dswe)| <= 3
  {
    if Contains(dswe, "1a") {
      ContainsPrefixOf(dswe, "1a", "1");
    }
  }

  function SensorTag(s: SensorGroup): string
  {
    match s case LS457 => "LS457" case LS89 => "LS89"
  }

  function ClassTag(c: ClassSel): string
  {
    match c case D1 => "1" case D1a => "1a" case D3 => "3"
  }

  /** A site export's name up to the batch number. */
  function ExportStem(proj: string, s: SensorGroup, c: ClassSel, tile: string): string
  {
    proj + "_point_" + SensorTag(s) + "_C2_SRST_DSWE" + ClassTag(c) + "_" + tile + "_"
  }

  /** The description (and file name) of a site export:
      `proj_point_<LS457|LS89>_C2_SRST_DSWE<1|1a|3>_<tile>_<batch>_v<version>`. */
  function ExportName(proj: string, s: SensorGroup, c: ClassSel, tile: string, k: nat, version: string): string
  {
    ExportStem(proj, s, c, tile) + NatToString(k) + "_v" + version
  }

  /** The description of a metadata export. */
  function MetadataName(proj: string, s: SensorGroup, tile: string, version: string): string
  {
    proj + "_metadata_" + SensorTag(s) + "_C2_" + tile + "_v" + version
  }

  lemma StripPrefix(a: string, x: string, y: string)
    requires a + x == a + y
    ensures x == y
  {
    assert x == (a + x)[|a|..];
    assert y == (a + y)[|a|..];
  }

  lemma StripSuffix(x: string, y: string, b: string)
    requires x + b == y + b
    ensures x == y
  {
    assert x == (x + b)[..|x|];
    assert y == (y + b)[..|y|];
  }

  /** The characters of a stem that tell the sensor group and the variant apart. */
  lemma StemMarks(proj: string, s: SensorGroup, c: ClassSel, tile: string)
    ensures |proj| + 7 + |SensorTag(s)| + 13 + 1 < |ExportStem(proj, s, c, tile)|
    ensures ExportStem(proj, s, c, tile)[|proj| + 1] == 'p'
    ensures ExportStem(proj, s, c, tile)[|proj| + 9] == SensorTag(s)[2]
    ensures ExportStem(proj, s, c, tile)[|proj| + 7 + |SensorTag(s)| + 13] == ClassTag(c)[0]
    ensures ExportStem(proj, s, c, tile)[|proj| + 7 + |SensorTag(s)| + 14] == (if c == D1a then 'a' else '_')
  {
    var st := ExportStem(proj, s, c, tile);
    var a := proj + "_point_" + SensorTag(s) + "_C2_SRST_DSWE";
    var b := ClassTag(c) + "_" + tile + "_";
    assert st == a + b;
    assert |a| == |proj| + 7 + |SensorTag(s)| + 13;
    assert a[|proj| + 1] == 'p';
    assert a[|proj| + 9] == SensorTag(s)[2];
    assert b[0] == ClassTag(c)[0];
    assert b[1] == (if c == D1a then 'a' else '_');
  }

  lemma NameChar(proj: string, s: SensorGroup, c: ClassSel, tile: string, k: nat, version: string, i: nat)
    requires i < |ExportStem(proj, s, c, tile)|
    ensures ExportName(proj, s, c, tile, k, version)[i] == ExportStem(proj, s, c, tile)[i]
  {
    assert ExportName(proj, s, c, tile, k, version) == ExportStem(proj, s, c, tile) + (NatToString(k) + "_v" + version);
  }

  /** Two names of one run with the same sensor group and variant differ in the batch
      number alone. */
  lemma SameStemSameBatch(proj: string, s: SensorGroup, c: ClassSel, tile: string, k1: nat, k2: nat, version: string)
    requires ExportName(proj, s, c, tile, k1, version) == ExportName(proj, s, c, tile, k2, version)
    ensures k1 == k2
  {
    var stem := ExportStem(proj, s, c, tile);
    assert ExportName(proj, s, c, tile, k1, version) == stem + (NatToString(k1) + ("_v" + version));
    assert ExportName(proj, s, c, tile, k2, version) == stem + (NatToString(k2) + ("_v" + version));
    StripPrefix(stem, NatToString(k1) + ("_v" + version), NatToString(k2) + ("_v" + version));
    StripSuffix(NatToString(k1), NatToString(k2), "_v" + version);
    ParseNatToString(k1);
    ParseNatToString(k2);
  }

  /** Within one run (same project, tile and version) two site exports share a name only
      if they have the same sensor group, variant and batch. */
  lemma ExportNameInjective(proj: string, tile: string, version: string,
                            s1: SensorGroup, c1: ClassSel, k1: nat, s2: SensorGroup, c2: ClassSel, k2: nat)
    requires ExportName(proj, s1, c1, tile, k1, version) == ExportName(proj, s2, c2, tile, k2, version)
    ensures s1 == s2 && c1 == c2 && k1 == k2
  {
    StemMarks(proj, s1, c1, tile);
    StemMarks(proj, s2, c2, tile);
    NameChar(proj, s1, c1, tile, k1, version, |proj| + 9);
    NameChar(proj, s2, c2, tile, k2, version, |proj| + 9);
    assert s1 == s2;
    var j := |proj| + 7 + |SensorTag(s1)| + 13;
    NameChar(proj, s1, c1, tile, k1, version, j);
    NameChar(proj, s2, c2, tile, k2, version, j);
    NameChar(proj, s1, c1, tile, k1, version, j + 1);
    NameChar(proj, s2, c2, tile, k2, version, j + 1);
    assert c1 == c2;
    SameStemSameBatch(proj, s1, c1, tile, k1, k2, version);
  }

  lemma MetadataMark(proj: string, s: SensorGroup, tile: string, version: string)
    ensures |proj| + 1 < |MetadataName(proj, s, tile, version)|
    ensures MetadataName(proj, s, tile, version)[|proj| + 1] == 'm'
  {
    var rest := "_metadata_" + SensorTag(s) + "_C2_" + tile + "_v" + version;
    assert MetadataName(proj, s, tile, version) == proj + rest;
    assert rest[1] == 'm';
  }

  /** No site export is named like a metadata export of the same project. */
  lemma ExportNameNotMetadata(proj: string, tile: string, version: string, s1: SensorGroup, c1: ClassSel, k1: nat, s2: SensorGroup)
    ensures ExportName(proj, s1, c1, tile, k1, version) != MetadataName(proj, s2, tile, version)
  {
    StemMarks(proj, s1, c1, tile);
    NameChar(proj, s1, c1, tile, k1, version, |proj| + 1);
    MetadataMark(proj, s2, tile, version);
  }

  /** The columns each export selects after "system:index", in the scripts' order. */
  function Selectors(script: Script, s: SensorGroup): seq<Col>
  {
    match (script, s)
    case (PathRowScript, LS457) =>
      Med7 + [BandStat(Min, SurfaceTemp)] + Sd7 + Mean7
      + [PCountCol(Gt0), PCountCol(Dswe1), PCountCol(Dswe3)] + Props
    case (PathRowScript, LS89) =>
      [BandStat(Median, Aerosol)] + Med7 + [BandStat(Min, SurfaceTemp)]
      + [BandStat(StdDev, Aerosol)] + Sd7 + [BandStat(Mean, Aerosol)] + Mean7
      + [PCountCol(Gt0), PCountCol(Dswe1), PCountCol(Dswe3), PCountCol(MedHighAero)] + Props
    case (TileScript, LS457) =>
      Med7 + MedSt + [BandStat(Min, SurfaceTemp), BandStat(Min, CloudDist)] + Sd7 + Mean7
      + [BandStat(Kurtosis, SurfaceTemp), PCountCol(Gt0), PCountCol(Dswe1), PCountCol(Dswe3)] + Props
    case (TileScript, LS89) =>
      [BandStat(Median, Aerosol)] + Med7 + MedSt + [BandStat(Min, SurfaceTemp), BandStat(Min, CloudDist)]
      + [BandStat(StdDev, Aerosol)] + Sd7 + [BandStat(Mean, Aerosol)] + Mean7
      + [BandStat(Kurtosis, SurfaceTemp), PCountCol(Gt0), PCountCol(Dswe1), PCountCol(Dswe3), PCountCol(MedHighAero)]
      + Props
  }

  /** The `selectors` argument as the scripts write it. */
  function SelectorNames(cols: seq<Col>): (r: seq<string>)
    ensures |r| == |cols| + 1 && r[0] == "system:index"
    ensures forall i :: 0 <= i < |cols| ==> r[i + 1] == ColName(cols[i])
  {
    var names := seq(|cols|, i requires 0 <= i < |cols| => ColName(cols[i]));
    assert forall i :: 0 <= i < |cols| ==> (["system:index"] + names)[i + 1] == names[i];
    ["system:index"] + names
  }

  const AerosolCols: set<Col> :=
    {BandStat(Median, Aerosol), BandStat(StdDev, Aerosol), BandStat(Mean, Aerosol), PCountCol(MedHighAero)}

  /** In both scripts the Landsat 8/9 selector list is the Landsat 4/5/7 list plus the
      Aerosol median, standard deviation and mean and pCount_medHighAero. */
  lemma Selectors89Extend457(script: Script)
    ensures forall c :: c in Selectors(script, LS457) ==> c in Selectors(script, LS89)
    ensures forall c :: c in Selectors(script, LS89) ==> c in Selectors(script, LS457) || c in AerosolCols
    ensures forall c :: c in AerosolCols ==> c in Selectors(script, LS89) && c !in Selectors(script, LS457)
  {
    match script
    case PathRowScript => Extend457PathRow();
    case TileScript => Extend457Tile();
  }

  lemma Extend457PathRow()
    ensures forall c :: c in Selectors(PathRowScript, LS457) ==> c in Selectors(PathRowScript, LS89)
    ensures forall c :: c in Selectors(PathRowScript, LS89) ==> c in Selectors(PathRowScript, LS457) || c in AerosolCols
    ensures forall c :: c in AerosolCols ==> c in Selectors(PathRowScript, LS89) && c !in Selectors(PathRowScript, LS457)
  {
  }

  lemma Extend457Tile()
    ensures forall c :: c in Selectors(TileScript, LS457) ==> c in Selectors(TileScript, LS89)
    ensures forall c :: c in Selectors(TileScript, LS89) ==> c in Selectors(TileScript, LS457) || c in AerosolCols
    ensures forall c :: c in AerosolCols ==> c in Selectors(TileScript, LS89) && c !in Selectors(TileScript, LS457)
  {
  }

  /** Every column a tile export selects, and every column a path/row Landsat 4/5/7
      export selects, is a column of the pull it exports. The altered Landsat 4/5/7 pull
      also computes sum_sr_cloud, which no export selects. */
  lemma SelectorsResolve()
    ensures forall c :: c in Selectors(TileScript, LS457) ==> c in Layout(Altered457)
    ensures forall c :: c in Selectors(TileScript, LS89) ==> c in Layout(Altered89)
    ensures forall c :: c in Selectors(PathRowScript, LS457) ==> c in Layout(PathRow457)
    ensures SumSrCloudCol in Layout(Altered457) && SumSrCloudCol !in Selectors(TileScript, LS457)
  {
  }

  /** As written, the path/row Landsat 8/9 exports select pCount_medHighAero, which their
      pulls never compute: every other selected column exists. */
  lemma PathRow89SelectsMissingColumn(pull: Pull, region: seq<Pixel>)
    requires pull.family == PathRow89
    ensures PCountCol(MedHighAero) in Selectors(PathRowScript, LS89)
    ensures PCountCol(MedHighAero) !in Row(pull, region)
    ensures forall c :: c in Selectors(PathRowScript, LS89) && c != PCountCol(MedHighAero) ==> c in Row(pull, region)
  {
    var sel := Selectors(PathRowScript, LS89);
    var lay := Layout(PathRow89);
    assert PCountCol(MedHighAero) !in lay;
    assert forall c :: c in sel && c != PCountCol(MedHighAero) ==> c in lay;
  }

  /** With the aerosol band added and self-masked, every selected column of the path/row
      Landsat 8/9 exports exists in the pull's rows. */
  lemma PathRow89SelectorsResolveCorrected(pull: Pull, region: seq<Pixel>)
    requires pull.family == PathRow89
    ensures forall c :: c in Selectors(PathRowScript, LS89) ==> c in CorrectedRow(pull, region)
  {
    CorrectedRowAero(pull, region);
    PathRow89SelectsMissingColumn(pull, region);
  }

  // ---------------------------------------------------------------------------
  // The submission plan

  /** What an export writes: the notNull(med_Blue) rows of a pull mapped over a sensor
      group's stack for one batch of sites, or a stack's scene metadata. */
  datatype Collection = NotNullRows(pull: Pull, sites: seq<Location>) | SceneMetadata(s: SensorGroup)

  datatype Export = Export(description: string, collection: Collection, selectors: seq<string>)

  datatype Action = Admit(maxNActive: nat, waitingPeriod: nat) | Start(job: Export)

  /** One run's settings: project, tile (or path/row), version tag (`run_date` in the
      path/row script, `date.today()` in the tile script), extent and DSWE setting. */
  datatype Config = Config(proj: string, tile: string, version: string, extent: string, dswe: string)

  /** The collection each site export hands to Export, as written: the path/row Landsat
      8/9 DSWE 1a export filters `locs_out_89_D1`, the DSWE 1 rows. */
  function ExportedPull(script: Script, s: SensorGroup, c: ClassSel): Pull
  {
    if script == PathRowScript && s == LS89 && c == D1a then Pull(PathRow89, D1)
    else Pull(FamilyOf(script, s), c)
  }

  /** The site holding one moderate-confidence algae pixel, lit, clear and unsaturated. */
  const AlgaeScenes: seq<seq<Site>> := [[Site("algae", [LowAeroPixel])]]

  lemma AlgaePixelWindows()
    ensures InWindow(Pull(PathRow89, D1a), LowAeroPixel)
    ensures !InWindow(Pull(PathRow89, D1), LowAeroPixel)
  {
    Dswe.AlgaeWaterIsModerate();
    QaBits.CfMaskDecodes(0);
    assert !QaBits.BitSet(0, 1) && !QaBits.BitSet(0, 3) && !QaBits.BitSet(0, 4) && !QaBits.BitSet(0, 5);
  }

  /** As written, every site export hands over the pull of its own variant except the
      path/row Landsat 8/9 DSWE 1a export, which hands over the DSWE 1 pull: a site whose
      only water pixel is algae-tinted moderate water has a DSWE 1a row that is never
      exported, and nothing else is exported in its place. */
  lemma PathRow89D1aExportsD1Rows()
    ensures forall script, s, c :: !(script == PathRowScript && s == LS89 && c == D1a) ==>
      ExportedPull(script, s, c) == Pull(FamilyOf(script, s), c)
    ensures ExportedPull(PathRowScript, LS89, D1a) == Pull(PathRow89, D1)
    ensures |NotNullMedBlue(PullStack(Pull(PathRow89, D1a), AlgaeScenes))| == 1
    ensures NotNullMedBlue(PullStack(ExportedPull(PathRowScript, LS89, D1a), AlgaeScenes)) == []
  {
    AlgaePixelWindows();
    var site := Site("algae", [LowAeroPixel]);
    NotNullImage(Pull(PathRow89, D1a), [site]);
    NotNullImage(Pull(PathRow89, D1), [site]);
    assert SitesWithWater(Pull(PathRow89, D1a), [site]) == [site];
    assert SitesWithWater(Pull(PathRow89, D1), [site]) == [];
    assert PullStack(Pull(PathRow89, D1a), AlgaeScenes) == PullImage(Pull(PathRow89, D1a), [site]);
    assert PullStack(Pull(PathRow89, D1), AlgaeScenes) == PullImage(Pull(PathRow89, D1), [site]);
  }

  /** The intended collection: each export hands over the pull of its own variant. */
  function ExportedPullFixed(script: Script, s: SensorGroup, c: ClassSel): (p: Pull)
    ensures p.family == FamilyOf(script, s) && p.cls == c
  {
    Pull(FamilyOf(script, s), c)
  }

  /** With the fix, a DSWE-c export writes, image by image, the rows of exactly those
      sites whose DSWE-c window holds a pixel; for the algae site the DSWE 1a export of
      the path/row Landsat 8/9 group now writes its row. */
  lemma ExportedRowsFixed(script: Script, s: SensorGroup, c: ClassSel, scenes: seq<seq<Site>>)
    ensures NotNullMedBlue(PullStack(ExportedPullFixed(script, s, c), scenes)) ==
      PullStack(ExportedPullFixed(script, s, c),
        seq(|scenes|, j requires 0 <= j < |scenes| => SitesWithWater(ExportedPullFixed(script, s, c), scenes[j])))
    ensures |NotNullMedBlue(PullStack(ExportedPullFixed(PathRowScript, LS89, D1a), AlgaeScenes))| == 1
  {
    NotNullKeepsWaterRows(ExportedPullFixed(script, s, c), scenes);
    PathRow89D1aExportsD1Rows();
  }

  function SiteExport(script: Script, cfg: Config, s: SensorGroup, c: ClassSel, k: nat, sites: seq<Location>): Export
  {
    Export(ExportName(cfg.proj, s, c, cfg.tile, k, cfg.version),
           NotNullRows(ExportedPull(script, s, c), sites),
           SelectorNames(Selectors(script, s)))
  }

  function MetadataExport(cfg: Config, s: SensorGroup): Export
  {
    Export(MetadataName(cfg.proj, s, cfg.tile, cfg.version), SceneMetadata(s), [])
  }

  function GroupExports(script: Script, cfg: Config, s: SensorGroup, cs: seq<ClassSel>, k: nat, sites: seq<Location>): (es: seq<Export>)
    ensures |es| == |cs|
    ensures forall i :: 0 <= i < |cs| ==> es[i] == SiteExport(script, cfg, s, cs[i], k, sites)
  {
    if cs == [] then [] else [SiteExport(script, cfg, s, cs[0], k, sites)] + GroupExports(script, cfg, s, cs[1..], k, sites)
  }

  /** The exports of batch k: nothing unless "site" is in the extent, else the
      Landsat 4/5/7 variants and then the Landsat 8/9 ones. */
  function BatchExports(script: Script, cfg: Config, k: nat, sites: seq<Location>): seq<Export>
  {
    if Contains(cfg.extent, "site") then
      GroupExports(script, cfg, LS457, Classes(script, cfg.dswe), k, sites)
      + GroupExports(script, cfg, LS89, Classes(script, cfg.dswe), k, sites)
    else []
  }

  /** The exports of the first m batches, batch by batch. */
  function SiteExports(script: Script, cfg: Config, locs: seq<Location>, m: nat): seq<Export>
  {
    if m == 0 then [] else SiteExports(script, cfg, locs, m - 1) + BatchExports(script, cfg, m - 1, Batch(locs, m - 1))
  }

  /** Within a sensor group: DSWE 1, then (path/row script only) DSWE 1a, then DSWE 3. */
  lemma GroupOrder(script: Script, cfg: Config, s: SensorGroup, k: nat, sites: seq<Location>)
    requires Contains(cfg.dswe, "1") && Contains(cfg.dswe, "3")
    ensures script == TileScript ==>
      GroupExports(script, cfg, s, Classes(script, cfg.dswe), k, sites) ==
        [SiteExport(script, cfg, s, D1, k, sites), SiteExport(script, cfg, s, D3, k, sites)]
    ensures script == PathRowScript && Contains(cfg.dswe, "1a") ==>
      GroupExports(script, cfg, s, Classes(script, cfg.dswe), k, sites) ==
        [SiteExport(script, cfg, s, D1, k, sites), SiteExport(script, cfg, s, D1a, k, sites),
         SiteExport(script, cfg, s, D3, k, sites)]
  {
    var cs := Classes(script, cfg.dswe);
    if script == TileScript {
      assert cs == [D1, D3];
    } else if Contains(cfg.dswe, "1a") {
      assert cs == [D1, D1a, D3];
    }
  }

  /** The per-batch order: Landsat 4/5/7 before Landsat 8/9, each in the group order,
      and nothing at all unless "site" is in the extent. */
  lemma BatchOrder(script: Script, cfg: Config, k: nat, sites: seq<Location>)
    requires Contains(cfg.dswe, "1") && Contains(cfg.dswe, "3")
    ensures !Contains(cfg.extent, "site") ==> BatchExports(script, cfg, k, sites) == []
    ensures Contains(cfg.extent, "site") && script == TileScript ==>
      BatchExports(script, cfg, k, sites) ==
        [SiteExport(script, cfg, LS457, D1, k, sites), SiteExport(script, cfg, LS457, D3, k, sites),
         SiteExport(script, cfg, LS89, D1, k, sites), SiteExport(script, cfg, LS89, D3, k, sites)]
  {
    GroupOrder(script, cfg, LS457, k, sites);
    GroupOrder(script, cfg, LS89, k, sites);
  }

  /** Every export of a run, in submission order: the site exports of all batches, then
      the Landsat 4/5/7 and Landsat 8/9 metadata. */
  function RunExports(script: Script, cfg: Config, locs: seq<Location>): seq<Export>
  {
    SiteExports(script, cfg, locs, NumBatches(|locs|)) + [MetadataExport(cfg, LS457), MetadataExport(cfg, LS89)]
  }

  /** Each export is started right after an admission call with 10 tasks and 120 s. */
  function Submitted(es: seq<Export>): (acts: seq<Action>)
    ensures |acts| == 2 * |es|
  {
    if es == [] then [] else [Admit(10, 120), Start(es[0])] + Submitted(es[1..])
  }

  lemma {:induction false} SubmittedConcat(a: seq<Export>, b: seq<Export>)
    ensures Submitted(a + b) == Submitted(a) + Submitted(b)
  {
    if a == [] {
      assert a + b == b;
    } else {
      assert (a + b)[0] == a[0];
      assert (a + b)[1..] == a[1..] + b;
      SubmittedConcat(a[1..], b);
    }
  }

  /** The actions alternate: every start is immediately preceded by an admission call
      with the limit 10 and period 120, and the starts follow the export order. */
  lemma {:induction false} SubmittedShape(es: seq<Export>)
    ensures forall i :: 0 <= i < |es| ==> Submitted(es)[2 * i] == Admit(10, 120)
    ensures forall i :: 0 <= i < |es| ==> Submitted(es)[2 * i + 1] == Start(es[i])
  {
    if es != [] {
      SubmittedShape(es[1..]);
      var acts := Submitted(es);
      assert forall i :: 1 <= i < |es| ==> acts[2 * i] == Submitted(es[1..])[2 * (i - 1)];
      assert forall i :: 1 <= i < |es| ==> acts[2 * i + 1] == Submitted(es[1..])[2 * (i - 1) + 1];
    }
  }

  /** The exports of one sensor group in one batch: DSWE 1, then (path/row script
      only) DSWE 1a, then DSWE 3, each admitted and started when selected. */
  method SubmitGroup(script: Script, cfg: Config, s: SensorGroup, k: nat, locs: seq<Location>)
    returns (actions: seq<Action>)
    ensures actions == Submitted(GroupExports(script, cfg, s, Classes(script, cfg.dswe), k, locs))
  {
    var cs: seq<ClassSel> := [];
    actions := [];
    if Contains(cfg.dswe, "1") {
      actions := SubmitNext(script, cfg, s, k, locs, cs, actions, D1);
      cs := cs + [D1];
    }
    if script == PathRowScript && Contains(cfg.dswe, "1a") {
      actions := SubmitNext(script, cfg, s, k, locs, cs, actions, D1a);
      cs := cs + [D1a];
    }
    if Contains(cfg.dswe, "3") {
      actions := SubmitNext(script, cfg, s, k, locs, cs, actions, D3);
      cs := cs + [D3];
    }
  }

  /** One admission call and one start, appended to the actions of the variants so far. */
  method SubmitNext(script: Script, cfg: Config, s: SensorGroup, k: nat, locs: seq<Location>,
                    cs: seq<ClassSel>, before: seq<Action>, c: ClassSel)
    returns (actions: seq<Action>)
    requires before == Submitted(GroupExports(script, cfg, s, cs, k, locs))
    ensures actions == Submitted(GroupExports(script, cfg, s, cs + [c], k, locs))
  {
    actions := before + [Admit(10, 120), Start(SiteExport(script, cfg, s, c, k, locs))];
    var es := GroupExports(script, cfg, s, cs, k, locs);
    var e := SiteExport(script, cfg, s, c, k, locs);
    GroupExportsSnoc(script, cfg, s, cs, c, k, locs);
    SubmittedConcat(es, [e]);
    assert Submitted([e]) == [Admit(10, 120), Start(e)];
  }

  lemma GroupExportsSnoc(script: Script, cfg: Config, s: SensorGroup, cs: seq<ClassSel>, c: ClassSel, k: nat, sites: seq<Location>)
    ensures GroupExports(script, cfg, s, cs + [c], k, sites) ==
      GroupExports(script, cfg, s, cs, k, sites) + [SiteExport(script, cfg, s, c, k, sites)]
  {
    var l := GroupExports(script, cfg, s, cs + [c], k, sites);
    var r := GroupExports(script, cfg, s, cs, k, sites) + [SiteExport(script, cfg, s, c, k, sites)];
    forall i | 0 <= i < |l|
      ensures l[i] == r[i]
    {
      assert (cs + [c])[i] == if i < |cs| then cs[i] else c;
    }
  }

  /** The script body: the tile's path and row are parsed first, and when that raises
      nothing is submitted. Then, for each batch, each sensor group and each selected
      variant, admit and start the site export; then admit and start the two metadata
      exports. The tile script first keeps the locations of its tile; the path/row
      script reads a locations file that holds only its path/row. */
  method RunScript(script: Script, cfg: Config, locations: seq<Location>) returns (actions: seq<Action>)
    ensures ParsePathRow(cfg.tile).None? ==> actions == []
    ensures ParsePathRow(cfg.tile).Some? ==> actions == Submitted(RunExports(script, cfg,
      if script == TileScript then TileSubset(locations, cfg.tile) else locations))
  {
    if ParsePathRow(cfg.tile).None? {
      // `int()` raises ValueError before the stacks are built: nothing is submitted.
      return [];
    }
    var subset := if script == TileScript then TileSubset(locations, cfg.tile) else locations;
    actions := [];
    for k := 0 to NumBatches(|subset|)
      invariant actions == Submitted(SiteExports(script, cfg, subset, k))
    {
      var locs := Batch(subset, k);
      var batch: seq<Action> := [];
      if Contains(cfg.extent, "site") {
        var acts457 := SubmitGroup(script, cfg, LS457, k, locs);
        var acts89 := SubmitGroup(script, cfg, LS89, k, locs);
        batch := acts457 + acts89;
        SubmittedConcat(GroupExports(script, cfg, LS457, Classes(script, cfg.dswe), k, locs),
                        GroupExports(script, cfg, LS89, Classes(script, cfg.dswe), k, locs));
      }
      assert batch == Submitted(BatchExports(script, cfg, k, locs));
      SubmittedConcat(SiteExports(script, cfg, subset, k), BatchExports(script, cfg, k, locs));
      actions := actions + batch;
    }
    var meta := [MetadataExport(cfg, LS457), MetadataExport(cfg, LS89)];
    actions := actions + [Admit(10, 120), Start(meta[0])] + [Admit(10, 120), Start(meta[1])];
    SubmittedConcat(SiteExports(script, cfg, subset, NumBatches(|subset|)), meta);
    assert Submitted(meta) == [Admit(10, 120), Start(meta[0]), Admit(10, 120), Start(meta[1])];
  }

  // ---------------------------------------------------------------------------
  // The scene-id manifests of the tile script

  /** Where the tile script writes a sensor group's scene ids, dated by the run day. */
  function ManifestName(s: SensorGroup, today: string): string
  {
    "b_pull_Landsat_SRST_poi/out/" + (if s == LS89 then "L89" else "L457") + "_stack_ids_v" + today + ".txt"
  }

  /** The two manifests of a run are different files, so neither overwrites the other. */
  lemma ManifestNamesDiffer(today: string)
    ensures ManifestName(LS89, today) != ManifestName(LS457, today)
  {
    var prefix := "b_pull_Landsat_SRST_poi/out/L";
    assert ManifestName(LS89, today)[|prefix|] == '8';
    assert ManifestName(LS457, today)[|prefix|] == '4';
  }

  /** Writing `"%s\n" % id` for every id in turn: each id on a line of its own, so that
      reading the file line by line gives the ids back when none holds a newline. */
  method WriteManifest(ids: seq<string>) returns (text: string)
    ensures text == Lines(ids)
    ensures (forall j :: 0 <= j < |ids| ==> NoNewline(ids[j])) ==> SplitLines(text) == ids
  {
    text := [];
    for i := 0 to |ids|
      invariant text == Lines(ids[..i])
    {
      LinesSnoc(ids[..i], ids[i]);
      assert ids[..i] + [ids[i]] == ids[..i + 1];
      text := text + ids[i] + "\n";
    }
    assert ids[..|ids|] == ids;
    if forall j :: 0 <= j < |ids| ==> NoNewline(ids[j]) {
      SplitLinesOfLines(ids);
    }
  }

  /** The end of the tile script: the Landsat 8/9 manifest, then the Landsat 4/5/7 one,
      each opened in write mode; `files` maps a path to its contents. */
  method WriteManifests(files: map<string, string>, today: string, ids89: seq<string>, ids457: seq<string>)
    returns (out: map<string, string>)
    ensures ManifestName(LS89, today) in out && out[ManifestName(LS89, today)] == Lines(ids89)
    ensures ManifestName(LS457, today) in out && out[ManifestName(LS457, today)] == Lines(ids457)
    ensures forall f :: f in files && f != ManifestName(LS89, today) && f != ManifestName(LS457, today) ==>
      f in out && out[f] == files[f]
    ensures forall f :: f in out ==> f in files || f == ManifestName(LS89, today) || f == ManifestName(LS457, today)
  {
    ManifestNamesDiffer(today);
    var text89 := WriteManifest(ids89);
    out := files[ManifestName(LS89, today) := text89];
    var text457 := WriteManifest(ids457);
    out := out[ManifestName(LS457, today) := text457];
  }
}
