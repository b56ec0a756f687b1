# Landsat surface-reflectance pulls at points of interest: a Dafny model

The AquaMatch lakeSR pull scripts extract Landsat Collection 2 statistics over water at
points of interest. This project models and proves properties of:

- the per-pixel logic those scripts hand to Google Earth Engine;
- the per-region aggregation they ask it to perform;
- the script bodies that cut the locations into batches, name and order the exports,
  admit each one against the task limit, write the scene-id manifests, and record
  failed tasks.

Pixels carry exact real reflectances and natural-number QA words. A region is the
sequence of its pixels at the 30 m reduction scale. Exports, task listings and files are
values.

| module (file) | models |
|---|---|
| `Text` (text.dfy) | Python's `in` on strings, slicing, `int()` on digit strings, `str()` of naturals, line files. |
| `QaBits` (qa_bits.dfy) | `bitwiseAnd` and right shift on QA words: `cf_mask`, `add_rad_mask`, `sr_aerosol`, `extract_qa_bits`, `apply_high_aero_mask`. |
| `Masks` (masks.dfy) | the optical part of `apply_scale_factors`, the fill, realistic and opacity masks. |
| `Dswe` (dswe.dfy) | the indices, the five DSWE tests, the lookup to classes 0..4, and the algae rule of DSWE 1a. |
| `Zonal` (zonal.dfy) | the pixel record, the cfmask/radsat/hillShadow gates, and the reducers. |
| `Pulls` (pulls.dfy) | the `ref_pull_*` functions of both pull files: which pixels reach which reducer, the column layout, one row per site, the `notNull(med_Blue)` filter. |
| `Admission` (admission.dfy) | `maximum_no_of_tasks`. |
| `Orchestration` (orchestration.dfy) | the bodies of runGEEperPathRow.py and runGEEperTile.py: subset, path/row parse, batches, variant selection, names, selectors, submission order, manifests. |
| `FailedTasks` (failed_tasks.dfy) | check_for_failed_tasks.py: the failure filter and the ledger it appends to. |

How Earth Engine's masks are modelled:

- `updateMask(m)` keeps a pixel where it was unmasked and `m` is nonzero.
- `selfMask()` masks zeros.
- With `sharedInputs = False`, every band is reduced over its own unmasked pixels.
- A band added after `updateMask` keeps its own mask.
- The pulls' `hillShade` and `hillShadow` bands come from a DEM, so they are present at
  every region pixel.
- Bands derived from the image are present exactly where the image is valid.
- Count and sum give 0 on an empty input; every other reducer gives null.
- Median, standard deviation and kurtosis are kept as the (non-empty) sample they reduce.
- A ratio index whose denominator is 0 is undefined, and every threshold test on it
  fails.

## Model

| member | source | states |
|---|---|---|
| `Text.ContainsIff` | b_pull_Landsat_SRST_poi/py/check_for_failed_tasks.py:22 | Python's `t in s`, as the recursive `Text.Contains` computes it, holds exactly when `t` occurs in `s` at some offset. Variant selection, the admission count and the failure filter all use this test. |
| `Text.Slice` | b_pull_Landsat_SRST_poi/py/runGEEperTile.py:57-58 | Python slicing `s[i:j]`: the in-range slice, clamped to the string, empty when the range is empty or starts past the end. |
| `Text.ParseNat` | b_pull_Landsat_SRST_poi/py/runGEEperTile.py:57-58 | `int()` of a digit string succeeds exactly on non-empty all-digit strings. |
| `Text.ParseNatToString` | b_pull_Landsat_SRST_poi/py/runGEEperPathRow.py:1335-1339 | `int(str(k)) == k`: the batch number written into a name reads back unchanged. |
| `Text.SplitLinesOfLines` | b_pull_Landsat_SRST_poi/py/runGEEperTile.py:375-386 | Writing each item followed by a newline, then reading the text line by line, gives back the items, provided none holds a newline. |
| `QaBits.BitAndPow2` | b_pull_Landsat_SRST_poi/py/runGEEperPathRow.py:92-96 | `qa & (1 << i)` is `1 << i` when bit i is set and 0 otherwise. |
| `QaBits.BitAndLowMask` | b_pull_Landsat_SRST_poi/py/runGEEperPathRow.py:455-463 | `qa & (2^e - 1)` is `qa mod 2^e`. |
| `QaBits.ExtractQaBits` | b_pull_Landsat_SRST_poi/py/runGEEperPathRow.py:439-466 | For start <= end the loop-built mask and shift return bits [start, end) of the word, a value below 2^(end - start); for end <= start they return 0. |
| `QaBits.TwoBitField` | b_pull_Landsat_SRST_poi/py/runGEEperPathRow.py:470-483 | A two-bit field is twice its upper bit plus its lower bit. |
| `QaBits.CfMaskDecodes` | b_pull_Landsat_SRST_poi/py/runGEEperPathRow.py:79-97 | cf_mask is 0 exactly when bits 1, 3, 4 and 5 are all clear. Snow (4) overrides shadow (3), which overrides cloud (2). A dilated-cloud-only word gives 2, so the value is always in {0, 2, 3, 4}. |
| `QaBits.CfMaskDilatedOnlyIsTwo` | b_pull_Landsat_SRST_poi/py/runGEEperPathRow.py:92 | As written, QA_PIXEL = 2 (only the dilated-cloud bit) gives 2, where the intended decoding gives 1. |
| `QaBits.CfMaskIntendedAgrees` | b_pull_Landsat_SRST_poi/py/runGEEperPathRow.py:92-96 | The intended decoding is 1 on dilated-cloud-only words. It is 0 exactly where the as-written one is 0, and equals it everywhere it is not 1. |
| `QaBits.CloudsFlag` | b_pull_Landsat_SRST_poi/py/runGEEperPathRow.py:502 | `clouds = cfmask >= 1` is a 0/1 flag, 1 exactly when one of the four flags is set. |
| `QaBits.UnsaturatedGate` | b_pull_Landsat_SRST_poi/py/runGEEperPathRow.py:61-76 | The radsat band is 1 exactly when radsat_qa is 0. It is never 0, because the band is also its own mask. |
| `QaBits.MedHighAero` | b_pull_Landsat_SRST_poi/py/runGEEperPathRow.py:100-113 | `aerosol_qa & (1 << 7)` is 0 or 128, and nonzero exactly when bit 7 is set. |
| `QaBits.HighAeroMaskDecodes` | b_pull_Landsat_SRST_poi/py/runGEEperPathRow.py:470-483 | apply_high_aero_mask keeps a pixel exactly when bits 6 and 7 are not both set (level < 3); the level is below 4. |
| `Masks.MaskedBands` | b_pull_Landsat_SRST_poi/py/runGEEperPathRow.py:316-367 | The Landsat 4/5/7 masks test six bands (no SR_B6); the Landsat 8/9 masks test seven. |
| `Masks.AllAboveIff` | b_pull_Landsat_SRST_poi/py/runGEEperPathRow.py:316-340 | The chained `gt(t).eq(1).And(...)` is 1 exactly when every listed band is above t. |
| `Masks.MasksByBand` | b_pull_Landsat_SRST_poi/py/runGEEperPathRow.py:316-420 | Band by band: the fill mask keeps a valid pixel iff every listed band is > 0; the realistic mask iff every one is > −0.01. |
| `Masks.MaskOrdering` | b_pull_Landsat_SRST_poi/py/runGEEperPathRow.py:372-420 | Fill-kept implies realistic-kept. A pixel kept by a Landsat 8/9 mask passes the Landsat 4/5/7 test. |
| `Masks.ScaledFillDropped` | b_pull_Landsat_SRST_poi/py/runGEEperPathRow.py:316-340 | A fill digital number 0 scales to −0.2 and is dropped by both masks. |
| `Masks.MasksOnDigitalNumbers` | b_pull_Landsat_SRST_poi/py/runGEEperPathRow.py:34-435 | On an image scaled band by band (DN·0.0000275 − 0.2), the fill mask keeps a valid pixel iff every band it lists stores a digital number above 0.2/0.0000275, the realistic mask iff every one is above 0.19/0.0000275, and the opacity mask iff the stored opacity is below 300 (raw·0.001 < 0.3). |
| `Dswe.NormalizedDifference` | b_pull_Landsat_SRST_poi/py/runGEEperPathRow.py:116-130 | MNDWI and NDVI are defined iff the denominator is nonzero; then r·(a+b) = a−b and r is in [−1, 1] for non-negative bands. |
| `Dswe.LookupSetsDisjoint` | b_pull_Landsat_SRST_poi/py/runGEEperPathRow.py:220-256 | The five lookup sets are pairwise disjoint. |
| `Dswe.ClassMatchesTests` | b_pull_Landsat_SRST_poi/py/runGEEperPathRow.py:220-261 | Every code the five tests can produce lies in exactly one lookup set. The weighted sum is the class read off the tests: 4–5 passes → 1; 3 → 2; exactly t4 and t5 → 3; another pair or t5 alone → 4; otherwise 0. So it is in 0..4. |
| `Dswe.ClassifyRange` | b_pull_Landsat_SRST_poi/py/runGEEperPathRow.py:188-262 | A pixel's class is in 0..4, is the class read off its tests, and is 3 iff its code is 11000. |
| `Dswe.Dswe1aWidens` | b_pull_Landsat_SRST_poi/py/runGEEperPathRow.py:529-542 | DSWE 1 implies DSWE 1a. DSWE 1a never takes class 0. A DSWE 1a pixel of another class has Green > 0.05 and Red < 0.04. |
| `Dswe.AlgaeWaterIsModerate` | b_pull_Landsat_SRST_poi/py/runGEEperPathRow.py:529-542 | A concrete pixel passing t1–t3 is class 2 and in DSWE 1a, but not in DSWE 1. |
| `Zonal.GatesDecode` | b_pull_Landsat_SRST_poi/py/runGEEperPathRow.py:498-519 | `f.eq(0)` holds iff none of QA bits 1, 3, 4, 5 is set; `r.eq(1)` iff radsat_qa is 0. |
| `Zonal.Reduce` | b_pull_Landsat_SRST_poi/py/runGEEperPathRow.py:572-588 | A reducer is null exactly on an empty input, except count and sum. Count is the number of values. Min is the least value and is one of them. |
| `Zonal.MeanOfFlags` | b_pull_Landsat_SRST_poi/py/runGEEperPathRow.py:584-585 | The mean of a non-empty 0/1 band is the share of its ones, in [0, 1]. |
| `Pulls.Sample` | b_pull_Landsat_SRST_poi/py/gee_pull_altered.py:37-65 | A band contributes at most one value per region pixel. |
| `Pulls.Row` | b_pull_Landsat_SRST_poi/py/runGEEperPathRow.py:572-588 | A row has exactly the columns of its pull's combined reducer. |
| `Pulls.PullImage` | b_pull_Landsat_SRST_poi/py/gee_pull_altered.py:81-82 | One row per site, in order, carrying the site's id, geometry dropped. |
| `Pulls.WindowedSampleSize` | b_pull_Landsat_SRST_poi/py/runGEEperPathRow.py:544-563 | Every statistic band (and sr_cloud) sees exactly the pixels of the primary window. |
| `Pulls.WindowCountZero` | b_pull_Landsat_SRST_poi/py/runGEEperPathRow.py:560-563 | The window count is 0 iff no region pixel is in the window. |
| `Pulls.WindowGates` | b_pull_Landsat_SRST_poi/py/gee_pull_altered.py:31-36 | A pixel is in the window iff it is valid, of the variant's class, lit, clear and unsaturated; sr_cloud does not matter. |
| `Pulls.CountBandGates` | b_pull_Landsat_SRST_poi/py/gee_pull_altered.py:23-26 | A DSWE count band is 1 exactly where its flag holds and the family's gates pass. Path/row pulls gate on hillShadow, cfmask and radsat. The altered 4/5/7 pulls gate on cfmask, radsat and sr_cloud = 0. The altered 8/9 pulls gate on cfmask and radsat only. |
| `Pulls.PCountIsGatedCount` | b_pull_Landsat_SRST_poi/py/runGEEperPathRow.py:509-583 | pCount of a self-masked count band (dswe_gt0, dswe1, dswe3, dswe1a) is the number of valid region pixels the band flags that pass the family's count gates; at most the region size. |
| `Pulls.CountsOrdered` | b_pull_Landsat_SRST_poi/py/runGEEperPathRow.py:509-542 | Over the same gated pixels, pCount_dswe1 ≤ pCount_dswe1a, and pCount_dswe1 and pCount_dswe3 are each ≤ pCount_dswe_gt0. |
| `Pulls.SampleEmptyIffNoWindow` | b_pull_Landsat_SRST_poi/py/runGEEperPathRow.py:544-563 | A statistic band's sample is empty iff no pixel is in the window. |
| `Pulls.MedBlueNullIffEmptyWindow` | b_pull_Landsat_SRST_poi/py/runGEEperPathRow.py:572-574 | Every row has med_Blue, and it is null iff the window is empty. |
| `Pulls.NotNullImage` | b_pull_Landsat_SRST_poi/py/runGEEperTile.py:155 | On one image, the notNull(med_Blue) filter keeps exactly the rows of sites whose window holds a pixel, in order. |
| `Pulls.NotNullKeepsWaterRows` | b_pull_Landsat_SRST_poi/py/runGEEperPathRow.py:1333-1334 | Over a flattened stack, the filter keeps image by image exactly the rows of sites with a non-empty window. |
| `Pulls.HillSamples` | b_pull_Landsat_SRST_poi/py/runGEEperPathRow.py:564-570 | hillShadow and hillShade, added after the window, see every region pixel. hillShadow is 0/1 with as many ones as lit pixels. |
| `Pulls.CloudSamples` | b_pull_Landsat_SRST_poi/py/gee_pull_altered.py:62 | clouds, added after the window, is a 0/1 band over the valid pixels, with one for each flagged pixel. |
| `Pulls.HillShadowShare` | b_pull_Landsat_SRST_poi/py/gee_pull_altered.py:77 | prop_hillShadow is the fraction of lit region pixels, in [0, 1], and null on an empty region. |
| `Pulls.MeanHillShadeOverRegion` | b_pull_Landsat_SRST_poi/py/gee_pull_altered.py:78 | mean_hillShade is the mean over every region pixel, and null only on an empty region. |
| `Pulls.CloudShare` | b_pull_Landsat_SRST_poi/py/runGEEperPathRow.py:584-585 | prop_clouds is the fraction of valid pixels cf_mask flags, in [0, 1], and null iff there is no valid pixel. |
| `Pulls.WindowedReducers` | b_pull_Landsat_SRST_poi/py/gee_pull_altered.py:55-75 | kurt_SurfaceTemp is null iff the window is empty and is computed over the window. sum_sr_cloud is always a number, summed over the window's pixels. |
| `Pulls.AeroSampleSize` | b_pull_Landsat_SRST_poi/py/gee_pull_altered.py:226 | medHighAero, added after the window and never self-masked, has one value per valid pixel. |
| `Pulls.AeroCountCountsValidPixels` | b_pull_Landsat_SRST_poi/py/gee_pull_altered.py:240 | As written, pCount_medHighAero is the number of valid region pixels. |
| `Pulls.AeroCountCountsUnflagged` | b_pull_Landsat_SRST_poi/py/gee_pull_altered.py:184 | As written, a region of one valid pixel without bit 7 has pCount_medHighAero = 1 and no flagged pixel. |
| `Pulls.SelfMaskedAeroCount` | b_pull_Landsat_SRST_poi/py/runGEEperPathRow.py:100-113 | With selfMask, the count is the number of valid pixels with bit 7 set, at most the as-written count. |
| `Pulls.CorrectedRowAero` | b_pull_Landsat_SRST_poi/py/gee_pull_altered.py:226-240 | In the corrected Landsat 8/9 rows pCount_medHighAero counts the flagged pixels. Every other column equals the as-written one. |
| `Pulls.Lookup` | b_pull_Landsat_SRST_poi/py/gee_pull_altered.py:114-140 | Python name resolution: a local binding wins, and an unbound name is a NameError. |
| `Pulls.Altered457D3AsWrittenFails` | b_pull_Landsat_SRST_poi/py/gee_pull_altered.py:140 | ref_pull_457_DSWE3_altered binds `img_maks` and then uses `img_mask`. Without a global of that name the pull raises NameError; with one, it uses the global's class. |
| `Pulls.Altered457D3MaskFixed` | b_pull_Landsat_SRST_poi/py/gee_pull_altered.py:114-119 | Binding `img_mask` resolves the window to the DSWE 3 mask whatever the globals hold. |
| `Admission.ActiveCount` | b_pull_Landsat_SRST_poi/py/runGEEperPathRow.py:1166-1182 | A listing's active count (tasks mentioning RUNNING or READY, each counted once) is at most the number of tasks. |
| `Admission.ActiveCountZero` | b_pull_Landsat_SRST_poi/py/runGEEperPathRow.py:1166-1182 | The count is 0 iff no task is active, and the listing size iff every task is. |
| `Admission.CountActive` | b_pull_Landsat_SRST_poi/py/runGEEperPathRow.py:1166-1170 | The counting loop computes the active count. |
| `Admission.ScheduleShape` | b_pull_Landsat_SRST_poi/py/runGEEperPathRow.py:1166-1182 | Polls and sleeps alternate, starting and ending with a poll, and report each listing's count in order. |
| `Admission.MaximumNoOfTasks` | b_pull_Landsat_SRST_poi/py/runGEEperPathRow.py:1154-1182 | It returns only after a poll whose count is below the limit, every earlier poll was at or over it, and one sleep falls between consecutive polls. If the listings run out, every one was at or over the limit. |
| `Orchestration.TileSubset` | b_pull_Landsat_SRST_poi/py/runGEEperTile.py:50 | The subset is exactly the locations whose WRS2_PR equals the tile, in order. |
| `Orchestration.TileSubsetConcat` | b_pull_Landsat_SRST_poi/py/runGEEperTile.py:50 | The query keeps table order: the subset of a split table is the first part's subset followed by the second's. Each matching row keeps its multiplicity, and every other row has none. |
| `Orchestration.BatchBounds` | b_pull_Landsat_SRST_poi/py/runGEEperTile.py:132-133 | Batch k < ceil(n/10000) is rows [10000k, min(10000(k+1), n)): it is non-empty and has at most 10 000 rows. |
| `Orchestration.Batches` | b_pull_Landsat_SRST_poi/py/runGEEperTile.py:132 | There are ceil(n/10000) batches, the k-th being batch k. |
| `Orchestration.FlattenBatches` | b_pull_Landsat_SRST_poi/py/runGEEperTile.py:132-133 | The batches concatenated are the location subset. |
| `Orchestration.ParsePathRow` | b_pull_Landsat_SRST_poi/py/runGEEperTile.py:57-58 | Path and row parse iff characters 0..3 and 3..6 are digit strings. |
| `Orchestration.ParsePathRowOfTile` | b_pull_Landsat_SRST_poi/py/runGEEperPathRow.py:1243-1244 | A tile written as two zero-padded 3-digit numbers parses back to that path and row. |
| `Orchestration.VariantSelection` | b_pull_Landsat_SRST_poi/py/runGEEperPathRow.py:1328-1401 | DSWE 1 is selected iff "1" is in the setting, DSWE 3 iff "3" is, and DSWE 1a iff the path/row script sees "1a". "1a" implies "1". |
| `Orchestration.ExportNameInjective` | b_pull_Landsat_SRST_poi/py/runGEEperTile.py:156-160 | Two exports of one run share a name only if sensor group, variant and batch agree. |
| `Orchestration.SameStemSameBatch` | b_pull_Landsat_SRST_poi/py/runGEEperPathRow.py:1335-1339 | Within one sensor group and variant, equal names mean equal batch numbers. |
| `Orchestration.ExportNameNotMetadata` | b_pull_Landsat_SRST_poi/py/runGEEperTile.py:331 | No site export shares its name with a metadata export. |
| `Orchestration.SelectorNames` | b_pull_Landsat_SRST_poi/py/runGEEperTile.py:165-175 | The selectors are "system:index" followed by the column names, in order. |
| `Orchestration.Selectors89Extend457` | b_pull_Landsat_SRST_poi/py/runGEEperTile.py:258-268 | The Landsat 8/9 selectors are the Landsat 4/5/7 ones plus the Aerosol median, sd, mean and pCount_medHighAero. |
| `Orchestration.SelectorsResolve` | b_pull_Landsat_SRST_poi/py/runGEEperTile.py:165-175 | Every tile-script selector is a column of the altered pull's rows. So is every path/row Landsat 4/5/7 selector of its pull. sum_sr_cloud is computed but never exported. |
| `Orchestration.PathRow89SelectsMissingColumn` | b_pull_Landsat_SRST_poi/py/runGEEperPathRow.py:1470-1478 | The path/row Landsat 8/9 export selects pCount_medHighAero, which the pull never computes. Every other selected column exists. |
| `Orchestration.PathRow89SelectorsResolveCorrected` | b_pull_Landsat_SRST_poi/py/runGEEperPathRow.py:874-901 | With the aerosol band added to the pull, every selected column exists. |
| `Orchestration.PathRow89D1aExportsD1Rows` | b_pull_Landsat_SRST_poi/py/runGEEperPathRow.py:1496 | Every export hands over its own variant's pull, except the path/row Landsat 8/9 DSWE 1a export, which hands over the DSWE 1 pull. Its rows drop an algae-water site that the DSWE 1a pull keeps. |
| `Orchestration.ExportedPullFixed` | b_pull_Landsat_SRST_poi/py/runGEEperPathRow.py:1490-1496 | The intended collection is the pull of the export's own family and variant. |
| `Orchestration.ExportedRowsFixed` | b_pull_Landsat_SRST_poi/py/runGEEperPathRow.py:1490-1496 | With the fix, each export writes exactly the rows of sites with a non-empty window of its variant, and the algae site is exported. |
| `Orchestration.GroupExports` | b_pull_Landsat_SRST_poi/py/runGEEperTile.py:149-223 | One export per selected variant, in order, each the site export of that variant. |
| `Orchestration.GroupOrder` | b_pull_Landsat_SRST_poi/py/runGEEperPathRow.py:1328-1435 | Within a sensor group the order is DSWE 1, (path/row only) DSWE 1a, DSWE 3. |
| `Orchestration.BatchOrder` | b_pull_Landsat_SRST_poi/py/runGEEperTile.py:143-316 | The tile script's batch order is 457-D1, 457-D3, 89-D1, 89-D3; nothing is exported unless "site" is in the extent. |
| `Orchestration.Submitted` | b_pull_Landsat_SRST_poi/py/runGEEperTile.py:177-179 | Each export contributes an admission call and a start. |
| `Orchestration.SubmittedShape` | b_pull_Landsat_SRST_poi/py/runGEEperTile.py:177-179 | Every start is immediately preceded by `maximum_no_of_tasks(10, 120)`, and the starts follow export order. |
| `Orchestration.SubmittedConcat` | b_pull_Landsat_SRST_poi/py/runGEEperTile.py:338-361 | Submitting two export lists in turn is submitting their concatenation. |
| `Orchestration.SubmitGroup` | b_pull_Landsat_SRST_poi/py/runGEEperTile.py:149-223 | One sensor group's branch submits its group's exports. |
| `Orchestration.SubmitNext` | b_pull_Landsat_SRST_poi/py/runGEEperTile.py:177-179 | One admission call and one start extend the submissions by the next export. |
| `Orchestration.RunScript` | b_pull_Landsat_SRST_poi/py/runGEEperTile.py:57-361 | When the tile's path/row does not parse, `int()` raises before any export, so nothing is admitted or started (also runGEEperPathRow.py:1243-1244). Otherwise the script submits every batch's site exports, batch by batch, then the 4/5/7 and 8/9 metadata exports, each admitted first. |
| `Orchestration.ManifestNamesDiffer` | b_pull_Landsat_SRST_poi/py/runGEEperTile.py:375-382 | The two manifests of a day are different files. |
| `Orchestration.WriteManifest` | b_pull_Landsat_SRST_poi/py/runGEEperTile.py:375-379 | The manifest holds one id per line, in stack order, and reads back as the ids. |
| `Orchestration.WriteManifests` | b_pull_Landsat_SRST_poi/py/runGEEperTile.py:371-386 | Both manifests are written, each overwriting its file, and no other file changes. |
| `FailedTasks.LedgerName` | b_pull_Landsat_SRST_poi/py/check_for_failed_tasks.py:15 | The ledger name carries the run date. |
| `FailedTasks.LedgerNameInjective` | b_pull_Landsat_SRST_poi/py/check_for_failed_tasks.py:15-24 | Two run dates never share a ledger, and every ledger lies in `b_pull_Landsat_SRST_poi/out/`. |
| `FailedTasks.Recorded` | b_pull_Landsat_SRST_poi/py/check_for_failed_tasks.py:22 | A description is recorded iff some task in the list has "FAIL" in its state and the run date in its description. There are at most as many records as tasks. |
| `FailedTasks.RecordedOfRun` | b_pull_Landsat_SRST_poi/py/check_for_failed_tasks.py:22 | Every record names the run date, and nothing is recorded iff no task failed in this run. |
| `FailedTasks.OutFolder.Append` | b_pull_Landsat_SRST_poi/py/check_for_failed_tasks.py:24-25 | Append mode creates the named file empty if it is missing, keeps its old text as a prefix and changes no other file. |
| `FailedTasks.ScanFailures` | b_pull_Landsat_SRST_poi/py/check_for_failed_tasks.py:15-25 | Only the run's ledger `LedgerName(run_date)` changes: it becomes its old text (none if missing) followed by each recorded description and a newline, in task order. When nothing is recorded no file is created or changed. |
| `FailedTasks.NewLedgerReadsBack` | b_pull_Landsat_SRST_poi/py/check_for_failed_tasks.py:24-25 | When the run had no ledger, the one the scan creates reads back, line by line, as the recorded descriptions, provided none holds a newline. |

## Left out

- Earth Engine plumbing is not modelled: initialisation, loading and filtering image collections, renaming bands, `Export.table.toDrive`, `start()` and `Task.list()`. Exports are values, and task listings are inputs.
- Terrain illumination (`calc_hill_shades`, `calc_hill_shadows`) is not modelled: hillShade and hillShadow are per-pixel inputs.
- The `sr_cloud_mask` function is not part of this model; `sr_cloud` is a per-pixel input.
- Geometry is not modelled: `csv_to_eeFeat`, `dp_buff`, and the pixel/region intersection of `reduceRegions`. A region is given as its pixel sequence.
- Floating point is not modelled: bands are exact reals, so IEEE rounding at the thresholds is not captured.
- Median, standard deviation and kurtosis are not evaluated. Their statistic records the sample they are computed from.
- Earth Engine's value for a division by zero is not modelled: an index with a zero denominator is undefined, and every test on it fails.
- Each pixel has one validity flag for all of its image bands. Per-band masks inside an image (e.g. a band missing in one scene) are not captured.
- The fill, realistic, opacity and high-aerosol masks are modelled as defined. The scripts shown do not apply them to the stacks, so they gate nothing in the pulls.
- `time.sleep`, the wall clock and `date.today()` are not modelled: sleeps are events, and the run date and version tag are parameters. The tile script calls `date.today()` again for every export name and for each manifest name (runGEEperTile.py:160-382). The model uses one `cfg.version` for the whole run. So a run whose admission sleeps cross midnight is not modelled: its names would carry more than one date. `Orchestration.ExportNameInjective`, `Orchestration.RunScript` and `Orchestration.WriteManifests` assume one date per run.
- Configuration reading with pandas (yml.csv, feather files) is not modelled: the settings are a `Config` value.
- `Admission.MaximumNoOfTasks`: the loop is bounded by the listings supplied. Unconditional termination depends on the task registry and is not claimed.
- `Orchestration.RunScript`: the `Admit` events are the calls the script makes. They are not tied to particular listings; `Admission.MaximumNoOfTasks` models each call.
- `Text.ParseNat`: `int()` also accepts surrounding whitespace, a sign and digit separators (`int(" 12")`, `int("+12")`, `int("1_2")`). Only plain digit strings are modelled; any other string gives None here.
- `Orchestration.ParsePathRow`: built on `Text.ParseNat`, so a tile slice that `int()` accepts only in one of those other forms is treated as unparsable.
- runGEEperTile.py calls `ref_pull_457_DSWE1`/`ref_pull_457_DSWE3` and `ref_pull_89_DSWE1`/`ref_pull_89_DSWE3` without defining or importing them, so it relies on definitions loaded beside it. gee_pull_altered.py defines `ref_pull_89_DSWE1` and `ref_pull_89_DSWE3` (lines 169 and 249) under those names. Its Landsat 4/5/7 pulls are named `ref_pull_457_DSWE1_altered` and `ref_pull_457_DSWE3_altered` (lines 2 and 85). runGEEperPathRow.py defines all four called names, with the path/row layouts. The model's choice of `Orchestration.FamilyOf(TileScript, LS457) == Altered457` is inferred from the tile selectors, not from how the names resolve. Those selectors name med_temp_qa…, min_cloud_dist and kurt_SurfaceTemp, and only the altered Landsat 4/5/7 layout has those columns.
- apply_scale_factors also scales the thermal bands (DN·0.00341802 + 149). Pixels carry their scaled surface temperature directly and no mask reads it, so only the optical scaling is modelled.
- `Orchestration.RunScript` models the scripts as written. The corrected export collection is `Orchestration.ExportedPullFixed`, proved separately.
- `FailedTasks.ScanFailures`: each append opens and closes the file once. Only the resulting files are modelled, not the number of opens.

## Findings

| source | as written | input that shows it | evidently intended | confidence | as-written member | corrected member |
|---|---|---|---|---|---|---|
| b_pull_Landsat_SRST_poi/py/runGEEperPathRow.py:92 | the base value is `qa & (1 << 1)`, which is 2 | QA_PIXEL = 2 (dilated cloud only) gives cfmask 2, the cloud value | 1 for dilated cloud, as the comment says | not executed | `QaBits.CfMaskDilatedOnlyIsTwo` | `QaBits.CfMaskIntendedAgrees` |
| b_pull_Landsat_SRST_poi/py/runGEEperPathRow.py:1496 | the Landsat 8/9 DSWE 1a export filters `locs_out_89_D1` | a site whose only lit, clear, unsaturated pixel is class 2 with Green 0.3 and Red 0.01 has a DSWE 1a row, but the export writes none | filter `locs_out_89_D1a` | not executed | `Orchestration.PathRow89D1aExportsD1Rows` | `Orchestration.ExportedRowsFixed` |
| b_pull_Landsat_SRST_poi/py/runGEEperPathRow.py:831 | `a` is computed but never added to `pixOut`, yet `pCount_medHighAero` is selected | any path/row Landsat 8/9 pull: its rows have no pCount_medHighAero column | add the self-masked aerosol band to the pull | not executed | `Orchestration.PathRow89SelectsMissingColumn` | `Orchestration.PathRow89SelectorsResolveCorrected` |
| b_pull_Landsat_SRST_poi/py/gee_pull_altered.py:184 | medHighAero is added without `selfMask()` | one valid pixel with aerosol_qa = 0 gives pCount_medHighAero = 1 | count only pixels with bit 7 set | not executed | `Pulls.AeroCountCountsUnflagged` | `Pulls.CorrectedRowAero` |
| b_pull_Landsat_SRST_poi/py/gee_pull_altered.py:140 | `img_maks` is bound and `img_mask` is used | a call with no global `img_mask` raises NameError | bind and use `img_mask` | not executed | `Pulls.Altered457D3AsWrittenFails` | `Pulls.Altered457D3MaskFixed` |
