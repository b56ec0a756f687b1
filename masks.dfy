/** The Landsat Collection 2 scale factors and the per-pixel validity masks of
    runGEEperPathRow.py: fill, realistic range and atmospheric opacity. A mask is
    applied with `updateMask`, so a pixel survives when it survived before AND the
    mask keeps it. */
module Masks {
  import opened Text

  // ---------------------------------------------------------------------------
  // apply_scale_factors

  /** Surface reflectance from its digital number: DN * 0.0000275 - 0.2. */
  function ScaleOptical(dn: real): real
  {
    dn * 0.0000275 - 0.2
  }

  // ---------------------------------------------------------------------------
  // apply_fill_mask_457/89 and apply_realistic_mask_457/89

  datatype Sensor = LS457 | LS89

  /** The seven optical bands SR_B1 .. SR_B7 of one pixel. */
  datatype SrBands = SrBands(b1: real, b2: real, b3: real, b4: real, b5: real, b6: real, b7: real)

  /** The bands a mask looks at: Landsat 4, 5 and 7 have no SR_B6 in the list, Landsat 8
      and 9 add it. */
  function MaskedBands(sensor: Sensor, sr: SrBands): (r: seq<real>)
    ensures |r| == if sensor == LS457 then 6 else 7
  {
    match sensor
    case LS457 => [sr.b1, sr.b2, sr.b3, sr.b4, sr.b5, sr.b7]
    case LS89 => [sr.b1, sr.b2, sr.b3, sr.b4, sr.b5, sr.b6, sr.b7]
  }

  /** The chain `b1.gt(t).eq(1).And(b2.gt(t).eq(1)) ...`. */
  function AllAbove(xs: seq<real>, t: real): bool
  {
    if xs == [] then true else xs[0] > t && AllAbove(xs[1..], t)
  }

  /** The chain followed by `selfMask()`: 1 where every band is above the threshold,
      masked (None) elsewhere. */
  function ThresholdMask(sensor: Sensor, sr: SrBands, t: real): (m: Option<nat>)
  {
    if AllAbove(MaskedBands(sensor, sr), t) then Some(1) else None
  }

  /** `image.updateMask(m.eq(1))`: the pixel stays valid when it was and `m` is 1. */
  predicate UpdateMaskEq1(valid: bool, m: Option<nat>)
  {
    valid && m == Some(1)
  }

  /** The fill mask drops zero or negative reflectance; the realistic mask drops
      reflectance at or below -0.01. */
  predicate FillKept(sensor: Sensor, valid: bool, sr: SrBands)
  {
    UpdateMaskEq1(valid, ThresholdMask(sensor, sr, 0.0))
  }

  predicate RealisticKept(sensor: Sensor, valid: bool, sr: SrBands)
  {
    UpdateMaskEq1(valid, ThresholdMask(sensor, sr, -0.01))
  }

  lemma {:induction false} AllAboveIff(xs: seq<real>, t: real)
    ensures AllAbove(xs, t) <==> forall i :: 0 <= i < |xs| ==> xs[i] > t
  {
    if xs != [] {
      AllAboveIff(xs[1..], t);
      assert forall i :: 1 <= i < |xs| ==> xs[i] == xs[1..][i - 1];
    }
  }

  /** Band by band: which reflectances each sensor's fill and realistic masks test. */
  lemma MasksByBand(sensor: Sensor, valid: bool, sr: SrBands)
    ensures FillKept(sensor, valid, sr) <==>
      valid && sr.b1 > 0.0 && sr.b2 > 0.0 && sr.b3 > 0.0 && sr.b4 > 0.0 && sr.b5 > 0.0 && sr.b7 > 0.0
      && (sensor == LS89 ==> sr.b6 > 0.0)
    ensures RealisticKept(sensor, valid, sr) <==>
      valid && sr.b1 > -0.01 && sr.b2 > -0.01 && sr.b3 > -0.01 && sr.b4 > -0.01 && sr.b5 > -0.01
      && sr.b7 > -0.01 && (sensor == LS89 ==> sr.b6 > -0.01)
  {
    var xs := MaskedBands(sensor, sr);
    AllAboveIff(xs, 0.0);
    AllAboveIff(xs, -0.01);
    assert xs[0] == sr.b1 && xs[1] == sr.b2 && xs[2] == sr.b3 && xs[3] == sr.b4 && xs[4] == sr.b5;
    if sensor == LS457 {
      assert xs[5] == sr.b7;
    } else {
      assert xs[5] == sr.b6 && xs[6] == sr.b7;
    }
  }

  /** A pixel the fill mask keeps is kept by the realistic mask; a pixel a Landsat 8/9
      mask keeps is kept by the Landsat 4/5/7 mask with the same threshold. */
  lemma MaskOrdering(sensor: Sensor, valid: bool, sr: SrBands)
    ensures FillKept(sensor, valid, sr) ==> RealisticKept(sensor, valid, sr)
    ensures FillKept(LS89, valid, sr) ==> FillKept(LS457, valid, sr)
    ensures RealisticKept(LS89, valid, sr) ==> RealisticKept(LS457, valid, sr)
  {
    MasksByBand(sensor, valid, sr);
    MasksByBand(LS89, valid, sr);
    MasksByBand(LS457, valid, sr);
  }

  /** After scaling, a fill digital number 0 becomes -0.2: a pixel whose SR_B1 held the
      fill value is dropped by both masks (every other tested band behaves alike). */
  lemma ScaledFillDropped(sensor: Sensor, valid: bool, sr: SrBands)
    requires sr.b1 == ScaleOptical(0.0)
    ensures !FillKept(sensor, valid, sr) && !RealisticKept(sensor, valid, sr)
  {
    MasksByBand(sensor, valid, sr);
  }

  // ---------------------------------------------------------------------------
  // apply_opac_mask

  /** SR_ATMOS_OPACITY is stored times 1000; a pixel is kept when its opacity is below
      0.3. */
  predicate OpacityKept(valid: bool, opacityDn: real)
  {
    valid && opacityDn * 0.001 < 0.3
  }

  // ---------------------------------------------------------------------------
  // The masks on stored digital numbers

  /** apply_scale_factors on the optical bands, band by band. */
  function ScaleSr(dn: SrBands): SrBands
  {
    SrBands(ScaleOptical(dn.b1), ScaleOptical(dn.b2), ScaleOptical(dn.b3), ScaleOptical(dn.b4),
            ScaleOptical(dn.b5), ScaleOptical(dn.b6), ScaleOptical(dn.b7))
  }

  /** The masks run on the scaled image, so in terms of the stored digital numbers the
      fill mask keeps a valid pixel iff every band it lists is above 0.2 / 0.0000275
      (about 7273), the realistic mask iff every one is above 0.19 / 0.0000275 (about
      6909), and the opacity mask iff the stored opacity is below 300. */
  lemma MasksOnDigitalNumbers(sensor: Sensor, valid: bool, dn: SrBands, opacityDn: real)
    ensures FillKept(sensor, valid, ScaleSr(dn)) <==>
      valid && forall i :: 0 <= i < |MaskedBands(sensor, dn)| ==> MaskedBands(sensor, dn)[i] > 0.2 / 0.0000275
    ensures RealisticKept(sensor, valid, ScaleSr(dn)) <==>
      valid && forall i :: 0 <= i < |MaskedBands(sensor, dn)| ==> MaskedBands(sensor, dn)[i] > 0.19 / 0.0000275
    ensures OpacityKept(valid, opacityDn) <==> valid && opacityDn < 300.0
  {
    var xs := MaskedBands(sensor, dn);
    var ys := MaskedBands(sensor, ScaleSr(dn));
    assert forall i :: 0 <= i < |ys| ==> ys[i] == ScaleOptical(xs[i]);
    AllAboveIff(ys, 0.0);
    AllAboveIff(ys, -0.01);
  }
}
