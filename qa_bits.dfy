/** Bit arithmetic on the Landsat Collection 2 quality words (QA_PIXEL, QA_RADSAT,
    SR_QA_AEROSOL), as runGEEperPathRow.py decodes them with Earth Engine's
    `bitwiseAnd` and `rightShift`. QA words are natural numbers. */
module QaBits {
  import opened Text

  function Pow2(n: nat): (r: nat)
    ensures r >= 1
  {
    if n == 0 then 1 else 2 * Pow2(n - 1)
  }

  /** Bitwise AND of two natural numbers, bit by bit from the least significant. */
  function BitAnd(a: nat, b: nat): nat
  {
    if a == 0 || b == 0 then 0
    else 2 * BitAnd(a / 2, b / 2) + (if a % 2 == 1 && b % 2 == 1 then 1 else 0)
  }

  /** Bit `i` of `q` is set. */
  predicate BitSet(q: nat, i: nat)
  {
    (q / Pow2(i)) % 2 == 1
  }

  /** Bits [s, s + w) of `q`, as a number. */
  function Field(q: nat, s: nat, w: nat): nat
  {
    (q / Pow2(s)) % Pow2(w)
  }

  // ---------------------------------------------------------------------------
  // Arithmetic helpers

  lemma MulMono(a: int, b: int, d: int)
    requires d > 0 && a <= b
    ensures a * d <= b * d
  {
    var m := b - a;
    assert b * d == a * d + m * d;
  }

  lemma DivMulUnique(x: nat, d: nat, k: nat, r: nat)
    requires 0 <= r < d && x == k * d + r
    ensures x / d == k && x % d == r
  {
    var q0, r0 := x / d, x % d;
    assert x == q0 * d + r0;
    if q0 < k {
      MulMono(q0 + 1, k, d);
    } else if q0 > k {
      MulMono(k + 1, q0, d);
    }
  }

  /** Dividing by a*b is dividing by a, then by b; and the matching remainder. */
  lemma DivDiv(q: nat, a: nat, b: nat)
    requires a >= 1 && b >= 1
    ensures q / (a * b) == (q / a) / b
    ensures q % (a * b) == a * ((q / a) % b) + q % a
  {
    var hi, lo := q / a, q % a;
    var k, f := hi / b, hi % b;
    assert q == hi * a + lo;
    assert hi * a == k * (a * b) + f * a by {
      assert hi == k * b + f;
    }
    MulMono(f, b - 1, a);
    assert f * a + lo < a * b;
    DivMulUnique(q, a * b, k, f * a + lo);
  }

  /** Dividing by 2m is halving, then dividing by m; and the matching remainder. */
  lemma HalveThenDivide(q: nat, m: nat)
    requires m >= 1
    ensures q / (2 * m) == (q / 2) / m
    ensures q % (2 * m) == 2 * ((q / 2) % m) + q % 2
  {
    DivDiv(q, 2, m);
  }

  lemma {:induction false} BitSetShift(q: nat, i: nat)
    requires i >= 1
    ensures BitSet(q, i) == BitSet(q / 2, i - 1)
  {
    HalveThenDivide(q, Pow2(i - 1));
  }

  // ---------------------------------------------------------------------------
  // What `bitwiseAnd` computes on the masks the source uses

  /** Masking with `1 << i` leaves `1 << i` when bit `i` is set and 0 otherwise. */
  lemma {:induction false} BitAndPow2(q: nat, i: nat)
    ensures BitAnd(q, Pow2(i)) == if BitSet(q, i) then Pow2(i) else 0
    decreases i
  {
    if q == 0 {
    } else if i == 0 {
      assert BitAnd(q / 2, 0) == 0;
    } else {
      assert Pow2(i) / 2 == Pow2(i - 1) && Pow2(i) % 2 == 0;
      BitAndPow2(q / 2, i - 1);
      BitSetShift(q, i);
    }
  }

  /** Masking with `2^e - 1` keeps the low `e` bits, i.e. the remainder modulo 2^e. */
  lemma {:induction false} BitAndLowMask(q: nat, e: nat)
    ensures BitAnd(q, Pow2(e) - 1) == q % Pow2(e)
    decreases e
  {
    if q == 0 || e == 0 {
    } else {
      var m := Pow2(e) - 1;
      assert m / 2 == Pow2(e - 1) - 1 && m % 2 == 1;
      BitAndLowMask(q / 2, e - 1);
      HalveThenDivide(q, Pow2(e - 1));
    }
  }

  lemma {:induction false} Pow2Add(a: nat, b: nat)
    ensures Pow2(a + b) == Pow2(a) * Pow2(b)
    decreases a
  {
    if a > 0 {
      Pow2Add(a - 1, b);
    }
  }

  lemma Pow2Monotone(a: nat, b: nat)
    requires a <= b
    ensures Pow2(a) <= Pow2(b)
  {
    Pow2Add(a, b - a);
  }

  /** (q mod 2^e) div 2^s is the field of bits [s, e) when s <= e. */
  lemma {:induction false} ModThenShift(q: nat, s: nat, e: nat)
    requires s <= e
    ensures (q % Pow2(e)) / Pow2(s) == Field(q, s, e - s)
  {
    var ps, pw := Pow2(s), Pow2(e - s);
    Pow2Add(s, e - s);
    DivDiv(q, ps, pw);
    var f, lo := (q / ps) % pw, q % ps;
    assert q % Pow2(e) == f * ps + lo;
    DivMulUnique(f * ps + lo, ps, f, lo);
  }

  /** When the low mask stops at or below the start bit, the shift clears everything. */
  lemma ModThenShiftEmpty(q: nat, s: nat, e: nat)
    requires e <= s
    ensures (q % Pow2(e)) / Pow2(s) == 0
  {
    Pow2Monotone(e, s);
    DivMulUnique(q % Pow2(e), Pow2(s), 0, q % Pow2(e));
  }

  // ---------------------------------------------------------------------------
  // extract_qa_bits

  /** The bits [startBit, endBit) of a QA word: the source builds the mask
      `2^endBit - 1` one bit at a time, ANDs it with the word and shifts right by
      `startBit`. */
  method ExtractQaBits(qa: nat, startBit: nat, endBit: nat) returns (v: nat)
    ensures startBit <= endBit ==> v == Field(qa, startBit, endBit - startBit)
    ensures startBit <= endBit ==> v < Pow2(endBit - startBit)
    ensures endBit <= startBit ==> v == 0
  {
    var qaBits := 0;
    for bit := 0 to endBit
      invariant qaBits == Pow2(bit) - 1
    {
      qaBits := qaBits + Pow2(bit);
    }
    v := BitAnd(qa, qaBits) / Pow2(startBit);
    BitAndLowMask(qa, endBit);
    if startBit <= endBit {
      ModThenShift(qa, startBit, endBit);
    } else {
      ModThenShiftEmpty(qa, startBit, endBit);
    }
  }

  /** A field of two bits is twice its upper bit plus its lower bit. */
  lemma TwoBitField(q: nat, s: nat)
    ensures Field(q, s, 2) == 2 * (if BitSet(q, s + 1) then 1 else 0) + (if BitSet(q, s) then 1 else 0)
  {
    var ps := Pow2(s);
    var hi := q / ps;
    assert Pow2(2) == 2 * 2;
    DivDiv(hi, 2, 2);
    DivDiv(q, ps, 2);
    assert Pow2(s + 1) == ps * 2;
  }

  // ---------------------------------------------------------------------------
  // cf_mask

  /** cf_mask as written: the base value is `qa & (1 << 1)` (dilated cloud, which is 2,
      not the 1 the source comment announces), then bit 3 (cloud) gives 2, bit 4
      (cloud shadow) gives 3 and bit 5 (snow) gives 4, each later `where` overriding
      the earlier ones. */
  function CfMask(qa: nat): (r: nat)
  {
    if BitAnd(qa, Pow2(5)) != 0 then 4
    else if BitAnd(qa, Pow2(4)) != 0 then 3
    else if BitAnd(qa, Pow2(3)) != 0 then 2
    else BitAnd(qa, Pow2(1))
  }

  /** The four QA_PIXEL flags cf_mask looks at. */
  predicate Dilated(qa: nat) { BitSet(qa, 1) }
  predicate Cloud(qa: nat) { BitSet(qa, 3) }
  predicate Shadow(qa: nat) { BitSet(qa, 4) }
  predicate Snow(qa: nat) { BitSet(qa, 5) }

  /** What cf_mask decodes: 0 exactly when none of the four flags is set, snow over
      shadow over cloud, and a dilated-cloud-only pixel gives 2. */
  lemma CfMaskDecodes(qa: nat)
    ensures CfMask(qa) in {0, 2, 3, 4}
    ensures CfMask(qa) == 0 <==> !Dilated(qa) && !Cloud(qa) && !Shadow(qa) && !Snow(qa)
    ensures Snow(qa) ==> CfMask(qa) == 4
    ensures !Snow(qa) && Shadow(qa) ==> CfMask(qa) == 3
    ensures !Snow(qa) && !Shadow(qa) && Cloud(qa) ==> CfMask(qa) == 2
    ensures !Snow(qa) && !Shadow(qa) && !Cloud(qa) && Dilated(qa) ==> CfMask(qa) == 2
  {
    BitAndPow2(qa, 1);
    BitAndPow2(qa, 3);
    BitAndPow2(qa, 4);
    BitAndPow2(qa, 5);
  }

  /** cf_mask as its comment describes it: a dilated-cloud-only pixel is 1. */
  function CfMaskIntended(qa: nat): (r: nat)
  {
    if Snow(qa) then 4
    else if Shadow(qa) then 3
    else if Cloud(qa) then 2
    else if Dilated(qa) then 1
    else 0
  }

  /** The intended decoding is an ordinal 0..4 with 0 = clear, 1 = dilated cloud,
      2 = cloud, 3 = cloud shadow, 4 = snow, and it agrees with cf_mask as written on
      every value the pulls use: `cfmask == 0` and `cfmask >= 1`. */
  lemma CfMaskIntendedAgrees(qa: nat)
    ensures CfMaskIntended(qa) <= 4
    ensures !Snow(qa) && !Shadow(qa) && !Cloud(qa) && Dilated(qa) ==> CfMaskIntended(qa) == 1
    ensures (CfMaskIntended(qa) == 0) == (CfMask(qa) == 0)
    ensures CfMaskIntended(qa) != 1 ==> CfMaskIntended(qa) == CfMask(qa)
  {
    CfMaskDecodes(qa);
  }

  /** The discrepancy: QA_PIXEL = 2 (only the dilated-cloud bit) gives 2 as written. */
  lemma CfMaskDilatedOnlyIsTwo()
    ensures CfMask(2) == 2 && CfMaskIntended(2) == 1
  {
    assert Pow2(1) == 2 && Pow2(3) == 8 && Pow2(4) == 16 && Pow2(5) == 32;
    CfMaskDecodes(2);
  }

  /** `clouds = cfmask >= 1`. */
  function CloudsFlag(qa: nat): (r: nat)
    ensures r <= 1
    ensures r == 1 <==> Dilated(qa) || Cloud(qa) || Shadow(qa) || Snow(qa)
  {
    CfMaskDecodes(qa);
    if CfMask(qa) >= 1 then 1 else 0
  }

  // ---------------------------------------------------------------------------
  // add_rad_mask, sr_aerosol, apply_high_aero_mask

  /** The `radsat` band of add_rad_mask: `radsat_qa == 0` as 1/0, with the band masked
      (None) wherever that value is 0, because the source also applies it as a mask. */
  function RadsatBand(radsatQa: nat): Option<nat>
  {
    var satMask := if radsatQa == 0 then 1 else 0;
    if satMask == 0 then None else Some(satMask)
  }

  /** The pulls' gate `r.eq(1)` passes exactly on pixels saturated in no band. */
  lemma UnsaturatedGate(radsatQa: nat)
    ensures (RadsatBand(radsatQa) == Some(1)) <==> radsatQa == 0
    ensures RadsatBand(radsatQa) != Some(0)
  {
  }

  /** sr_aerosol: `aerosol_qa & (1 << 7)`. */
  function MedHighAero(aerosolQa: nat): (r: nat)
    ensures r == 0 || r == 128
    ensures r != 0 <==> BitSet(aerosolQa, 7)
  {
    BitAndPow2(aerosolQa, 7);
    assert Pow2(7) == 128;
    BitAnd(aerosolQa, Pow2(7))
  }

  /** The aerosol level of SR_QA_AEROSOL: bits 6 and 7. */
  function AeroLevel(aerosolQa: nat): nat
  {
    Field(aerosolQa, 6, 2)
  }

  /** apply_high_aero_mask keeps a pixel when its aerosol level is below 3. */
  predicate HighAeroKept(aerosolQa: nat)
  {
    AeroLevel(aerosolQa) < 3
  }

  /** The kept pixels are those whose bits 6 and 7 are not both set; the level is
      always below 4. */
  lemma HighAeroMaskDecodes(aerosolQa: nat)
    ensures AeroLevel(aerosolQa) < 4
    ensures HighAeroKept(aerosolQa) <==> !(BitSet(aerosolQa, 6) && BitSet(aerosolQa, 7))
  {
    TwoBitField(aerosolQa, 6);
  }
}
