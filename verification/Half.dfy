/** The dependency-free binary16 helpers (crates/llmpager-core/src/quant.rs:149-193), bit
    for bit. */
module Half {

  // ------------------------------------------------------------------- the encoder

  function Sign32(b: bv32): bv16 {
    ((b >> 16) & 0x8000) as bv16
  }

  function Exp32(b: bv32): (e: bv32)
    ensures e <= 0xFF
  {
    (b >> 23) & 0xFF
  }

  function Frac32(b: bv32): (f: bv32)
    ensures f <= 0x7F_FFFF
  {
    b & 0x7F_FFFF
  }

  /** `f32_to_f16_bits`. The rebiased exponent is `exp - 112`. */
  function F32ToF16(b: bv32): bv16 {
    var sign, exp, frac := Sign32(b), Exp32(b), Frac32(b);
    if exp == 0xFF then WithSign(sign, Special(frac))
    else if exp >= 143 then WithSign(sign, 0x7C00)
    else if exp < 102 then sign
    else if exp <= 112 then WithSign(sign, Small(exp, frac))
    else WithSign(sign, Regular(exp, frac))
  }

  function WithSign(sign: bv16, mag: bv16): bv16 {
    sign | mag
  }

  /** Infinity, or a quiet NaN. */
  function Special(frac: bv32): bv16 {
    0x7C00 | (if frac != 0 then 0x200 else 0)
  }

  /** A result below the normal range: shift the full mantissa down, then round. */
  function Small(exp: bv32, frac: bv32): bv16
    requires 102 <= exp <= 112 && frac <= 0x7F_FFFF
  {
    ((((frac | 0x80_0000) >> (113 - exp)) + 0x1000) >> 13) as bv16
  }

  /** A result in the normal range: rebias, round, and OR the two together. */
  function Regular(exp: bv32, frac: bv32): bv16
    requires 112 < exp < 143 && frac <= 0x7F_FFFF
  {
    ((exp - 112) << 10) as bv16 | Rounded(frac)
  }

  function Rounded(frac: bv32): bv16
    requires frac <= 0x7F_FFFF
  {
    ((frac + 0x1000) >> 13) as bv16
  }

  // ------------------------------------------------------------------- the decoder

  function Sign16(h: bv16): bv32 {
    ((h & 0x8000) as bv32) << 16
  }

  function Exp16(h: bv16): (e: bv32)
    ensures e <= 0x1F
  {
    ((h >> 10) & 0x1F) as bv32
  }

  function Frac16(h: bv16): (f: bv32)
    ensures f <= 0x3FF
  {
    (h & 0x3FF) as bv32
  }

  /** `f16_bits_to_f32`. */
  function F16ToF32(h: bv16): bv32 {
    var sign, exp, frac := Sign16(h), Exp16(h), Frac16(h);
    if exp == 0 && frac == 0 then sign
    else if exp == 0 then sign | Normalised(frac)
    else if exp == 0x1F then Unbounded(sign, frac)
    else Widened(sign, exp, frac)
  }

  /** Infinity, or a NaN with its payload. */
  function Unbounded(sign: bv32, frac: bv32): bv32 {
    if frac == 0 then sign | 0x7F80_0000 else sign | 0x7F80_0000 | (frac << 13)
  }

  function Widened(sign: bv32, exp: bv32, frac: bv32): bv32 {
    sign | ((exp + 112) << 23) | (frac << 13)
  }

  /** `leading_zeros - 21` of a non-zero 10-bit fraction. */
  function NormalShift(f: bv32): bv32 {
    if f >= 0x200 then 1 else if f >= 0x100 then 2 else if f >= 0x80 then 3 else if f >= 0x40 then 4
    else if f >= 0x20 then 5 else if f >= 0x10 then 6 else if f >= 8 then 7 else if f >= 4 then 8
    else if f >= 2 then 9 else 10
  }

  /** A subnormal number, with its leading one made implicit. */
  function Normalised(frac: bv32): bv32
    requires 0 < frac <= 0x3FF
  {
    var shift := NormalShift(frac);
    ((113 - shift) << 23) | ((frac << (shift + 13)) & 0x7F_FFFF)
  }

  // ---------------------------------------------------------------- the round trip

  predicate IsNan16(h: bv16) {
    Exp16(h) == 0x1F && Frac16(h) != 0
  }

  predicate IsFinite16(h: bv16) {
    Exp16(h) != 0x1F
  }

  /** Encoding what was decoded gives the same bits back, exactly unless they are a NaN
      whose payload is not the canonical one. */
  lemma RoundTrip(h: bv16)
    ensures F32ToF16(F16ToF32(h)) == h <==> !(IsNan16(h) && Frac16(h) != 0x200)
  {
    if Exp16(h) == 0x1F {
      SpecialTrip(h);
    } else if Exp16(h) != 0 {
      NormalTrip(h);
    } else if Frac16(h) != 0 {
      SubnormalTrip(h);
    } else {
      ZeroTrip(h);
    }
    hide *;
  }

  lemma ZeroTrip(h: bv16)
    requires Exp16(h) == 0 && Frac16(h) == 0
    ensures F32ToF16(F16ToF32(h)) == h
  {
    hide Widened;
    hide Normalised;
    hide Small;
    hide Regular;
  }

  lemma SpecialTrip(h: bv16)
    requires Exp16(h) == 0x1F
    ensures F32ToF16(F16ToF32(h)) == h <==> Frac16(h) == 0 || Frac16(h) == 0x200
  {
    hide Widened;
    hide Normalised;
    hide Small;
    hide Regular;
  }

  lemma SubnormalTrip(h: bv16)
    requires Exp16(h) == 0 && Frac16(h) != 0
    ensures F32ToF16(F16ToF32(h)) == h
  {
    var b := F16ToF32(h);
    assert b == Sign16(h) | Normalised(Frac16(h)) by {
      hide Normalised;
      hide Sign16;
      hide Frac16;
      hide Exp16;
      hide Widened;
    }
    hide *;
    SmallParts(h);
    SmallExact(b, h);
  }

  lemma SmallParts(h: bv16)
    requires Exp16(h) == 0 && Frac16(h) != 0
    ensures Sign32(Sign16(h) | Normalised(Frac16(h))) == h & 0x8000
    ensures Exp32(Sign16(h) | Normalised(Frac16(h))) == 113 - NormalShift(Frac16(h))
    ensures Frac32(Sign16(h) | Normalised(Frac16(h))) == (Frac16(h) << (NormalShift(Frac16(h)) + 13)) & 0x7F_FFFF
  {
  }

  lemma SmallExact(b: bv32, h: bv16)
    requires Exp16(h) == 0 && Frac16(h) != 0
    requires Sign32(b) == h & 0x8000 && Exp32(b) == 113 - NormalShift(Frac16(h))
    requires Frac32(b) == (Frac16(h) << (NormalShift(Frac16(h)) + 13)) & 0x7F_FFFF
    ensures F32ToF16(b) == h
  {
    NoSmallRounding(h);
    assert F32ToF16(b) == WithSign(Sign32(b), Small(Exp32(b), Frac32(b))) by {
      hide Sign32;
      hide Exp32;
      hide Frac32;
      hide Regular;
      hide WithSign;
      hide Small;
      hide Special;
      hide Frac16;
    }
    hide *;
  }

  lemma NoSmallRounding(h: bv16)
    requires Exp16(h) == 0 && Frac16(h) != 0
    ensures 103 <= 113 - NormalShift(Frac16(h)) <= 112
    ensures
      var frac := (Frac16(h) << (NormalShift(Frac16(h)) + 13)) & 0x7F_FFFF;
      frac <= 0x7F_FFFF && WithSign(h & 0x8000, Small(113 - NormalShift(Frac16(h)), frac)) == h
  {
  }

  lemma NormalTrip(h: bv16)
    requires 0 < Exp16(h) < 0x1F
    ensures F32ToF16(F16ToF32(h)) == h
  {
    var b := F16ToF32(h);
    assert b == Widened(Sign16(h), Exp16(h), Frac16(h)) by {
      hide Sign16;
      hide Exp16;
      hide Frac16;
      hide Widened;
      hide Normalised;
    }
    hide *;
    Parts(h);
    EncodeExact(b, h);
  }

  /** Taking a widened number apart. */
  lemma Parts(h: bv16)
    ensures Sign32(Widened(Sign16(h), Exp16(h), Frac16(h))) == h & 0x8000
    ensures Exp32(Widened(Sign16(h), Exp16(h), Frac16(h))) == Exp16(h) + 112
    ensures Frac32(Widened(Sign16(h), Exp16(h), Frac16(h))) == Frac16(h) << 13
  {
  }

  lemma EncodeExact(b: bv32, h: bv16)
    requires 0 < Exp16(h) < 0x1F
    requires Sign32(b) == h & 0x8000 && Exp32(b) == Exp16(h) + 112 && Frac32(b) == Frac16(h) << 13
    ensures F32ToF16(b) == h
  {
    NoRounding(h);
    assert F32ToF16(b) == WithSign(Sign32(b), Regular(Exp32(b), Frac32(b))) by {
      hide Sign32;
      hide Exp32;
      hide Frac32;
      hide Regular;
      hide WithSign;
      hide Small;
      hide Special;
      hide Frac16;
    }
    hide *;
  }

  /** A fraction of ten bits needs no rounding. */
  lemma NoRounding(h: bv16)
    requires 0 < Exp16(h) < 0x1F
    ensures 112 < Exp16(h) + 112 < 143 && Frac16(h) << 13 <= 0x7F_FFFF
    ensures WithSign(h & 0x8000, Regular(Exp16(h) + 112, Frac16(h) << 13)) == h
  {
  }

  // ------------------------------------------------------------------- rounding

  /** Within half a unit in the last binary16 place, which is 0x2000 units of binary32;
      for positive numbers, which are ordered like their bits. */
  predicate HalfUlp(x: bv32, y: bv32) {
    -0x1000 <= x as int - y as int <= 0x1000
  }

  /** The rounded fraction overflows into the exponent. */
  predicate Carries(b: bv32) {
    Frac32(b) >= 0x7F_F000
  }

  /** A positive number in the normal range is rounded to within half a unit in the last
      place, exactly unless the fraction carries and either the exponent is odd, so that
      the OR swallows the carry, or the result overflows to infinity. */
  lemma RoundsCorrectly(b: bv32)
    requires b < 0x8000_0000 && 112 < Exp32(b) < 143
    ensures HalfUlp(b, F16ToF32(F32ToF16(b))) <==> !(Carries(b) && (Exp32(b) & 1 == 1 || Exp32(b) == 142))
  {
    EncodesNormal(b);
    if !Carries(b) {
      NoCarry(b);
    } else if Exp32(b) & 1 == 1 {
      LostCarry(b);
    } else {
      KeptCarry(b);
    }
    hide *;
  }

  lemma EncodesNormal(b: bv32)
    requires b < 0x8000_0000 && 112 < Exp32(b) < 143
    ensures F32ToF16(b) == Regular(Exp32(b), Frac32(b))
  {
    assert Sign32(b) == 0;
    hide Sign32;
    hide Exp32;
    hide Frac32;
    hide Small;
    hide Special;
    hide Regular;
  }

  function Bits32(exp: bv32, frac: bv32): bv32 {
    (exp << 23) | frac
  }

  lemma Parse(b: bv32)
    requires b < 0x8000_0000
    ensures b == Bits32(Exp32(b), Frac32(b))
  {
  }

  /** A finite normal number without a sign, decoded. */
  lemma DecodesNormal(h: bv16)
    requires Sign16(h) == 0 && 0 < Exp16(h) < 0x1F
    ensures F16ToF32(h) == Bits32(Exp16(h) + 112, Frac16(h) << 13)
  {
    assert F16ToF32(h) == Widened(0, Exp16(h), Frac16(h)) by {
      hide Exp16;
      hide Frac16;
      hide Sign16;
      hide Widened;
      hide Normalised;
    }
    hide F16ToF32;
    hide Exp16;
    hide Frac16;
  }

  /** The fraction that is kept, and the same at the width of binary32. */
  function Kept(x: bv32): bv32 {
    x >> 13
  }

  function ShiftedUp(q: bv32): bv32 {
    q << 13
  }

  function RoundOff(frac: bv32): bv32 {
    ShiftedUp(Kept(frac + 0x1000))
  }

  lemma NoCarry(b: bv32)
    requires b < 0x8000_0000 && 112 < Exp32(b) < 143 && !Carries(b)
    ensures HalfUlp(b, F16ToF32(Regular(Exp32(b), Frac32(b))))
  {
    assert Frac32(b) < 0x7F_F000;
    hide *;
    Parse(b);
    RoundedParts(Exp32(b), Frac32(b));
    NearInBinade(Exp32(b), Frac32(b));
  }

  lemma RoundedParts(exp: bv32, frac: bv32)
    requires 112 < exp < 143 && frac < 0x7F_F000
    ensures F16ToF32(Regular(exp, frac)) == Bits32(exp, RoundOff(frac))
  {
    hide *;
    RegularFields(exp, frac);
    DecodesNormal(Regular(exp, frac));
    assert exp - 112 + 112 == exp;
  }

  /** The bits of a fraction that binary16 has no room for: half of the last place, or none. */
  predicate IsTie(x: bv32) {
    x & 0x1FFF == 0x1000
  }

  predicate IsShort(x: bv32) {
    x & 0x1FFF == 0
  }

  function HalfUlpAbove(b: bv32): bv32 {
    b + 0x1000
  }

  /** Half-way between two numbers of the normal range, the encoding is the larger one. */
  lemma TiesGoUp(b: bv32)
    requires b < 0x8000_0000 && 112 < Exp32(b) < 143 && !Carries(b) && IsTie(b)
    ensures F16ToF32(F32ToF16(b)) == HalfUlpAbove(b)
  {
    hide *;
    NotCarried(b);
    LowPart(b);
    EncodesNormal(b);
    Parse(b);
    RoundedParts(Exp32(b), Frac32(b));
    TieRounds(Exp32(b), Frac32(b));
  }

  /** A number of the normal range with no more fraction bits than binary16 has is encoded
      exactly. */
  lemma ShortIsExact(b: bv32)
    requires b < 0x8000_0000 && 112 < Exp32(b) < 143 && IsShort(b)
    ensures F16ToF32(F32ToF16(b)) == b
  {
    hide *;
    ShortFraction(b);
    LowPart(b);
    EncodesNormal(b);
    Parse(b);
    RoundedParts(Exp32(b), Frac32(b));
    ShortRounds(Frac32(b));
  }

  lemma NotCarried(b: bv32)
    requires !Carries(b)
    ensures Frac32(b) < 0x7F_F000
  {
    hide Frac32;
  }

  lemma ShortFraction(b: bv32)
    requires IsShort(b)
    ensures Frac32(b) < 0x7F_F000
  {
  }

  lemma LowPart(b: bv32)
    ensures IsTie(Frac32(b)) == IsTie(b) && IsShort(Frac32(b)) == IsShort(b)
  {
  }

  lemma TieRounds(e: bv32, f: bv32)
    requires e <= 0xFE && f < 0x7F_F000 && IsTie(f)
    ensures Bits32(e, RoundOff(f)) == HalfUlpAbove(Bits32(e, f))
  {
  }

  lemma ShortRounds(f: bv32)
    requires f < 0x7F_F000 && IsShort(f)
    ensures RoundOff(f) == f
  {
  }

  lemma RegularFields(exp: bv32, frac: bv32)
    requires 112 < exp < 143 && frac < 0x7F_F000
    ensures Sign16(Regular(exp, frac)) == 0 && Exp16(Regular(exp, frac)) == exp - 112
    ensures 0 < Exp16(Regular(exp, frac)) < 0x1F
    ensures Frac16(Regular(exp, frac)) << 13 == RoundOff(frac)
  {
  }

  lemma NearInBinade(e: bv32, f: bv32)
    requires e <= 0xFE && f < 0x7F_F000
    ensures HalfUlp(Bits32(e, f), Bits32(e, RoundOff(f)))
  {
    hide *;
    FractionRounds(f);
    SameBinade(e, f, RoundOff(f));
  }

  lemma FractionRounds(f: bv32)
    requires f < 0x7F_F000
    ensures HalfUlp(f, RoundOff(f)) && RoundOff(f) <= 0x7F_FFFF
  {
    RoundOffSmall(f);
    hide *;
    AddHalf(f);
    RoundOffValue(f);
    HalfUlpIs(f, RoundOff(f));
  }

  lemma HalfUlpIs(x: bv32, y: bv32)
    ensures HalfUlp(x, y) <==> -0x1000 <= x as int - y as int <= 0x1000
  {
  }

  lemma RoundOffSmall(f: bv32)
    requires f < 0x7F_F000
    ensures RoundOff(f) <= 0x7F_FFFF && f + 0x1000 <= 0x7F_FFFF
  {
  }

  lemma AddHalf(f: bv32)
    requires f <= 0x7F_FFFF
    ensures (f + 0x1000) as int == f as int + 0x1000
  {
  }

  /** Rounding off clears the low thirteen bits. */
  lemma RoundOffValue(f: bv32)
    requires f + 0x1000 <= 0x7F_FFFF
    ensures 0 <= (f + 0x1000) as int - RoundOff(f) as int <= 0x1FFF
  {
    RoundOffIs(f);
    hide *;
    LowBits(f + 0x1000);
    ShiftValue(Kept(f + 0x1000));
  }

  lemma RoundOffIs(f: bv32)
    ensures RoundOff(f) == ShiftedUp(Kept(f + 0x1000))
  {
    hide Kept;
    hide ShiftedUp;
  }

  lemma LowBits(x: bv32)
    requires x <= 0x7F_FFFF
    ensures Kept(x) <= 0x3FF && 0 <= x as int - Kept(x) as int * 8192 <= 0x1FFF
  {
    assert Kept(x) <= 0x3FF;
    SplitBits(x, Kept(x), x & 0x1FFF);
    LowIsSmall(x & 0x1FFF);
    hide *;
  }

  lemma SplitBits(x: bv32, q: bv32, l: bv32)
    requires x <= 0x7F_FFFF && q == x >> 13 && l == x & 0x1FFF
    ensures x as int == q as int * 8192 + l as int
  {
  }

  lemma LowIsSmall(l: bv32)
    requires l <= 0x1FFF
    ensures l as int <= 0x1FFF
  {
  }

  lemma ShiftValue(q: bv32)
    requires q <= 0x3FF
    ensures ShiftedUp(q) as int == q as int * 8192
  {
  }

  lemma BitsValue(e: bv32, f: bv32)
    requires e <= 0xFE && f <= 0x7F_FFFF
    ensures Bits32(e, f) as int == e as int * 0x80_0000 + f as int
  {
    hide *;
    BitsParse(e, f);
    ParseValue(Bits32(e, f));
  }

  lemma BitsParse(e: bv32, f: bv32)
    requires e <= 0xFE && f <= 0x7F_FFFF
    ensures Bits32(e, f) <= 0x7FFF_FFFF && Exp32(Bits32(e, f)) == e && Frac32(Bits32(e, f)) == f
  {
  }

  lemma ParseValue(b: bv32)
    requires b <= 0x7FFF_FFFF
    ensures b as int == Exp32(b) as int * 0x80_0000 + Frac32(b) as int
  {
    ParseBits(b, Exp32(b), Frac32(b));
    hide *;
  }

  lemma ParseBits(b: bv32, e: bv32, f: bv32)
    requires b <= 0x7FFF_FFFF && e == (b >> 23) & 0xFF && f == b & 0x7F_FFFF
    ensures b as int == e as int * 0x80_0000 + f as int
  {
  }

  lemma SameBinade(e: bv32, f: bv32, g: bv32)
    requires e <= 0xFE && f <= 0x7F_FFFF && g <= 0x7F_FFFF && HalfUlp(f, g)
    ensures HalfUlp(Bits32(e, f), Bits32(e, g))
  {
    hide Bits32;
    BitsValue(e, f);
    BitsValue(e, g);
  }

  /** The carry is lost: the result is the power of two below, not the one above. */
  lemma LostCarry(b: bv32)
    requires b < 0x8000_0000 && 112 < Exp32(b) < 143 && Carries(b) && Exp32(b) & 1 == 1
    ensures F16ToF32(Regular(Exp32(b), Frac32(b))) == Bits32(Exp32(b), 0)
    ensures !HalfUlp(b, F16ToF32(Regular(Exp32(b), Frac32(b))))
  {
    assert 0x7F_F000 <= Frac32(b) <= 0x7F_FFFF;
    hide *;
    Parse(b);
    SwallowedParts(Exp32(b), Frac32(b));
    FarBelow(Exp32(b), Frac32(b));
  }

  lemma SwallowedParts(exp: bv32, frac: bv32)
    requires 112 < exp < 143 && 0x7F_F000 <= frac <= 0x7F_FFFF && exp & 1 == 1
    ensures F16ToF32(Regular(exp, frac)) == Bits32(exp, 0)
  {
    var h := Regular(exp, frac);
    assert Sign16(h) == 0 && Exp16(h) == exp - 112 && Frac16(h) == 0;
    DecodesNormal(h);
    hide F16ToF32;
    hide Regular;
    hide Bits32;
    assert exp - 112 + 112 == exp;
  }

  lemma FarBelow(e: bv32, f: bv32)
    requires e <= 0xFE && 0x7F_F000 <= f <= 0x7F_FFFF
    ensures !HalfUlp(Bits32(e, f), Bits32(e, 0))
  {
    hide Bits32;
    BitsValue(e, f);
    BitsValue(e, 0);
    TopFraction(f);
  }

  lemma TopFraction(f: bv32)
    requires 0x7F_F000 <= f <= 0x7F_FFFF
    ensures 0x7F_F000 <= f as int <= 0x7F_FFFF
  {
  }

  /** The carry moves to the exponent: the next power of two, or infinity past the top. */
  lemma KeptCarry(b: bv32)
    requires b < 0x8000_0000 && 112 < Exp32(b) < 143 && Carries(b) && Exp32(b) & 1 == 0
    ensures HalfUlp(b, F16ToF32(Regular(Exp32(b), Frac32(b)))) <==> Exp32(b) != 142
    ensures Exp32(b) == 142 ==> F16ToF32(Regular(Exp32(b), Frac32(b))) == 0x7F80_0000
  {
    assert 0x7F_F000 <= Frac32(b) <= 0x7F_FFFF;
    hide *;
    Parse(b);
    if Exp32(b) == 142 {
      Overflows(Frac32(b));
    } else {
      CarriedParts(Exp32(b), Frac32(b));
      NextBinade(Exp32(b), Frac32(b));
    }
  }

  lemma Overflows(frac: bv32)
    requires 0x7F_F000 <= frac <= 0x7F_FFFF
    ensures F16ToF32(Regular(142, frac)) == 0x7F80_0000 && !HalfUlp(Bits32(142, frac), 0x7F80_0000)
  {
    assert Regular(142, frac) == 0x7C00;
    assert F16ToF32(0x7C00) == 0x7F80_0000;
    hide F16ToF32;
    hide Regular;
  }

  lemma CarriedParts(exp: bv32, frac: bv32)
    requires 112 < exp < 142 && 0x7F_F000 <= frac <= 0x7F_FFFF && exp & 1 == 0
    ensures F16ToF32(Regular(exp, frac)) == Bits32(exp + 1, 0)
  {
    var h := Regular(exp, frac);
    assert Sign16(h) == 0 && Exp16(h) == exp - 111 && Frac16(h) == 0;
    assert 0 < exp - 111 < 0x1F;
    DecodesNormal(h);
    hide F16ToF32;
    hide Regular;
    hide Bits32;
    assert exp - 111 + 112 == exp + 1;
  }

  lemma NextBinade(e: bv32, f: bv32)
    requires e < 0xFE && 0x7F_F000 <= f <= 0x7F_FFFF
    ensures HalfUlp(Bits32(e, f), Bits32(e + 1, 0))
  {
    hide Bits32;
    BitsValue(e, f);
    BitsValue(e + 1, 0);
    TopFraction(f);
    NextExponent(e);
  }

  lemma NextExponent(e: bv32)
    requires e < 0xFE
    ensures e + 1 <= 0xFE && (e + 1) as int == e as int + 1
  {
  }

  /** 1.9999999 encodes as 1.0. */
  lemma LostCarryExample()
    ensures F32ToF16(0x3FFF_FFFF) == 0x3C00 && F16ToF32(0x3C00) == 0x3F80_0000
  {
  }

  /** Below the normal range the result counts units of 2^-24, again to the nearest. */
  lemma SmallRoundsCorrectly(exp: bv32, frac: bv32)
    requires 102 <= exp <= 112 && frac <= 0x7F_FFFF
    ensures IsNearest(frac | 0x80_0000, Small(exp, frac) as bv32, 126 - exp)
  {
    if exp == 102 {
    } else if exp == 103 {
    } else if exp == 104 {
    } else if exp == 105 {
    } else if exp == 106 {
    } else if exp == 107 {
    } else if exp == 108 {
    } else if exp == 109 {
    } else if exp == 110 {
    } else if exp == 111 {
    } else {
    }
  }

  /** `r` is a nearest multiple of 2^s to `full`, in units of 2^s. */
  predicate IsNearest(full: bv32, r: bv32, s: bv32)
    requires 0 < s < 32
  {
    r << s <= full + (1 << (s - 1)) && full <= (r << s) + (1 << (s - 1))
  }

  // ------------------------------------------------------------------- overflow

  /** A finite number that is not negative encodes as infinity from 65520 on. */
  lemma OverflowsFrom(b: bv32)
    requires b < 0x7F80_0000
    ensures IsFinite16(F32ToF16(b)) <==> b < 0x477F_F000
    ensures b >= 0x477F_F000 ==> F32ToF16(b) == 0x7C00
  {
  }

  /** Infinities and NaNs: an infinity encodes as one, any NaN as the quiet one; a half of
      either kind decodes with its payload moved up. */
  lemma SpecialsConvert(b: bv32, h: bv16)
    ensures b == 0x7F80_0000 ==> F32ToF16(b) == 0x7C00
    ensures 0x7F80_0000 < b < 0x8000_0000 ==> F32ToF16(b) == 0x7E00
    ensures 0x7C00 <= h < 0x8000 ==> F16ToF32(h) == 0x7F80_0000 | ((h & 0x3FF) as bv32 << 13)
  {
  }

  // ------------------------------------------------------------------- signs

  function Negated16(h: bv16): bv16 {
    h ^ 0x8000
  }

  function Negated32(b: bv32): bv32 {
    b ^ 0x8000_0000
  }

  /** Negation passes through both ways, so what holds of positive numbers holds of the
      others with their signs changed. */
  lemma SignIsKept(b: bv32, h: bv16)
    ensures F32ToF16(Negated32(b)) == Negated16(F32ToF16(b))
    ensures F16ToF32(Negated16(h)) == Negated32(F16ToF32(h))
  {
    EncodesSign(b);
    DecodesSign(h);
    hide *;
  }

  lemma EncodesSign(b: bv32)
    ensures F32ToF16(Negated32(b)) == Negated16(F32ToF16(b))
  {
    hide Negated16;
    hide Negated32;
    hide Sign32;
    hide Exp32;
    hide Frac32;
    hide Special;
    hide Small;
    hide Regular;
    hide WithSign;
    hide Positive16;
    FlippedParts32(b);
    var sign, exp, frac := Sign32(b), Exp32(b), Frac32(b);
    var neg := Sign32(Negated32(b));
    SpecialIsPositive(frac);
    if exp == 0xFF {
      FlipSign16(sign, neg, Special(frac));
    } else if exp >= 143 {
      FlipSign16(sign, neg, 0x7C00);
    } else if 102 <= exp <= 112 {
      SmallIsPositive(exp, frac);
      FlipSign16(sign, neg, Small(exp, frac));
    } else if 112 < exp {
      RegularIsPositive(exp, frac);
      FlipSign16(sign, neg, Regular(exp, frac));
    }
  }

  lemma FlippedParts32(b: bv32)
    ensures var c := Negated32(b);
            Exp32(c) == Exp32(b) && Frac32(c) == Frac32(b) && Sign32(c) == Negated16(Sign32(b))
  {
  }

  lemma FlipSign16(s: bv16, n: bv16, m: bv16)
    requires Positive16(m) && n == Negated16(s)
    ensures WithSign(n, m) == Negated16(WithSign(s, m))
  {
    FlipBits16(s, n, m, s | m, n | m);
  }

  lemma FlipBits16(s: bv16, n: bv16, m: bv16, x: bv16, y: bv16)
    requires m & 0x8000 == 0 && n == s ^ 0x8000 && x == s | m && y == n | m
    ensures y == x ^ 0x8000
  {
  }

  predicate Positive16(m: bv16) {
    m & 0x8000 == 0
  }

  lemma SpecialIsPositive(frac: bv32)
    ensures Positive16(Special(frac)) && Positive16(0x7C00)
  {
  }

  lemma SmallIsPositive(exp: bv32, frac: bv32)
    requires 102 <= exp <= 112 && frac <= 0x7F_FFFF
    ensures Positive16(Small(exp, frac))
  {
  }

  lemma RegularIsPositive(exp: bv32, frac: bv32)
    requires 112 < exp < 143 && frac <= 0x7F_FFFF
    ensures Positive16(Regular(exp, frac))
  {
  }

  function Magnitude(exp: bv32, frac: bv32): bv32
    requires frac <= 0x3FF
  {
    if exp == 0 && frac == 0 then 0
    else if exp == 0 then Normalised(frac)
    else if exp == 0x1F then Unbounded(0, frac)
    else Widened(0, exp, frac)
  }

  lemma DecodesSign(h: bv16)
    ensures F16ToF32(Negated16(h)) == Negated32(F16ToF32(h))
  {
    hide *;
    FlippedParts16(h);
    var s, n, m := Sign16(h), Sign16(Negated16(h)), Magnitude(Exp16(h), Frac16(h));
    SignAndMagnitude(h, s, Exp16(h), Frac16(h));
    SignAndMagnitude(Negated16(h), n, Exp16(h), Frac16(h));
    MagnitudeIsPositive(Exp16(h), Frac16(h));
    Flip32(s, n, m, F16ToF32(h), F16ToF32(Negated16(h)));
  }

  lemma FlippedParts16(h: bv16)
    ensures var k := Negated16(h);
            Exp16(k) == Exp16(h) && Frac16(k) == Frac16(h) && Sign16(k) == Negated32(Sign16(h))
  {
  }

  lemma SignAndMagnitude(h: bv16, s: bv32, e: bv32, f: bv32)
    requires s == Sign16(h) && e == Exp16(h) && f == Frac16(h)
    ensures IsSigned(s, Magnitude(e, f), F16ToF32(h))
  {
    hide *;
    if e == 0 && f == 0 {
      ZeroIsSigned(h, s);
    } else if e == 0 {
      SubnormalIsSigned(h, s, f);
    } else if e == 0x1F {
      SpecialIsSigned(h, s, f);
    } else {
      NormalIsSigned(h, s, e, f);
    }
  }

  lemma ZeroIsSigned(h: bv16, s: bv32)
    requires s == Sign16(h) && Exp16(h) == 0 && Frac16(h) == 0
    ensures IsSigned(s, Magnitude(0, 0), F16ToF32(h))
  {
    hide Sign16;
    hide Exp16;
    hide Frac16;
  }

  lemma SubnormalIsSigned(h: bv16, s: bv32, f: bv32)
    requires s == Sign16(h) && Exp16(h) == 0 && f == Frac16(h) != 0
    ensures IsSigned(s, Magnitude(0, f), F16ToF32(h))
  {
    hide Sign16;
    hide Exp16;
    hide Frac16;
    hide Normalised;
  }

  lemma SpecialIsSigned(h: bv16, s: bv32, f: bv32)
    requires s == Sign16(h) && Exp16(h) == 0x1F && f == Frac16(h)
    ensures IsSigned(s, Magnitude(0x1F, f), F16ToF32(h))
  {
    hide Sign16;
    hide Exp16;
    hide Frac16;
    UnboundedIsSigned(s, f);
    hide IsSigned;
    hide Unbounded;
  }

  lemma UnboundedIsSigned(s: bv32, f: bv32)
    ensures IsSigned(s, Unbounded(0, f), Unbounded(s, f))
  {
  }

  lemma NormalIsSigned(h: bv16, s: bv32, e: bv32, f: bv32)
    requires s == Sign16(h) && e == Exp16(h) && f == Frac16(h) && 0 < e < 0x1F
    ensures IsSigned(s, Magnitude(e, f), F16ToF32(h))
  {
    WidenedIsSigned(s, e, f);
    hide Sign16;
    hide Exp16;
    hide Frac16;
    hide Widened;
    hide IsSigned;
  }

  lemma WidenedIsSigned(s: bv32, e: bv32, f: bv32)
    ensures IsSigned(s, Widened(0, e, f), Widened(s, e, f))
  {
  }

  /** `x` is magnitude `m` with sign `s`. */
  predicate IsSigned(s: bv32, m: bv32, x: bv32) {
    x == s | m
  }

  predicate Positive32(m: bv32) {
    m & 0x8000_0000 == 0
  }

  lemma MagnitudeIsPositive(exp: bv32, frac: bv32)
    requires exp <= 0x1F && frac <= 0x3FF
    ensures Positive32(Magnitude(exp, frac))
  {
  }

  lemma Flip32(s: bv32, n: bv32, m: bv32, x: bv32, y: bv32)
    requires Positive32(m) && n == Negated32(s) && IsSigned(s, m, x) && IsSigned(n, m, y)
    ensures y == Negated32(x)
  {
  }
}
