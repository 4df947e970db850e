/** The numbers binary16 and binary32 bits stand for (sections 3.3 and 3.4 of IEEE
    754-2019), against which the decoder is judged. */
module HalfValues {
  import opened Half

  function Pow2(n: nat): nat {
    if n == 0 then 1 else 2 * Pow2(n - 1)
  }

  lemma {:induction false} PowAdds(m: nat, n: nat)
    ensures Pow2(m + n) == Pow2(m) * Pow2(n)
  {
    if m > 0 {
      PowAdds(m - 1, n);
      Regroup(2, Pow2(m - 1), Pow2(n));
    }
  }

  /** Magnitude of finite binary16 bits, in units of 2^-24. */
  function Units16(h: bv16): nat {
    Magnitude(Exp16(h) as nat, Frac16(h) as nat, 1024)
  }

  /** Magnitude of finite binary32 bits, in units of 2^-149. */
  function Units32(b: bv32): nat {
    Magnitude(Exp32(b) as nat, Frac32(b) as nat, 8388608)
  }

  /** A fraction `f`, with the leading one `one` unless it is subnormal. */
  function Magnitude(e: nat, f: nat, one: nat): nat {
    if e == 0 then f else (one + f) * Pow2(e - 1)
  }

  /** The number finite binary16 bits stand for. */
  function Val16(h: bv16): real {
    (if Sign16(h) == 0 then 1.0 else -1.0) * (Units16(h) as real / 16777216.0)
  }

  /** The decoder gives the same number back, for every finite input. */
  lemma DecodesValue(h: bv16)
    requires IsFinite16(h)
    ensures Units32(F16ToF32(h)) == Units16(h) * Pow2(125)
    ensures F16ToF32(h) & 0x8000_0000 == Sign16(h)
  {
    if Exp16(h) != 0 {
      DecodesNormalValue(h);
    } else if Frac16(h) != 0 {
      DecodesSmallValue(h);
    } else {
      DecodesZero(h);
    }
  }

  lemma DecodesZero(h: bv16)
    requires Exp16(h) == 0 && Frac16(h) == 0
    ensures Units32(F16ToF32(h)) == Units16(h) * Pow2(125)
    ensures F16ToF32(h) & 0x8000_0000 == Sign16(h)
  {
    hide Pow2;
    assert F16ToF32(h) == Sign16(h);
    hide F16ToF32;
    assert Exp32(Sign16(h)) == 0 && Frac32(Sign16(h)) == 0;
  }

  lemma DecodesNormalValue(h: bv16)
    requires 0 < Exp16(h) < 0x1F
    ensures Units32(F16ToF32(h)) == Units16(h) * Pow2(125)
    ensures F16ToF32(h) & 0x8000_0000 == Sign16(h)
  {
    assert F16ToF32(h) == Widened(Sign16(h), Exp16(h), Frac16(h)) by {
      hide Sign16;
      hide Exp16;
      hide Frac16;
      hide Widened;
      hide Normalised;
    }
    WideFields(h);
    hide F16ToF32;
    hide Widened;
    hide Exp16;
    hide Frac16;
    hide Exp32;
    hide Frac32;
    hide Sign16;
    hide Pow2;
    NormalUnits(Exp16(h) as nat, Frac16(h) as nat);
  }

  lemma WideFields(h: bv16)
    requires 0 < Exp16(h) < 0x1F
    ensures Exp32(Widened(Sign16(h), Exp16(h), Frac16(h))) as nat == Exp16(h) as nat + 112
    ensures Frac32(Widened(Sign16(h), Exp16(h), Frac16(h))) as nat == Frac16(h) as nat * 8192
    ensures Widened(Sign16(h), Exp16(h), Frac16(h)) & 0x8000_0000 == Sign16(h)
    ensures Exp16(h) as nat > 0
  {
  }

  lemma NormalUnits(e: nat, f: nat)
    requires 0 < e
    ensures Magnitude(e + 112, f * 8192, 8388608) == Magnitude(e, f, 1024) * Pow2(125)
  {
    PowAdds(13, e + 111);
    PowAdds(e - 1, 125);
    assert Pow2(13) == 8192;
    hide Pow2;
    Regroup(1024 + f, Pow2(e - 1), Pow2(125));
    Regroup(1024 + f, 8192, Pow2(e + 111));
    assert 13 + (e + 111) == e - 1 + 125;
  }

  lemma Regroup(x: nat, y: nat, z: nat)
    ensures (x * y) * z == x * (y * z)
  {
  }

  lemma DecodesSmallValue(h: bv16)
    requires Exp16(h) == 0 && Frac16(h) != 0
    ensures Units32(F16ToF32(h)) == Units16(h) * Pow2(125)
    ensures F16ToF32(h) & 0x8000_0000 == Sign16(h)
  {
    assert F16ToF32(h) == Sign16(h) | Normalised(Frac16(h)) by {
      hide Sign16;
      hide Exp16;
      hide Frac16;
      hide Widened;
      hide Normalised;
    }
    hide *;
    SmallExponent(h);
    SmallFraction(h);
    SmallMagnitude(h, F16ToF32(h), NormalShift(Frac16(h)) as nat);
  }

  lemma SmallMagnitude(h: bv16, b: bv32, s: nat)
    requires Exp16(h) == 0 && 1 <= s <= 10 && Exp32(b) as nat == 113 - s
    requires 8388608 + Frac32(b) as nat == Frac16(h) as nat * Pow2(s + 13)
    ensures Units32(b) == Units16(h) * Pow2(125)
  {
    assert Exp16(h) as nat == 0;
    hide Exp32;
    hide Frac32;
    hide Exp16;
    hide Frac16;
    hide Pow2;
    SmallUnits(s, Frac16(h) as nat);
  }

  lemma SmallExponent(h: bv16)
    requires Exp16(h) == 0 && Frac16(h) != 0
    ensures 1 <= NormalShift(Frac16(h)) as nat <= 10
    ensures Exp32(Sign16(h) | Normalised(Frac16(h))) as nat == 113 - NormalShift(Frac16(h)) as nat
    ensures (Sign16(h) | Normalised(Frac16(h))) & 0x8000_0000 == Sign16(h)
  {
    SmallParts(h);
    SmallSign(h);
    ShiftRange(Frac16(h));
    hide *;
    Complement(NormalShift(Frac16(h)));
  }

  lemma SmallSign(h: bv16)
    requires Exp16(h) == 0 && Frac16(h) != 0
    ensures (Sign16(h) | Normalised(Frac16(h))) & 0x8000_0000 == Sign16(h)
  {
  }

  lemma ShiftRange(f: bv32)
    ensures 1 <= NormalShift(f) <= 10
  {
  }

  lemma Complement(x: bv32)
    requires 1 <= x <= 10
    ensures 1 <= x as nat <= 10 && (113 - x) as nat == 113 - x as nat
  {
  }

  /** The normalised fraction is the fraction shifted so that its leading one is on top. */
  lemma SmallFraction(h: bv16)
    requires Exp16(h) == 0 && Frac16(h) != 0
    ensures 8388608 + Frac32(Sign16(h) | Normalised(Frac16(h))) as nat
         == Frac16(h) as nat * Pow2(NormalShift(Frac16(h)) as nat + 13)
  {
    if Frac16(h) >= 0x100 {
      TopFractions(h);
    } else if Frac16(h) >= 0x40 {
      UpperFractions(h);
    } else if Frac16(h) >= 8 {
      MiddleFractions(h);
    } else {
      BottomFractions(h);
    }
    hide *;
  }

  lemma TopFractions(h: bv16)
    requires Exp16(h) == 0 && Frac16(h) >= 0x100
    ensures 8388608 + Frac32(Sign16(h) | Normalised(Frac16(h))) as nat
         == Frac16(h) as nat * Pow2(NormalShift(Frac16(h)) as nat + 13)
  {
    hide Pow2;
    SmallPowers();
    if Frac16(h) >= 0x200 {
    } else {
    }
  }

  lemma UpperFractions(h: bv16)
    requires Exp16(h) == 0 && 0x40 <= Frac16(h) < 0x100
    ensures 8388608 + Frac32(Sign16(h) | Normalised(Frac16(h))) as nat
         == Frac16(h) as nat * Pow2(NormalShift(Frac16(h)) as nat + 13)
  {
    hide Pow2;
    SmallPowers();
    if Frac16(h) >= 0x80 {
    } else {
    }
  }

  lemma MiddleFractions(h: bv16)
    requires Exp16(h) == 0 && 8 <= Frac16(h) < 0x40
    ensures 8388608 + Frac32(Sign16(h) | Normalised(Frac16(h))) as nat
         == Frac16(h) as nat * Pow2(NormalShift(Frac16(h)) as nat + 13)
  {
    hide Pow2;
    SmallPowers();
    if Frac16(h) >= 0x20 {
    } else if Frac16(h) >= 0x10 {
    } else {
    }
  }

  lemma BottomFractions(h: bv16)
    requires Exp16(h) == 0 && 0 < Frac16(h) < 8
    ensures 8388608 + Frac32(Sign16(h) | Normalised(Frac16(h))) as nat
         == Frac16(h) as nat * Pow2(NormalShift(Frac16(h)) as nat + 13)
  {
    hide Pow2;
    SmallPowers();
    if Frac16(h) >= 4 {
    } else if Frac16(h) >= 2 {
    } else {
    }
  }

  lemma SmallPowers()
    ensures Pow2(14) == 16384 && Pow2(15) == 32768 && Pow2(16) == 65536 && Pow2(17) == 131072 && Pow2(18) == 262144
    ensures Pow2(19) == 524288 && Pow2(20) == 1048576 && Pow2(21) == 2097152 && Pow2(22) == 4194304
    ensures Pow2(23) == 8388608
  {
  }

  lemma SmallUnits(s: nat, f: nat)
    requires 1 <= s <= 10
    ensures f * Pow2(s + 13) * Pow2(112 - s) == f * Pow2(125)
  {
    PowAdds(s + 13, 112 - s);
    hide Pow2;
    Regroup(f, Pow2(s + 13), Pow2(112 - s));
  }
}
