/** Group quantisation and its inverse (crates/llmpager-core/src/quant.rs:37-147), over the
    reals. `bits` gives the binary32 pattern of a number. */
module Quant {
  import opened Util
  import opened Indexing
  import opened Half
  import opened HalfValues
  import opened Q4Layout

  function Abs(x: real): real {
    if x < 0.0 then -x else x
  }

  /** Round half away from zero. */
  function RoundAway(x: real): int {
    if x >= 0.0 then (x + 0.5).Floor else -((-x + 0.5).Floor)
  }

  function Clamp(q: int): int {
    if q < -8 then -8 else if q > 7 then 7 else q
  }

  /** A group scale. Dividing by an infinite one gives zero. */
  datatype Scale = Finite(value: real) | Infinite {
    predicate Ok() {
      Finite? ==> value > 0.0
    }
  }

  function Quantised(x: real, scale: Scale): (q: int)
    requires scale.Ok()
    ensures -8 <= q <= 7
  {
    if scale.Infinite? then 0 else Clamp(RoundAway(x / scale.value))
  }

  /** What a quantised value stands for. */
  function Scaled(q: int, scale: real): real {
    q as real * scale
  }

  /** What quantising `x` costs, as the quantiser measures it. With an infinite scale the
      difference is not a number, which never exceeds the maximum so far. */
  function Cost(x: real, scale: Scale): real
    requires scale.Ok()
  {
    if scale.Infinite? then 0.0 else Abs(x - Scaled(Quantised(x, scale), scale.value))
  }

  /** `q`, at distance `a`, is preferred to `k`, at distance `b`: it is nearer, or as near and
      further from zero. */
  predicate Beats(a: real, q: int, b: real, k: int) {
    a < b || (a == b && Abs(k as real) < Abs(q as real))
  }

  lemma RoundedBeats(y: real, k: int)
    requires -8 <= k <= 7 && k != Clamp(RoundAway(y))
    ensures Beats(Abs(y - Clamp(RoundAway(y)) as real), Clamp(RoundAway(y)), Abs(y - k as real), k)
  {
    var r := RoundAway(y);
    if y >= 0.0 {
      assert r as real <= y + 0.5 < r as real + 1.0 && r >= 0;
    } else {
      assert (-r) as real <= -y + 0.5 < (-r) as real + 1.0 && r <= 0;
    }
  }

  lemma BeatsScaled(x: real, s: real, q: int, k: int)
    requires s > 0.0 && Beats(Abs(x / s - q as real), q, Abs(x / s - k as real), k)
    ensures Beats(Abs(x - Scaled(q, s)), q, Abs(x - Scaled(k, s)), k)
  {
    DistanceScales(x, s, q);
    DistanceScales(x, s, k);
    hide Scaled;
    var a, b := Abs(x / s - q as real), Abs(x / s - k as real);
    hide Abs;
    assert s * b - s * a == s * (b - a);
  }

  lemma DistanceScales(x: real, s: real, q: int)
    requires s > 0.0
    ensures Abs(x - Scaled(q, s)) == s * Abs(x / s - q as real)
  {
    var y := x / s;
    assert x == y * s;
    assert x - q as real * s == s * (y - q as real);
  }

  /** Under a finite scale `x` is quantised to the nibble that stands for the number nearest
      to it; of two such, the one further from zero. */
  lemma QuantisedIsNearest(x: real, s: real, k: int)
    requires s > 0.0 && -8 <= k <= 7 && k != Quantised(x, Finite(s))
    ensures Beats(Abs(x - Scaled(Quantised(x, Finite(s)), s)), Quantised(x, Finite(s)), Abs(x - Scaled(k, s)), k)
  {
    RoundedBeats(x / s, k);
    hide Beats;
    hide Abs;
    hide Clamp;
    hide RoundAway;
    BeatsScaled(x, s, Quantised(x, Finite(s)), k);
  }

  // ------------------------------------------------------------------- scales

  /** The bits of a binary16 number are those the decoder gives; the bits of a number that
      is not negative have no sign and are finite; those of 1e-7 are known. */
  ghost predicate BitsOk(bits: real -> bv32) {
    && (forall h: bv16 :: IsFinite16(h) && Sign16(h) == 0 ==> bits(Val16(h)) == F16ToF32(h))
    && (forall x: real :: x >= 0.0 ==> bits(x) < 0x7F80_0000)
    && bits(LEAST_SCALE) == 0x33D6_BF95
  }

  function Enc(bits: real -> bv32, x: real): bv16 {
    F32ToF16(bits(x))
  }

  /** The half stored for a scale; infinity encodes as infinity. */
  function EncScale(bits: real -> bv32, s: Scale): bv16 {
    if s.Infinite? then F32ToF16(0x7F80_0000) else Enc(bits, s.value)
  }

  /** `f16_round`. */
  function Round16(bits: real -> bv32, x: real): Scale {
    var h := Enc(bits, x);
    if IsFinite16(h) then Finite(Val16(h)) else Infinite
  }

  function RawScale(amax: real): real {
    if amax > 0.0 then amax / 7.0 else 0.00000001
  }

  const LEAST_SCALE: real := 0.0000001

  /** The group scale the quantiser divides by: rounded, then clamped up. */
  function GroupScale(bits: real -> bv32, amax: real): (s: Scale)
    ensures s.Ok() && (s.Finite? ==> s.value >= LEAST_SCALE)
  {
    var s := Round16(bits, RawScale(amax));
    if s.Finite? && s.value < LEAST_SCALE then Finite(LEAST_SCALE) else s
  }

  /** The rounded scale was finite and not clamped. */
  predicate CleanScale(bits: real -> bv32, amax: real) {
    var s := Round16(bits, RawScale(amax));
    s.Finite? && s.value >= LEAST_SCALE
  }

  lemma NoSign(b: bv32)
    requires b < 0x8000_0000
    ensures Sign16(F32ToF16(b)) == 0
  {
    hide Normalised;
  }

  /** A clean scale is stored exactly. */
  lemma CleanScaleIsStored(bits: real -> bv32, amax: real)
    requires BitsOk(bits) && amax >= 0.0 && CleanScale(bits, amax)
    ensures var s := GroupScale(bits, amax);
            s.Finite? && IsFinite16(EncScale(bits, s)) && Val16(EncScale(bits, s)) == s.value
  {
    hide F32ToF16;
    hide F16ToF32;
    hide IsFinite16;
    hide Sign16;
    var h := Enc(bits, RawScale(amax));
    NoSign(bits(RawScale(amax)));
    assert GroupScale(bits, amax) == Finite(Val16(h));
    hide Val16;
    assert bits(Val16(h)) == F16ToF32(h);
    RoundTrip(h);
    FiniteIsNotNan(h);
  }

  lemma FiniteIsNotNan(h: bv16)
    requires IsFinite16(h)
    ensures !IsNan16(h)
  {
  }

  /** No binary16 number is the clamp value: a clamped scale is never stored exactly. */
  lemma ClampIsNotStored(h: bv16)
    ensures Val16(h) != LEAST_SCALE
  {
    hide Sign16;
    hide Units16;
    UnitsMissClamp(Units16(h));
  }

  /** The clamp value lies strictly between one and two units. */
  lemma UnitsMissClamp(u: nat)
    ensures u as real / 16777216.0 != LEAST_SCALE && -1.0 * (u as real / 16777216.0) != LEAST_SCALE
  {
    assert u <= 1 || u >= 2;
    assert u <= 1 ==> u as real / 16777216.0 <= 1.0 / 16777216.0 < LEAST_SCALE;
    assert u >= 2 ==> u as real / 16777216.0 >= 2.0 / 16777216.0 > LEAST_SCALE;
  }

  // ------------------------------------------------------------------- one group

  function AbsMax(vals: seq<real>): (m: real)
    ensures m >= 0.0 && forall i :: 0 <= i < |vals| ==> Abs(vals[i]) <= m
  {
    if vals == [] then 0.0
    else
      var m, a := AbsMax(vals[..|vals| - 1]), Abs(vals[|vals| - 1]);
      assert forall i :: 0 <= i < |vals| - 1 ==> vals[i] == vals[..|vals| - 1][i];
      if m < a then a else m
  }

  method FoldAbsMax(vals: seq<real>) returns (m: real)
    ensures m == AbsMax(vals)
  {
    m := 0.0;
    for i := 0 to |vals|
      invariant m == AbsMax(vals[..i])
    {
      assert vals[..i + 1][..i] == vals[..i];
      var a := Abs(vals[i]);
      m := if m < a then a else m;
    }
    assert vals[..|vals|] == vals;
  }

  /** One value: its nibble, and the largest cost so far. */
  method QuantizeOne(x: real, scale: Scale, maxErr: real) returns (n: bv8, err: real)
    requires scale.Ok() && maxErr >= 0.0
    ensures n <= 15 && n as int == Quantised(x, scale) + 8
    ensures err == if Cost(x, scale) > maxErr then Cost(x, scale) else maxErr
  {
    var q := Quantised(x, scale);
    err := maxErr;
    if scale.Finite? {
      var e := Abs(x - q as real * scale.value);
      err := if e > maxErr then e else maxErr;
    }
    n := NibbleOf(q + 8);
  }

  function NibbleOf(k: int): (n: bv8)
    requires 0 <= k <= 15
    ensures n <= 15 && n as int == k
  {
    if k < 8 then
      if k < 4 then (if k < 2 then (if k == 0 then 0 else 1) else if k == 2 then 2 else 3)
      else (if k < 6 then (if k == 4 then 4 else 5) else if k == 6 then 6 else 7)
    else if k < 12 then (if k < 10 then (if k == 8 then 8 else 9) else if k == 10 then 10 else 11)
    else (if k < 14 then (if k == 12 then 12 else 13) else if k == 14 then 14 else 15)
  }

  /** The nibbles of a group, and the largest cost so far. It is attained. */
  method QuantizeGroup(vals: seq<real>, scale: Scale, maxErr: real) returns (qs: seq<bv8>, err: real)
    requires scale.Ok() && |vals| % 2 == 0 && maxErr >= 0.0
    ensures |qs| == |vals| && forall j :: 0 <= j < |vals| ==>
        qs[j] <= 15 && qs[j] as int == Quantised(vals[j], scale) + 8
    ensures err >= maxErr && forall j :: 0 <= j < |vals| ==> Cost(vals[j], scale) <= err
    ensures err == maxErr || exists j :: 0 <= j < |vals| && Cost(vals[j], scale) == err
  {
    qs, err := [], maxErr;
    hide Quantised;
    hide Cost;
    for i := 0 to |vals| / 2
      invariant |qs| == 2 * i
      invariant forall j :: 0 <= j < 2 * i ==> qs[j] <= 15 && qs[j] as int == Quantised(vals[j], scale) + 8
      invariant err >= maxErr && forall j :: 0 <= j < 2 * i ==> Cost(vals[j], scale) <= err
      invariant err == maxErr || exists j :: 0 <= j < 2 * i && Cost(vals[j], scale) == err
    {
      var q0, q1;
      q0, err := QuantizeOne(vals[2 * i], scale, err);
      q1, err := QuantizeOne(vals[2 * i + 1], scale, err);
      qs := qs + [q0, q1];
    }
  }

  // ------------------------------------------------------------------- a tensor

  /** Value `j` of group `g` of row `r`, in a row-major tensor. */
  function Value(src: seq<real>, sh: Shape, r: nat, g: nat, j: nat): real {
    Get(src, Flat3(r, g, j, sh.groups, sh.Group()))
  }

  function GroupVals(src: seq<real>, sh: Shape, r: nat, g: nat): (v: seq<real>)
    ensures |v| == sh.Group() && forall j :: 0 <= j < sh.Group() ==> v[j] == Value(src, sh, r, g, j)
  {
    seq(sh.Group(), j requires 0 <= j => Value(src, sh, r, g, j))
  }

  function ScaleOf(src: seq<real>, sh: Shape, bits: real -> bv32, r: nat, g: nat): (s: Scale)
    ensures s.Ok()
  {
    GroupScale(bits, AbsMax(GroupVals(src, sh, r, g)))
  }

  /** Group (r, g) of the buffer is the quantisation of that group of the source, and none
      of its values costs more than `e`. */
  ghost predicate IsQuantised(src: seq<real>, sh: Shape, bits: real -> bv32, b: Buf, r: nat, g: nat, e: real) {
    var s := ScaleOf(src, sh, bits, r, g);
    && ScaleAt(b, sh, r, g) == EncScale(bits, s)
    && forall j :: 0 <= j < sh.Group() ==>
                     && NibbleAt(b, sh, r, g, j) == Quantised(Value(src, sh, r, g, j), s) + 8
                     && Cost(Value(src, sh, r, g, j), s) <= e
  }

  /** Some value of the source costs exactly `e`. */
  ghost predicate Attained(src: seq<real>, sh: Shape, bits: real -> bv32, e: real) {
    e == 0.0 || exists r, g, j :: 0 <= r < sh.rows && 0 <= g < sh.groups && 0 <= j < sh.Group()
                                  && Cost(Value(src, sh, r, g, j), ScaleOf(src, sh, bits, r, g)) == e
  }

  predicate GroupBefore(x: nat, y: nat, r: nat, g: nat) {
    x < r || (x == r && y < g)
  }

  ghost predicate QuantisedBelow(src: seq<real>, sh: Shape, bits: real -> bv32, b: Buf, r: nat, g: nat, e: real) {
    && |b| == sh.Bytes()
    && forall x, y :: 0 <= x < sh.rows && 0 <= y < sh.groups && GroupBefore(x, y, r, g) ==>
         IsQuantised(src, sh, bits, b, x, y, e)
  }

  /** `raw` is a seventh of the largest magnitude of the group, or 1e-8 when all are zero. */
  ghost predicate IsRawScale(src: seq<real>, sh: Shape, r: nat, g: nat, raw: real) {
    && raw > 0.0 && (forall j :: 0 <= j < sh.Group() ==> Abs(Value(src, sh, r, g, j)) <= 7.0 * raw)
    && if forall j :: 0 <= j < sh.Group() ==> Value(src, sh, r, g, j) == 0.0 then raw == 0.00000001
       else exists j :: 0 <= j < sh.Group() && Abs(Value(src, sh, r, g, j)) == 7.0 * raw
  }

  /** The scale of a group: its raw scale rounded to binary16, but at least 1e-7. */
  lemma ScaleIsRounded(src: seq<real>, sh: Shape, bits: real -> bv32, r: nat, g: nat) returns (raw: real)
    ensures IsRawScale(src, sh, r, g, raw)
    ensures var h := F32ToF16(bits(raw));
            ScaleOf(src, sh, bits, r, g) ==
            if !IsFinite16(h) then Infinite else if Val16(h) < 0.0000001 then Finite(0.0000001) else Finite(Val16(h))
  {
    var vals := GroupVals(src, sh, r, g);
    raw := RawScale(AbsMax(vals));
    MaxIsAttained(vals);
    hide F32ToF16;
    hide Val16;
    hide IsFinite16;
    hide AbsMax;
    hide Value;
    assert forall j :: 0 <= j < sh.Group() ==> Abs(vals[j]) == Abs(Value(src, sh, r, g, j));
  }

  lemma {:induction false} MaxIsAttained(vals: seq<real>)
    ensures if forall i :: 0 <= i < |vals| ==> vals[i] == 0.0 then AbsMax(vals) == 0.0
            else AbsMax(vals) > 0.0 && exists i :: 0 <= i < |vals| && Abs(vals[i]) == AbsMax(vals)
    decreases |vals|
  {
    if vals != [] {
      var w := vals[..|vals| - 1];
      MaxIsAttained(w);
      assert forall i :: 0 <= i < |w| ==> w[i] == vals[i];
    }
  }

  /** A group not written to stays as it was, under a larger bound. */
  lemma QuantisedStays(src: seq<real>, sh: Shape, bits: real -> bv32, a: Buf, b: Buf, r: nat, g: nat, x: nat, y: nat,
                       e: real, e': real)
    requires OthersSame(a, b, sh, r, g) && InShape(sh, x, y) && (x != r || y != g) && e <= e'
    requires IsQuantised(src, sh, bits, a, x, y, e)
    ensures IsQuantised(src, sh, bits, b, x, y, e')
  {
    hide ScaleAt;
    hide ByteOf;
    hide DataPos;
    hide Low;
    hide High;
    hide Cost;
    hide Quantised;
    hide ScaleOf;
    forall j | 0 <= j < sh.Group()
      ensures NibbleAt(b, sh, x, y, j) == NibbleAt(a, sh, x, y, j)
    {
      assert j / 2 < sh.half;
    }
  }

  lemma QuantisedGrows(src: seq<real>, sh: Shape, bits: real -> bv32, a: Buf, b: Buf, r: nat, g: nat, e: real, e': real)
    requires InShape(sh, r, g) && OthersSame(a, b, sh, r, g) && e <= e'
    requires QuantisedBelow(src, sh, bits, a, r, g, e) && IsQuantised(src, sh, bits, b, r, g, e')
    ensures QuantisedBelow(src, sh, bits, b, r, g + 1, e')
  {
    assert |b| == |a|;
    forall x, y | 0 <= x < sh.rows && 0 <= y < sh.groups && GroupBefore(x, y, r, g + 1)
      ensures IsQuantised(src, sh, bits, b, x, y, e')
    {
      if x != r || y != g {
        QuantisedStays(src, sh, bits, a, b, r, g, x, y, e, e');
      }
      hide IsQuantised;
      hide OthersSame;
    }
    hide IsQuantised;
    hide OthersSame;
  }

  lemma GroupWritten(src: seq<real>, sh: Shape, bits: real -> bv32, b: Buf, r: nat, g: nat, qs: seq<bv8>, e: real)
    requires GroupHas(b, sh, r, g, EncScale(bits, ScaleOf(src, sh, bits, r, g)), qs, sh.half)
    requires forall j :: 0 <= j < sh.Group() ==>
                           && qs[j] <= 15
                           && qs[j] as int == Quantised(Value(src, sh, r, g, j), ScaleOf(src, sh, bits, r, g)) + 8
                           && Cost(Value(src, sh, r, g, j), ScaleOf(src, sh, bits, r, g)) <= e
    ensures IsQuantised(src, sh, bits, b, r, g, e)
  {
    var s := ScaleOf(src, sh, bits, r, g);
    hide Cost;
    hide Quantised;
    hide ScaleOf;
    hide Value;
    hide EncScale;
    forall j | 0 <= j < sh.Group()
      ensures NibbleAt(b, sh, r, g, j) == Quantised(Value(src, sh, r, g, j), s) + 8
    {
      StoredNibble(b, sh, r, g, EncScale(bits, s), qs, j);
      hide GroupHas;
      hide NibbleAt;
    }
    hide NibbleAt;
    hide ScaleAt;
  }

  /** Scale and nibbles of a group of the source. */
  method Prepare(src: seq<real>, sh: Shape, bits: real -> bv32, r: nat, g: nat, maxErr: real)
    returns (scale: Scale, qs: seq<bv8>, err: real)
    requires InShape(sh, r, g) && |src| == At(sh.rows, sh.Cols()) && maxErr >= 0.0
    ensures scale == ScaleOf(src, sh, bits, r, g) && |qs| == sh.Group() && err >= maxErr
    ensures forall j :: 0 <= j < sh.Group() ==>
                          && qs[j] <= 15 && qs[j] as int == Quantised(Value(src, sh, r, g, j), scale) + 8
                          && Cost(Value(src, sh, r, g, j), scale) <= err
    ensures err == maxErr || exists j :: 0 <= j < sh.Group() && Cost(Value(src, sh, r, g, j), scale) == err
  {
    hide At;
    hide Flat3;
    hide GroupVals;
    hide Value;
    hide GroupScale;
    hide Cost;
    hide Quantised;
    hide AbsMax;
    var from := r * sh.Cols() + g * sh.Group();
    SourceSlice(src, sh, r, g);
    var vals := src[from..from + sh.Group()];
    var amax := FoldAbsMax(vals);
    scale := GroupScale(bits, amax);
    qs, err := QuantizeGroup(vals, scale, maxErr);
    assert forall j :: 0 <= j < sh.Group() ==> vals[j] == Value(src, sh, r, g, j);
  }

  /** Quantise a group of the source into its place. */
  method QuantizeInto(src: seq<real>, sh: Shape, bits: real -> bv32, dst: array<bv8>, r: nat, g: nat, maxErr: real)
    returns (err: real)
    requires InShape(sh, r, g) && dst.Length == sh.Bytes() && |src| == At(sh.rows, sh.Cols()) && maxErr >= 0.0
    modifies dst
    ensures OthersSame(old(dst[..]), dst[..], sh, r, g) && err >= maxErr
    ensures IsQuantised(src, sh, bits, dst[..], r, g, err)
    ensures err == maxErr || exists j ::
        0 <= j < sh.Group() && Cost(Value(src, sh, r, g, j), ScaleOf(src, sh, bits, r, g)) == err
  {
    hide *;
    var scale, qs;
    scale, qs, err := Prepare(src, sh, bits, r, g, maxErr);
    StoreGroup(dst, sh, r, g, EncScale(bits, scale), qs);
    GroupWritten(src, sh, bits, dst[..], r, g, qs, err);
  }

  lemma SourceSlice(src: seq<real>, sh: Shape, r: nat, g: nat)
    requires InShape(sh, r, g) && |src| == At(sh.rows, sh.Cols())
    ensures r * sh.Cols() + g * sh.Group() + sh.Group() <= |src|
    ensures src[r * sh.Cols() + g * sh.Group()..r * sh.Cols() + g * sh.Group() + sh.Group()] == GroupVals(src, sh, r, g)
  {
    BatchIndex(r, g, 0, sh.groups, sh.Group());
    assert r * sh.Cols() + g * sh.Group() == Flat3(r, g, 0, sh.groups, sh.Group());
    hide At;
    AtOrder(r, sh.rows, sh.Cols());
    AtOrder(g, sh.groups, sh.Group());
    SliceIsGroup(src, sh, r, g, r * sh.Cols() + g * sh.Group());
  }

  lemma SliceIsGroup(src: seq<real>, sh: Shape, r: nat, g: nat, from: nat)
    requires from == Flat3(r, g, 0, sh.groups, sh.Group()) && from + sh.Group() <= |src|
    ensures src[from..from + sh.Group()] == GroupVals(src, sh, r, g)
  {
    hide At;
    var x := src[from..from + sh.Group()];
    forall j | 0 <= j < sh.Group()
      ensures x[j] == Value(src, sh, r, g, j)
    {
      assert Flat3(r, g, j, sh.groups, sh.Group()) == from + j;
    }
  }

  /** Quantise a tensor. Returns the largest error, as measured. */
  method Q4Quantize(src: seq<real>, rows: nat, cols: nat, group: nat, dst: array<bv8>, bits: real -> bv32)
    returns (r: Result<real>)
    modifies dst
    ensures r.Ok? <==>
              && group != 0 && group % 8 == 0 && cols % group == 0 && |src| == rows * cols
              && dst.Length == rows * (cols / group) * 2 + rows * cols / 2
    ensures r.Err? ==> dst[..] == old(dst[..])
    ensures r.Ok? ==>
              var sh := ShapeOf(rows, cols, group);
              r.value >= 0.0 && QuantisedBelow(src, sh, bits, dst[..], rows, 0, r.value)
                  && Attained(src, sh, bits, r.value)
  {
    if group == 0 || group % 8 != 0 || cols % group != 0 {
      return Err;
    }
    if |src| != rows * cols || dst.Length != rows * (cols / group) * 2 + rows * cols / 2 {
      return Err;
    }
    var sh := ShapeOf(rows, cols, group);
    ShapeIs(rows, cols, group);
    assert |src| == At(rows, sh.Cols());
    hide At;
    var maxErr := 0.0;
    for x := 0 to rows
      invariant maxErr >= 0.0 && QuantisedBelow(src, sh, bits, dst[..], x, 0, maxErr) && Attained(src, sh, bits, maxErr)
    {
      maxErr := QuantizeRow(src, sh, bits, dst, x, maxErr);
    }
    return Ok(maxErr);
  }

  method QuantizeRow(src: seq<real>, sh: Shape, bits: real -> bv32, dst: array<bv8>, r: nat, maxErr: real)
    returns (err: real)
    requires r < sh.rows && dst.Length == sh.Bytes() && |src| == At(sh.rows, sh.Cols()) && maxErr >= 0.0
    requires QuantisedBelow(src, sh, bits, dst[..], r, 0, maxErr) && Attained(src, sh, bits, maxErr)
    modifies dst
    ensures err >= maxErr && QuantisedBelow(src, sh, bits, dst[..], r + 1, 0, err) && Attained(src, sh, bits, err)
  {
    hide At;
    hide IsQuantised;
    hide OthersSame;
    hide Cost;
    hide Value;
    hide ScaleOf;
    err := maxErr;
    for g := 0 to sh.groups
      invariant err >= maxErr && QuantisedBelow(src, sh, bits, dst[..], r, g, err) && Attained(src, sh, bits, err)
    {
      ghost var was, e := dst[..], err;
      err := QuantizeInto(src, sh, bits, dst, r, g, err);
      QuantisedGrows(src, sh, bits, was, dst[..], r, g, e, err);
      hide QuantisedBelow;
    }
  }

  // ------------------------------------------------------------------- the error

  /** Whether the scale of group (r, g) was stored exactly. */
  predicate Clean(src: seq<real>, sh: Shape, bits: real -> bv32, r: nat, g: nat) {
    CleanScale(bits, AbsMax(GroupVals(src, sh, r, g)))
  }

  lemma DequantIs(b: Buf, sh: Shape, r: nat, g: nat, j: nat, q: int, d: real)
    requires NibbleAt(b, sh, r, g, j) == q + 8 && Val16(ScaleAt(b, sh, r, g)) == d
    ensures Dequant(b, sh, r, g, j) == Scaled(q, d)
  {
    hide NibbleAt;
    hide ScaleAt;
    hide Val16;
  }

  lemma NibbleAndScale(src: seq<real>, sh: Shape, bits: real -> bv32, b: Buf, r: nat, g: nat, j: nat, e: real)
    requires IsQuantised(src, sh, bits, b, r, g, e) && j < sh.Group()
    ensures ScaleAt(b, sh, r, g) == EncScale(bits, ScaleOf(src, sh, bits, r, g))
    ensures NibbleAt(b, sh, r, g, j) == Quantised(Value(src, sh, r, g, j), ScaleOf(src, sh, bits, r, g)) + 8
    ensures Dequant(b, sh, r, g, j)
         == Scaled(Quantised(Value(src, sh, r, g, j), ScaleOf(src, sh, bits, r, g)),
             Val16(EncScale(bits, ScaleOf(src, sh, bits, r, g))))
    ensures Cost(Value(src, sh, r, g, j), ScaleOf(src, sh, bits, r, g)) <= e
  {
    hide NibbleAt;
    hide ScaleAt;
    hide Value;
    hide Quantised;
    hide ScaleOf;
    hide Cost;
    hide EncScale;
    hide Val16;
    DequantIs(b, sh, r, g, j, Quantised(Value(src, sh, r, g, j), ScaleOf(src, sh, bits, r, g)),
        Val16(EncScale(bits, ScaleOf(src, sh, bits, r, g))));
    hide Dequant;
  }

  /** What a reader reconstructs is what the quantiser measured, when the group's scale is
      finite and was not clamped; then no value is off by more than the returned error. */
  lemma ErrorIsBounded(src: seq<real>, sh: Shape, bits: real -> bv32, b: Buf, r: nat, g: nat, j: nat, e: real)
    requires BitsOk(bits) && IsQuantised(src, sh, bits, b, r, g, e) && j < sh.Group() && Clean(src, sh, bits, r, g)
    ensures ReadsBack(src, sh, bits, b, r, g, j)
    ensures Abs(Value(src, sh, r, g, j) - Dequant(b, sh, r, g, j)) <= e
  {
    hide *;
    NibbleAndScale(src, sh, bits, b, r, g, j, e);
    ScaleStored(src, sh, bits, r, g);
    CostIs(Value(src, sh, r, g, j), ScaleOf(src, sh, bits, r, g));
    ReadsBackIs(src, sh, bits, b, r, g, j);
  }

  /** The reader finds a number, and it is the one the quantiser measured against. */
  predicate ReadsBack(src: seq<real>, sh: Shape, bits: real -> bv32, b: Buf, r: nat, g: nat, j: nat) {
    var s := ScaleOf(src, sh, bits, r, g);
    && IsFinite16(ScaleAt(b, sh, r, g)) && s.Finite?
    && Dequant(b, sh, r, g, j) == Scaled(Quantised(Value(src, sh, r, g, j), s), s.value)
  }

  lemma ReadsBackIs(src: seq<real>, sh: Shape, bits: real -> bv32, b: Buf, r: nat, g: nat, j: nat)
    ensures ReadsBack(src, sh, bits, b, r, g, j) <==>
            && IsFinite16(ScaleAt(b, sh, r, g)) && ScaleOf(src, sh, bits, r, g).Finite?
            && Dequant(b, sh, r, g, j)
               == Scaled(Quantised(Value(src, sh, r, g, j), ScaleOf(src, sh, bits, r, g)),
                         ScaleOf(src, sh, bits, r, g).value)
  {
    hide IsFinite16;
    hide ScaleAt;
    hide ScaleOf;
    hide Dequant;
    hide Quantised;
    hide Value;
  }

  lemma ScaleStored(src: seq<real>, sh: Shape, bits: real -> bv32, r: nat, g: nat)
    requires BitsOk(bits) && Clean(src, sh, bits, r, g)
    ensures var s := ScaleOf(src, sh, bits, r, g);
            s.Finite? && IsFinite16(EncScale(bits, s)) && Val16(EncScale(bits, s)) == s.value
  {
    hide GroupScale;
    hide CleanScale;
    hide EncScale;
    hide Val16;
    hide IsFinite16;
    hide GroupVals;
    CleanScaleIsStored(bits, AbsMax(GroupVals(src, sh, r, g)));
    hide AbsMax;
  }

  lemma CostIs(x: real, s: Scale)
    requires s.Ok() && s.Finite?
    ensures Cost(x, s) == Abs(x - Scaled(Quantised(x, s), s.value))
  {
    hide Quantised;
    hide Abs;
    hide Scaled;
  }

  /** A clamped scale is read back differently, so that every value but those quantised to
      zero is. */
  lemma ClampedValueDiffers(src: seq<real>, sh: Shape, bits: real -> bv32, b: Buf, r: nat, g: nat, j: nat, e: real)
    requires BitsOk(bits) && IsQuantised(src, sh, bits, b, r, g, e) && j < sh.Group()
    requires Clamped(bits, AbsMax(GroupVals(src, sh, r, g)))
    ensures ReadsBack(src, sh, bits, b, r, g, j)
       <==> Quantised(Value(src, sh, r, g, j), ScaleOf(src, sh, bits, r, g)) == 0
  {
    hide *;
    NibbleAndScale(src, sh, bits, b, r, g, j, e);
    ClampedScale(src, sh, bits, r, g);
    ProductsDiffer(Quantised(Value(src, sh, r, g, j), ScaleOf(src, sh, bits, r, g)),
                   Val16(EncScale(bits, ScaleOf(src, sh, bits, r, g))), LEAST_SCALE);
    ReadsBackIs(src, sh, bits, b, r, g, j);
  }

  /** The rounded scale is below the least one the quantiser allows. */
  predicate Clamped(bits: real -> bv32, amax: real) {
    var s := Round16(bits, RawScale(amax));
    s.Finite? && s.value < LEAST_SCALE
  }

  /** An infinite scale loses its group: every nibble stands for zero, nothing is measured,
      and the reader finds no number. */
  lemma InfiniteGroupIsLost(src: seq<real>, sh: Shape, bits: real -> bv32, b: Buf, r: nat, g: nat, j: nat, e: real)
    requires IsQuantised(src, sh, bits, b, r, g, e) && j < sh.Group() && ScaleOf(src, sh, bits, r, g).Infinite?
    ensures NibbleAt(b, sh, r, g, j) == 8 && !IsFinite16(ScaleAt(b, sh, r, g))
    ensures Cost(Value(src, sh, r, g, j), ScaleOf(src, sh, bits, r, g)) == 0.0
    ensures !ReadsBack(src, sh, bits, b, r, g, j)
  {
    NibbleAndScale(src, sh, bits, b, r, g, j, e);
    InfinityEncodes();
    ReadsBackIs(src, sh, bits, b, r, g, j);
    hide NibbleAt;
    hide ScaleAt;
    hide IsFinite16;
    hide F32ToF16;
    hide ScaleOf;
    hide Value;
    hide IsQuantised;
    hide Dequant;
    hide ReadsBack;
  }

  lemma InfinityEncodes()
    ensures !IsFinite16(F32ToF16(0x7F80_0000))
  {
  }

  /** The exact condition, for every group: the reader reconstructs what the quantiser
      measured if and only if the rounded scale is finite, and it was not clamped up or the
      value was quantised to zero. */
  lemma ReadBackIsExact(src: seq<real>, sh: Shape, bits: real -> bv32, b: Buf, r: nat, g: nat, j: nat, e: real)
    requires BitsOk(bits) && IsQuantised(src, sh, bits, b, r, g, e) && j < sh.Group()
    ensures
      var raw := Round16(bits, RawScale(AbsMax(GroupVals(src, sh, r, g))));
      ReadsBack(src, sh, bits, b, r, g, j)
      <==> && raw.Finite?
           && (raw.value >= LEAST_SCALE || Quantised(Value(src, sh, r, g, j), ScaleOf(src, sh, bits, r, g)) == 0)
  {
    hide *;
    ScaleCases(src, sh, bits, r, g);
    if Clamped(bits, AbsMax(GroupVals(src, sh, r, g))) {
      ClampedValueDiffers(src, sh, bits, b, r, g, j, e);
    } else if Clean(src, sh, bits, r, g) {
      ErrorIsBounded(src, sh, bits, b, r, g, j, e);
    } else {
      InfiniteGroupIsLost(src, sh, bits, b, r, g, j, e);
    }
  }

  lemma ScaleCases(src: seq<real>, sh: Shape, bits: real -> bv32, r: nat, g: nat)
    ensures
      var amax := AbsMax(GroupVals(src, sh, r, g));
      var raw := Round16(bits, RawScale(amax));
      && (Clamped(bits, amax) <==> raw.Finite? && raw.value < LEAST_SCALE)
      && (Clean(src, sh, bits, r, g) <==> raw.Finite? && raw.value >= LEAST_SCALE)
      && (raw.Infinite? <==> ScaleOf(src, sh, bits, r, g).Infinite?)
  {
    hide Round16;
    hide RawScale;
    hide AbsMax;
    hide GroupVals;
  }

  /** The scale is infinite from 65520, half a unit above the largest binary16 number, on. */
  lemma InfiniteFrom(src: seq<real>, sh: Shape, bits: real -> bv32, r: nat, g: nat)
    requires BitsOk(bits)
    ensures ScaleOf(src, sh, bits, r, g).Infinite?
       <==> bits(RawScale(AbsMax(GroupVals(src, sh, r, g)))) >= 0x477F_F000
  {
    hide AbsMax;
    hide GroupVals;
    hide RawScale;
    hide F32ToF16;
    hide IsFinite16;
    hide Val16;
    var x := RawScale(AbsMax(GroupVals(src, sh, r, g)));
    RawScaleIsPositive(AbsMax(GroupVals(src, sh, r, g)));
    OverflowsFrom(bits(x));
  }

  lemma RawScaleIsPositive(amax: real)
    ensures RawScale(amax) > 0.0
  {
  }

  lemma ClampedScale(src: seq<real>, sh: Shape, bits: real -> bv32, r: nat, g: nat)
    requires BitsOk(bits) && Clamped(bits, AbsMax(GroupVals(src, sh, r, g)))
    ensures var s := ScaleOf(src, sh, bits, r, g);
            s == Finite(LEAST_SCALE) && IsFinite16(EncScale(bits, s)) && Val16(EncScale(bits, s)) != LEAST_SCALE
  {
    hide Val16;
    hide RawScale;
    hide GroupVals;
    hide AbsMax;
    hide F32ToF16;
    LeastIsFinite();
    ClampIsNotStored(Enc(bits, LEAST_SCALE));
    hide IsFinite16;
  }

  lemma LeastIsFinite()
    ensures IsFinite16(F32ToF16(0x33D6_BF95))
  {
  }

  lemma ProductsDiffer(q: int, d: real, s: real)
    requires d != s
    ensures Scaled(q, d) == Scaled(q, s) <==> q == 0
  {
    assert q as real * (d - s) == q as real * d - q as real * s;
  }

  /** A group of one small value and zeros: the quantiser reports no error at all, and yet
      the value is not read back. The bits are those of 3e-7 / 7 and of 1e-7. */
  lemma ClampExample(bits: real -> bv32, b: Buf, e: real)
    requires bits(0.0000003 / 7.0) == 0x3338_11EE && bits(LEAST_SCALE) == 0x33D6_BF95
    requires IsQuantised(Tiny(), Shape(1, 1, 4), bits, b, 0, 0, e) && Attained(Tiny(), Shape(1, 1, 4), bits, e)
    ensures e == 0.0 && Dequant(b, Shape(1, 1, 4), 0, 0, 0) == 3.0 * (2.0 / 16777216.0) != Tiny()[0]
  {
    assert Shape(1, 1, 4).Group() == 8;
    hide *;
    TinyScale(bits);
    TinyCosts(bits);
    NibbleAndScale(Tiny(), Shape(1, 1, 4), bits, b, 0, 0, 0, e);
    TinyStoredScale(bits);
    TinyQuantised();
    TinyNumbers();
  }

  lemma TinyStoredScale(bits: real -> bv32)
    requires bits(LEAST_SCALE) == 0x33D6_BF95
    ensures Val16(EncScale(bits, Finite(LEAST_SCALE))) == 2.0 / 16777216.0
  {
    TinyStored();
    hide F32ToF16;
    hide Val16;
  }

  lemma TinyNumbers()
    ensures Scaled(3, 2.0 / 16777216.0) == 3.0 * (2.0 / 16777216.0) != Tiny()[0]
    ensures Value(Tiny(), Shape(1, 1, 4), 0, 0, 0) == Tiny()[0] == 0.0000003
  {
  }

  function Tiny(): seq<real> {
    [0.0000003, 0.0, 0.0, 0.0, 0.0, 0.0, 0.0, 0.0]
  }

  lemma TinyStored()
    ensures F32ToF16(0x33D6_BF95) == 2 && Val16(2) == 2.0 / 16777216.0
    ensures F32ToF16(0x3338_11EE) == 1 && Val16(1) == 1.0 / 16777216.0
  {
    hide F16ToF32;
  }

  lemma TinyQuantised()
    ensures Quantised(0.0000003, Finite(LEAST_SCALE)) == 3 && Quantised(0.0, Finite(LEAST_SCALE)) == 0
    ensures Cost(0.0000003, Finite(LEAST_SCALE)) == 0.0 && Cost(0.0, Finite(LEAST_SCALE)) == 0.0
  {
    assert 0.0000003 / LEAST_SCALE == 3.0;
    assert 0.0 / LEAST_SCALE == 0.0;
    assert (3.0 + 0.5).Floor == 3;
    assert (0.0 + 0.5).Floor == 0;
  }

  lemma TinyMax()
    ensures AbsMax(GroupVals(Tiny(), Shape(1, 1, 4), 0, 0)) == 0.0000003
  {
    hide AbsMax;
    hide GroupVals;
    TinyGroup();
    MaxOfPadded(Tiny());
    assert Tiny()[..1] == [0.0000003];
    MaxOfOne(0.0000003);
  }

  lemma TinyGroup()
    ensures GroupVals(Tiny(), Shape(1, 1, 4), 0, 0) == Tiny()
  {
  }

  lemma MaxOfOne(x: real)
    requires x > 0.0
    ensures AbsMax([x]) == x
  {
    assert [x][..0] == [];
  }

  lemma {:induction false} MaxOfPadded(v: seq<real>)
    requires 0 < |v| && forall i :: 1 <= i < |v| ==> v[i] == 0.0
    ensures AbsMax(v) == AbsMax(v[..1])
    decreases |v|
  {
    if |v| > 1 {
      var w := v[..|v| - 1];
      MaxOfPadded(w);
      assert w[..1] == v[..1];
    } else {
      assert v[..1] == v;
    }
  }

  lemma TinyScale(bits: real -> bv32)
    requires bits(0.0000003 / 7.0) == 0x3338_11EE
    ensures ScaleOf(Tiny(), Shape(1, 1, 4), bits, 0, 0) == Finite(LEAST_SCALE)
  {
    TinyMax();
    TinyStored();
    hide AbsMax;
    hide GroupVals;
    hide F32ToF16;
    hide Val16;
  }

  lemma TinyCosts(bits: real -> bv32)
    requires ScaleOf(Tiny(), Shape(1, 1, 4), bits, 0, 0) == Finite(LEAST_SCALE)
    ensures forall e: real :: Attained(Tiny(), Shape(1, 1, 4), bits, e) ==> e == 0.0
  {
    TinyQuantised();
    hide Quantised;
    hide Cost;
    hide ScaleOf;
    forall e: real | Attained(Tiny(), Shape(1, 1, 4), bits, e)
      ensures e == 0.0
    {
    }
  }
}
