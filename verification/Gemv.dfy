/** The q4 matrix-vector kernel (crates/llmpager-cuda/kernels/q4g64.cu:19-161): nibbles
    are unpacked by the binary16 bit trick and summed lane by lane; the result is the dot
    product of the dequantised row, over the reals. */
module Gemv {
  import opened Indexing
  import opened Sums
  import opened Reduce
  import opened Half
  import opened HalfValues
  import opened Q4Layout
  import D = Dequantize

  // ------------------------------------------------------------------ the bit trick

  /** Two nibbles, four apart, each put into the fraction of the binary16 number 1024. */
  function Magic(w: bv32): bv32 {
    (w & 0x000F_000F) | 0x6400_6400
  }

  function LowHalf(t: bv32): bv16 {
    (t & 0xFFFF) as bv16
  }

  function HighHalf(t: bv32): bv16 {
    (t >> 16) as bv16
  }

  /** A half of a `half2` subtraction of 1032 = 1024 + 8. */
  function Unbias(h: bv16): real {
    Val16(h) - 1032.0
  }

  function Nib(n: bv32): bv16
    requires n <= 15
  {
    0x6400 | (n as bv16)
  }

  lemma MagicHalves(w: bv32)
    ensures LowHalf(Magic(w)) == Nib(D.NibbleOfWord(w, 0)) && HighHalf(Magic(w)) == Nib(D.NibbleOfWord(w, 4))
    ensures LowHalf(Magic(w >> 4)) == Nib(D.NibbleOfWord(w, 1)) && HighHalf(Magic(w >> 4)) == Nib(D.NibbleOfWord(w, 5))
    ensures LowHalf(Magic(w >> 8)) == Nib(D.NibbleOfWord(w, 2)) && HighHalf(Magic(w >> 8)) == Nib(D.NibbleOfWord(w, 6))
    ensures LowHalf(Magic(w >> 12)) == Nib(D.NibbleOfWord(w, 3))
    ensures HighHalf(Magic(w >> 12)) == Nib(D.NibbleOfWord(w, 7))
  {
  }

  /** The bits 0x6400 | n are the number 1024 + n, so that subtracting 1032 leaves n - 8. */
  lemma MagicValue(n: bv32)
    requires n <= 15
    ensures Unbias(Nib(n)) == (n as int - 8) as real
  {
    NibFields(n);
    hide Nib;
    hide Exp16;
    hide Frac16;
    hide Sign16;
    PowAdds(12, 12);
    assert Pow2(12) == 4096;
    hide Pow2;
    assert Units16(Nib(n)) == (1024 + n as nat) * 16777216;
  }

  lemma NibFields(n: bv32)
    requires n <= 15
    ensures Exp16(Nib(n)) as nat == 25 && Frac16(Nib(n)) as nat == n as nat && Sign16(Nib(n)) == 0
  {
  }

  /** The difference is itself a binary16 number: the subtraction does not round. */
  lemma DifferenceIsExact(n: bv32) returns (h: bv16)
    requires n <= 15
    ensures Val16(h) == Unbias(Nib(n))
  {
    MagicValue(n);
    hide Unbias;
    h := SmallInteger(n);
    SmallIntegerValue(n);
    hide *;
  }

  /** The binary16 bits of n - 8. */
  function SmallInteger(n: bv32): bv16
    requires n <= 15
  {
    if n == 0 then 0xC800 else if n == 1 then 0xC700 else if n == 2 then 0xC600 else if n == 3 then 0xC500
    else if n == 4 then 0xC400 else if n == 5 then 0xC200 else if n == 6 then 0xC000 else if n == 7 then 0xBC00
    else if n == 8 then 0 else if n == 9 then 0x3C00 else if n == 10 then 0x4000 else if n == 11 then 0x4200
    else if n == 12 then 0x4400 else if n == 13 then 0x4500 else if n == 14 then 0x4600 else 0x4700
  }

  lemma SmallIntegerValue(n: bv32)
    requires n <= 15
    ensures Val16(SmallInteger(n)) == (n as int - 8) as real
  {
    if n < 8 {
      NegativeInteger(n);
    } else {
      PositiveInteger(n);
    }
    hide *;
  }

  lemma NegativeInteger(n: bv32)
    requires n < 8
    ensures Val16(SmallInteger(n)) == (n as int - 8) as real
  {
    assert Pow2(14) == 16384 && Pow2(15) == 32768 && Pow2(16) == 65536 && Pow2(17) == 131072;
    hide Pow2;
  }

  lemma PositiveInteger(n: bv32)
    requires 8 <= n <= 15
    ensures Val16(SmallInteger(n)) == (n as int - 8) as real
  {
    assert Pow2(14) == 16384 && Pow2(15) == 32768 && Pow2(16) == 65536;
    hide Pow2;
  }

  // ------------------------------------------------------------------- the kernel

  function Products(b: Buf, sh: Shape, x: seq<real>, r: nat, g: nat): nat -> real {
    (j: nat) => Mul((NibbleAt(b, sh, r, g, j) - 8) as real, Get(x, Flat(g, j, sh.Group())))
  }

  function Mul(a: real, b: real): real {
    a * b
  }

  lemma {:induction false} SumEight(f: nat -> real, n: nat)
    ensures Sum(f, n + 8)
        == Sum(f, n) + f(n) + f(n + 1) + f(n + 2) + f(n + 3) + f(n + 4) + f(n + 5) + f(n + 6) + f(n + 7)
  {
    SumFour(f, n);
    SumFour(f, n + 4);
  }

  lemma SumFour(f: nat -> real, n: nat)
    ensures Sum(f, n + 4) == Sum(f, n) + f(n) + f(n + 1) + f(n + 2) + f(n + 3)
  {
    assert Sum(f, n + 2) == Sum(f, n) + f(n) + f(n + 1);
    assert Sum(f, n + 4) == Sum(f, n + 2) + f(n + 2) + f(n + 3);
  }

  /** Word `i` of a group's nibbles. */
  function GroupWord(b: Buf, sh: Shape, r: nat, g: nat, i: nat): bv32 {
    D.Word(ByteOf(b, DataPos(sh, r, g, 4 * i)), ByteOf(b, DataPos(sh, r, g, 4 * i + 1)),
           ByteOf(b, DataPos(sh, r, g, 4 * i + 2)), ByteOf(b, DataPos(sh, r, g, 4 * i + 3)))
  }

  lemma WordNibble(b: Buf, sh: Shape, r: nat, g: nat, i: nat, k: nat)
    requires k < 8
    ensures D.NibbleOfWord(GroupWord(b, sh, r, g, i), k) as nat == NibbleAt(b, sh, r, g, 8 * i + k)
  {
    hide D.Word;
    hide D.NibbleOfWord;
    hide ByteOf;
    hide DataPos;
    hide Low;
    hide High;
    D.NibbleOfByte(ByteOf(b, DataPos(sh, r, g, 4 * i)), ByteOf(b, DataPos(sh, r, g, 4 * i + 1)),
                   ByteOf(b, DataPos(sh, r, g, 4 * i + 2)), ByteOf(b, DataPos(sh, r, g, 4 * i + 3)), k);
    assert (8 * i + k) / 2 == 4 * i + k / 2 && (8 * i + k) % 2 == k % 2;
  }

  lemma NibbleIsSmall(w: bv32, k: nat)
    requires k < 8
    ensures D.NibbleOfWord(w, k) <= 15
  {
  }

  /** Shapes the kernel takes: a group of whole words. */
  predicate Whole(sh: Shape) {
    0 < sh.half && sh.half % 4 == 0
  }

  method ReadWord(b: Buf, sh: Shape, r: nat, g: nat, i: nat) returns (w: bv32)
    requires |b| == sh.Bytes() && InShape(sh, r, g) && 4 * i + 4 <= sh.half
    ensures w == GroupWord(b, sh, r, g, i)
  {
    var at := sh.Scales() + r * (sh.Cols() / 2) + g * sh.half + 4 * i;
    WordOffset(sh, r, g, i);
    PositionsFit(sh, r, g);
    hide At;
    hide Flat3;
    hide D.Word;
    assert DataPos(sh, r, g, 4 * i + 3) < |b|;
    assert DataPos(sh, r, g, 4 * i) == at && DataPos(sh, r, g, 4 * i + 1) == at + 1;
    assert DataPos(sh, r, g, 4 * i + 2) == at + 2 && DataPos(sh, r, g, 4 * i + 3) == at + 3;
    hide DataPos;
    w := D.Word(b[at], b[at + 1], b[at + 2], b[at + 3]);
  }

  lemma WordOffset(sh: Shape, r: nat, g: nat, i: nat)
    ensures
      var at := r * (sh.Cols() / 2) + g * sh.half + 4 * i;
      && at == Flat3(r, g, 4 * i, sh.groups, sh.half) && at + 1 == Flat3(r, g, 4 * i + 1, sh.groups, sh.half)
      && at + 2 == Flat3(r, g, 4 * i + 2, sh.groups, sh.half) && at + 3 == Flat3(r, g, 4 * i + 3, sh.groups, sh.half)
  {
    assert sh.groups * (2 * sh.half) == 2 * (sh.groups * sh.half);
    assert sh.Cols() / 2 == At(sh.groups, sh.half);
    BatchIndex(r, g, 4 * i, sh.groups, sh.half);
    BatchIndex(r, g, 4 * i + 1, sh.groups, sh.half);
    BatchIndex(r, g, 4 * i + 2, sh.groups, sh.half);
    BatchIndex(r, g, 4 * i + 3, sh.groups, sh.half);
    hide Flat3;
  }

  /** Nibble `k` less eight. */
  function Centred(w: bv32, k: nat): real
    requires k < 8
  {
    (D.NibbleOfWord(w, k) as int - 8) as real
  }

  /** The eight values of a word, by masks, ORs and a subtraction. */
  method Unpack(w: bv32) returns (v: seq<real>)
    ensures |v| == 8 && forall k :: 0 <= k < 8 ==> v[k] == Centred(w, k)
  {
    var t0, t1, t2, t3 := Magic(w), Magic(w >> 4), Magic(w >> 8), Magic(w >> 12);
    MagicHalves(w);
    v := [Unbias(LowHalf(t0)), Unbias(LowHalf(t1)), Unbias(LowHalf(t2)), Unbias(LowHalf(t3)),
          Unbias(HighHalf(t0)), Unbias(HighHalf(t1)), Unbias(HighHalf(t2)), Unbias(HighHalf(t3))];
    hide Magic;
    hide LowHalf;
    hide HighHalf;
    hide Unbias;
    hide Nib;
    hide D.NibbleOfWord;
    forall k | 0 <= k < 8
      ensures v[k] == Centred(w, k)
    {
      NibbleIsSmall(w, k);
      MagicValue(D.NibbleOfWord(w, k));
      assert v[k] == Unbias(Nib(D.NibbleOfWord(w, k)));
    }
  }

  /** A product the kernel forms is one of the group's products. */
  lemma ProductIs(b: Buf, sh: Shape, x: seq<real>, r: nat, g: nat, i: nat, k: nat, v: real, o: nat)
    requires k < 8 && v == Centred(GroupWord(b, sh, r, g, i), k)
    requires o == At(g, sh.Group()) + 8 * i && o + k < |x|
    ensures Mul(v, x[o + k]) == Products(b, sh, x, r, g)(8 * i + k)
  {
    WordNibble(b, sh, r, g, i, k);
    hide At;
    hide NibbleAt;
    hide GroupWord;
    hide D.NibbleOfWord;
    hide Mul;
    assert Flat(g, 8 * i + k, sh.Group()) == o + k;
  }

  /** Eight products of one word, as the kernel pairs them. */
  method WordSum(b: Buf, sh: Shape, x: seq<real>, r: nat, g: nat, i: nat, sum: real) returns (sum': real)
    requires |b| == sh.Bytes() && InShape(sh, r, g) && 4 * i + 4 <= sh.half && |x| == sh.Cols()
    requires sum == Sum(Products(b, sh, x, r, g), 8 * i)
    ensures sum' == Sum(Products(b, sh, x, r, g), 8 * i + 8)
  {
    hide *;
    InputFits(sh, r, g, i);
    var w := ReadWord(b, sh, r, g, i);
    var o := At(g, sh.Group()) + 8 * i;
    var v := Unpack(w);
    forall k | 0 <= k < 8
      ensures Mul(v[k], x[o + k]) == Products(b, sh, x, r, g)(8 * i + k)
    {
      ProductIs(b, sh, x, r, g, i, k, v[k], o);
    }
    sum' := AddEight(v, x, o, sum, Products(b, sh, x, r, g), 8 * i);
  }

  lemma InputFits(sh: Shape, r: nat, g: nat, i: nat)
    requires InShape(sh, r, g) && 4 * i + 4 <= sh.half
    ensures At(g, sh.Group()) + 8 * i + 8 <= sh.Cols()
  {
    hide At;
    AtOrder(g, sh.groups, sh.Group());
  }

  /** The four paired additions of a word. */
  method AddEight(v: seq<real>, x: seq<real>, o: nat, sum: real, ghost f: nat -> real, ghost n: nat)
    returns (sum': real)
    requires |v| == 8 && o + 8 <= |x| && sum == Sum(f, n)
    requires forall k :: 0 <= k < 8 ==> Mul(v[k], x[o + k]) == f(n + k)
    ensures sum' == Sum(f, n + 8)
  {
    hide Sum;
    hide Mul;
    SumEight(f, n);
    sum' := sum + (Mul(v[0], x[o]) + Mul(v[4], x[o + 4]));
    sum' := sum' + (Mul(v[1], x[o + 1]) + Mul(v[5], x[o + 5]));
    sum' := sum' + (Mul(v[2], x[o + 2]) + Mul(v[6], x[o + 6]));
    sum' := sum' + (Mul(v[3], x[o + 3]) + Mul(v[7], x[o + 7]));
    assert Mul(v[0], x[o + 0]) == f(n + 0);
  }

  /** The group's scale times the sum of its products. */
  function GroupTerm(b: Buf, sh: Shape, x: seq<real>, r: nat): nat -> real {
    (g: nat) => Mul(Val16(ScaleAt(b, sh, r, g)), Sum(Products(b, sh, x, r, g), sh.Group()))
  }

  method GroupSum(b: Buf, sh: Shape, x: seq<real>, r: nat, g: nat) returns (sum: real)
    requires |b| == sh.Bytes() && InShape(sh, r, g) && Whole(sh) && |x| == sh.Cols()
    ensures sum == Sum(Products(b, sh, x, r, g), sh.Group())
  {
    sum := 0.0;
    hide At;
    hide Products;
    for i := 0 to sh.half / 4
      invariant sum == Sum(Products(b, sh, x, r, g), 8 * i)
    {
      hide Sum;
      sum := WordSum(b, sh, x, r, g, i, sum);
    }
    assert 8 * (sh.half / 4) == sh.Group();
  }

  method ReadScale(b: Buf, sh: Shape, r: nat, g: nat) returns (s: bv16)
    requires |b| == sh.Bytes() && InShape(sh, r, g)
    ensures s == ScaleAt(b, sh, r, g)
  {
    PositionsFit(sh, r, g);
    ScaleOffset(sh, r, g);
    hide At;
    hide FromLe;
    var at := (r * sh.groups + g) * 2;
    s := FromLe(b[at], b[at + 1]);
  }

  /** One lane takes whole groups, 32 apart. */
  method LaneSum(b: Buf, sh: Shape, x: seq<real>, r: nat, lane: nat) returns (acc: real)
    requires |b| == sh.Bytes() && r < sh.rows && Whole(sh) && |x| == sh.Cols()
    ensures acc == Share(GroupTerm(b, sh, x, r), sh.groups, lane, 32)
  {
    acc := 0.0;
    var g := lane;
    ghost var f := GroupTerm(b, sh, x, r);
    hide Sum;
    hide At;
    while g < sh.groups
      invariant acc + Share(f, sh.groups, g, 32) == Share(f, sh.groups, lane, 32)
      decreases if g < sh.groups then sh.groups - g else 0
    {
      var s := ReadScale(b, sh, r, g);
      var sum := GroupSum(b, sh, x, r, g);
      assert f(g) == Mul(Val16(s), sum) by {
        hide Mul;
        hide Val16;
        hide ScaleAt;
        hide Products;
      }
      hide Val16;
      hide Mul;
      acc := acc + Mul(Val16(s), sum);
      g := g + 32;
    }
  }

  /** A row of the result. */
  function RowSum(b: Buf, sh: Shape, x: seq<real>, r: nat): real {
    Sum(GroupTerm(b, sh, x, r), sh.groups)
  }

  method WarpRow(b: Buf, sh: Shape, x: seq<real>, r: nat) returns (y: real)
    requires |b| == sh.Bytes() && r < sh.rows && Whole(sh) && |x| == sh.Cols()
    ensures y == RowSum(b, sh, x, r)
  {
    var lanes: seq<real> := [];
    ghost var f := GroupTerm(b, sh, x, r);
    for lane := 0 to 32
      invariant |lanes| == lane && forall j :: 0 <= j < lane ==> lanes[j] == Share(f, sh.groups, j, 32)
    {
      hide At;
      hide Share;
      var acc := LaneSum(b, sh, x, r, lane);
      lanes := lanes + [acc];
    }
    y := ShuffleDown(lanes);
    hide GroupTerm;
    LanesAddUp(lanes, f, sh.groups, 32);
  }

  /** y = W x for a tensor in the q4 layout. */
  method Q4Gemv(b: Buf, sh: Shape, x: seq<real>) returns (y: seq<real>)
    requires |b| == sh.Bytes() && Whole(sh) && |x| == sh.Cols()
    ensures |y| == sh.rows && forall r :: 0 <= r < sh.rows ==> y[r] == RowSum(b, sh, x, r)
  {
    y := [];
    hide *;
    for r := 0 to sh.rows
      invariant |y| == r && forall i :: 0 <= i < r ==> y[i] == RowSum(b, sh, x, i)
    {
      var v := WarpRow(b, sh, x, r);
      y := y + [v];
    }
  }

  // ------------------------------------------------------------------- the meaning

  /** Row `r` of the dequantised tensor times `x`. */
  function DotTerms(out: seq<real>, x: seq<real>, cols: nat, r: nat): nat -> real {
    (c: nat) => Mul(Get(out, At(r, cols) + c), Get(x, c))
  }

  function Cells(b: Buf, sh: Shape, x: seq<real>, r: nat): (nat, nat) -> real {
    (g: nat, j: nat) => Mul(Dequant(b, sh, r, g, j), Get(x, Flat(g, j, sh.Group())))
  }

  lemma ScaleOut(q: real, s: real, x: real)
    ensures Mul(q * s, x) == s * Mul(q, x)
  {
    assert q * s == s * q;
    Associate(s, q, x);
  }

  /** A group's scale times its products is the sum of its dequantised products. */
  lemma GroupIsCells(b: Buf, sh: Shape, x: seq<real>, r: nat, g: nat)
    ensures GroupTerm(b, sh, x, r)(g) == RowSums(Cells(b, sh, x, r), sh.Group())(g)
  {
    hide Sum;
    hide NibbleAt;
    hide Val16;
    hide ScaleAt;
    var s, f, h := Val16(ScaleAt(b, sh, r, g)), Products(b, sh, x, r, g), Row(Cells(b, sh, x, r), g);
    forall j | 0 <= j < sh.Group()
      ensures h(j) == s * f(j)
    {
      ScaleOut((NibbleAt(b, sh, r, g, j) - 8) as real, s, Get(x, Flat(g, j, sh.Group())));
      hide Mul;
    }
    SumScales(f, h, s, sh.Group());
  }

  lemma CellOfOut(b: Buf, sh: Shape, out: seq<real>, x: seq<real>, r: nat, g: nat, j: nat)
    requires D.Read(b, sh, out) && InShape(sh, r, g) && j < sh.Group()
    ensures DotTerms(out, x, sh.Cols(), r)(Flat(g, j, sh.Group())) == Cells(b, sh, x, r)(g, j)
  {
    BatchIndex(r, g, j, sh.groups, sh.Group());
    hide Dequant;
    hide Mul;
    assert Get(out, Flat3(r, g, j, sh.groups, sh.Group())) == Dequant(b, sh, r, g, j);
    hide D.Read;
    assert At(r, sh.Cols()) + Flat(g, j, sh.Group()) == Flat3(r, g, j, sh.groups, sh.Group());
    hide At;
    hide Flat3;
  }

  /** The kernel computes the product with the dequantised tensor. */
  lemma GemvIsDequantiseThenDot(b: Buf, sh: Shape, out: seq<real>, x: seq<real>, r: nat)
    requires D.Read(b, sh, out) && r < sh.rows
    ensures RowSum(b, sh, x, r) == Sum(DotTerms(out, x, sh.Cols(), r), sh.Cols())
  {
    var f, t := DotTerms(out, x, sh.Cols(), r), Cells(b, sh, x, r);
    hide Sum;
    hide At;
    forall g, j | 0 <= g < sh.groups && 0 <= j < sh.Group()
      ensures f(Flat(g, j, sh.Group())) == t(g, j)
    {
      CellOfOut(b, sh, out, x, r, g, j);
    }
    hide DotTerms;
    hide Flat;
    SumOfTable(f, t, sh.groups, sh.Group());
    forall g | 0 <= g < sh.groups
      ensures GroupTerm(b, sh, x, r)(g) == RowSums(t, sh.Group())(g)
    {
      GroupIsCells(b, sh, x, r, g);
      hide *;
    }
    SumSame(GroupTerm(b, sh, x, r), RowSums(t, sh.Group()), sh.groups);
    hide GroupTerm;
    hide Cells;
  }

  // ------------------------------------------------------------------- the batched form

  predicate BatchOk(blobs: seq<Buf>, off: nat, sh: Shape, x: seq<real>, xs: nat) {
    Whole(sh) && forall e :: 0 <= e < |blobs| ==> off + sh.Bytes() <= |blobs[e]| && At(e, xs) + sh.Cols() <= |x|
  }

  /** Row `r` of expert `e`: its blob's region times its input. */
  function ExpertRow(blobs: seq<Buf>, off: nat, sh: Shape, x: seq<real>, xs: nat, e: nat, r: nat): real
    requires BatchOk(blobs, off, sh, x, xs) && e < |blobs|
  {
    RowSum(blobs[e][off..off + sh.Bytes()], sh, x[At(e, xs)..At(e, xs) + sh.Cols()], r)
  }

  ghost predicate BatchDone(blobs: seq<Buf>, off: nat, sh: Shape, x: seq<real>, xs: nat, y: seq<real>, n: nat)
    requires BatchOk(blobs, off, sh, x, xs) && n <= |blobs|
  {
    |y| == At(n, sh.rows)
    && forall e, r :: 0 <= e < n && 0 <= r < sh.rows ==>
         Get(y, Flat(e, r, sh.rows)) == ExpertRow(blobs, off, sh, x, xs, e, r)
  }

  lemma BatchGrows(blobs: seq<Buf>, off: nat, sh: Shape, x: seq<real>, xs: nat, y: seq<real>, e: nat, ye: seq<real>)
    requires BatchOk(blobs, off, sh, x, xs) && e < |blobs| && BatchDone(blobs, off, sh, x, xs, y, e)
    requires |ye| == sh.rows && forall r :: 0 <= r < sh.rows ==> ye[r] == ExpertRow(blobs, off, sh, x, xs, e, r)
    ensures BatchDone(blobs, off, sh, x, xs, y + ye, e + 1)
  {
    AtNext(e, sh.rows);
    hide At;
    hide ExpertRow;
    forall a, r | 0 <= a < e + 1 && 0 <= r < sh.rows
      ensures Get(y + ye, Flat(a, r, sh.rows)) == if a < e then Get(y, Flat(a, r, sh.rows)) else ye[r]
    {
      if a < e {
        FlatFits(a, r, e, sh.rows);
      }
    }
  }

  /** One launch for several experts: each blob's region, inputs `xs` apart (0 shares one). */
  method Q4GemvBatch(blobs: seq<Buf>, off: nat, sh: Shape, x: seq<real>, xs: nat) returns (y: seq<real>)
    requires BatchOk(blobs, off, sh, x, xs)
    ensures BatchDone(blobs, off, sh, x, xs, y, |blobs|)
    ensures forall e, r :: 0 <= e < |blobs| && 0 <= r < sh.rows ==>
              Get(y, Flat(e, r, sh.rows)) ==
              RowSum(blobs[e][off..off + sh.Bytes()], sh, x[At(e, xs)..At(e, xs) + sh.Cols()], r)
  {
    y := [];
    AtNext(0, sh.rows);
    hide At;
    hide RowSum;
    for e := 0 to |blobs|
      invariant BatchDone(blobs, off, sh, x, xs, y, e)
    {
      hide BatchDone;
      var ye := Q4Gemv(blobs[e][off..off + sh.Bytes()], sh, x[At(e, xs)..At(e, xs) + sh.Cols()]);
      BatchGrows(blobs, off, sh, x, xs, y, e, ye);
      y := y + ye;
    }
  }

  function Contribution(eouts: seq<real>, wts: seq<real>, n: nat, i: nat): nat -> real {
    (e: nat) => Mul(Get(wts, e), Get(eouts, At(e, n) + i))
  }

  /** out[i] += sum over experts of weight times output. */
  method MoeReduce(eouts: seq<real>, wts: seq<real>, out: array<real>, experts: nat, n: nat)
    requires |eouts| == At(experts, n) && |wts| == experts && out.Length == n
    modifies out
    ensures forall i :: 0 <= i < n ==> out[i] == old(out[i]) + Sum(Contribution(eouts, wts, n, i), experts)
  {
    hide At;
    hide Mul;
    for i := 0 to n
      invariant forall k :: 0 <= k < i ==> out[k] == old(out[k]) + Sum(Contribution(eouts, wts, n, k), experts)
      invariant forall k :: i <= k < n ==> out[k] == old(out[k])
    {
      var a := ExpertSum(eouts, wts, experts, n, i);
      hide Sum;
      out[i] := out[i] + a;
    }
  }

  method ExpertSum(eouts: seq<real>, wts: seq<real>, experts: nat, n: nat, i: nat) returns (a: real)
    requires |eouts| == At(experts, n) && |wts| == experts && i < n
    ensures a == Sum(Contribution(eouts, wts, n, i), experts)
  {
    a := 0.0;
    hide At;
    hide Mul;
    ghost var f := Contribution(eouts, wts, n, i);
    for e := 0 to experts
      invariant a == Sum(f, e)
    {
      AtOrder(e, experts, n);
      assert f(e) == Mul(wts[e], eouts[At(e, n) + i]);
      a := a + Mul(wts[e], eouts[At(e, n) + i]);
    }
  }
}
