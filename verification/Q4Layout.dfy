/** The q4 group layout: all binary16 scales, row-major, then all nibbles
    (crates/llmpager-core/src/quant.rs:1-30, 78-100). */
module Q4Layout {
  import opened Indexing
  import opened HalfValues

  /** A tensor of `rows` by `groups` groups of `2 * half` values. */
  datatype Shape = Shape(rows: nat, groups: nat, half: nat)
  {
    function Group(): nat {
      2 * half
    }

    function Cols(): nat {
      At(groups, Group())
    }

    /** Bytes of the scales region. */
    function Scales(): nat {
      2 * At(rows, groups)
    }

    /** Bytes of the whole tensor. */
    function Bytes(): nat {
      Scales() + At(At(rows, groups), half)
    }
  }

  function ShapeOf(rows: nat, cols: nat, group: nat): Shape
    requires group != 0
  {
    Shape(rows, cols / group, group / 2)
  }

  /** The shape of acceptable dimensions gives the sizes and offsets the code computes. */
  lemma ShapeIs(rows: nat, cols: nat, group: nat)
    requires group != 0 && group % 2 == 0 && cols % group == 0
    ensures
      var sh := ShapeOf(rows, cols, group);
      && sh.Group() == group && sh.Cols() == cols
      && sh.Bytes() == rows * (cols / group) * 2 + rows * cols / 2
  {
    var g, h := cols / group, group / 2;
    assert cols == g * group;
    assert rows * cols == rows * (g * (2 * h));
    assert rows * (g * (2 * h)) == 2 * (rows * g * h) by {
      assert rows * (g * (2 * h)) == rows * g * (2 * h);
    }
  }

  /** Byte offset of half-group position `i` of group `g` of row `r`, as the code has it. */
  lemma DataOffset(sh: Shape, r: nat, g: nat, i: nat)
    ensures r * sh.Cols() / 2 + g * sh.Group() / 2 + i == Flat3(r, g, i, sh.groups, sh.half)
  {
    var c := At(sh.groups, sh.half);
    assert sh.groups * (2 * sh.half) == 2 * c;
    assert r * (2 * c) == 2 * (r * c);
    assert g * (2 * sh.half) == 2 * (g * sh.half);
    BatchIndex(r, g, i, sh.groups, sh.half);
  }

  type Buf = seq<bv8>

  function ByteOf(b: Buf, i: nat): bv8 {
    if i < |b| then b[i] else 0
  }

  function ScalePos(sh: Shape, r: nat, g: nat): nat {
    2 * Flat(r, g, sh.groups)
  }

  /** Scale (r, g) lies where the code computes it. */
  lemma ScaleOffset(sh: Shape, r: nat, g: nat)
    ensures (r * sh.groups + g) * 2 == ScalePos(sh, r, g)
  {
  }

  function DataPos(sh: Shape, r: nat, g: nat, i: nat): nat {
    sh.Scales() + Flat3(r, g, i, sh.groups, sh.half)
  }

  function FromLe(lo: bv8, hi: bv8): bv16 {
    (lo as bv16) | ((hi as bv16) << 8)
  }

  function LowByte(h: bv16): bv8 {
    (h & 0xFF) as bv8
  }

  function HighByte(h: bv16): bv8 {
    (h >> 8) as bv8
  }

  lemma LeRoundTrip(h: bv16)
    ensures FromLe(LowByte(h), HighByte(h)) == h
  {
  }

  /** Scales are stored low byte first. */
  lemma LittleEndian(lo: bv8, hi: bv8)
    ensures FromLe(lo, hi) % 256 == lo as bv16 && FromLe(lo, hi) / 256 == hi as bv16
  {
  }

  function ScaleAt(b: Buf, sh: Shape, r: nat, g: nat): bv16 {
    FromLe(ByteOf(b, ScalePos(sh, r, g)), ByteOf(b, ScalePos(sh, r, g) + 1))
  }

  function Low(p: bv8): nat {
    (p & 0x0F) as nat
  }

  function High(p: bv8): nat {
    (p >> 4) as nat
  }

  /** Two nibbles in a byte, the even value low. */
  function Pack(a: bv8, b: bv8): bv8 {
    (a & 0x0F) | ((b & 0x0F) << 4)
  }

  lemma PackRoundTrip(a: bv8, b: bv8)
    requires a <= 15 && b <= 15
    ensures Low(Pack(a, b)) == a as nat && High(Pack(a, b)) == b as nat
  {
  }

  /** Nibble of value `j` of a group. */
  function NibbleAt(b: Buf, sh: Shape, r: nat, g: nat, j: nat): nat {
    var p := ByteOf(b, DataPos(sh, r, g, j / 2));
    if j % 2 == 0 then Low(p) else High(p)
  }

  /** The value a reader reconstructs. */
  function Dequant(b: Buf, sh: Shape, r: nat, g: nat, j: nat): real {
    (NibbleAt(b, sh, r, g, j) - 8) as real * Val16(ScaleAt(b, sh, r, g))
  }

  predicate InShape(sh: Shape, r: nat, g: nat) {
    r < sh.rows && g < sh.groups
  }

  lemma PositionsFit(sh: Shape, r: nat, g: nat)
    requires InShape(sh, r, g)
    ensures ScalePos(sh, r, g) + 1 < sh.Scales()
    ensures forall i :: 0 <= i < sh.half ==> sh.Scales() <= DataPos(sh, r, g, i) < sh.Bytes()
  {
    hide At;
    hide Flat;
    hide Flat3;
    FlatFits(r, g, sh.rows, sh.groups);
    forall i | 0 <= i < sh.half
      ensures sh.Scales() <= DataPos(sh, r, g, i) < sh.Bytes()
    {
      Flat3Fits(r, g, i, sh.rows, sh.groups, sh.half);
    }
  }

  /** The bytes that belong to other groups are the same in both. */
  ghost predicate OthersSame(a: Buf, b: Buf, sh: Shape, r: nat, g: nat) {
    && |a| == |b|
    && (forall x, y :: 0 <= x < sh.rows && 0 <= y < sh.groups && (x != r || y != g) ==>
         ScaleAt(a, sh, x, y) == ScaleAt(b, sh, x, y))
    && (forall x, y, i :: 0 <= x < sh.rows && 0 <= y < sh.groups && 0 <= i < sh.half && (x != r || y != g) ==>
                            ByteOf(a, DataPos(sh, x, y, i)) == ByteOf(b, DataPos(sh, x, y, i)))
  }

  /** The scale and the first `n` bytes of a group are as wanted. */
  ghost predicate GroupHas(b: Buf, sh: Shape, r: nat, g: nat, h: bv16, qs: seq<bv8>, n: nat) {
    && |qs| == sh.Group() && n <= sh.half && ScaleAt(b, sh, r, g) == h
    && forall i :: 0 <= i < n ==> ByteOf(b, DataPos(sh, r, g, i)) == Pack(qs[2 * i], qs[2 * i + 1])
  }

  lemma ScaleWritten(b: Buf, sh: Shape, r: nat, g: nat, h: bv16)
    requires InShape(sh, r, g) && |b| == sh.Bytes()
    ensures ScalePos(sh, r, g) + 1 < |b|
    ensures
      var b' := b[ScalePos(sh, r, g) := LowByte(h)][ScalePos(sh, r, g) + 1 := HighByte(h)];
      ScaleAt(b', sh, r, g) == h && OthersSame(b, b', sh, r, g)
  {
    hide At;
    hide Flat;
    hide Flat3;
    hide FromLe;
    hide LowByte;
    hide HighByte;
    PositionsFit(sh, r, g);
    LeRoundTrip(h);
    var b' := b[ScalePos(sh, r, g) := LowByte(h)][ScalePos(sh, r, g) + 1 := HighByte(h)];
    forall x, y | 0 <= x < sh.rows && 0 <= y < sh.groups && (x != r || y != g)
      ensures ScaleAt(b, sh, x, y) == ScaleAt(b', sh, x, y)
      ensures forall i :: 0 <= i < sh.half ==> ByteOf(b, DataPos(sh, x, y, i)) == ByteOf(b', DataPos(sh, x, y, i))
    {
      FlatIsUnique(x, y, r, g, sh.groups);
      PositionsFit(sh, x, y);
    }
  }

  lemma ByteWritten(b: Buf, sh: Shape, r: nat, g: nat, i: nat, p: bv8)
    requires InShape(sh, r, g) && |b| == sh.Bytes() && i < sh.half
    ensures DataPos(sh, r, g, i) < |b|
    ensures
      var b' := b[DataPos(sh, r, g, i) := p];
      && OthersSame(b, b', sh, r, g) && ScaleAt(b', sh, r, g) == ScaleAt(b, sh, r, g)
      && forall j :: 0 <= j < sh.half ==>
           ByteOf(b', DataPos(sh, r, g, j)) == if j == i then p else ByteOf(b, DataPos(sh, r, g, j))
  {
    hide At;
    hide Flat;
    hide Flat3;
    hide FromLe;
    PositionsFit(sh, r, g);
    var b' := b[DataPos(sh, r, g, i) := p];
    forall x, y | 0 <= x < sh.rows && 0 <= y < sh.groups
      ensures ScaleAt(b, sh, x, y) == ScaleAt(b', sh, x, y)
    {
      PositionsFit(sh, x, y);
    }
    forall x, y, j | 0 <= x < sh.rows && 0 <= y < sh.groups && 0 <= j < sh.half
      ensures ByteOf(b', DataPos(sh, x, y, j)) == if x == r && y == g && j == i then p
          else ByteOf(b, DataPos(sh, x, y, j))
    {
      PositionsFit(sh, x, y);
      Flat3IsUnique(x, y, j, r, g, i, sh.groups, sh.half);
    }
  }

  lemma OthersTwice(a: Buf, b: Buf, c: Buf, sh: Shape, r: nat, g: nat)
    requires OthersSame(a, b, sh, r, g) && OthersSame(b, c, sh, r, g)
    ensures OthersSame(a, c, sh, r, g)
  {
    hide ScaleAt;
    hide ByteOf;
    hide DataPos;
  }

  /** Write one already quantised group. */
  method StoreGroup(dst: array<bv8>, sh: Shape, r: nat, g: nat, h: bv16, qs: seq<bv8>)
    requires InShape(sh, r, g) && dst.Length == sh.Bytes() && |qs| == sh.Group()
    modifies dst
    ensures OthersSame(old(dst[..]), dst[..], sh, r, g) && GroupHas(dst[..], sh, r, g, h, qs, sh.half)
  {
    hide At;
    ghost var was := dst[..];
    ScaleWritten(was, sh, r, g, h);
    ScaleOffset(sh, r, g);
    var s := (r * sh.groups + g) * 2;
    dst[s] := LowByte(h);
    dst[s + 1] := HighByte(h);
    assert dst[..] == was[s := LowByte(h)][s + 1 := HighByte(h)];
    hide ScaleAt;
    hide LowByte;
    hide HighByte;
    for i := 0 to sh.half
      invariant OthersSame(was, dst[..], sh, r, g) && GroupHas(dst[..], sh, r, g, h, qs, i)
    {
      StoreByte(dst, sh, r, g, h, qs, i, was);
    }
  }

  method StoreByte(dst: array<bv8>, sh: Shape, r: nat, g: nat, h: bv16, qs: seq<bv8>, i: nat, ghost was: Buf)
    requires InShape(sh, r, g) && dst.Length == sh.Bytes() && i < sh.half
    requires OthersSame(was, dst[..], sh, r, g) && GroupHas(dst[..], sh, r, g, h, qs, i)
    modifies dst
    ensures OthersSame(was, dst[..], sh, r, g) && GroupHas(dst[..], sh, r, g, h, qs, i + 1)
  {
    hide At;
    hide ScaleAt;
    hide Flat3;
    DataOffset(sh, r, g, i);
    ghost var now := dst[..];
    var p := Pack(qs[2 * i], qs[2 * i + 1]);
    hide Pack;
    ByteWritten(now, sh, r, g, i, p);
    dst[sh.Scales() + r * sh.Cols() / 2 + g * sh.Group() / 2 + i] := p;
    assert dst[..] == now[DataPos(sh, r, g, i) := p];
    OthersTwice(was, now, dst[..], sh, r, g);
    hide OthersSame;
    hide ByteOf;
    hide DataPos;
  }

  /** The nibbles of a stored group are the ones given. */
  lemma StoredNibble(b: Buf, sh: Shape, r: nat, g: nat, h: bv16, qs: seq<bv8>, j: nat)
    requires GroupHas(b, sh, r, g, h, qs, sh.half) && j < sh.Group()
    requires forall i :: 0 <= i < |qs| ==> qs[i] <= 15
    ensures NibbleAt(b, sh, r, g, j) == qs[j] as nat
  {
    var i := j / 2;
    assert i < sh.half;
    PackRoundTrip(qs[2 * i], qs[2 * i + 1]);
    hide Low;
    hide High;
    hide Pack;
    hide DataPos;
    assert j == 2 * i || j == 2 * i + 1;
  }
}
