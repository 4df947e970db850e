/** The reference reader of the q4 layout (crates/llmpager-core/src/quant.rs:117-147) and
    the repack of int4 checkpoints into it (crates/llmpager-convert/src/kimi.rs:185-217). */
module Dequantize {
  import opened Indexing
  import opened HalfValues
  import opened Q4Layout
  import Q = Quant

  // ---------------------------------------------------------------- the reader

  /** What the reader is told: `rows` rows of `groups` groups of `group` values, of any
      parity. */
  datatype Layout = Layout(rows: nat, groups: nat, group: nat)
  {
    function Cols(): nat {
      At(groups, group)
    }

    function Scales(): nat {
      2 * At(rows, groups)
    }

    function Bytes(): nat {
      Scales() + At(rows, Cols()) / 2
    }

    /** Values of a group that the reader visits: an odd group's last one is skipped. */
    function Visited(): nat {
      2 * (group / 2)
    }
  }

  /** Byte of the pair `i` of group (r, g), as the code computes it. */
  function PairPos(t: Layout, r: nat, g: nat, i: nat): nat {
    t.Scales() + At(r, t.Cols()) / 2 + At(g, t.group) / 2 + i
  }

  function ScaleHalf(b: Buf, t: Layout, r: nat, g: nat): bv16 {
    FromLe(ByteOf(b, 2 * Flat(r, g, t.groups)), ByteOf(b, 2 * Flat(r, g, t.groups) + 1))
  }

  /** What the reader makes of value `j` of group (r, g). */
  function Reading(b: Buf, t: Layout, r: nat, g: nat, j: nat): real {
    var p := ByteOf(b, PairPos(t, r, g, j / 2));
    ((if j % 2 == 0 then Low(p) else High(p)) - 8) as real * Val16(ScaleHalf(b, t, r, g))
  }

  predicate Before(x: nat, y: nat, j: nat, r: nat, g: nat, n: nat) {
    Q.GroupBefore(x, y, r, g) || (x == r && y == g && j < n)
  }

  /** `out` after the first `n` values of group (r, g), and all groups before it: visited
      values are read, everything else is as it was. */
  ghost predicate Filled(b: Buf, t: Layout, was: seq<real>, out: seq<real>, r: nat, g: nat, n: nat) {
    && |out| == |was| == At(At(t.rows, t.groups), t.group)
    && forall x, y, j :: 0 <= x < t.rows && 0 <= y < t.groups && 0 <= j < t.group ==>
                           Get(out, Flat3(x, y, j, t.groups, t.group)) ==
                           if Before(x, y, j, r, g, n) && j < t.Visited() then Reading(b, t, x, y, j)
                           else Get(was, Flat3(x, y, j, t.groups, t.group))
  }

  lemma FilledOneMore(b: Buf, t: Layout, was: seq<real>, out: seq<real>, r: nat, g: nat, n: nat)
    requires Filled(b, t, was, out, r, g, n) && r < t.rows && g < t.groups && n < t.Visited()
    ensures Flat3(r, g, n, t.groups, t.group) < |out|
    ensures Filled(b, t, was, out[Flat3(r, g, n, t.groups, t.group) := Reading(b, t, r, g, n)], r, g, n + 1)
  {
    hide At;
    hide Flat3;
    hide Reading;
    Flat3Fits(r, g, n, t.rows, t.groups, t.group);
    var next := out[Flat3(r, g, n, t.groups, t.group) := Reading(b, t, r, g, n)];
    forall x, y, j | 0 <= x < t.rows && 0 <= y < t.groups && 0 <= j < t.group
      ensures Get(next, Flat3(x, y, j, t.groups, t.group)) ==
              if x == r && y == g && j == n then Reading(b, t, r, g, n)
              else Get(out, Flat3(x, y, j, t.groups, t.group))
    {
      Flat3IsUnique(x, y, j, r, g, n, t.groups, t.group);
    }
  }

  lemma NextGroup(b: Buf, t: Layout, was: seq<real>, out: seq<real>, r: nat, g: nat)
    requires Filled(b, t, was, out, r, g, t.Visited())
    ensures Filled(b, t, was, out, r, g + 1, 0)
  {
    hide Reading;
    hide Flat3;
    hide At;
  }

  lemma NextRow(b: Buf, t: Layout, was: seq<real>, out: seq<real>, r: nat)
    requires Filled(b, t, was, out, r, t.groups, 0)
    ensures Filled(b, t, was, out, r + 1, 0, 0)
  {
    hide Reading;
    hide Flat3;
    hide At;
  }

  /** Where value `j` of group (r, g) goes, as the code has it. */
  lemma OutOffset(t: Layout, r: nat, g: nat, j: nat)
    ensures r * t.Cols() + g * t.group + j == Flat3(r, g, j, t.groups, t.group)
  {
    BatchIndex(r, g, j, t.groups, t.group);
  }

  /** Every pair the reader visits lies in the buffer. */
  lemma PairFits(t: Layout, r: nat, g: nat, i: nat)
    requires r < t.rows && g < t.groups && i < t.group / 2
    ensures PairPos(t, r, g, i) < t.Bytes()
  {
    hide At;
    AtOrder(r, t.rows, t.Cols());
    AtOrder(g, t.groups, t.group);
    HalvesAdd(At(r, t.Cols()), At(g, t.group), t.group, At(t.rows, t.Cols()), i);
  }

  lemma HalvesAdd(a: nat, b: nat, c: nat, total: nat, i: nat)
    requires a + b + c <= total && i < c / 2
    ensures a / 2 + b / 2 + i < total / 2
  {
  }

  method DequantizePair(b: Buf, t: Layout, ghost was: seq<real>, out: array<real>, r: nat, g: nat, i: nat, scale: real)
    requires r < t.rows && g < t.groups && |b| == t.Bytes() && i < t.group / 2
    requires scale == Val16(ScaleHalf(b, t, r, g)) && Filled(b, t, was, out[..], r, g, 2 * i)
    modifies out
    ensures Filled(b, t, was, out[..], r, g, 2 * i + 2)
  {
    hide Flat3;
    hide Val16;
    hide Filled;
    hide ScaleHalf;
    PairFits(t, r, g, i);
    OutOffset(t, r, g, 2 * i);
    OutOffset(t, r, g, 2 * i + 1);
    var p := b[t.Scales() + r * t.Cols() / 2 + g * t.group / 2 + i];
    assert p == ByteOf(b, PairPos(t, r, g, i));
    hide PairPos;
    hide At;
    var lo, hi := ((p & 0x0F) as int - 8) as real * scale, ((p >> 4) as int - 8) as real * scale;
    PairIsReading(b, t, r, g, i, p, scale);
    ghost var before := out[..];
    FilledOneMore(b, t, was, before, r, g, 2 * i);
    out[r * t.Cols() + g * t.group + 2 * i] := lo;
    ghost var mid := before[Flat3(r, g, 2 * i, t.groups, t.group) := Reading(b, t, r, g, 2 * i)];
    assert out[..] == mid;
    FilledOneMore(b, t, was, mid, r, g, 2 * i + 1);
    out[r * t.Cols() + g * t.group + 2 * i + 1] := hi;
    assert out[..] == mid[Flat3(r, g, 2 * i + 1, t.groups, t.group) := Reading(b, t, r, g, 2 * i + 1)];
  }

  lemma PairIsReading(b: Buf, t: Layout, r: nat, g: nat, i: nat, p: bv8, scale: real)
    requires p == ByteOf(b, PairPos(t, r, g, i)) && scale == Val16(ScaleHalf(b, t, r, g))
    ensures Reading(b, t, r, g, 2 * i) == ((p & 0x0F) as int - 8) as real * scale
    ensures Reading(b, t, r, g, 2 * i + 1) == ((p >> 4) as int - 8) as real * scale
  {
    hide PairPos;
    hide ByteOf;
    hide ScaleHalf;
    hide Val16;
    assert (2 * i) / 2 == i && (2 * i + 1) / 2 == i;
    assert Low(p) == (p & 0x0F) as int && High(p) == (p >> 4) as int;
  }

  lemma RowMajor(r: nat, g: nat, groups: nat)
    ensures (r * groups + g) * 2 == 2 * Flat(r, g, groups)
  {
  }

  method DequantizeGroup(b: Buf, t: Layout, ghost was: seq<real>, out: array<real>, r: nat, g: nat)
    requires r < t.rows && g < t.groups && |b| == t.Bytes() && Filled(b, t, was, out[..], r, g, 0)
    modifies out
    ensures Filled(b, t, was, out[..], r, g + 1, 0)
  {
    hide At;
    hide Flat3;
    hide Filled;
    FlatFits(r, g, t.rows, t.groups);
    var s := (r * t.groups + g) * 2;
    assert s == 2 * Flat(r, g, t.groups) by {
      RowMajor(r, g, t.groups);
    }
    var scale := Val16(FromLe(b[s], b[s + 1]));
    assert scale == Val16(ScaleHalf(b, t, r, g)) by {
      hide Val16;
      hide FromLe;
    }
    hide Val16;
    for i := 0 to t.group / 2
      invariant Filled(b, t, was, out[..], r, g, 2 * i)
    {
      DequantizePair(b, t, was, out, r, g, i, scale);
    }
    NextGroup(b, t, was, out[..], r, g);
  }

  /** All of an even-grouped tensor is in `out`. */
  ghost predicate Read(b: Buf, sh: Shape, out: seq<real>) {
    && |out| == At(At(sh.rows, sh.groups), sh.Group())
    && forall x, y, j :: 0 <= x < sh.rows && 0 <= y < sh.groups && 0 <= j < sh.Group() ==>
                           Get(out, Flat3(x, y, j, sh.groups, sh.Group())) == Dequant(b, sh, x, y, j)
  }

  /** For an even group the reader visits every value, where the layout has it. */
  lemma EvenIsRead(b: Buf, sh: Shape, was: seq<real>, out: seq<real>)
    requires Filled(b, Layout(sh.rows, sh.groups, sh.Group()), was, out, sh.rows, 0, 0)
    ensures Read(b, sh, out)
  {
    hide Flat3;
    hide Reading;
    hide Dequant;
    hide At;
    var t := Layout(sh.rows, sh.groups, sh.Group());
    assert t.Visited() == t.group;
    forall x, y, j | 0 <= x < sh.rows && 0 <= y < sh.groups && 0 <= j < sh.Group()
      ensures Get(out, Flat3(x, y, j, sh.groups, sh.Group())) == Dequant(b, sh, x, y, j)
    {
      ReadingIsDequant(b, sh, x, y, j);
    }
  }

  lemma PairIsInLayout(sh: Shape, r: nat, g: nat, i: nat)
    ensures PairPos(Layout(sh.rows, sh.groups, sh.Group()), r, g, i) == DataPos(sh, r, g, i)
  {
    DataOffset(sh, r, g, i);
    hide Flat3;
    hide Flat;
  }

  lemma ReadingIsDequant(b: Buf, sh: Shape, r: nat, g: nat, j: nat)
    ensures Reading(b, Layout(sh.rows, sh.groups, sh.Group()), r, g, j) == Dequant(b, sh, r, g, j)
  {
    hide PairPos;
    hide DataPos;
    hide At;
    hide Flat;
    hide Low;
    hide High;
    hide ByteOf;
    hide Val16;
    hide FromLe;
    PairIsInLayout(sh, r, g, j / 2);
  }

  /** Dequantise a tensor: every value visited is its nibble less eight, times its group's
      scale. With even groups that is every value; with odd ones, which the code accepts, the
      last value of every group is left as it was. */
  method Q4Dequantize(b: Buf, rows: nat, cols: nat, group: nat, out: array<real>) returns (ok: bool)
    modifies out
    ensures ok <==>
              && group != 0 && cols % group == 0
              && |b| == rows * (cols / group) * 2 + rows * cols / 2 && out.Length == rows * cols
    ensures !ok ==> out[..] == old(out[..])
    ensures ok ==> Filled(b, Layout(rows, cols / group, group), old(out[..]), out[..], rows, 0, 0)
    ensures ok && group % 2 == 0 ==> Read(b, ShapeOf(rows, cols, group), out[..])
  {
    if group == 0 || cols % group != 0
       || |b| != rows * (cols / group) * 2 + rows * cols / 2 || out.Length != rows * cols {
      return false;
    }
    var t := Layout(rows, cols / group, group);
    LayoutSizes(t, cols);
    ghost var was := out[..];
    hide At;
    hide Reading;
    hide Flat3;
    assert Filled(b, t, was, out[..], 0, 0, 0);
    hide Filled;
    for r := 0 to rows
      invariant Filled(b, t, was, out[..], r, 0, 0)
    {
      for g := 0 to t.groups
        invariant Filled(b, t, was, out[..], r, g, 0)
      {
        DequantizeGroup(b, t, was, out, r, g);
      }
      NextRow(b, t, was, out[..], r);
    }
    if group % 2 == 0 {
      assert t == Layout(ShapeOf(rows, cols, group).rows, ShapeOf(rows, cols, group).groups, 2 * (group / 2));
      EvenIsRead(b, ShapeOf(rows, cols, group), was, out[..]);
    }
    return true;
  }

  lemma LayoutSizes(t: Layout, cols: nat)
    requires t.group != 0 && cols == t.groups * t.group
    ensures t.Cols() == cols && t.Bytes() == t.rows * t.groups * 2 + t.rows * cols / 2
    ensures t.rows * cols == At(At(t.rows, t.groups), t.group)
  {
    assert t.rows * (t.groups * t.group) == t.rows * t.groups * t.group;
  }

  // ------------------------------------------------------- the int4 checkpoint repack

  /** Nibble `k` of a packed word: bits 4k to 4k + 3. */
  function NibbleOfWord(w: bv32, k: nat): bv32
    requires k < 8
  {
    if k == 0 then w & 0xF else if k == 1 then (w >> 4) & 0xF
    else if k == 2 then (w >> 8) & 0xF else if k == 3 then (w >> 12) & 0xF
    else if k == 4 then (w >> 16) & 0xF else if k == 5 then (w >> 20) & 0xF
    else if k == 6 then (w >> 24) & 0xF else (w >> 28) & 0xF
  }

  /** A little-endian word. */
  function Word(a: bv8, b: bv8, c: bv8, d: bv8): bv32 {
    (a as bv32) | ((b as bv32) << 8) | ((c as bv32) << 16) | ((d as bv32) << 24)
  }

  function Pick(a: bv8, b: bv8, c: bv8, d: bv8, i: nat): bv8
    requires i < 4
  {
    if i == 0 then a else if i == 1 then b else if i == 2 then c else d
  }

  /** Nibble `k` of a word is the low or high half of its byte `k / 2`. */
  lemma NibbleOfByte(a: bv8, b: bv8, c: bv8, d: bv8, k: nat)
    requires k < 8
    ensures NibbleOfWord(Word(a, b, c, d), k) as nat
         == if k % 2 == 0 then Low(Pick(a, b, c, d, k / 2)) else High(Pick(a, b, c, d, k / 2))
  {
    EvenNibbles(a, b, c, d);
    OddNibbles(a, b, c, d);
    hide Word;
  }

  lemma EvenNibbles(a: bv8, b: bv8, c: bv8, d: bv8)
    ensures NibbleOfWord(Word(a, b, c, d), 0) as nat == Low(a) && NibbleOfWord(Word(a, b, c, d), 2) as nat == Low(b)
    ensures NibbleOfWord(Word(a, b, c, d), 4) as nat == Low(c) && NibbleOfWord(Word(a, b, c, d), 6) as nat == Low(d)
  {
  }

  lemma OddNibbles(a: bv8, b: bv8, c: bv8, d: bv8)
    ensures NibbleOfWord(Word(a, b, c, d), 1) as nat == High(a) && NibbleOfWord(Word(a, b, c, d), 3) as nat == High(b)
    ensures NibbleOfWord(Word(a, b, c, d), 5) as nat == High(c) && NibbleOfWord(Word(a, b, c, d), 7) as nat == High(d)
  {
  }
}
