/** Repacking an int4 checkpoint into the q4 layout (crates/llmpager-convert/src/kimi.rs:146-232):
    scales are converted, nibbles are copied word for word. */
module Repack {
  import opened Util
  import opened Indexing
  import opened Half
  import opened HalfValues
  import opened Q4Layout
  import D = Dequantize
  import Q = Quant

  const KIMI_GROUP: nat := 32

  /** The group scale as stored: bf16 bits are the top half of a binary32. */
  function Converted(s: bv16): bv16 {
    F32ToF16((s as bv32) << 16)
  }

  /** A positive bf16 scale in the normal range of binary16 keeps its value: decoding what is
      stored gives the checkpoint's number, bit for bit. */
  lemma ScaleIsExact(s: bv16)
    requires s < 0x8000 && 112 < Exp32((s as bv32) << 16) < 143
    ensures F16ToF32(Converted(s)) == (s as bv32) << 16
  {
    WideScale(s);
    hide Exp32;
    hide F32ToF16;
    hide F16ToF32;
    hide IsShort;
    ShortIsExact((s as bv32) << 16);
  }

  lemma WideScale(s: bv16)
    requires s < 0x8000
    ensures (s as bv32) << 16 < 0x8000_0000 && IsShort((s as bv32) << 16)
  {
  }

  /** bf16 scale `n` of the checkpoint. */
  function RawScaleAt(raw: Buf, n: nat): bv16 {
    FromLe(ByteOf(raw, 2 * n), ByteOf(raw, 2 * n + 1))
  }

  /** The packed word that holds column `c` of row `r`. */
  function PackedWord(packed: Buf, cols: nat, r: nat, c: nat): bv32 {
    WordFrom(packed, WordPos(cols, r, c))
  }

  /** Scales of the region: those below `n` are the converted ones. */
  ghost predicate ScalesDone(raw: Buf, b: Buf, n: nat) {
    && 2 * n <= |b|
    && (forall i :: 0 <= i < n ==> ByteOf(b, 2 * i) == LowByte(Converted(RawScaleAt(raw, i))))
    && (forall i :: 0 <= i < n ==> ByteOf(b, 2 * i + 1) == HighByte(Converted(RawScaleAt(raw, i))))
  }

  method ConvertScales(raw: Buf, dst: array<bv8>, n: nat)
    requires |raw| == 2 * n && 2 * n <= dst.Length
    modifies dst
    ensures ScalesDone(raw, dst[..], n) && forall k :: 2 * n <= k < dst.Length ==> dst[k] == old(dst[k])
  {
    hide Converted;
    hide FromLe;
    hide LowByte;
    hide HighByte;
    for i := 0 to n
      invariant ScalesDone(raw, dst[..], i) && forall k :: 2 * n <= k < dst.Length ==> dst[k] == old(dst[k])
    {
      var h := Converted(FromLe(raw[2 * i], raw[2 * i + 1]));
      dst[2 * i] := LowByte(h);
      dst[2 * i + 1] := HighByte(h);
    }
  }

  /** Copy whole words behind the scales. */
  method CopyWords(packed: Buf, dst: array<bv8>, from: nat, words: nat)
    requires |packed| == 4 * words && from + 4 * words <= dst.Length
    modifies dst
    ensures dst[..] == old(dst[..from]) + packed + old(dst[from + |packed|..])
  {
    for w := 0 to words
      invariant forall k :: 0 <= k < from || from + 4 * w <= k < dst.Length ==> dst[k] == old(dst[k])
      invariant forall k :: 0 <= k < 4 * w ==> dst[from + k] == packed[k]
    {
      var at := from + 4 * w;
      dst[at], dst[at + 1], dst[at + 2], dst[at + 3] :=
          packed[4 * w], packed[4 * w + 1], packed[4 * w + 2], packed[4 * w + 3];
    }
  }

  function KimiShape(rows: nat, cols: nat): Shape {
    ShapeOf(rows, cols, KIMI_GROUP)
  }

  /** A repacked projection. */
  ghost predicate IsRepacked(packed: Buf, raw: Buf, rows: nat, cols: nat, b: Buf) {
    var sh := KimiShape(rows, cols);
    && |b| == sh.Bytes()
    && (forall r, g :: 0 <= r < rows && 0 <= g < sh.groups ==>
                         ScaleAt(b, sh, r, g) == Converted(RawScaleAt(raw, Flat(r, g, sh.groups))))
    && (forall r, g, i :: 0 <= r < rows && 0 <= g < sh.groups && 0 <= i < 16 ==>
                            ByteOf(b, DataPos(sh, r, g, i)) == ByteOf(packed, Flat3(r, g, i, sh.groups, 16)))
  }

  lemma BytesBelong(packed: Buf, raw: Buf, rows: nat, cols: nat, b: Buf, scales: Buf)
    requires cols % 32 == 0
    requires
      var sh := KimiShape(rows, cols);
      && |packed| == At(At(rows, sh.groups), 16) && ScalesDone(raw, scales, At(rows, sh.groups))
           && sh.Scales() <= |scales|
      && b == scales[..sh.Scales()] + packed
    ensures IsRepacked(packed, raw, rows, cols, b)
  {
    hide At;
    hide Flat3;
    hide Converted;
    hide LowByte;
    hide HighByte;
    hide FromLe;
    var sh := KimiShape(rows, cols);
    assert sh.half == 16;
    forall r, g | 0 <= r < rows && 0 <= g < sh.groups
      ensures ScaleAt(b, sh, r, g) == Converted(RawScaleAt(raw, Flat(r, g, sh.groups)))
    {
      FlatFits(r, g, rows, sh.groups);
      hide Flat;
      LeRoundTrip(Converted(RawScaleAt(raw, Flat(r, g, sh.groups))));
      hide RawScaleAt;
    }
    forall r, g, i | 0 <= r < rows && 0 <= g < sh.groups && 0 <= i < 16
      ensures ByteOf(b, DataPos(sh, r, g, i)) == ByteOf(packed, Flat3(r, g, i, sh.groups, 16))
    {
      Flat3Fits(r, g, i, rows, sh.groups, 16);
    }
  }

  /** A projection of any width, byte by byte: converted scales, the packed words, and
      zeros where the rounded-down shape leaves the buffer unwritten. */
  ghost predicate IsCopied(packed: Buf, raw: Buf, rows: nat, cols: nat, b: Buf) {
    CopiedAt(packed, raw, rows * (cols / 32), rows * (cols / 32) * 2 + rows * cols / 2, b)
  }

  /** The same, for `n` scales in a buffer of `size` bytes. */
  ghost predicate CopiedAt(packed: Buf, raw: Buf, n: nat, size: nat, b: Buf) {
    && |b| == size && 2 * n + |packed| <= |b|
    && ScalesDone(raw, b, n) && b[2 * n..2 * n + |packed|] == packed
    && forall k :: 2 * n + |packed| <= k < |b| ==> b[k] == 0
  }

  /** Repack one projection. */
  method RepackProjection(packed: Buf, raw: Buf, rows: nat, cols: nat) returns (r: Result<Buf>)
    ensures r.Ok? <==> |packed| == 4 * (rows * (cols / 8)) && |raw| == 2 * (rows * (cols / 32))
    ensures r.Ok? ==> IsCopied(packed, raw, rows, cols, r.value)
    ensures r.Ok? && cols % 32 == 0 ==> IsRepacked(packed, raw, rows, cols, r.value)
  {
    if |packed| != 4 * (rows * (cols / 8)) || |raw| != 2 * (rows * (cols / 32)) {
      return Err;
    }
    var n := rows * (cols / 32);
    WordsFit(rows, cols);
    var buf := new bv8[n * 2 + rows * cols / 2](_ => 0);
    ConvertScales(raw, buf, n);
    ghost var scales := buf[..];
    CopyWords(packed, buf, 2 * n, rows * (cols / 8));
    CopiedIs(packed, raw, n, buf.Length, buf[..], scales);
    if cols % 32 == 0 {
      CopiedIsRepacked(packed, raw, rows, cols, buf[..]);
    }
    return Ok(buf[..]);
  }

  lemma CopiedIs(packed: Buf, raw: Buf, n: nat, size: nat, b: Buf, scales: Buf)
    requires |scales| == size && 2 * n + |packed| <= |scales| && ScalesDone(raw, scales, n)
    requires forall k :: 2 * n <= k < |scales| ==> scales[k] == 0
    requires b == scales[..2 * n] + packed + scales[2 * n + |packed|..]
    ensures CopiedAt(packed, raw, n, size, b)
  {
    hide Converted;
    hide RawScaleAt;
    hide LowByte;
    hide HighByte;
    assert forall i :: 0 <= i < 2 * n ==> b[i] == scales[i];
    assert b[2 * n..2 * n + |packed|] == packed;
  }

  lemma WordsFit(rows: nat, cols: nat)
    ensures 4 * (rows * (cols / 8)) <= rows * cols / 2
  {
    var w := cols / 8;
    assert rows * (8 * w) <= rows * cols by {
      RowsGrow(rows, 8 * w, cols);
    }
    assert rows * (8 * w) == 8 * (rows * w);
  }

  lemma RowsGrow(rows: nat, a: nat, b: nat)
    requires a <= b
    ensures rows * a <= rows * b
  {
  }

  /** With whole groups the copy is the q4 layout. */
  lemma CopiedIsRepacked(packed: Buf, raw: Buf, rows: nat, cols: nat, b: Buf)
    requires cols % 32 == 0 && |packed| == 4 * (rows * (cols / 8)) && IsCopied(packed, raw, rows, cols, b)
    ensures IsRepacked(packed, raw, rows, cols, b)
  {
    Sizes(rows, cols);
    var sh := KimiShape(rows, cols);
    assert sh.Scales() == 2 * (rows * (cols / 32));
    WholeSize(rows, cols);
    assert b == b[..sh.Scales()] + packed;
    hide At;
    hide Converted;
    hide RawScaleAt;
    BytesBelong(packed, raw, rows, cols, b, b);
  }

  lemma WholeSize(rows: nat, cols: nat)
    requires cols % 32 == 0
    ensures 4 * (rows * (cols / 8)) == rows * cols / 2
  {
    var w := cols / 8;
    assert cols == 8 * w;
    assert rows * (8 * w) == 8 * (rows * w);
  }

  lemma Sizes(rows: nat, cols: nat)
    requires cols % 32 == 0
    ensures
      var sh := KimiShape(rows, cols);
      && sh.groups == cols / 32 && At(rows, sh.groups) == rows * (cols / 32)
      && 4 * (rows * (cols / 8)) == At(At(rows, sh.groups), 16) && cols == 32 * sh.groups
  {
    var g := cols / 32;
    assert cols / 8 == 4 * g;
    assert rows * (4 * g) == 4 * (rows * g);
  }

  // ------------------------------------------------------------------- the meaning

  /** Byte offset of the word of column `c`. */
  function WordPos(cols: nat, r: nat, c: nat): nat {
    4 * (r * (cols / 8) + c / 8)
  }

  lemma WordPosition(cols: nat, r: nat, c: nat)
    requires cols % 32 == 0
    ensures WordPos(cols, r, c) + (c % 8) / 2 == Flat3(r, c / 32, (c % 32) / 2, cols / 32, 16)
  {
    var n := cols / 32;
    assert cols / 8 == 4 * n;
    assert r * (4 * n) == 4 * (r * n);
    var g, j := c / 32, c % 32;
    assert c / 8 == 4 * g + j / 8 && c % 8 == j % 8;
    assert 4 * (j / 8) + (j % 8) / 2 == j / 2;
  }

  /** Nibbles come through verbatim: value `j` of group `g` is nibble `k` of the word of its
      column. */
  lemma NibbleIsVerbatim(packed: Buf, raw: Buf, rows: nat, cols: nat, b: Buf, r: nat, c: nat, g: nat, j: nat, k: nat)
    requires cols % 32 == 0 && IsRepacked(packed, raw, rows, cols, b) && r < rows && c < cols
    requires g == c / 32 && j == c % 32 && k == c % 8
    ensures NibbleAt(b, KimiShape(rows, cols), r, g, j) == D.NibbleOfWord(PackedWord(packed, cols, r, c), k) as nat
  {
    hide *;
    WordPosition(cols, r, c);
    ColumnParts(cols, c);
    CopiedByte(packed, raw, rows, cols, b, r, g, j / 2);
    var at := WordPos(cols, r, c);
    WordNibble(packed, at, k);
    SameNibble(b, KimiShape(rows, cols), r, g, j, ByteOf(packed, at + k / 2));
    WordOfColumn(packed, cols, r, c);
  }

  lemma ColumnParts(cols: nat, c: nat)
    requires cols % 32 == 0 && c < cols
    ensures (c % 32) / 2 < 16 && (c % 8) % 2 == (c % 32) % 2 && c / 32 < cols / 32
  {
  }

  lemma WordOfColumn(packed: Buf, cols: nat, r: nat, c: nat)
    ensures PackedWord(packed, cols, r, c) == WordFrom(packed, WordPos(cols, r, c))
  {
    hide WordFrom;
    hide WordPos;
  }

  lemma SameNibble(b: Buf, sh: Shape, r: nat, g: nat, j: nat, p: bv8)
    requires ByteOf(b, DataPos(sh, r, g, j / 2)) == p
    ensures NibbleAt(b, sh, r, g, j) == if j % 2 == 0 then Low(p) else High(p)
  {
    hide Low;
    hide High;
    hide ByteOf;
    hide DataPos;
  }

  lemma CopiedByte(packed: Buf, raw: Buf, rows: nat, cols: nat, b: Buf, r: nat, g: nat, i: nat)
    requires cols % 32 == 0 && IsRepacked(packed, raw, rows, cols, b) && r < rows && g < cols / 32 && i < 16
    ensures ByteOf(b, DataPos(KimiShape(rows, cols), r, g, i)) == ByteOf(packed, Flat3(r, g, i, cols / 32, 16))
  {
    hide ScaleAt;
    hide ByteOf;
    hide DataPos;
    hide Flat3;
  }

  function WordFrom(packed: Buf, at: nat): bv32 {
    D.Word(ByteOf(packed, at), ByteOf(packed, at + 1), ByteOf(packed, at + 2), ByteOf(packed, at + 3))
  }

  lemma WordNibble(packed: Buf, at: nat, k: nat)
    requires k < 8
    ensures D.NibbleOfWord(WordFrom(packed, at), k) as nat
         == if k % 2 == 0 then Low(ByteOf(packed, at + k / 2)) else High(ByteOf(packed, at + k / 2))
  {
    hide D.Word;
    hide D.NibbleOfWord;
    hide Low;
    hide High;
    hide ByteOf;
    D.NibbleOfByte(ByteOf(packed, at), ByteOf(packed, at + 1), ByteOf(packed, at + 2), ByteOf(packed, at + 3), k);
  }

  /** Dequantising the repacked region at every row and column gives the checkpoint's
      nibble less eight, times its converted group scale. */
  lemma RepackedValue(packed: Buf, raw: Buf, rows: nat, cols: nat, b: Buf, r: nat, c: nat)
    requires cols % 32 == 0 && IsRepacked(packed, raw, rows, cols, b) && r < rows && c < cols
    ensures Dequant(b, KimiShape(rows, cols), r, c / 32, c % 32)
         == CheckpointValue(D.NibbleOfWord(PackedWord(packed, cols, r, c), c % 8) as nat,
             RawScaleAt(raw, Flat(r, c / 32, cols / 32)))
  {
    var g, j, k := c / 32, c % 32, c % 8;
    assert g < cols / 32;
    hide *;
    NibbleIsVerbatim(packed, raw, rows, cols, b, r, c, g, j, k);
    CopiedScale(packed, raw, rows, cols, b, r, g);
    ValueIs(b, KimiShape(rows, cols), r, g, j, D.NibbleOfWord(PackedWord(packed, cols, r, c), k) as nat,
        RawScaleAt(raw, Flat(r, g, cols / 32)));
  }

  /** A checkpoint value: offset-binary nibble times the converted scale. */
  function CheckpointValue(nibble: nat, scale: bv16): real {
    (nibble - 8) as real * Val16(Converted(scale))
  }

  lemma ValueIs(b: Buf, sh: Shape, r: nat, g: nat, j: nat, nibble: nat, scale: bv16)
    requires NibbleAt(b, sh, r, g, j) == nibble && ScaleAt(b, sh, r, g) == Converted(scale)
    ensures Dequant(b, sh, r, g, j) == CheckpointValue(nibble, scale)
  {
    hide NibbleAt;
    hide ScaleAt;
    hide Converted;
    hide Val16;
    Q.DequantIs(b, sh, r, g, j, nibble - 8, Val16(Converted(scale)));
    hide Dequant;
  }

  lemma CopiedScale(packed: Buf, raw: Buf, rows: nat, cols: nat, b: Buf, r: nat, g: nat)
    requires cols % 32 == 0 && IsRepacked(packed, raw, rows, cols, b) && r < rows && g < cols / 32
    ensures ScaleAt(b, KimiShape(rows, cols), r, g) == Converted(RawScaleAt(raw, Flat(r, g, cols / 32)))
  {
    hide ScaleAt;
    hide ByteOf;
    hide DataPos;
    hide Converted;
    hide RawScaleAt;
    hide Flat;
    hide Flat3;
  }

  // ------------------------------------------------------------------- the expert blob

  /** Header of 32 bytes, then the gate, up and down projections. */
  function ExpertBlob(header: Buf, gate: Buf, up: Buf, down: Buf): Buf
    requires |header| == 32
  {
    header + gate + up + down
  }

  /** The offsets the decoders use find the three regions, since gate and up have the same
      shape. */
  lemma RegionsAreFound(header: Buf, gate: Buf, up: Buf, down: Buf, gateBytes: nat)
    requires |header| == 32 && |gate| == gateBytes && |up| == gateBytes
    ensures
      var blob := ExpertBlob(header, gate, up, down);
      && blob[32..32 + gateBytes] == gate && blob[32 + gateBytes..32 + 2 * gateBytes] == up
      && blob[32 + 2 * gateBytes..] == down
  {
  }
}
