/** The byte layout behind a parked context: the address map of the KV caches
    (crates/llmpager-cuda/kernels/decode.cu:58-77), and the copies in and out of a
    sequence slot (crates/llmpager-run/src/decode.rs:653-711). */
module KvCopy {
  import opened Indexing
  import opened Util

  /** Piece `c` of `s`, in pieces of `k` bytes. */
  function Piece(s: seq<Byte>, c: nat, k: nat): (r: seq<Byte>)
    requires At(c, k) + k <= |s|
    ensures |r| == k
  {
    s[At(c, k)..At(c, k) + k]
  }

  /** `s` holds exactly `n` pieces. */
  predicate Pieces(s: seq<Byte>, n: nat, k: nat) {
    |s| == At(n, k)
  }

  lemma PieceFits(s: seq<Byte>, n: nat, k: nat, c: nat)
    requires Pieces(s, n, k) && c < n
    ensures At(c, k) + k <= |s|
  {
    AtOrder(c, n, k);
  }

  function PieceOf(s: seq<Byte>, n: nat, k: nat, c: nat): (r: seq<Byte>)
    requires Pieces(s, n, k) && c < n
    ensures |r| == k
  {
    PieceFits(s, n, k, c);
    Piece(s, c, k)
  }

  lemma PieceIs(s: seq<Byte>, n: nat, k: nat, c: nat)
    requires Pieces(s, n, k) && c < n
    ensures At(c, k) + k <= |s| && PieceOf(s, n, k, c) == s[At(c, k)..At(c, k) + k]
  {
    PieceFits(s, n, k, c);
    hide At;
  }

  /** An asynchronous copy of `bytes` to offset `off`. */
  function Splice(s: seq<Byte>, off: nat, bytes: seq<Byte>): (r: seq<Byte>)
    requires off + |bytes| <= |s|
    ensures |r| == |s|
  {
    s[..off] + bytes + s[off + |bytes|..]
  }

  lemma SpliceInside(s: seq<Byte>, a: nat, k: nat, off: nat, bytes: seq<Byte>)
    requires a + k <= |s| && off + |bytes| <= k
    ensures Splice(s, a + off, bytes)[a..a + k] == Splice(s[a..a + k], off, bytes)
  {
    var x, y := Splice(s, a + off, bytes)[a..a + k], Splice(s[a..a + k], off, bytes);
    forall i | 0 <= i < k
      ensures x[i] == y[i]
    {
      assert x[i] == Splice(s, a + off, bytes)[a + i];
    }
  }

  lemma SpliceOutside(s: seq<Byte>, x: nat, bytes: seq<Byte>, b: nat, k: nat)
    requires x + |bytes| <= |s| && b + k <= |s| && (b + k <= x || x + |bytes| <= b)
    ensures Splice(s, x, bytes)[b..b + k] == s[b..b + k]
  {
    var r, q := Splice(s, x, bytes)[b..b + k], s[b..b + k];
    forall i | 0 <= i < k
      ensures r[i] == q[i]
    {
      assert r[i] == Splice(s, x, bytes)[b + i];
    }
  }

  /** A copy inside one piece is a copy into that piece and touches no other. */
  lemma SpliceInPiece(s: seq<Byte>, n: nat, k: nat, c: nat, off: nat, bytes: seq<Byte>, m: nat)
    requires Pieces(s, n, k) && c < n && m < n && off + |bytes| <= k
    ensures At(c, k) + off + |bytes| <= |s| && Pieces(Splice(s, At(c, k) + off, bytes), n, k)
    ensures PieceOf(Splice(s, At(c, k) + off, bytes), n, k, m)
         == if m == c then Splice(PieceOf(s, n, k, c), off, bytes) else PieceOf(s, n, k, m)
  {
    hide At;
    hide Splice;
    PieceFits(s, n, k, c);
    PieceFits(s, n, k, m);
    if m < c {
      AtOrder(m, c, k);
    } else if c < m {
      AtOrder(c, m, k);
    }
    var a, b := At(c, k), At(m, k);
    if m == c {
      SpliceInside(s, a, k, off, bytes);
    } else {
      SpliceOutside(s, a + off, bytes, b, k);
    }
  }

  // --------------------------------------------------------------- the address map

  /** One KV plane is [cap, heads, maxSeq, dim], elements of `elem` bytes. */
  datatype Shape = Shape(layers: nat, heads: nat, dim: nat, elem: nat, maxSeq: nat, cap: nat) {
    /** Bytes of one head's row. */
    function Width(): nat {
      At(dim, elem)
    }

    function Stride(): nat {
      At(maxSeq, Width())
    }

    function Lanes(): nat {
      At(cap, heads)
    }

    function Run(len: nat): nat {
      At(len, Width())
    }

    function BytesPerToken(): nat {
      2 * layers * heads * dim * elem
    }
  }

  type Plane = seq<Byte>

  predicate PlaneOk(sh: Shape, pl: Plane) {
    Pieces(pl, sh.Lanes(), sh.Stride())
  }

  /** Head `h` of slot `s`. */
  function LaneNo(sh: Shape, s: nat, h: nat): (n: nat)
    requires s < sh.cap && h < sh.heads
    ensures n < sh.Lanes()
  {
    AtOrder(s, sh.cap, sh.heads);
    At(s, sh.heads) + h
  }

  lemma LaneIsUnique(sh: Shape, s: nat, h: nat, t: nat, g: nat)
    requires s < sh.cap && t < sh.cap && h < sh.heads && g < sh.heads
    ensures LaneNo(sh, s, h) == LaneNo(sh, t, g) <==> s == t && h == g
  {
    if s < t {
      AtOrder(s, t, sh.heads);
    } else if t < s {
      AtOrder(t, s, sh.heads);
    }
  }

  /** The row of position `p`, head `h`, slot `s`. */
  function Row(sh: Shape, pl: Plane, s: nat, h: nat, p: nat): (r: seq<Byte>)
    requires PlaneOk(sh, pl) && s < sh.cap && h < sh.heads && p < sh.maxSeq
    ensures |r| == sh.Width()
  {
    PieceOf(PieceOf(pl, sh.Lanes(), sh.Stride(), LaneNo(sh, s, h)), sh.maxSeq, sh.Width(), p)
  }

  lemma SliceOfSlice(s: seq<Byte>, a: nat, k: nat, b: nat, w: nat)
    requires a + k <= |s| && b + w <= k
    ensures s[a..a + k][b..b + w] == s[a + b..a + b + w]
  {
    var x, y := s[a..a + k][b..b + w], s[a + b..a + b + w];
    forall i | 0 <= i < w
      ensures x[i] == y[i]
    {
      assert x[i] == s[a..a + k][b + i];
    }
  }

  lemma PieceInPiece(s: seq<Byte>, n: nat, k: nat, c: nat, m: nat, w: nat, p: nat)
    requires Pieces(s, n, k) && c < n && k == At(m, w) && p < m
    ensures At(c, k) + At(p, w) + w <= |s|
    ensures PieceOf(PieceOf(s, n, k, c), m, w, p) == s[At(c, k) + At(p, w)..At(c, k) + At(p, w) + w]
  {
    hide At;
    PieceFits(s, n, k, c);
    PieceFits(PieceOf(s, n, k, c), m, w, p);
    SliceOfSlice(s, At(c, k), k, At(p, w), w);
  }

  /** The row sits where `kv_append` computes its address: behind the slot's offset, at
      element (h * maxSeq + p) * dim of the slot. */
  lemma RowAddress(sh: Shape, pl: Plane, s: nat, h: nat, p: nat)
    requires PlaneOk(sh, pl) && s < sh.cap && h < sh.heads && p < sh.maxSeq
    ensures IsSlice(Row(sh, pl, s, h, p), pl, SlotOffset(sh, s) + ElementOffset(sh, h, p))
    ensures IsSlice(Row(sh, pl, s, h, p), pl, Address(sh, s, h, p, sh.maxSeq))
  {
    RowMajor(sh, s, h, p, sh.maxSeq);
    hide At;
    AddressArithmetic(s, h, p, sh.heads, sh.maxSeq, sh.dim, sh.elem);
    PieceInPiece(pl, sh.Lanes(), sh.Stride(), LaneNo(sh, s, h), sh.maxSeq, sh.Width(), p);
    assert SlotOffset(sh, s) + ElementOffset(sh, h, p) == At(LaneNo(sh, s, h), sh.Stride()) + At(p, sh.Width());
  }

  predicate IsSlice(r: seq<Byte>, s: seq<Byte>, a: nat) {
    a + |r| <= |s| && r == s[a..a + |r|]
  }

  function SlotOffset(sh: Shape, s: nat): nat {
    At(At(s, sh.heads), sh.Stride())
  }

  /** Byte offset of element (h * maxSeq + p) * dim. */
  function ElementOffset(sh: Shape, h: nat, p: nat): nat {
    At(At(At(h, sh.maxSeq) + p, sh.dim), sh.elem)
  }

  lemma AddressArithmetic(s: nat, h: nat, p: nat, heads: nat, maxSeq: nat, dim: nat, elem: nat)
    ensures At(At(s, heads) + h, At(maxSeq, At(dim, elem))) + At(p, At(dim, elem))
         == At(At(s, heads), At(maxSeq, At(dim, elem))) + At(At(At(h, maxSeq) + p, dim), elem)
  {
    var w := dim * elem;
    assert (h * maxSeq + p) * dim * elem == (h * maxSeq + p) * w;
    assert h * maxSeq * w == h * (maxSeq * w);
  }

  /** Row `p` of head `h` in block `s`, with `n` rows a head, as one row-major byte index. */
  function Address(sh: Shape, s: nat, h: nat, p: nat, n: nat): nat {
    ((s * sh.heads + h) * n + p) * sh.dim * sh.elem
  }

  lemma RowMajor(sh: Shape, s: nat, h: nat, p: nat, n: nat)
    ensures Address(sh, s, h, p, n) == At(At(s, sh.heads) + h, At(n, sh.Width())) + At(p, sh.Width())
  {
    var k, w := s * sh.heads + h, sh.dim * sh.elem;
    assert (k * n + p) * sh.dim * sh.elem == (k * n + p) * w;
    assert k * n * w == k * (n * w);
  }

  // ---------------------------------------------------------------- copies per plane

  /** One head's run of `len` rows, as a copy from device to host. */
  function Head(sh: Shape, pl: Plane, slot: nat, h: nat, len: nat): (r: seq<Byte>)
    requires PlaneOk(sh, pl) && slot < sh.cap && h < sh.heads && len <= sh.maxSeq
    ensures |r| == sh.Run(len)
  {
    RunFits(sh, len);
    PieceOf(pl, sh.Lanes(), sh.Stride(), LaneNo(sh, slot, h))[..sh.Run(len)]
  }

  lemma RunFits(sh: Shape, len: nat)
    requires len <= sh.maxSeq
    ensures sh.Run(len) <= sh.Stride()
  {
    if len < sh.maxSeq {
      AtOrder(len, sh.maxSeq, sh.Width());
    }
  }

  /** Where head `h` of a slot starts: the slot's offset and `h` strides. */
  lemma HeadOffset(sh: Shape, slot: nat, h: nat)
    requires slot < sh.cap && h < sh.heads
    ensures SlotOffset(sh, slot) + At(h, sh.Stride()) == At(LaneNo(sh, slot, h), sh.Stride())
  {
    var k := sh.Stride();
    assert At(slot, sh.heads) * k + h * k == (At(slot, sh.heads) + h) * k;
  }

  /** Pieces `first ..` of `out` are the heads of the slot; the others are as before. */
  ghost predicate Exported(sh: Shape, pl: Plane, slot: nat, len: nat, was: seq<Byte>, out: seq<Byte>, total: nat,
                           first: nat, n: nat) {
    && PlaneOk(sh, pl) && slot < sh.cap && len <= sh.maxSeq && n <= sh.heads
    && Pieces(was, total, sh.Run(len)) && Pieces(out, total, sh.Run(len))
    && forall c :: 0 <= c < total ==>
                     PieceOf(out, total, sh.Run(len), c) ==
                     if first <= c < first + n then Head(sh, pl, slot, c - first, len)
                         else PieceOf(was, total, sh.Run(len), c)
  }

  lemma ExportOneMore(sh: Shape, pl: Plane, slot: nat, len: nat, was: seq<Byte>, out: seq<Byte>, total: nat, first: nat,
                      h: nat)
    requires Exported(sh, pl, slot, len, was, out, total, first, h) && h < sh.heads && first + h < total
    ensures At(first + h, sh.Run(len)) + sh.Run(len) <= |out|
    ensures Exported(sh, pl, slot, len, was, Splice(out, At(first + h, sh.Run(len)), Head(sh, pl, slot, h, len)), total,
        first, h + 1)
  {
    hide At;
    hide PieceOf;
    hide Head;
    hide Splice;
    var run := sh.Run(len);
    PieceFits(out, total, run, first + h);
    var head := Head(sh, pl, slot, h, len);
    var next := Splice(out, At(first + h, run), head);
    forall c | 0 <= c < total
      ensures PieceOf(next, total, run, c) == if c == first + h then head else PieceOf(out, total, run, c)
    {
      SpliceInPiece(out, total, run, first + h, 0, head, c);
      WholePiece(PieceOf(out, total, run, first + h), head);
      hide Exported;
    }
  }

  lemma WholePiece(was: seq<Byte>, bytes: seq<Byte>)
    requires |was| == |bytes|
    ensures Splice(was, 0, bytes) == bytes
  {
  }

  method ExportPlane(sh: Shape, pl: Plane, slot: nat, len: nat, buf: seq<Byte>, from: nat, ghost total: nat,
                     ghost first: nat)
    returns (out: seq<Byte>, at: nat)
    requires PlaneOk(sh, pl) && slot < sh.cap && len <= sh.maxSeq
    requires Pieces(buf, total, sh.Run(len)) && from == At(first, sh.Run(len)) && first + sh.heads <= total
    ensures at == At(first + sh.heads, sh.Run(len)) && Exported(sh, pl, slot, len, buf, out, total, first, sh.heads)
  {
    var run, stride := sh.Run(len), sh.Stride();
    out, at := buf, from;
    hide At;
    for h := 0 to sh.heads
      invariant at == At(first + h, run) && Exported(sh, pl, slot, len, buf, out, total, first, h)
    {
      var src := SlotOffset(sh, slot) + At(h, stride);
      HeadOffset(sh, slot, h);
      PieceFits(pl, sh.Lanes(), stride, LaneNo(sh, slot, h));
      RunFits(sh, len);
      assert pl[src..src + run] == Head(sh, pl, slot, h, len);
      ExportOneMore(sh, pl, slot, len, buf, out, total, first, h);
      AtNext(first + h, run);
      out := Splice(out, at, pl[src..src + run]);
      at := at + run;
    }
  }

  /** The slot's heads start with pieces `first ..` of the blob; all else is as before. */
  ghost predicate Imported(sh: Shape, was: Plane, pl: Plane, slot: nat, len: nat, blob: seq<Byte>, total: nat,
                           first: nat, n: nat) {
    && PlaneOk(sh, was) && PlaneOk(sh, pl) && slot < sh.cap && len <= sh.maxSeq && n <= sh.heads
    && Pieces(blob, total, sh.Run(len)) && first + n <= total && sh.Run(len) <= sh.Stride()
    && forall s, h :: 0 <= s < sh.cap && 0 <= h < sh.heads ==>
                        Lane(sh, pl, s, h) ==
                        if s == slot && h < n
                            then Splice(Lane(sh, was, s, h), 0, PieceOf(blob, total, sh.Run(len), first + h))
                        else Lane(sh, was, s, h)
  }

  function Lane(sh: Shape, pl: Plane, s: nat, h: nat): (r: seq<Byte>)
    requires PlaneOk(sh, pl) && s < sh.cap && h < sh.heads
    ensures |r| == sh.Stride()
  {
    PieceOf(pl, sh.Lanes(), sh.Stride(), LaneNo(sh, s, h))
  }

  lemma ImportOneMore(sh: Shape, was: Plane, pl: Plane, slot: nat, len: nat, blob: seq<Byte>, total: nat, first: nat,
                      h: nat)
    requires Imported(sh, was, pl, slot, len, blob, total, first, h) && h < sh.heads && first + h < total
    ensures At(LaneNo(sh, slot, h), sh.Stride()) + sh.Run(len) <= |pl|
    ensures Imported(sh, was,
        Splice(pl, At(LaneNo(sh, slot, h), sh.Stride()), PieceOf(blob, total, sh.Run(len), first + h)),
                     slot, len, blob, total, first, h + 1)
  {
    hide At;
    hide PieceOf;
    hide Splice;
    hide LaneNo;
    var run, n := sh.Run(len), LaneNo(sh, slot, h);
    PieceFits(pl, sh.Lanes(), sh.Stride(), n);
    var bytes := PieceOf(blob, total, run, first + h);
    var next := Splice(pl, At(n, sh.Stride()), bytes);
    forall s, g | 0 <= s < sh.cap && 0 <= g < sh.heads
      ensures Lane(sh, next, s, g) == if s == slot && g == h then Splice(Lane(sh, pl, s, g), 0, bytes)
          else Lane(sh, pl, s, g)
    {
      SpliceInPiece(pl, sh.Lanes(), sh.Stride(), n, 0, bytes, LaneNo(sh, s, g));
      LaneIsUnique(sh, slot, h, s, g);
      hide Imported;
    }
    hide Lane;
  }

  method ImportPlane(sh: Shape, was: Plane, slot: nat, len: nat, blob: seq<Byte>, from: nat, ghost total: nat,
                     ghost first: nat)
    returns (pl: Plane, at: nat)
    requires PlaneOk(sh, was) && slot < sh.cap && len <= sh.maxSeq
    requires Pieces(blob, total, sh.Run(len)) && from == At(first, sh.Run(len)) && first + sh.heads <= total
    ensures at == At(first + sh.heads, sh.Run(len)) && Imported(sh, was, pl, slot, len, blob, total, first, sh.heads)
  {
    hide At;
    hide LaneNo;
    hide Splice;
    hide PieceOf;
    var run, stride := sh.Run(len), sh.Stride();
    pl, at := was, from;
    RunFits(sh, len);
    assert Imported(sh, was, pl, slot, len, blob, total, first, 0);
    hide Imported;
    for h := 0 to sh.heads
      invariant at == At(first + h, run) && Imported(sh, was, pl, slot, len, blob, total, first, h)
    {
      var dst := SlotOffset(sh, slot) + At(h, stride);
      HeadOffset(sh, slot, h);
      PieceIs(blob, total, run, first + h);
      ImportOneMore(sh, was, pl, slot, len, blob, total, first, h);
      AtNext(first + h, run);
      pl := Splice(pl, dst, blob[at..at + run]);
      at := at + run;
    }
  }

  // ---------------------------------------------------------------- whole contexts

  /** Piece of a blob that belongs to head `h` of the keys (`v` 0) or values (`v` 1) of
      layer `l`. */
  function PieceNo(sh: Shape, l: nat, v: nat, h: nat): nat {
    At(2 * l + v, sh.heads) + h
  }

  lemma PieceCount(sh: Shape, l: nat, v: nat)
    requires l < sh.layers && v < 2
    ensures At(2 * l + v, sh.heads) + sh.heads <= At(2 * sh.layers, sh.heads)
  {
    AtOrder(2 * l + v, 2 * sh.layers, sh.heads);
  }

  /** The blob's size, as the code computes it, is its number of pieces. */
  lemma BlobSize(sh: Shape, len: nat)
    ensures sh.BytesPerToken() * len == At(At(2 * sh.layers, sh.heads), sh.Run(len))
  {
    var w := sh.dim * sh.elem;
    var n := 2 * sh.layers * sh.heads;
    assert sh.BytesPerToken() == n * w;
    assert n * w * len == n * (len * w);
  }

  ghost predicate PlanesOk(sh: Shape, ps: seq<Plane>) {
    |ps| == sh.layers && forall l :: 0 <= l < sh.layers ==> PlaneOk(sh, ps[l])
  }

  /** `blob` is slot `slot`'s context: keys and values of every layer, head by head. */
  ghost predicate IsBlob(sh: Shape, kc: seq<Plane>, vc: seq<Plane>, slot: nat, len: nat, blob: seq<Byte>, layers: nat) {
    && PlanesOk(sh, kc) && PlanesOk(sh, vc) && slot < sh.cap && len <= sh.maxSeq && layers <= sh.layers
    && Pieces(blob, At(2 * sh.layers, sh.heads), sh.Run(len))
    && forall l :: 0 <= l < layers ==> LayerInBlob(sh, kc[l], vc[l], slot, len, blob, l)
  }

  ghost predicate LayerInBlob(sh: Shape, k: Plane, v: Plane, slot: nat, len: nat, blob: seq<Byte>, l: nat)
    requires PlaneOk(sh, k) && PlaneOk(sh, v) && slot < sh.cap && len <= sh.maxSeq && l < sh.layers
    requires Pieces(blob, At(2 * sh.layers, sh.heads), sh.Run(len))
  {
    PieceCount(sh, l, 0);
    PieceCount(sh, l, 1);
    forall h :: 0 <= h < sh.heads ==>
                  && PieceOf(blob, At(2 * sh.layers, sh.heads), sh.Run(len), PieceNo(sh, l, 0, h))
                       == Head(sh, k, slot, h, len)
                  && PieceOf(blob, At(2 * sh.layers, sh.heads), sh.Run(len), PieceNo(sh, l, 1, h))
                       == Head(sh, v, slot, h, len)
  }

  /** Copying out two more planes leaves the layers already copied. */
  lemma LayerStays(sh: Shape, k: Plane, v: Plane, slot: nat, len: nat, was: seq<Byte>, out: seq<Byte>, j: nat,
                   pl: Plane, first: nat)
    requires PlaneOk(sh, k) && PlaneOk(sh, v) && j < sh.layers
    requires Exported(sh, pl, slot, len, was, out, At(2 * sh.layers, sh.heads), first, sh.heads)
    requires LayerInBlob(sh, k, v, slot, len, was, j) && At(2 * j + 2, sh.heads) <= first
    ensures LayerInBlob(sh, k, v, slot, len, out, j)
  {
    hide At;
    hide Head;
    hide PieceOf;
    PieceCount(sh, j, 0);
    PieceCount(sh, j, 1);
    AtNext(2 * j, sh.heads);
    AtNext(2 * j + 1, sh.heads);
  }

  lemma LayerDone(sh: Shape, k: Plane, v: Plane, slot: nat, len: nat, was: seq<Byte>, mid: seq<Byte>, out: seq<Byte>,
                  l: nat)
    requires PlaneOk(sh, k) && PlaneOk(sh, v) && l < sh.layers
    requires Exported(sh, k, slot, len, was, mid, At(2 * sh.layers, sh.heads), At(2 * l, sh.heads), sh.heads)
    requires Exported(sh, v, slot, len, mid, out, At(2 * sh.layers, sh.heads), At(2 * l, sh.heads) + sh.heads, sh.heads)
    ensures LayerInBlob(sh, k, v, slot, len, out, l)
  {
    hide At;
    hide Exported;
    hide Head;
    hide PieceOf;
    hide Pieces;
    hide PlaneOk;
    PieceCount(sh, l, 0);
    PieceCount(sh, l, 1);
    AtNext(2 * l, sh.heads);
    AtNext(2 * l + 1, sh.heads);
    var total, run := At(2 * sh.layers, sh.heads), sh.Run(len);
    ExportedOk(sh, v, slot, len, mid, out, total, At(2 * l, sh.heads) + sh.heads, sh.heads);
    forall h | 0 <= h < sh.heads
      ensures PieceOf(out, total, run, PieceNo(sh, l, 0, h)) == Head(sh, k, slot, h, len)
      ensures PieceOf(out, total, run, PieceNo(sh, l, 1, h)) == Head(sh, v, slot, h, len)
    {
      HeadsDone(sh, k, v, slot, len, was, mid, out, total, At(2 * l, sh.heads), h);
    }
  }

  lemma ExportedOk(sh: Shape, pl: Plane, slot: nat, len: nat, was: seq<Byte>, out: seq<Byte>, total: nat, first: nat,
                   n: nat)
    requires Exported(sh, pl, slot, len, was, out, total, first, n)
    ensures slot < sh.cap && len <= sh.maxSeq && Pieces(out, total, sh.Run(len))
  {
  }

  lemma HeadsDone(sh: Shape, k: Plane, v: Plane, slot: nat, len: nat, was: seq<Byte>, mid: seq<Byte>, out: seq<Byte>,
                  total: nat, first: nat, h: nat)
    requires Exported(sh, k, slot, len, was, mid, total, first, sh.heads)
    requires Exported(sh, v, slot, len, mid, out, total, first + sh.heads, sh.heads)
    requires h < sh.heads && first + 2 * sh.heads <= total
    ensures PieceOf(out, total, sh.Run(len), first + h) == Head(sh, k, slot, h, len)
    ensures PieceOf(out, total, sh.Run(len), first + sh.heads + h) == Head(sh, v, slot, h, len)
  {
    HeadExported(sh, k, slot, len, was, mid, total, first, h);
    HeadKept(sh, v, slot, len, mid, out, total, first + sh.heads, first + h);
    HeadExported(sh, v, slot, len, mid, out, total, first + sh.heads, h);
    hide *;
  }

  lemma HeadExported(sh: Shape, pl: Plane, slot: nat, len: nat, was: seq<Byte>, out: seq<Byte>, total: nat, first: nat,
                     h: nat)
    requires Exported(sh, pl, slot, len, was, out, total, first, sh.heads) && h < sh.heads && first + h < total
    ensures PieceOf(out, total, sh.Run(len), first + h) == Head(sh, pl, slot, h, len)
  {
    hide At;
  }

  lemma HeadKept(sh: Shape, pl: Plane, slot: nat, len: nat, was: seq<Byte>, out: seq<Byte>, total: nat, first: nat,
                 c: nat)
    requires Exported(sh, pl, slot, len, was, out, total, first, sh.heads) && c < first && c < total
    ensures PieceOf(out, total, sh.Run(len), c) == PieceOf(was, total, sh.Run(len), c)
  {
    hide At;
  }

  lemma BlobGrows(sh: Shape, kc: seq<Plane>, vc: seq<Plane>, slot: nat, len: nat, was: seq<Byte>, mid: seq<Byte>,
                  out: seq<Byte>, l: nat)
    requires IsBlob(sh, kc, vc, slot, len, was, l) && l < sh.layers
    requires Exported(sh, kc[l], slot, len, was, mid, At(2 * sh.layers, sh.heads), At(2 * l, sh.heads), sh.heads)
    requires Exported(sh, vc[l], slot, len, mid, out, At(2 * sh.layers, sh.heads), At(2 * l, sh.heads) + sh.heads,
        sh.heads)
    ensures IsBlob(sh, kc, vc, slot, len, out, l + 1)
  {
    LayerDone(sh, kc[l], vc[l], slot, len, was, mid, out, l);
    forall j | 0 <= j < l
      ensures LayerInBlob(sh, kc[j], vc[j], slot, len, out, j)
    {
      assert LayerInBlob(sh, kc[j], vc[j], slot, len, was, j);
      LayerStaysTwice(sh, kc[j], vc[j], slot, len, was, mid, out, j, kc[l], vc[l], l);
      hide *;
    }
    assert Pieces(out, At(2 * sh.layers, sh.heads), sh.Run(len));
    hide Exported;
    hide LayerInBlob;
    hide At;
  }

  lemma LayerStaysTwice(sh: Shape, k: Plane, v: Plane, slot: nat, len: nat, was: seq<Byte>, mid: seq<Byte>,
                        out: seq<Byte>, j: nat, pk: Plane, pv: Plane, l: nat)
    requires PlaneOk(sh, k) && PlaneOk(sh, v) && j < l < sh.layers
    requires Exported(sh, pk, slot, len, was, mid, At(2 * sh.layers, sh.heads), At(2 * l, sh.heads), sh.heads)
    requires Exported(sh, pv, slot, len, mid, out, At(2 * sh.layers, sh.heads), At(2 * l, sh.heads) + sh.heads,
        sh.heads)
    requires LayerInBlob(sh, k, v, slot, len, was, j)
    ensures LayerInBlob(sh, k, v, slot, len, out, j)
  {
    hide At;
    LayersInOrder(j, l, sh.heads);
    LayerStays(sh, k, v, slot, len, was, mid, j, pk, At(2 * l, sh.heads));
    LayerStays(sh, k, v, slot, len, mid, out, j, pv, At(2 * l, sh.heads) + sh.heads);
    hide LayerInBlob;
    hide Exported;
  }

  lemma LayersInOrder(j: nat, l: nat, heads: nat)
    requires j < l
    ensures At(2 * j + 2, heads) <= At(2 * l, heads)
  {
    if j + 1 < l {
      AtOrder(2 * j + 2, 2 * l, heads);
    }
  }

  class KvMemory {
    const sh: Shape
    var kcache: seq<Plane>
    var vcache: seq<Plane>

    ghost predicate Valid()
      reads this
    {
      PlanesOk(sh, kcache) && PlanesOk(sh, vcache)
    }

    constructor (sh: Shape, kcache: seq<Plane>, vcache: seq<Plane>)
      requires PlanesOk(sh, kcache) && PlanesOk(sh, vcache)
      ensures Valid() && this.sh == sh && this.kcache == kcache && this.vcache == vcache
    {
      this.sh, this.kcache, this.vcache := sh, kcache, vcache;
    }

    method Export(slot: nat, len: nat) returns (r: Result<seq<Byte>>)
      requires Valid()
      ensures r.Ok? <==> slot < sh.cap && len <= sh.maxSeq
      ensures r.Ok? ==>
          |r.value| == sh.BytesPerToken() * len && IsBlob(sh, kcache, vcache, slot, len, r.value, sh.layers)
    {
      if slot >= sh.cap || len > sh.maxSeq {
        return Err;
      }
      var out := seq(sh.BytesPerToken() * len, _ => 0);
      BlobSize(sh, len);
      var at := 0;
      AtNext(0, sh.heads);
      AtNext(0, sh.Run(len));
      for l := 0 to sh.layers
        invariant IsBlob(sh, kcache, vcache, slot, len, out, l)
        invariant at == At(At(2 * l, sh.heads), sh.Run(len)) && |out| == sh.BytesPerToken() * len
      {
        out, at := ExportLayer(slot, len, out, at, l);
      }
      return Ok(out);
    }

    method ExportLayer(slot: nat, len: nat, buf: seq<Byte>, from: nat, l: nat) returns (out: seq<Byte>, at: nat)
      requires Valid() && l < sh.layers && IsBlob(sh, kcache, vcache, slot, len, buf, l)
      requires from == At(At(2 * l, sh.heads), sh.Run(len))
      ensures IsBlob(sh, kcache, vcache, slot, len, out, l + 1) && |out| == |buf|
      ensures at == At(At(2 * l + 2, sh.heads), sh.Run(len))
    {
      hide At;
      hide LayerInBlob;
      ghost var total, first := At(2 * sh.layers, sh.heads), At(2 * l, sh.heads);
      PieceCount(sh, l, 0);
      PieceCount(sh, l, 1);
      AtNext(2 * l, sh.heads);
      AtNext(2 * l + 1, sh.heads);
      var mid;
      mid, at := ExportPlane(sh, kcache[l], slot, len, buf, from, total, first);
      out, at := ExportPlane(sh, vcache[l], slot, len, mid, at, total, first + sh.heads);
      BlobGrows(sh, kcache, vcache, slot, len, buf, mid, out, l);
    }

    /** Restore a blob into slot `slot`. A blob of the wrong size is refused. */
    method Import(slot: nat, len: nat, blob: seq<Byte>) returns (ok: bool)
      requires Valid()
      modifies this
      ensures Valid()
      ensures ok <==> slot < sh.cap && len <= sh.maxSeq && |blob| == sh.BytesPerToken() * len
      ensures !ok ==> kcache == old(kcache) && vcache == old(vcache)
      ensures ok ==> ContextImported(sh, old(kcache), old(vcache), kcache, vcache, slot, len, blob, sh.layers)
    {
      if slot >= sh.cap || len > sh.maxSeq || |blob| != sh.BytesPerToken() * len {
        return false;
      }
      BlobSize(sh, len);
      AtNext(0, sh.heads);
      AtNext(0, sh.Run(len));
      RunFits(sh, len);
      var at := 0;
      for l := 0 to sh.layers
        invariant Valid() && at == At(At(2 * l, sh.heads), sh.Run(len))
        invariant forall j :: l <= j < sh.layers ==> kcache[j] == old(kcache)[j] && vcache[j] == old(vcache)[j]
        invariant ContextImported(sh, old(kcache), old(vcache), kcache, vcache, slot, len, blob, l)
      {
        at := ImportLayer(slot, len, blob, at, l);
      }
      // The blob is used up exactly.
      assert at == |blob|;
      return true;
    }

    method ImportLayer(slot: nat, len: nat, blob: seq<Byte>, from: nat, l: nat) returns (at: nat)
      requires Valid() && l < sh.layers && slot < sh.cap && len <= sh.maxSeq
      requires Pieces(blob, At(2 * sh.layers, sh.heads), sh.Run(len)) && from == At(At(2 * l, sh.heads), sh.Run(len))
      modifies this
      ensures Valid() && at == At(At(2 * l + 2, sh.heads), sh.Run(len))
      ensures kcache == old(kcache)[l := kcache[l]] && vcache == old(vcache)[l := vcache[l]]
      ensures LayerImported(sh, old(kcache)[l], old(vcache)[l], kcache[l], vcache[l], slot, len, blob, l)
    {
      hide At;
      hide Lane;
      hide Pieces;
      hide Imported;
      ghost var total, first := At(2 * sh.layers, sh.heads), At(2 * l, sh.heads);
      PieceCount(sh, l, 0);
      PieceCount(sh, l, 1);
      AtNext(2 * l, sh.heads);
      AtNext(2 * l + 1, sh.heads);
      var k, v;
      k, at := ImportPlane(sh, kcache[l], slot, len, blob, from, total, first);
      v, at := ImportPlane(sh, vcache[l], slot, len, blob, at, total, first + sh.heads);
      ImportedOk(sh, kcache[l], k, slot, len, blob, total, first, sh.heads);
      ImportedOk(sh, vcache[l], v, slot, len, blob, total, first + sh.heads, sh.heads);
      kcache, vcache := kcache[l := k], vcache[l := v];
    }
  }

  // ---------------------------------------------------------------- the round trip

  /** Copying a run over a lane replaces its first rows and keeps the others. */
  lemma PrefixRows(a: seq<Byte>, b: seq<Byte>, m: nat, w: nat, len: nat, p: nat)
    requires Pieces(a, m, w) && Pieces(b, m, w) && len <= m && p < m && At(len, w) <= |b|
    ensures PieceOf(Splice(a, 0, b[..At(len, w)]), m, w, p) == PieceOf(if p < len then b else a, m, w, p)
  {
    hide At;
    PieceFits(a, m, w, p);
    if p < len {
      AtOrder(p, len, w);
    } else if len < p {
      AtOrder(len, p, w);
    }
    var x, s := At(p, w), Splice(a, 0, b[..At(len, w)]);
    var r, q := s[x..x + w], (if p < len then b else a)[x..x + w];
    forall i | 0 <= i < w
      ensures r[i] == q[i]
    {
      assert r[i] == s[x + i];
    }
  }

  lemma RowInBlob(sh: Shape, pl: Plane, slot: nat, h: nat, len: nat, p: nat, blob: seq<Byte>, total: nat, c: nat)
    requires PlaneOk(sh, pl) && slot < sh.cap && h < sh.heads && p < len <= sh.maxSeq
    requires Pieces(blob, total, sh.Run(len)) && c < total
    requires PieceOf(blob, total, sh.Run(len), c) == Head(sh, pl, slot, h, len)
    ensures IsSlice(Row(sh, pl, slot, h, p), blob, At(c, sh.Run(len)) + At(p, sh.Width()))
  {
    hide At;
    hide PieceOf;
    var lane := PieceOf(pl, sh.Lanes(), sh.Stride(), LaneNo(sh, slot, h));
    RunFits(sh, len);
    AtOrder(p, len, sh.Width());
    PieceIs(lane, sh.maxSeq, sh.Width(), p);
    PieceIs(blob, total, sh.Run(len), c);
    var run := sh.Run(len);
    SliceOfSlice(blob, At(c, run), run, At(p, sh.Width()), sh.Width());
    SliceOfSlice(lane, 0, run, At(p, sh.Width()), sh.Width());
    assert lane[0..run] == lane[..run];
  }

  /** Where the row of a head and position lies in an exported blob, as one row-major index:
      keys and values of a layer are planes 2 * l and 2 * l + 1. */
  lemma BlobAddress(sh: Shape, kc: seq<Plane>, vc: seq<Plane>, slot: nat, len: nat, blob: seq<Byte>,
                    l: nat, h: nat, p: nat)
    requires IsBlob(sh, kc, vc, slot, len, blob, sh.layers) && l < sh.layers && h < sh.heads && p < len
    ensures IsSlice(Row(sh, kc[l], slot, h, p), blob, Address(sh, 2 * l, h, p, len))
    ensures IsSlice(Row(sh, vc[l], slot, h, p), blob, Address(sh, 2 * l + 1, h, p, len))
  {
    PieceCount(sh, l, 0);
    PieceCount(sh, l, 1);
    assert LayerInBlob(sh, kc[l], vc[l], slot, len, blob, l);
    RowMajor(sh, 2 * l, h, p, len);
    RowMajor(sh, 2 * l + 1, h, p, len);
    hide Address;
    hide At;
    hide Head;
    hide Row;
    hide PieceOf;
    hide IsBlob;
    RowInBlob(sh, kc[l], slot, h, len, p, blob, At(2 * sh.layers, sh.heads), PieceNo(sh, l, 0, h));
    RowInBlob(sh, vc[l], slot, h, len, p, blob, At(2 * sh.layers, sh.heads), PieceNo(sh, l, 1, h));
  }

  /** A row after an import of what was exported: the exported row below `len` in the
      slot itself, its old value everywhere else. */
  lemma RestoredRow(sh: Shape, src: Plane, from: nat, was: Plane, now: Plane, slot: nat, len: nat, blob: seq<Byte>,
                    total: nat, first: nat, t: nat, h: nat, p: nat)
    requires PlaneOk(sh, src) && from < sh.cap && Imported(sh, was, now, slot, len, blob, total, first, sh.heads)
    requires t < sh.cap && h < sh.heads && p < sh.maxSeq
    requires PieceOf(blob, total, sh.Run(len), first + h) == Head(sh, src, from, h, len)
    ensures Row(sh, now, t, h, p) == if t == slot && p < len then Row(sh, src, from, h, p) else Row(sh, was, t, h, p)
  {
    hide At;
    assert Row(sh, now, t, h, p) == PieceOf(Lane(sh, now, t, h), sh.maxSeq, sh.Width(), p);
    assert Row(sh, was, t, h, p) == PieceOf(Lane(sh, was, t, h), sh.maxSeq, sh.Width(), p);
    if t == slot {
      RunFits(sh, len);
      PrefixRows(Lane(sh, was, t, h), Lane(sh, src, from, h), sh.maxSeq, sh.Width(), len, p);
    }
    hide PieceOf;
    hide Splice;
  }

  ghost predicate LayerImported(sh: Shape, k0: Plane, v0: Plane, k: Plane, v: Plane, slot: nat, len: nat,
                                blob: seq<Byte>, l: nat) {
    var total, first := At(2 * sh.layers, sh.heads), At(2 * l, sh.heads);
    && Imported(sh, k0, k, slot, len, blob, total, first, sh.heads)
    && Imported(sh, v0, v, slot, len, blob, total, first + sh.heads, sh.heads)
  }

  ghost predicate ContextImported(sh: Shape, kc0: seq<Plane>, vc0: seq<Plane>, kc: seq<Plane>, vc: seq<Plane>,
                                  slot: nat, len: nat, blob: seq<Byte>, layers: nat) {
    && |kc0| == |vc0| == |kc| == |vc| == sh.layers && layers <= sh.layers
    && forall l :: 0 <= l < layers ==> LayerImported(sh, kc0[l], vc0[l], kc[l], vc[l], slot, len, blob, l)
  }

  /** In the planes `now`, rows below `len` of slot `slot` are those slot `from` had in
      `src`; every other row of every slot is what it was. */
  ghost predicate Restored(sh: Shape, src: seq<Plane>, from: nat, was: seq<Plane>, now: seq<Plane>, slot: nat, len: nat)
    requires PlanesOk(sh, src) && PlanesOk(sh, was) && PlanesOk(sh, now) && from < sh.cap
  {
    forall l, t, h, p :: 0 <= l < sh.layers && 0 <= t < sh.cap && 0 <= h < sh.heads && 0 <= p < sh.maxSeq ==>
                           Row(sh, now[l], t, h, p) ==
                           if t == slot && p < len then Row(sh, src[l], from, h, p) else Row(sh, was[l], t, h, p)
  }

  /** Export then import, into the same or another slot, of the same or a later memory. */
  lemma RoundTrip(sh: Shape, sk: seq<Plane>, sv: seq<Plane>, from: nat, kc0: seq<Plane>, vc0: seq<Plane>,
                  kc: seq<Plane>, vc: seq<Plane>, slot: nat, len: nat, blob: seq<Byte>)
    requires IsBlob(sh, sk, sv, from, len, blob, sh.layers)
    requires PlanesOk(sh, kc0) && PlanesOk(sh, vc0) && PlanesOk(sh, kc) && PlanesOk(sh, vc)
    requires ContextImported(sh, kc0, vc0, kc, vc, slot, len, blob, sh.layers)
    ensures Restored(sh, sk, from, kc0, kc, slot, len) && Restored(sh, sv, from, vc0, vc, slot, len)
  {
    hide At;
    hide Imported;
    hide Row;
    hide Head;
    hide PlaneOk;
    hide PieceOf;
    hide Pieces;
    forall l, t, h, p | 0 <= l < sh.layers && 0 <= t < sh.cap && 0 <= h < sh.heads && 0 <= p < sh.maxSeq
      ensures Row(sh, kc[l], t, h, p) == if t == slot && p < len then Row(sh, sk[l], from, h, p)
          else Row(sh, kc0[l], t, h, p)
      ensures Row(sh, vc[l], t, h, p) == if t == slot && p < len then Row(sh, sv[l], from, h, p)
          else Row(sh, vc0[l], t, h, p)
    {
      AtNext(2 * l, sh.heads);
      PieceCount(sh, l, 0);
      PieceCount(sh, l, 1);
      assert LayerInBlob(sh, sk[l], sv[l], from, len, blob, l);
      assert LayerImported(sh, kc0[l], vc0[l], kc[l], vc[l], slot, len, blob, l);
      RestoredRow(sh, sk[l], from, kc0[l], kc[l], slot, len, blob, At(2 * sh.layers, sh.heads), At(2 * l, sh.heads), t,
          h, p);
      RestoredRow(sh, sv[l], from, vc0[l], vc[l], slot, len, blob, At(2 * sh.layers, sh.heads),
          At(2 * l, sh.heads) + sh.heads, t, h, p);
    }
  }

  /** The KV row of a token in one layer: its keys and its values, head by head. */
  function TokenRow(sh: Shape, k: Plane, v: Plane, s: nat, p: nat): (r: seq<seq<Byte>>)
    requires PlaneOk(sh, k) && PlaneOk(sh, v) && s < sh.cap && p < sh.maxSeq
  {
    seq(sh.heads, h requires 0 <= h < sh.heads => Row(sh, k, s, h, p))
    + seq(sh.heads, h requires 0 <= h < sh.heads => Row(sh, v, s, h, p))
  }

  function SlotRows(sh: Shape, k: Plane, v: Plane, s: nat): (r: seq<seq<seq<Byte>>>)
    requires PlaneOk(sh, k) && PlaneOk(sh, v) && s < sh.cap
    ensures |r| == sh.maxSeq
  {
    seq(sh.maxSeq, p requires 0 <= p < sh.maxSeq => TokenRow(sh, k, v, s, p))
  }

  /** A layer's rows by slot and position: the KV cache as the decoder's steps see it. */
  function LayerRows(sh: Shape, k: Plane, v: Plane): (r: seq<seq<seq<seq<Byte>>>>)
    requires PlaneOk(sh, k) && PlaneOk(sh, v)
    ensures |r| == sh.cap
  {
    seq(sh.cap, s requires 0 <= s < sh.cap => SlotRows(sh, k, v, s))
  }

  lemma TokenRestored(sh: Shape, sk: seq<Plane>, sv: seq<Plane>, from: nat, kc0: seq<Plane>, vc0: seq<Plane>,
                      kc: seq<Plane>, vc: seq<Plane>, slot: nat, len: nat, l: nat, t: nat, p: nat)
    requires PlanesOk(sh, sk) && PlanesOk(sh, sv) && from < sh.cap
    requires PlanesOk(sh, kc0) && PlanesOk(sh, vc0) && PlanesOk(sh, kc) && PlanesOk(sh, vc)
    requires Restored(sh, sk, from, kc0, kc, slot, len) && Restored(sh, sv, from, vc0, vc, slot, len)
    requires l < sh.layers && t < sh.cap && p < sh.maxSeq
    ensures TokenRow(sh, kc[l], vc[l], t, p)
         == if t == slot && p < len then TokenRow(sh, sk[l], sv[l], from, p) else TokenRow(sh, kc0[l], vc0[l], t, p)
  {
    hide Row;
    hide PlaneOk;
  }

  /** The copies refine the row-level import of the decoder model: slot `slot` gets the
      exported rows and keeps its own from `len` on. */
  lemma ImportIsRowwise(sh: Shape, sk: seq<Plane>, sv: seq<Plane>, from: nat, kc0: seq<Plane>, vc0: seq<Plane>,
                        kc: seq<Plane>, vc: seq<Plane>, slot: nat, len: nat, blob: seq<Byte>, l: nat)
    requires IsBlob(sh, sk, sv, from, len, blob, sh.layers)
    requires PlanesOk(sh, kc0) && PlanesOk(sh, vc0) && PlanesOk(sh, kc) && PlanesOk(sh, vc)
    requires ContextImported(sh, kc0, vc0, kc, vc, slot, len, blob, sh.layers) && slot < sh.cap && l < sh.layers
    ensures
      var was := LayerRows(sh, kc0[l], vc0[l]);
      LayerRows(sh, kc[l], vc[l]) == was[slot := SlotRows(sh, sk[l], sv[l], from)[..len] + was[slot][len..]]
  {
    RoundTrip(sh, sk, sv, from, kc0, vc0, kc, vc, slot, len, blob);
    hide Restored;
    hide IsBlob;
    hide ContextImported;
    hide TokenRow;
    hide PlaneOk;
    var was, now := LayerRows(sh, kc0[l], vc0[l]), LayerRows(sh, kc[l], vc[l]);
    assert from < sh.cap && len <= sh.maxSeq by {
      assert IsBlob(sh, sk, sv, from, len, blob, sh.layers);
    }
    var want := was[slot := SlotRows(sh, sk[l], sv[l], from)[..len] + was[slot][len..]];
    forall t | 0 <= t < sh.cap
      ensures now[t] == want[t]
    {
      forall p | 0 <= p < sh.maxSeq
        ensures now[t][p] == want[t][p]
      {
        TokenRestored(sh, sk, sv, from, kc0, vc0, kc, vc, slot, len, l, t, p);
      }
    }
  }

  // ------------------------------------------------------------------ kv_append

  /** A copy inside one row is a copy into that row and touches no other. */
  lemma SpliceInRow(sh: Shape, pl: Plane, slot: nat, h: nat, pos: nat, off: nat, bytes: seq<Byte>, s: nat, g: nat,
                    p: nat)
    requires PlaneOk(sh, pl) && slot < sh.cap && h < sh.heads && pos < sh.maxSeq && off + |bytes| <= sh.Width()
    requires s < sh.cap && g < sh.heads && p < sh.maxSeq
    ensures SlotOffset(sh, slot) + ElementOffset(sh, h, pos) + off + |bytes| <= |pl|
    ensures
      var next := Splice(pl, SlotOffset(sh, slot) + ElementOffset(sh, h, pos) + off, bytes);
      && PlaneOk(sh, next)
      && Row(sh, next, s, g, p) == if s == slot && g == h && p == pos then Splice(Row(sh, pl, s, g, p), off, bytes)
           else Row(sh, pl, s, g, p)
  {
    hide At;
    AddressArithmetic(slot, h, pos, sh.heads, sh.maxSeq, sh.dim, sh.elem);
    hide Splice;
    hide PieceOf;
    var n, m := LaneNo(sh, slot, h), LaneNo(sh, s, g);
    var lane := PieceOf(pl, sh.Lanes(), sh.Stride(), n);
    PieceFits(lane, sh.maxSeq, sh.Width(), pos);
    SpliceInPiece(pl, sh.Lanes(), sh.Stride(), n, At(pos, sh.Width()) + off, bytes, m);
    SpliceInPiece(lane, sh.maxSeq, sh.Width(), pos, off, bytes, p);
    LaneIsUnique(sh, slot, h, s, g);
  }

  /** Rows of position `pos` written so far: heads below `h`, and `d` elements of head `h`. */
  ghost predicate Appended(sh: Shape, was: Plane, pl: Plane, slot: nat, pos: nat, k: seq<Byte>, h: nat, d: nat) {
    && PlaneOk(sh, was) && PlaneOk(sh, pl) && Pieces(k, sh.heads, sh.Width())
    && At(d, sh.elem) <= sh.Width()
    && forall s, g, p :: 0 <= s < sh.cap && 0 <= g < sh.heads && 0 <= p < sh.maxSeq ==>
                           Row(sh, pl, s, g, p) ==
                           if s == slot && p == pos && g < h then PieceOf(k, sh.heads, sh.Width(), g)
                           else if s == slot && p == pos && g == h
                           then PieceOf(k, sh.heads, sh.Width(), g)[..At(d, sh.elem)]
                               + Row(sh, was, s, g, p)[At(d, sh.elem)..]
                           else Row(sh, was, s, g, p)
  }

  lemma AppendOneMore(sh: Shape, was: Plane, pl: Plane, slot: nat, pos: nat, k: seq<Byte>, h: nat, d: nat)
    requires Appended(sh, was, pl, slot, pos, k, h, d) && slot < sh.cap && h < sh.heads && pos < sh.maxSeq && d < sh.dim
    ensures SlotOffset(sh, slot) + ElementOffset(sh, h, pos) + At(d, sh.elem) + sh.elem <= |pl|
    ensures At(d, sh.elem) + sh.elem <= sh.Width()
    ensures Appended(sh, was, Splice(pl, SlotOffset(sh, slot) + ElementOffset(sh, h, pos) + At(d, sh.elem),
                                     PieceOf(k, sh.heads, sh.Width(), h)[At(d, sh.elem)..At(d, sh.elem) + sh.elem]),
                     slot, pos, k, h, d + 1)
  {
    hide At;
    hide PieceOf;
    hide Row;
    AtOrder(d, sh.dim, sh.elem);
    AtNext(d, sh.elem);
    var x, a, e := PieceOf(k, sh.heads, sh.Width(), h), At(d, sh.elem), sh.elem;
    SpliceInRow(sh, pl, slot, h, pos, a, x[a..a + e], slot, h, pos);
    var next := Splice(pl, SlotOffset(sh, slot) + ElementOffset(sh, h, pos) + a, x[a..a + e]);
    var y := Row(sh, was, slot, h, pos);
    assert Row(sh, pl, slot, h, pos) == x[..a] + y[a..];
    SpliceGrows(x, y, a, e);
    hide Splice;
    forall s, g, p | 0 <= s < sh.cap && 0 <= g < sh.heads && 0 <= p < sh.maxSeq
      ensures Row(sh, next, s, g, p) == if s == slot && g == h && p == pos then x[..a + e] + y[a + e..]
          else Row(sh, pl, s, g, p)
    {
      SpliceInRow(sh, pl, slot, h, pos, a, x[a..a + e], s, g, p);
      hide Appended;
    }
  }

  lemma SpliceGrows(x: seq<Byte>, y: seq<Byte>, a: nat, e: nat)
    requires |x| == |y| && a + e <= |x|
    ensures Splice(x[..a] + y[a..], a, x[a..a + e]) == x[..a + e] + y[a + e..]
  {
  }

  lemma ElementArithmetic(h: nat, dim: nat, d: nat, elem: nat)
    ensures At(At(h, dim) + d, elem) == At(h, At(dim, elem)) + At(d, elem)
  {
    assert h * dim * elem == h * (dim * elem);
  }

  /** Element h * dim + d of the token's keys. */
  lemma ElementOfToken(sh: Shape, k: seq<Byte>, h: nat, d: nat)
    requires Pieces(k, sh.heads, sh.Width()) && h < sh.heads && At(d, sh.elem) + sh.elem <= sh.Width()
    ensures IsSlice(PieceOf(k, sh.heads, sh.Width(), h)[At(d, sh.elem)..At(d, sh.elem) + sh.elem], k,
        At(At(h, sh.dim) + d, sh.elem))
  {
    hide At;
    ElementArithmetic(h, sh.dim, d, sh.elem);
    PieceIs(k, sh.heads, sh.Width(), h);
    SliceOfSlice(k, At(h, sh.Width()), sh.Width(), At(d, sh.elem), sh.elem);
  }

  /** Append a token's keys (or values), [heads, dim] elements, at `pos` of a slot. Exactly
      the rows of that position change. */
  method KvAppend(sh: Shape, was: Plane, slot: nat, pos: nat, k: seq<Byte>) returns (pl: Plane)
    requires PlaneOk(sh, was) && slot < sh.cap && pos < sh.maxSeq && Pieces(k, sh.heads, sh.Width())
    ensures PlaneOk(sh, pl)
    ensures forall s, h, p :: 0 <= s < sh.cap && 0 <= h < sh.heads && 0 <= p < sh.maxSeq ==>
                                Row(sh, pl, s, h, p) ==
                                if s == slot && p == pos then PieceOf(k, sh.heads, sh.Width(), h)
                                    else Row(sh, was, s, h, p)
  {
    pl := was;
    AtNext(0, sh.elem);
    assert Appended(sh, was, pl, slot, pos, k, 0, 0) by {
      hide At;
      hide Row;
    }
    hide *;
    for h := 0 to sh.heads
      invariant PlaneOk(sh, pl) && Appended(sh, was, pl, slot, pos, k, h, 0)
    {
      for d := 0 to sh.dim
        invariant PlaneOk(sh, pl) && Appended(sh, was, pl, slot, pos, k, h, d)
      {
        var i := At(h, sh.dim) + d;
        var dst := SlotOffset(sh, slot) + ElementOffset(sh, h, pos) + At(d, sh.elem);
        pl := CopyElement(sh, was, pl, slot, pos, k, h, d, dst, At(i, sh.elem));
      }
      NextHead(sh, was, pl, slot, pos, k, h);
    }
    AllAppended(sh, was, pl, slot, pos, k);
  }

  method CopyElement(sh: Shape, ghost was: Plane, now: Plane, slot: nat, pos: nat, k: seq<Byte>, h: nat, d: nat,
                     dst: nat, src: nat)
    returns (pl: Plane)
    requires Appended(sh, was, now, slot, pos, k, h, d) && slot < sh.cap && h < sh.heads && pos < sh.maxSeq
    requires d < sh.dim
    requires dst == SlotOffset(sh, slot) + ElementOffset(sh, h, pos) + At(d, sh.elem)
    requires src == At(At(h, sh.dim) + d, sh.elem)
    ensures PlaneOk(sh, pl) && Appended(sh, was, pl, slot, pos, k, h, d + 1)
  {
    AppendOneMore(sh, was, now, slot, pos, k, h, d);
    hide At;
    hide Splice;
    ElementOfToken(sh, k, h, d);
    assert k[src..src + sh.elem] == PieceOf(k, sh.heads, sh.Width(), h)[At(d, sh.elem)..At(d, sh.elem) + sh.elem];
    hide Row;
    hide PieceOf;
    pl := Splice(now, dst, k[src..src + sh.elem]);
  }

  lemma NextHead(sh: Shape, was: Plane, pl: Plane, slot: nat, pos: nat, k: seq<Byte>, h: nat)
    requires Appended(sh, was, pl, slot, pos, k, h, sh.dim)
    ensures Appended(sh, was, pl, slot, pos, k, h + 1, 0)
  {
    assert At(sh.dim, sh.elem) == sh.Width();
    AtNext(0, sh.elem);
    hide At;
    hide Row;
    hide PieceOf;
  }

  lemma AllAppended(sh: Shape, was: Plane, pl: Plane, slot: nat, pos: nat, k: seq<Byte>)
    requires Appended(sh, was, pl, slot, pos, k, sh.heads, 0)
    ensures forall s, h, p :: 0 <= s < sh.cap && 0 <= h < sh.heads && 0 <= p < sh.maxSeq ==>
                                Row(sh, pl, s, h, p) ==
                                if s == slot && p == pos then PieceOf(k, sh.heads, sh.Width(), h)
                                    else Row(sh, was, s, h, p)
  {
    hide At;
    hide Row;
    hide PieceOf;
  }

  // ------------------------------------------------- the compressed cache of Kimi models

  /** One plane per layer, [cap, maxSeq, kv_lora + rope]: a prefix of a slot is a single run. */
  ghost predicate IsMlaBlob(sh: Shape, cache: seq<Plane>, slot: nat, len: nat, blob: seq<Byte>, layers: nat) {
    && PlanesOk(sh, cache) && sh.heads == 1 && slot < sh.cap && len <= sh.maxSeq && layers <= sh.layers
    && Pieces(blob, sh.layers, sh.Run(len))
    && forall l :: 0 <= l < layers ==> PieceOf(blob, sh.layers, sh.Run(len), l) == Head(sh, cache[l], slot, 0, len)
  }

  ghost predicate MlaImported(sh: Shape, was: seq<Plane>, now: seq<Plane>, slot: nat, len: nat, blob: seq<Byte>,
                              layers: nat) {
    && |was| == |now| == sh.layers && layers <= sh.layers && sh.heads == 1
    && forall l :: 0 <= l < layers ==> Imported(sh, was[l], now[l], slot, len, blob, sh.layers, l, 1)
  }

  class MlaMemory {
    const sh: Shape
    var cache: seq<Plane>

    ghost predicate Valid()
      reads this
    {
      PlanesOk(sh, cache) && sh.heads == 1
    }

    constructor (sh: Shape, cache: seq<Plane>)
      requires PlanesOk(sh, cache) && sh.heads == 1
      ensures Valid() && this.sh == sh && this.cache == cache
    {
      this.sh, this.cache := sh, cache;
    }

    method Export(slot: nat, len: nat) returns (r: Result<seq<Byte>>)
      requires Valid()
      ensures r.Ok? <==> slot < sh.cap && len <= sh.maxSeq
      ensures r.Ok? ==> IsMlaBlob(sh, cache, slot, len, r.value, sh.layers)
    {
      hide At;
      hide Head;
      if slot >= sh.cap || len > sh.maxSeq {
        return Err;
      }
      var run := sh.Run(len);
      var out := seq(At(sh.layers, run), _ => 0);
      RunFits(sh, len);
      for l := 0 to sh.layers
        invariant IsMlaBlob(sh, cache, slot, len, out, l)
      {
        var off := SlotOffset(sh, slot);
        MlaHead(sh, cache[l], slot, len);
        PieceFits(out, sh.layers, run, l);
        var next := Splice(out, At(l, run), cache[l][off..off + run]);
        forall j | 0 <= j < l + 1
          ensures PieceOf(next, sh.layers, run, j) == Head(sh, cache[j], slot, 0, len)
        {
          SpliceInPiece(out, sh.layers, run, l, 0, cache[l][off..off + run], j);
          WholePiece(PieceOf(out, sh.layers, run, l), cache[l][off..off + run]);
          hide Splice;
          hide PieceOf;
        }
        out := next;
      }
      return Ok(out);
    }

    method Import(slot: nat, len: nat, blob: seq<Byte>) returns (ok: bool)
      requires Valid()
      modifies this
      ensures Valid()
      ensures ok <==> slot < sh.cap && len <= sh.maxSeq && |blob| == At(sh.layers, sh.Run(len))
      ensures !ok ==> cache == old(cache)
      ensures ok ==> MlaImported(sh, old(cache), cache, slot, len, blob, sh.layers)
    {
      hide At;
      hide Imported;
      if slot >= sh.cap || len > sh.maxSeq || |blob| != At(sh.layers, sh.Run(len)) {
        return false;
      }
      for l := 0 to sh.layers
        invariant Valid() && MlaImported(sh, old(cache), cache, slot, len, blob, l)
        invariant forall j :: l <= j < sh.layers ==> cache[j] == old(cache)[j]
      {
        var pl := ImportOne(slot, len, blob, l);
        cache := cache[l := pl];
      }
      return true;
    }

    method ImportOne(slot: nat, len: nat, blob: seq<Byte>, l: nat) returns (pl: Plane)
      requires Valid() && l < sh.layers && slot < sh.cap && len <= sh.maxSeq && Pieces(blob, sh.layers, sh.Run(len))
      ensures PlaneOk(sh, pl) && Imported(sh, cache[l], pl, slot, len, blob, sh.layers, l, 1)
    {
      hide At;
      hide PieceOf;
      hide Splice;
      hide LaneNo;
      var run, off := sh.Run(len), SlotOffset(sh, slot);
      MlaHead(sh, cache[l], slot, len);
      PieceIs(blob, sh.layers, run, l);
      assert Imported(sh, cache[l], cache[l], slot, len, blob, sh.layers, l, 0) by {
        RunFits(sh, len);
      }
      hide Imported;
      ImportOneMore(sh, cache[l], cache[l], slot, len, blob, sh.layers, l, 0);
      pl := Splice(cache[l], off, blob[At(l, run)..At(l, run) + run]);
      ImportedOk(sh, cache[l], pl, slot, len, blob, sh.layers, l, 1);
    }
  }

  lemma ImportedOk(sh: Shape, was: Plane, pl: Plane, slot: nat, len: nat, blob: seq<Byte>, total: nat, first: nat,
                   n: nat)
    requires Imported(sh, was, pl, slot, len, blob, total, first, n)
    ensures PlaneOk(sh, pl)
  {
  }
  /** Where the row of a position lies in an exported compressed cache. */
  lemma MlaBlobAddress(sh: Shape, cache: seq<Plane>, slot: nat, len: nat, blob: seq<Byte>, l: nat, p: nat)
    requires IsMlaBlob(sh, cache, slot, len, blob, sh.layers) && l < sh.layers && p < len
    ensures IsSlice(Row(sh, cache[l], slot, 0, p), blob, Address(sh, l, 0, p, len))
  {
    RowMajor(sh, l, 0, p, len);
    assert At(l, 1) == l;
    hide At;
    hide Head;
    hide Row;
    hide PieceOf;
    hide Address;
    RowInBlob(sh, cache[l], slot, 0, len, p, blob, sh.layers, l);
  }

  lemma MlaHead(sh: Shape, pl: Plane, slot: nat, len: nat)
    requires PlaneOk(sh, pl) && sh.heads == 1 && slot < sh.cap && len <= sh.maxSeq
    ensures SlotOffset(sh, slot) == At(LaneNo(sh, slot, 0), sh.Stride())
    ensures IsSlice(Head(sh, pl, slot, 0, len), pl, SlotOffset(sh, slot))
  {
    hide At;
    PieceIs(pl, sh.Lanes(), sh.Stride(), LaneNo(sh, slot, 0));
    RunFits(sh, len);
    SliceOfSlice(pl, SlotOffset(sh, slot), sh.Stride(), 0, sh.Run(len));
  }

  lemma MlaRoundTrip(sh: Shape, src: seq<Plane>, from: nat, was: seq<Plane>, now: seq<Plane>, slot: nat, len: nat,
                     blob: seq<Byte>)
    requires IsMlaBlob(sh, src, from, len, blob, sh.layers) && PlanesOk(sh, was) && PlanesOk(sh, now)
    requires MlaImported(sh, was, now, slot, len, blob, sh.layers)
    ensures Restored(sh, src, from, was, now, slot, len)
  {
    hide At;
    hide Imported;
    hide Row;
    hide Head;
    hide PlaneOk;
    hide PieceOf;
    hide Pieces;
    forall l, t, h, p | 0 <= l < sh.layers && 0 <= t < sh.cap && 0 <= h < sh.heads && 0 <= p < sh.maxSeq
      ensures Row(sh, now[l], t, h, p) == if t == slot && p < len then Row(sh, src[l], from, h, p)
          else Row(sh, was[l], t, h, p)
    {
      assert Imported(sh, was[l], now[l], slot, len, blob, sh.layers, l, 1);
      RestoredRow(sh, src[l], from, was[l], now[l], slot, len, blob, sh.layers, l, t, h, p);
    }
  }
}
