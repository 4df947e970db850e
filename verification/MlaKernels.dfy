/** The kernels of one absorbed attention block (crates/llmpager-cuda/kernels/mla.cu:50-166)
    and the block itself (crates/llmpager-run/src/kimi.rs:675-706). Device buffers are
    arrays of reals; the threads of a launch run one after the other. */
module MlaKernels {
  import opened Indexing
  import opened Sums
  import opened Reduce
  import opened MlaModel

  /** Products of a weight row and an input vector, read at their offsets. */
  function Term(w: seq<real>, x: seq<real>, wo: nat, xo: nat): nat -> real {
    (c: nat) => Get(w, wo + c) * Get(x, xo + c)
  }

  /** One lane's strided share of a dot product. */
  method LaneDot(w: seq<real>, x: seq<real>, wo: nat, xo: nat, cols: nat, lane: nat) returns (acc: real)
    requires wo + cols <= |w| && xo + cols <= |x|
    ensures acc == Share(Term(w, x, wo, xo), cols, lane, 32)
  {
    acc := 0.0;
    var c := lane;
    while c < cols
      invariant acc + Share(Term(w, x, wo, xo), cols, c, 32) == Share(Term(w, x, wo, xo), cols, lane, 32)
      decreases if c < cols then cols - c else 0
    {
      acc := acc + w[wo + c] * x[xo + c];
      c := c + 32;
    }
  }

  /** A row of a GEMV, one warp: strided shares, then the shuffle fold. */
  method WarpDot(w: seq<real>, x: seq<real>, wo: nat, xo: nat, cols: nat) returns (r: real)
    requires wo + cols <= |w| && xo + cols <= |x|
    ensures r == Sum(Term(w, x, wo, xo), cols)
  {
    var lanes: seq<real> := [];
    for lane := 0 to 32
      invariant |lanes| == lane
      invariant forall j :: 0 <= j < lane ==> lanes[j] == Share(Term(w, x, wo, xo), cols, j, 32)
    {
      var acc := LaneDot(w, x, wo, xo, cols, lane);
      lanes := lanes + [acc];
    }
    r := ShuffleDown(lanes);
    LanesAddUp(lanes, Term(w, x, wo, xo), cols, 32);
  }

  /** Rows of `y` done by a batched GEMV: all of the batches below `b`, and `row` rows of
      batch `b`. Everything else is what it was. */
  ghost predicate Multiplied(w: seq<real>, ws: nat, x: seq<real>, xs: nat, was: seq<real>, y: seq<real>, ys: nat,
                             rows: nat, cols: nat, batch: nat, b: nat, row: nat) {
    && |y| == |was| == At(batch, ys)
    && forall a, i :: 0 <= a < batch && 0 <= i < ys ==>
                        Get(y, Flat(a, i, ys)) ==
                        if i < rows && (a < b || (a == b && i < row))
                        then Sum(Term(w, x, At(a, ws) + At(i, cols), At(a, xs)), cols)
                        else Get(was, Flat(a, i, ys))
  }

  lemma MultiplyStep(w: seq<real>, ws: nat, x: seq<real>, xs: nat, was: seq<real>, y: seq<real>, ys: nat,
                     rows: nat, cols: nat, batch: nat, b: nat, row: nat)
    requires Multiplied(w, ws, x, xs, was, y, ys, rows, cols, batch, b, row)
    requires b < batch && row < rows <= ys
    ensures Flat(b, row, ys) < |y|
    ensures Multiplied(w, ws, x, xs, was,
        y[Flat(b, row, ys) := Sum(Term(w, x, At(b, ws) + At(row, cols), At(b, xs)), cols)],
                       ys, rows, cols, batch, b, row + 1)
  {
    hide At;
    hide Flat;
    hide Sum;
    hide Term;
    FlatFits(b, row, batch, ys);
    var next := y[Flat(b, row, ys) := Sum(Term(w, x, At(b, ws) + At(row, cols), At(b, xs)), cols)];
    forall a, i | 0 <= a < batch && 0 <= i < ys
      ensures Get(next, Flat(a, i, ys)) ==
              if a == b && i == row then Sum(Term(w, x, At(b, ws) + At(row, cols), At(b, xs)), cols)
                  else Get(y, Flat(a, i, ys))
    {
      FlatIsUnique(a, i, b, row, ys);
    }
  }

  lemma NextBatch(w: seq<real>, ws: nat, x: seq<real>, xs: nat, was: seq<real>, y: seq<real>, ys: nat,
                  rows: nat, cols: nat, batch: nat, b: nat)
    requires Multiplied(w, ws, x, xs, was, y, ys, rows, cols, batch, b, rows)
    ensures Multiplied(w, ws, x, xs, was, y, ys, rows, cols, batch, b + 1, 0)
  {
    hide At;
    hide Flat;
    hide Sum;
    hide Term;
  }

  /** Batch `b` of the operands lies inside them. */
  lemma OperandsFit(ws: nat, xs: nat, rows: nat, cols: nat, batch: nat, b: nat, row: nat)
    requires b < batch && row < rows && At(rows, cols) <= ws && cols <= xs
    ensures At(b, ws) + At(row, cols) + cols <= At(batch, ws) && At(b, xs) + cols <= At(batch, xs)
  {
    hide At;
    AtOrder(b, batch, ws);
    AtOrder(b, batch, xs);
    AtOrder(row, rows, cols);
  }

  /** y_b = W_b x_b for every batch, with the strides of the kernel. */
  method GemvBatch(w: seq<real>, ws: nat, x: seq<real>, xs: nat, y: array<real>, ys: nat, rows: nat, cols: nat,
                   batch: nat)
    requires |w| == At(batch, ws) && At(rows, cols) <= ws
    requires |x| == At(batch, xs) && cols <= xs
    requires y.Length == At(batch, ys) && rows <= ys
    modifies y
    ensures Multiplied(w, ws, x, xs, old(y[..]), y[..], ys, rows, cols, batch, batch, 0)
  {
    hide At;
    hide Sum;
    for b := 0 to batch
      invariant Multiplied(w, ws, x, xs, old(y[..]), y[..], ys, rows, cols, batch, b, 0)
    {
      ghost var was := old(y[..]);
      for row := 0 to rows
        invariant Multiplied(w, ws, x, xs, was, y[..], ys, rows, cols, batch, b, row)
      {
        hide Multiplied;
        OperandsFit(ws, xs, rows, cols, batch, b, row);
        var acc := WarpDot(w, x, At(b, ws) + At(row, cols), At(b, xs), cols);
        MultiplyStep(w, ws, x, xs, was, y[..], ys, rows, cols, batch, b, row);
        ghost var now := y[..];
        y[At(b, ys) + row] := acc;
        assert y[..] == now[Flat(b, row, ys) := acc];
      }
      NextBatch(w, ws, x, xs, was, y[..], ys, rows, cols, batch, b);
    }
  }

  /** Vectors copied by a strided copy: those below `v`, and `i` elements of vector `v`. */
  ghost predicate Copied(src: seq<real>, ss: nat, so: nat, was: seq<real>, dst: seq<real>, ds: nat, off: nat, nv: nat,
                         n: nat, v: nat, i: nat) {
    && |dst| == |was| == At(nv, ds) && off + n <= ds
    && forall a, j :: 0 <= a < nv && 0 <= j < ds ==>
                        Get(dst, Flat(a, j, ds)) ==
                        if off <= j < off + n && (a < v || (a == v && j < off + i))
                        then Get(src, Flat(a, so + (j - off), ss)) else Get(was, Flat(a, j, ds))
  }

  lemma CopyStep(src: seq<real>, ss: nat, so: nat, was: seq<real>, dst: seq<real>, ds: nat, off: nat, nv: nat, n: nat,
                 v: nat, i: nat)
    requires Copied(src, ss, so, was, dst, ds, off, nv, n, v, i) && v < nv && i < n
    ensures Flat(v, off + i, ds) < |dst|
    ensures Copied(src, ss, so, was, dst[Flat(v, off + i, ds) := Get(src, Flat(v, so + i, ss))], ds, off, nv, n, v,
        i + 1)
  {
    hide At;
    hide Flat;
    FlatFits(v, off + i, nv, ds);
    var next := dst[Flat(v, off + i, ds) := Get(src, Flat(v, so + i, ss))];
    forall a, j | 0 <= a < nv && 0 <= j < ds
      ensures Get(next, Flat(a, j, ds)) == if a == v && j == off + i then Get(src, Flat(v, so + i, ss))
          else Get(dst, Flat(a, j, ds))
    {
      FlatIsUnique(a, j, v, off + i, ds);
    }
  }

  lemma NextVector(src: seq<real>, ss: nat, so: nat, was: seq<real>, dst: seq<real>, ds: nat, off: nat, nv: nat, n: nat,
                   v: nat)
    requires Copied(src, ss, so, was, dst, ds, off, nv, n, v, n)
    ensures Copied(src, ss, so, was, dst, ds, off, nv, n, v + 1, 0)
  {
    hide At;
    hide Flat;
  }

  /** Elements [so, so + n) of every source vector to [off, off + n) of its destination. */
  method StridedCopy(src: seq<real>, ss: nat, so: nat, dst: array<real>, ds: nat, off: nat, nv: nat, n: nat)
    requires |src| == At(nv, ss) && so + n <= ss && dst.Length == At(nv, ds) && off + n <= ds
    modifies dst
    ensures Copied(src, ss, so, old(dst[..]), dst[..], ds, off, nv, n, nv, 0)
  {
    hide At;
    for v := 0 to nv
      invariant Copied(src, ss, so, old(dst[..]), dst[..], ds, off, nv, n, v, 0)
    {
      ghost var was := old(dst[..]);
      for i := 0 to n
        invariant Copied(src, ss, so, was, dst[..], ds, off, nv, n, v, i)
      {
        hide Copied;
        FlatFits(v, so + i, nv, ss);
        CopyStep(src, ss, so, was, dst[..], ds, off, nv, n, v, i);
        ghost var now := dst[..];
        dst[At(v, ds) + off + i] := src[At(v, ss) + so + i];
        assert dst[..] == now[Flat(v, off + i, ds) := Get(src, Flat(v, so + i, ss))];
      }
      NextVector(src, ss, so, was, dst[..], ds, off, nv, n, v);
    }
  }

  // ----------------------------------------------------------------- one query head

  function HeadScore(q: seq<real>, h: nat, cache: seq<real>, qk: nat, scale: real): nat -> real {
    (p: nat) => Sum(Term(q, cache, At(h, qk), At(p, qk)), qk) * scale
  }

  function Exps(exp: real -> real, s: nat -> real, m: real): nat -> real {
    (p: nat) => exp(s(p) - m)
  }

  function Weighted(e: nat -> real, cache: seq<real>, qk: nat, d: nat): nat -> real {
    (p: nat) => e(p) * Get(cache, At(p, qk) + d)
  }

  method Dot(w: seq<real>, x: seq<real>, wo: nat, xo: nat, n: nat) returns (dot: real)
    requires wo + n <= |w| && xo + n <= |x|
    ensures dot == Sum(Term(w, x, wo, xo), n)
  {
    dot := 0.0;
    ghost var f := Term(w, x, wo, xo);
    for d := 0 to n
      invariant dot == Sum(f, d)
    {
      assert Get(w, wo + d) == w[wo + d] && Get(x, xo + d) == x[xo + d];
      assert f(d) == w[wo + d] * x[xo + d];
      dot := dot + w[wo + d] * x[xo + d];
    }
  }

  /** Scores of the cached positions, and an upper bound of them. */
  method Scores(q: seq<real>, h: nat, heads: nat, cache: seq<real>, qk: nat, n: nat, scale: real, sc: array<real>)
    returns (m: real)
    requires h < heads && |q| == At(heads, qk) && At(n, qk) <= |cache| && n <= sc.Length
    modifies sc
    ensures forall p :: 0 <= p < n ==> sc[p] == HeadScore(q, h, cache, qk, scale)(p) <= m
  {
    m := -1000000000000000000000000000000.0;
    hide At;
    hide Sum;
    AtOrder(h, heads, qk);
    for p := 0 to n
      invariant forall j :: 0 <= j < p ==> sc[j] == HeadScore(q, h, cache, qk, scale)(j) <= m
    {
      AtOrder(p, n, qk);
      var dot := Dot(q, cache, At(h, qk), At(p, qk), qk);
      sc[p] := dot * scale;
      m := if m < sc[p] then sc[p] else m;
    }
  }

  lemma TakerInSecondTurn(p: nat, w: nat)
    requires 0 < w && p < 2 * w
    ensures Taker(p, w) == if p < w then p else p - w
  {
  }

  /** Between two positions of a thread there is none of its own. */
  lemma {:induction false} NoneBetween(c: nat, p: nat, w: nat)
    requires 0 < w && c <= p < c + w && Taker(p, w) == Taker(c, w)
    ensures p == c
    decreases c
  {
    if c < w {
      TakerInSecondTurn(c, w);
      TakerInSecondTurn(p, w);
    } else {
      NoneBetween(c - w, p - w, w);
    }
  }

  lemma FirstTurn(t: nat, w: nat)
    requires t < w
    ensures Taker(t, w) == t && forall j :: 0 <= j < t ==> Taker(j, w) != t
  {
  }

  lemma NextTurn(c: nat, w: nat)
    requires 0 < w
    ensures Taker(c + w, w) == Taker(c, w)
    ensures forall j :: c < j < c + w ==> Taker(j, w) != Taker(c, w)
  {
    forall j | c < j < c + w
      ensures Taker(j, w) != Taker(c, w)
    {
      if Taker(j, w) == Taker(c, w) {
        NoneBetween(c, j, w);
      }
    }
  }

  /** Thread `t` exponentiates its positions in place and adds them up. */
  method ThreadExp(exp: real -> real, sc: array<real>, n: nat, m: real, t: nat, ghost s: nat -> real)
    returns (lsum: real)
    requires n <= sc.Length && t < 256
    requires forall p :: 0 <= p < n && Taker(p, 256) == t ==> sc[p] == s(p)
    modifies sc
    ensures forall p :: 0 <= p < n ==> sc[p] == if Taker(p, 256) == t then Exps(exp, s, m)(p) else old(sc[p])
    ensures lsum == Share(Exps(exp, s, m), n, t, 256)
  {
    hide Taker;
    lsum := 0.0;
    var p := t;
    FirstTurn(t, 256);
    while p < n
      invariant Taker(p, 256) == t
      invariant lsum + Share(Exps(exp, s, m), n, p, 256) == Share(Exps(exp, s, m), n, t, 256)
      invariant forall j :: 0 <= j < n ==>
          sc[j] == if Taker(j, 256) == t && j < p then Exps(exp, s, m)(j) else old(sc[j])
      decreases if p < n then n - p else 0
    {
      var e := exp(sc[p] - m);
      sc[p] := e;
      lsum := lsum + e;
      NextTurn(p, 256);
      p := p + 256;
    }
  }

  /** Unnormalised softmax weights in place, and their total. */
  method BlockExp(exp: real -> real, sc: array<real>, n: nat, m: real, ghost s: nat -> real) returns (z: real)
    requires n <= sc.Length && forall p :: 0 <= p < n ==> sc[p] == s(p)
    modifies sc
    ensures forall p :: 0 <= p < n ==> sc[p] == Exps(exp, s, m)(p)
    ensures z == Sum(Exps(exp, s, m), n)
  {
    var red := new real[256](_ => 0.0);
    ghost var e := Exps(exp, s, m);
    hide Sum;
    for t := 0 to 256
      invariant forall p :: 0 <= p < n ==> sc[p] == if Taker(p, 256) < t then e(p) else s(p)
      invariant forall j :: 0 <= j < t ==> red[j] == Share(e, n, j, 256)
    {
      red[t] := ThreadExp(exp, sc, n, m, t, s);
    }
    ghost var shares := red[..];
    FoldBlock(red);
    z := red[0];
    LanesAddUp(shares, e, n, 256);
  }

  function Mean(e: nat -> real, z: real, cache: seq<real>, qk: nat, d: nat, n: nat): real
    requires z != 0.0
  {
    Sum(Weighted(e, cache, qk, d), n) * (1.0 / z)
  }

  /** What one head's block writes: the weighted mean of the latent rows. */
  ghost predicate Attended(ctx: seq<real>, was: seq<real>, h: nat, heads: nat, cdim: nat, e: nat -> real, z: real,
                           cache: seq<real>, qk: nat, n: nat, done: nat) {
    && |ctx| == |was| == At(heads, cdim) && z != 0.0
    && forall a, d :: 0 <= a < heads && 0 <= d < cdim ==>
                        Get(ctx, Flat(a, d, cdim)) ==
                        if a == h && d < done then Mean(e, z, cache, qk, d, n) else Get(was, Flat(a, d, cdim))
  }

  lemma AttendStep(ctx: seq<real>, was: seq<real>, h: nat, heads: nat, cdim: nat, e: nat -> real, z: real,
                   cache: seq<real>, qk: nat, n: nat, d: nat)
    requires Attended(ctx, was, h, heads, cdim, e, z, cache, qk, n, d) && h < heads && d < cdim
    ensures Flat(h, d, cdim) < |ctx|
    ensures Attended(ctx[Flat(h, d, cdim) := Mean(e, z, cache, qk, d, n)], was, h, heads, cdim, e, z, cache, qk, n,
        d + 1)
  {
    hide At;
    hide Flat;
    hide Sum;
    hide Weighted;
    hide Mean;
    FlatFits(h, d, heads, cdim);
    var v := Mean(e, z, cache, qk, d, n);
    var next := ctx[Flat(h, d, cdim) := v];
    forall a, i | 0 <= a < heads && 0 <= i < cdim
      ensures Get(next, Flat(a, i, cdim)) == if a == h && i == d then v else Get(ctx, Flat(a, i, cdim))
    {
      FlatIsUnique(a, i, h, d, cdim);
    }
  }

  method WeightedSum(sc: array<real>, cache: seq<real>, qk: nat, d: nat, n: nat, ghost e: nat -> real)
    returns (acc: real)
    requires n <= sc.Length && At(n, qk) <= |cache| && d < qk
    requires forall p :: 0 <= p < n ==> sc[p] == e(p)
    ensures acc == Sum(Weighted(e, cache, qk, d), n)
  {
    hide At;
    acc := 0.0;
    ghost var f := Weighted(e, cache, qk, d);
    for p := 0 to n
      invariant acc == Sum(f, p)
    {
      AtOrder(p, n, qk);
      assert f(p) == sc[p] * cache[At(p, qk) + d];
      acc := acc + sc[p] * cache[At(p, qk) + d];
    }
  }

  /** One query head: scores over whole cache rows, context over their first `cdim`. */
  method AttnHead(q: seq<real>, h: nat, heads: nat, cache: seq<real>, ctx: array<real>, sc: array<real>, qk: nat,
                  cdim: nat, n: nat, scale: real, exp: real -> real)
    returns (ghost m: real)
    requires h < heads && |q| == At(heads, qk) && At(n, qk) <= |cache| && cdim <= qk && ctx.Length == At(heads, cdim)
    requires n <= sc.Length && sc != ctx && 0 < n && ExpOk(exp)
    modifies ctx, sc
    ensures
      var e := Exps(exp, HeadScore(q, h, cache, qk, scale), m);
      Attended(ctx[..], old(ctx[..]), h, heads, cdim, e, Sum(e, n), cache, qk, n, cdim)
  {
    hide At;
    hide Sum;
    ghost var s := HeadScore(q, h, cache, qk, scale);
    var bound := Scores(q, h, heads, cache, qk, n, scale, sc);
    m := bound;
    ghost var e := Exps(exp, s, m);
    var z := BlockExp(exp, sc, n, bound, s);
    SumPositive(e, n);
    hide ExpOk;
    hide HeadScore;
    hide Exps;
    var invz := 1.0 / z;
    for d := 0 to cdim
      invariant forall p :: 0 <= p < n ==> sc[p] == e(p)
      invariant Attended(ctx[..], old(ctx[..]), h, heads, cdim, e, z, cache, qk, n, d)
    {
      hide Attended;
      ghost var was := old(ctx[..]);
      var acc := WeightedSum(sc, cache, qk, d, n, e);
      AttendStep(ctx[..], was, h, heads, cdim, e, z, cache, qk, n, d);
      ghost var now := ctx[..];
      ctx[At(h, cdim) + d] := acc * invz;
      assert acc * invz == Mean(e, z, cache, qk, d, n);
      assert ctx[..] == now[Flat(h, d, cdim) := Mean(e, z, cache, qk, d, n)];
    }
  }
}
