/** One absorbed attention block, from the rotated query and the cache to the heads'
    outputs (crates/llmpager-run/src/kimi.rs:675-706). It computes softmax attention over
    keys and values that are never materialised. */
module MlaBlock {
  import opened Indexing
  import opened Sums
  import opened MlaModel
  import opened MlaKernels
  import M = Mla

  /** Buffers of a block: the loaded weights, the query [heads, nope + rope] and the cache
      [positions, kvl + rope]. */
  datatype Inputs = Inputs(d: Dims, kvb: seq<real>, rnd: real -> real, q: seq<real>, cache: seq<real>, n: nat,
      scale: real, exp: real -> real)
  {
    function Qk(): nat {
      d.kvl + d.rope
    }

    function QDim(): nat {
      d.nope + d.rope
    }

    ghost predicate Ok() {
      && |q| == At(d.heads, QDim()) && At(n, Qk()) <= |cache| && 0 < n && ExpOk(exp)
    }

    /** The same numbers, by head, position and component. */
    function AsLayer(): Layer {
      Layer(d, kvb, rnd, Cells(q, QDim(), 0), Cells(cache, Qk(), 0), Cells(cache, Qk(), d.kvl), n, scale, exp)
    }
  }

  function Cells(s: seq<real>, stride: nat, off: nat): (nat, nat) -> real {
    (a: nat, i: nat) => Get(s, At(a, stride) + (off + i))
  }

  // ------------------------------------------------------------- the absorbed query

  lemma KeyTerm(x: Inputs, kt: seq<real>, h: nat, c: nat, r: nat)
    requires x.Ok() && M.KeysDone(x.d, x.kvb, x.rnd, kt, x.d.heads, 0, 0)
    requires h < x.d.heads && c < x.d.kvl && r < x.d.nope
    ensures Term(kt, x.q, At(h, At(x.d.kvl, x.d.nope)) + At(c, x.d.nope), At(h, x.QDim()))(r)
         == Times(Row(Flip(x.AsLayer().KeyMat(h)), c), Row(x.AsLayer().q, h))(r)
  {
    BatchIndex(h, c, r, x.d.kvl, x.d.nope);
    hide At;
    assert M.Before(h, r, c, x.d.heads, 0, 0);
    hide Weight;
    assert Get(kt, At(h, At(x.d.kvl, x.d.nope)) + At(c, x.d.nope) + r) == Row(Flip(x.AsLayer().KeyMat(h)), c)(r);
    assert Get(x.q, At(h, x.QDim()) + r) == Row(x.AsLayer().q, h)(r);
  }

  lemma AbsorbedRow(x: Inputs, kt: seq<real>, h: nat, c: nat)
    requires x.Ok() && M.KeysDone(x.d, x.kvb, x.rnd, kt, x.d.heads, 0, 0) && h < x.d.heads && c < x.d.kvl
    ensures Sum(Term(kt, x.q, At(h, At(x.d.kvl, x.d.nope)) + At(c, x.d.nope), At(h, x.QDim())), x.d.nope)
         == x.AsLayer().AbsorbedQuery(h)(c)
  {
    hide Sum;
    var f := Term(kt, x.q, At(h, At(x.d.kvl, x.d.nope)) + At(c, x.d.nope), At(h, x.QDim()));
    var g := Times(Row(Flip(x.AsLayer().KeyMat(h)), c), Row(x.AsLayer().q, h));
    assert x.AsLayer().AbsorbedQuery(h)(c) == Sum(g, x.d.nope);
    forall r | 0 <= r < x.d.nope
      ensures f(r) == g(r)
    {
      KeyTerm(x, kt, h, c, r);
    }
    hide *;
    SumSame(f, g, x.d.nope);
  }

  /** The assembled query row of every head. */
  ghost predicate QueryReady(x: Inputs, qf: seq<real>) {
    && |qf| == At(x.d.heads, x.Qk())
    && forall h, i :: 0 <= h < x.d.heads && 0 <= i < x.Qk() ==>
         Get(qf, Flat(h, i, x.Qk())) == x.AsLayer().FullQuery(h)(i)
  }

  lemma QueryAssembled(x: Inputs, kt: seq<real>, zero: seq<real>, mid: seq<real>, qf: seq<real>)
    requires x.Ok() && M.KeysDone(x.d, x.kvb, x.rnd, kt, x.d.heads, 0, 0)
    requires Multiplied(kt, At(x.d.kvl, x.d.nope), x.q, x.QDim(), zero, mid, x.Qk(), x.d.kvl, x.d.nope, x.d.heads,
        x.d.heads, 0)
    requires Copied(x.q, x.QDim(), x.d.nope, mid, qf, x.Qk(), x.d.kvl, x.d.heads, x.d.rope, x.d.heads, 0)
    ensures QueryReady(x, qf)
  {
    hide Sum;
    hide At;
    hide M.KeysDone;
    forall h, i | 0 <= h < x.d.heads && 0 <= i < x.Qk()
      ensures Get(qf, Flat(h, i, x.Qk())) == x.AsLayer().FullQuery(h)(i)
    {
      if i < x.d.kvl {
        assert Get(qf, Flat(h, i, x.Qk())) == Get(mid, Flat(h, i, x.Qk()));
        AbsorbedRow(x, kt, h, i);
        hide Term;
        hide MatVec;
      } else {
        var j := i - x.d.kvl;
        assert Get(qf, Flat(h, i, x.Qk())) == Get(x.q, Flat(h, x.d.nope + j, x.QDim()));
        assert x.AsLayer().q(h, x.d.nope + j) == Get(x.q, At(h, x.QDim()) + (0 + (x.d.nope + j)));
      }
    }
  }

  // ----------------------------------------------------------- scores and contexts

  lemma ScoreComputed(x: Inputs, qf: seq<real>, h: nat, p: nat)
    requires x.Ok() && QueryReady(x, qf) && h < x.d.heads && p < x.n
    ensures HeadScore(qf, h, x.cache, x.Qk(), x.scale)(p) == x.AsLayer().AbsorbedScore(h, p)
  {
    hide Sum;
    hide MatVec;
    hide At;
    var f, g := Term(qf, x.cache, At(h, x.Qk()), At(p, x.Qk())),
        Times(x.AsLayer().FullQuery(h), x.AsLayer().CacheRow(p));
    forall i | 0 <= i < x.Qk()
      ensures f(i) == g(i)
    {
      assert Get(qf, Flat(h, i, x.Qk())) == x.AsLayer().FullQuery(h)(i);
      assert Get(x.cache, At(p, x.Qk()) + i) == x.AsLayer().CacheRow(p)(i);
    }
    SumSame(f, g, x.Qk());
  }

  /** The weights of head `h`, as the kernel has them. */
  function Weights(x: Inputs, qf: seq<real>, h: nat, m: real): nat -> real {
    Exps(x.exp, HeadScore(qf, h, x.cache, x.Qk(), x.scale), m)
  }

  lemma WeightsComputed(x: Inputs, qf: seq<real>, h: nat, m: real)
    requires x.Ok() && QueryReady(x, qf) && h < x.d.heads
    ensures forall p :: 0 <= p < x.n ==> Weights(x, qf, h, m)(p) == x.AsLayer().Shifted(h, m)(p)
    ensures Sum(Weights(x, qf, h, m), x.n) == Sum(x.AsLayer().Shifted(h, m), x.n) != 0.0
  {
    hide Sum;
    var f, g := Weights(x, qf, h, m), x.AsLayer().Shifted(h, m);
    forall p | 0 <= p < x.n
      ensures f(p) == g(p)
    {
      ScoreComputed(x, qf, h, p);
      hide HeadScore;
      hide Layer.AbsorbedScore;
    }
    SumSame(f, g, x.n);
    ShiftedMass(x.AsLayer(), h, m);
    hide *;
  }

  lemma MeanComputed(x: Inputs, qf: seq<real>, h: nat, m: real, c: nat)
    requires x.Ok() && QueryReady(x, qf) && h < x.d.heads && c < x.d.kvl
    ensures Sum(Weights(x, qf, h, m), x.n) == Sum(x.AsLayer().Shifted(h, m), x.n) != 0.0
    ensures Mean(Weights(x, qf, h, m), Sum(Weights(x, qf, h, m), x.n), x.cache, x.Qk(), c, x.n)
        == x.AsLayer().Context(h, m)(c)
  {
    hide Sum;
    hide At;
    WeightsComputed(x, qf, h, m);
    var e, s := Weights(x, qf, h, m), x.AsLayer().Shifted(h, m);
    var f, g := Weighted(e, x.cache, x.Qk(), c), Times(Row(Flip(x.AsLayer().lat), c), s);
    hide Weights;
    hide Layer.Shifted;
    forall p | 0 <= p < x.n
      ensures f(p) == g(p)
    {
      assert Get(x.cache, At(p, x.Qk()) + c) == Row(Flip(x.AsLayer().lat), c)(p);
      Swap(e(p), Get(x.cache, At(p, x.Qk()) + c));
    }
    SumSame(f, g, x.n);
    assert MatVec(Flip(x.AsLayer().lat), s, x.n)(c) == Sum(g, x.n);
  }

  lemma Swap(a: real, b: real)
    ensures a * b == b * a
  {
  }

  /** The context rows of the heads below `b`, with the bound each used. */
  ghost predicate ContextsReady(x: Inputs, ctx: seq<real>, ms: seq<real>, b: nat) {
    && |ctx| == At(x.d.heads, x.d.kvl) && |ms| == b <= x.d.heads && x.Ok()
    && forall h, c :: 0 <= h < b && 0 <= c < x.d.kvl ==> IsContext(x, ctx, h, ms[h], c)
  }

  ghost predicate IsContext(x: Inputs, ctx: seq<real>, h: nat, m: real, c: nat) {
    && Sum(x.AsLayer().Shifted(h, m), x.n) != 0.0
    && Get(ctx, Flat(h, c, x.d.kvl)) == x.AsLayer().Context(h, m)(c)
  }

  lemma HeadAttended(x: Inputs, qf: seq<real>, was: seq<real>, ctx: seq<real>, ms: seq<real>, h: nat, m: real)
    requires x.Ok() && QueryReady(x, qf) && h < x.d.heads && ContextsReady(x, was, ms, h)
    requires Attended(ctx, was, h, x.d.heads, x.d.kvl, Weights(x, qf, h, m), Sum(Weights(x, qf, h, m), x.n), x.cache,
        x.Qk(), x.n, x.d.kvl)
    ensures ContextsReady(x, ctx, ms + [m], h + 1)
  {
    hide Sum;
    hide At;
    hide Flat;
    hide Weights;
    hide Mean;
    hide QueryReady;
    hide Inputs.Ok;
    forall a, c | 0 <= a < h + 1 && 0 <= c < x.d.kvl
      ensures IsContext(x, ctx, a, (ms + [m])[a], c)
    {
      if a == h {
        MeanComputed(x, qf, h, m, c);
      } else {
        assert IsContext(x, was, a, ms[a], c);
      }
    }
  }

  /** The attention kernel: one block per head. */
  method AttnDecode(x: Inputs, qf: seq<real>, ctx: array<real>) returns (ghost ms: seq<real>)
    requires x.Ok() && QueryReady(x, qf) && ctx.Length == At(x.d.heads, x.d.kvl)
    modifies ctx
    ensures ContextsReady(x, ctx[..], ms, x.d.heads)
  {
    hide At;
    hide Sum;
    ms := [];
    for h := 0 to x.d.heads
      invariant ContextsReady(x, ctx[..], ms, h)
    {
      var sc := new real[x.n](_ => 0.0);
      ghost var was := ctx[..];
      ghost var m := AttnHead(qf, h, x.d.heads, x.cache, ctx, sc, x.Qk(), x.d.kvl, x.n, x.scale, x.exp);
      hide ContextsReady;
      hide Attended;
      HeadAttended(x, qf, was, ctx[..], ms, h, m);
      ms := ms + [m];
    }
  }

  // ------------------------------------------------------------------- the outputs

  lemma ValueTerm(x: Inputs, vw: seq<real>, ctx: seq<real>, ms: seq<real>, h: nat, r: nat, c: nat)
    requires x.Ok() && M.ValuesDone(x.d, x.kvb, x.rnd, vw, x.d.heads, 0, 0) && ContextsReady(x, ctx, ms, x.d.heads)
    requires h < x.d.heads && r < x.d.vh && c < x.d.kvl
    ensures Sum(x.AsLayer().Shifted(h, ms[h]), x.n) != 0.0
    ensures Term(vw, ctx, At(h, At(x.d.vh, x.d.kvl)) + At(r, x.d.kvl), At(h, x.d.kvl))(c)
         == Times(Row(x.AsLayer().ValueMat(h), r), x.AsLayer().Context(h, ms[h]))(c)
  {
    BatchIndex(h, r, c, x.d.vh, x.d.kvl);
    hide At;
    hide Sum;
    hide Weight;
    assert M.Before(h, r, c, x.d.heads, 0, 0);
    assert Get(vw, At(h, At(x.d.vh, x.d.kvl)) + At(r, x.d.kvl) + c) == Row(x.AsLayer().ValueMat(h), r)(c);
    assert IsContext(x, ctx, h, ms[h], c);
    hide Layer.Context;
    assert Get(ctx, At(h, x.d.kvl) + c) == x.AsLayer().Context(h, ms[h])(c);
  }

  lemma OutputComputed(x: Inputs, vw: seq<real>, ctx: seq<real>, ms: seq<real>, h: nat, r: nat)
    requires x.Ok() && M.ValuesDone(x.d, x.kvb, x.rnd, vw, x.d.heads, 0, 0) && ContextsReady(x, ctx, ms, x.d.heads)
    requires h < x.d.heads && r < x.d.vh
    ensures Sum(x.AsLayer().Mass(h), x.n) != 0.0
    ensures Sum(Term(vw, ctx, At(h, At(x.d.vh, x.d.kvl)) + At(r, x.d.kvl), At(h, x.d.kvl)), x.d.kvl)
        == x.AsLayer().Out(h, r)
  {
    hide Sum;
    var l, m := x.AsLayer(), ms[h];
    OutputsAgree(l, h, m, r);
    var f := Term(vw, ctx, At(h, At(x.d.vh, x.d.kvl)) + At(r, x.d.kvl), At(h, x.d.kvl));
    var g := Times(Row(l.ValueMat(h), r), l.Context(h, m));
    assert l.AbsorbedOut(h, m, r) == Sum(g, x.d.kvl);
    forall c | 0 <= c < x.d.kvl
      ensures f(c) == g(c)
    {
      ValueTerm(x, vw, ctx, ms, h, r, c);
    }
    hide *;
    SumSame(f, g, x.d.kvl);
  }

  /** Component `r` of head `h` is softmax attention over that head's keys and values. */
  ghost predicate IsOutput(x: Inputs, out: seq<real>, h: nat, r: nat) {
    Sum(x.AsLayer().Mass(h), x.n) != 0.0 && Get(out, Flat(h, r, x.d.vh)) == x.AsLayer().Out(h, r)
  }

  ghost predicate IsAttention(x: Inputs, out: seq<real>) {
    |out| == At(x.d.heads, x.d.vh) && forall h, r :: 0 <= h < x.d.heads && 0 <= r < x.d.vh ==> IsOutput(x, out, h, r)
  }

  // ------------------------------------------------- the same, on the buffers alone

  /** Products of row `i` of head `h` of kv_b and the latent part of cache row `p`. */
  function Products(x: Inputs, h: nat, i: nat, p: nat): nat -> real {
    (c: nat) => x.rnd(Get(x.kvb, Flat(h * (x.d.nope + x.d.vh) + i, c, x.d.kvl))) * Get(x.cache, Flat(p, c, x.Qk()))
  }

  /** Component `i` of the key of head `h` at position `p`, or from `nope` on of its value. */
  function KeyValue(x: Inputs, h: nat, i: nat, p: nat): real {
    Sum(Products(x, h, i, p), x.d.kvl)
  }

  function PlainTerms(x: Inputs, h: nat, p: nat): nat -> real {
    (i: nat) => Get(x.q, Flat(h, i, x.QDim())) * KeyValue(x, h, i, p)
  }

  function RotaryTerms(x: Inputs, h: nat, p: nat): nat -> real {
    (i: nat) => Get(x.q, Flat(h, x.d.nope + i, x.QDim())) * Get(x.cache, Flat(p, x.d.kvl + i, x.Qk()))
  }

  /** The scaled product of query and key. */
  function Similarity(x: Inputs, h: nat, p: nat): real {
    x.scale * (Sum(PlainTerms(x, h, p), x.d.nope) + Sum(RotaryTerms(x, h, p), x.d.rope))
  }

  /** Softmax weights, unnormalised. */
  function Attention(x: Inputs, h: nat): nat -> real {
    (p: nat) => x.exp(Similarity(x, h, p))
  }

  function WeightedValues(x: Inputs, h: nat, r: nat): nat -> real {
    (p: nat) => Attention(x, h)(p) * KeyValue(x, h, x.d.nope + r, p)
  }

  /** Component `r` of head `h` is the softmax-weighted mean of its values. */
  ghost predicate IsSoftmax(x: Inputs, out: seq<real>, h: nat, r: nat) {
    && Sum(Attention(x, h), x.n) != 0.0
    && Get(out, Flat(h, r, x.d.vh)) == Sum(WeightedValues(x, h, r), x.n) / Sum(Attention(x, h), x.n)
  }

  lemma KeyIs(x: Inputs, h: nat, i: nat, p: nat)
    ensures x.AsLayer().Key(h, p)(i) == KeyValue(x, h, i, p)
    ensures x.AsLayer().Value(h, p)(i) == KeyValue(x, h, x.d.nope + i, p)
  {
    hide Sum;
    hide At;
    var l := x.AsLayer();
    forall c | 0 <= c < x.d.kvl
      ensures Times(Row(l.KeyMat(h), i), Row(l.lat, p))(c) == Products(x, h, i, p)(c)
      ensures Times(Row(l.ValueMat(h), i), Row(l.lat, p))(c) == Products(x, h, x.d.nope + i, p)(c)
    {
      RowOfHead(x, h, i);
      RowOfHead(x, h, x.d.nope + i);
      assert Row(l.lat, p)(c) == Get(x.cache, Flat(p, c, x.Qk()));
    }
    SumSame(Times(Row(l.KeyMat(h), i), Row(l.lat, p)), Products(x, h, i, p), x.d.kvl);
    SumSame(Times(Row(l.ValueMat(h), i), Row(l.lat, p)), Products(x, h, x.d.nope + i, p), x.d.kvl);
  }

  lemma RowOfHead(x: Inputs, h: nat, i: nat)
    ensures Flat(h, i, x.d.nope + x.d.vh) == h * (x.d.nope + x.d.vh) + i
  {
  }

  lemma WeightIs(x: Inputs, h: nat, p: nat)
    ensures x.AsLayer().Mass(h)(p) == Attention(x, h)(p)
  {
    hide Sum;
    hide At;
    hide MatVec;
    var l := x.AsLayer();
    forall i | 0 <= i < x.d.nope
      ensures Times(Row(l.q, h), l.Key(h, p))(i) == PlainTerms(x, h, p)(i)
    {
      KeyIs(x, h, i, p);
      assert Row(l.q, h)(i) == Get(x.q, Flat(h, i, x.QDim()));
    }
    forall i | 0 <= i < x.d.rope
      ensures Times(l.RopeQuery(h), Row(l.rot, p))(i) == RotaryTerms(x, h, p)(i)
    {
      assert l.RopeQuery(h)(i) == Get(x.q, Flat(h, x.d.nope + i, x.QDim()));
      assert Row(l.rot, p)(i) == Get(x.cache, Flat(p, x.d.kvl + i, x.Qk()));
    }
    SumSame(Times(Row(l.q, h), l.Key(h, p)), PlainTerms(x, h, p), x.d.nope);
    SumSame(Times(l.RopeQuery(h), Row(l.rot, p)), RotaryTerms(x, h, p), x.d.rope);
    var s := Sum(PlainTerms(x, h, p), x.d.nope) + Sum(RotaryTerms(x, h, p), x.d.rope);
    Swap(s, x.scale);
    assert l.Score(h)(p) == Similarity(x, h, p);
  }

  /** The layer's output is that mean. */
  lemma OutputIsSoftmax(x: Inputs, out: seq<real>, h: nat, r: nat)
    requires IsOutput(x, out, h, r)
    ensures IsSoftmax(x, out, h, r)
  {
    hide Sum;
    var l := x.AsLayer();
    var f, g := Times(l.Mass(h), l.ValueAt(h, r)), WeightedValues(x, h, r);
    forall p | 0 <= p < x.n
      ensures l.Mass(h)(p) == Attention(x, h)(p) && f(p) == g(p)
    {
      WeightIs(x, h, p);
      KeyIs(x, h, r, p);
      hide Attention;
      hide KeyValue;
      hide MatVec;
    }
    hide At;
    SumSame(l.Mass(h), Attention(x, h), x.n);
    SumSame(f, g, x.n);
  }

  /** One attention block, for any number of heads, ranks and positions. */
  method AbsorbedAttention(x: Inputs, kt: seq<real>, vw: seq<real>) returns (out: seq<real>)
    requires x.Ok() && M.KeysDone(x.d, x.kvb, x.rnd, kt, x.d.heads, 0, 0)
    requires M.ValuesDone(x.d, x.kvb, x.rnd, vw, x.d.heads, 0, 0)
    ensures IsAttention(x, out)
    ensures forall h, r :: 0 <= h < x.d.heads && 0 <= r < x.d.vh ==> IsSoftmax(x, out, h, r)
  {
    BatchSize(x.d.heads, x.d.kvl, x.d.nope);
    BatchSize(x.d.heads, x.d.vh, x.d.kvl);
    hide At;
    hide Sum;
    var qFull := new real[At(x.d.heads, x.Qk())](_ => 0.0);
    ghost var zero := qFull[..];
    GemvBatch(kt, At(x.d.kvl, x.d.nope), x.q, x.QDim(), qFull, x.Qk(), x.d.kvl, x.d.nope, x.d.heads);
    ghost var mid := qFull[..];
    StridedCopy(x.q, x.QDim(), x.d.nope, qFull, x.Qk(), x.d.kvl, x.d.heads, x.d.rope);
    QueryAssembled(x, kt, zero, mid, qFull[..]);
    out := ProjectHeads(x, qFull[..], vw);
    hide IsOutput;
    hide IsSoftmax;
    forall h, r | 0 <= h < x.d.heads && 0 <= r < x.d.vh
      ensures IsSoftmax(x, out, h, r)
    {
      OutputIsSoftmax(x, out, h, r);
    }
    hide *;
  }

  lemma BatchSize(h: nat, m: nat, n: nat)
    ensures At(At(h, m), n) == At(h, At(m, n))
  {
    assert h * m * n == h * (m * n);
  }

  method ProjectHeads(x: Inputs, qf: seq<real>, vw: seq<real>) returns (out: seq<real>)
    requires x.Ok() && QueryReady(x, qf) && M.ValuesDone(x.d, x.kvb, x.rnd, vw, x.d.heads, 0, 0)
    ensures IsAttention(x, out)
  {
    BatchSize(x.d.heads, x.d.vh, x.d.kvl);
    hide At;
    hide Sum;
    hide QueryReady;
    var ctx := new real[At(x.d.heads, x.d.kvl)](_ => 0.0);
    ghost var ms := AttnDecode(x, qf, ctx);
    var pre := new real[At(x.d.heads, x.d.vh)](_ => 0.0);
    GemvBatch(vw, At(x.d.vh, x.d.kvl), ctx[..], x.d.kvl, pre, x.d.vh, x.d.vh, x.d.kvl, x.d.heads);
    out := pre[..];
    forall h, r | 0 <= h < x.d.heads && 0 <= r < x.d.vh
      ensures IsOutput(x, out, h, r)
    {
      OutputComputed(x, vw, ctx[..], ms, h, r);
      hide M.ValuesDone;
      hide ContextsReady;
      hide Term;
      hide Layer.Out;
    }
  }
}
