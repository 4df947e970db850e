/** One token's share of a wave, launch by launch (crates/llmpager-run/src/decode.rs:508-522,
    crates/llmpager-cuda/kernels/q4g64.cu:19-99): the gate and up projections of all its
    experts, the gated activation, the down projections, and the weighted sum. */
module ExpertLaunch {
  import opened Indexing
  import opened Sums
  import opened Q4Layout
  import opened MoeWaves
  import opened Gemv

  /** Where the projections lie in an expert's blob, and their shapes: gate and up take the
      hidden state to the inner one, down takes that back. */
  datatype Regions = Regions(gate: nat, up: nat, down: nat, inner: Shape, outer: Shape)

  predicate Regular(t: Regions) {
    Whole(t.inner) && Whole(t.outer) && t.outer.Cols() == t.inner.rows
  }

  predicate Fits(t: Regions, blob: Buf) {
    && Regular(t)
    && t.gate + t.inner.Bytes() <= |blob| && t.up + t.inner.Bytes() <= |blob| && t.down + t.outer.Bytes() <= |blob|
  }

  /** A projection stored at `off` of a blob, applied to `x`. */
  function Projection(blob: Buf, off: nat, sh: Shape, x: Vec): (y: Vec)
    requires off + sh.Bytes() <= |blob|
    ensures |y| == sh.rows
  {
    seq(sh.rows, r requires 0 <= r < sh.rows && off + sh.Bytes() <= |blob| =>
      RowSum(blob[off..off + sh.Bytes()], sh, x, r))
  }

  /** The inner states of an expert: act (gate x) * up x. */
  function Inner(t: Regions, act: real -> real, blob: Buf, x: Vec): (v: Vec)
    requires Fits(t, blob)
    ensures |v| == t.inner.rows
  {
    var g, u := Projection(blob, t.gate, t.inner, x), Projection(blob, t.up, t.inner, x);
    seq(t.inner.rows, i requires 0 <= i < t.inner.rows && |g| == |u| == t.inner.rows => Mul(act(g[i]), u[i]))
  }

  /** An expert: the down projection of its inner states. */
  function Expert(t: Regions, act: real -> real, blob: Buf, x: Vec): (y: Vec)
    requires Fits(t, blob)
    ensures |y| == t.outer.rows
  {
    Projection(blob, t.down, t.outer, Inner(t, act, blob, x))
  }

  lemma ProjectionAt(blob: Buf, off: nat, sh: Shape, x: Vec, r: nat)
    requires off + sh.Bytes() <= |blob| && r < sh.rows
    ensures Projection(blob, off, sh, x)[r] == RowSum(blob[off..off + sh.Bytes()], sh, x, r)
  {
    hide RowSum;
  }

  /** Element by element: row `r` of gate, through the activation, times row `r` of up. */
  lemma InnerIs(t: Regions, act: real -> real, blob: Buf, x: Vec, r: nat)
    requires Fits(t, blob) && r < t.inner.rows
    ensures Inner(t, act, blob, x)[r] ==
            Mul(act(RowSum(blob[t.gate..t.gate + t.inner.Bytes()], t.inner, x, r)),
                RowSum(blob[t.up..t.up + t.inner.Bytes()], t.inner, x, r))
  {
    hide RowSum;
    hide Mul;
    hide At;
    hide Projection;
    ProjectionAt(blob, t.gate, t.inner, x, r);
    ProjectionAt(blob, t.up, t.inner, x, r);
    hide Shape.Bytes;
    hide Shape.Cols;
    hide Whole;
  }

  /** And row `i` of down on those. */
  lemma ExpertIs(t: Regions, act: real -> real, blob: Buf, x: Vec, i: nat)
    requires Fits(t, blob) && i < t.outer.rows
    ensures Expert(t, act, blob, x)[i] ==
            RowSum(blob[t.down..t.down + t.outer.Bytes()], t.outer, Inner(t, act, blob, x), i)
  {
    hide RowSum;
    hide At;
    hide Projection;
    hide Inner;
    ProjectionAt(blob, t.down, t.outer, Inner(t, act, blob, x), i);
    hide Shape.Bytes;
    hide Shape.Cols;
    hide Whole;
  }

  /** `y` is the expert's output on `x`: for some inner states, each the gate's row through the
      activation times the up's row, it is the down projection of those. */
  ghost predicate IsOutput(t: Regions, act: real -> real, blob: Buf, x: Vec, y: Vec)
    requires Fits(t, blob)
  {
    |y| == t.outer.rows && exists v: Vec :: IsInner(t, act, blob, x, v) && IsDown(t, blob, v, y)
  }

  ghost predicate IsInner(t: Regions, act: real -> real, blob: Buf, x: Vec, v: Vec)
    requires Fits(t, blob)
  {
    |v| == t.inner.rows
    && forall r :: 0 <= r < t.inner.rows ==>
         v[r] == Mul(act(RowSum(blob[t.gate..t.gate + t.inner.Bytes()], t.inner, x, r)),
                     RowSum(blob[t.up..t.up + t.inner.Bytes()], t.inner, x, r))
  }

  ghost predicate IsDown(t: Regions, blob: Buf, v: Vec, y: Vec)
    requires Fits(t, blob)
  {
    |y| == t.outer.rows
    && forall i :: 0 <= i < t.outer.rows ==> y[i] == RowSum(blob[t.down..t.down + t.outer.Bytes()], t.outer, v, i)
  }

  lemma OutputIsExpert(t: Regions, act: real -> real, blob: Buf, x: Vec, y: Vec)
    requires Fits(t, blob) && IsOutput(t, act, blob, x, y)
    ensures y == Expert(t, act, blob, x)
  {
    hide IsInner;
    hide Inner;
    hide IsDown;
    hide Fits;
    hide Expert;
    var v :| IsInner(t, act, blob, x, v) && IsDown(t, blob, v, y);
    InnerIsUnique(t, act, blob, x, v);
    DownIsUnique(t, act, blob, x, y);
  }

  lemma DownIsUnique(t: Regions, act: real -> real, blob: Buf, x: Vec, y: Vec)
    requires Fits(t, blob) && IsDown(t, blob, Inner(t, act, blob, x), y)
    ensures y == Expert(t, act, blob, x)
  {
    hide RowSum;
    hide At;
    hide Inner;
    forall i | 0 <= i < t.outer.rows
      ensures y[i] == Expert(t, act, blob, x)[i]
    {
      ExpertIs(t, act, blob, x, i);
      hide Expert;
    }
    hide IsDown;
    hide Fits;
  }

  lemma InnerIsUnique(t: Regions, act: real -> real, blob: Buf, x: Vec, v: Vec)
    requires Fits(t, blob) && IsInner(t, act, blob, x, v)
    ensures v == Inner(t, act, blob, x)
  {
    hide RowSum;
    hide Mul;
    hide At;
    forall r | 0 <= r < t.inner.rows
      ensures v[r] == Inner(t, act, blob, x)[r]
    {
      InnerIs(t, act, blob, x, r);
      hide Inner;
    }
    hide IsInner;
    hide Fits;
  }

  ghost predicate AllFit(t: Regions, blobs: seq<Buf>) {
    forall k :: 0 <= k < |blobs| ==> Fits(t, blobs[k])
  }

  /** One projection of every expert on the shared input. */
  method ProjectShared(blobs: seq<Buf>, off: nat, sh: Shape, x: Vec) returns (y: seq<real>)
    requires Whole(sh) && |x| == sh.Cols() && forall k :: 0 <= k < |blobs| ==> off + sh.Bytes() <= |blobs[k]|
    ensures |y| == At(|blobs|, sh.rows)
    ensures forall k :: 0 <= k < |blobs| ==> RowIs(y, k, sh.rows, Projection(blobs[k], off, sh, x))
  {
    assert forall k :: 0 <= k < |blobs| ==> At(k, 0) == 0;
    hide At;
    hide RowSum;
    y := Q4GemvBatch(blobs, off, sh, x, 0);
    assert x[0..0 + sh.Cols()] == x;
  }

  /** The gated activation, element by element over all experts. */
  method Activate(act: real -> real, gate: seq<real>, up: seq<real>) returns (y: seq<real>)
    requires |gate| == |up|
    ensures |y| == |gate| && forall i :: 0 <= i < |gate| ==> y[i] == Mul(act(gate[i]), up[i])
  {
    y := seq(|gate|, i requires 0 <= i < |gate| && |gate| == |up| => Mul(act(gate[i]), up[i]));
  }

  lemma InnerRow(t: Regions, act: real -> real, blobs: seq<Buf>, x: Vec, gate: seq<real>, up: seq<real>, y: seq<real>,
                 k: nat)
    requires k < |blobs| && Fits(t, blobs[k]) && |gate| == |up| == |y| == At(|blobs|, t.inner.rows)
    requires RowIs(gate, k, t.inner.rows, Projection(blobs[k], t.gate, t.inner, x))
    requires RowIs(up, k, t.inner.rows, Projection(blobs[k], t.up, t.inner, x))
    requires forall i :: 0 <= i < |gate| ==> y[i] == Mul(act(gate[i]), up[i])
    ensures At(k, t.inner.rows) + t.inner.rows <= |y|
    ensures y[At(k, t.inner.rows)..At(k, t.inner.rows) + t.inner.rows] == Inner(t, act, blobs[k], x)
  {
    var n := t.inner.rows;
    AtOrder(k, |blobs|, n);
    hide At;
    hide Projection;
    hide Mul;
    forall i | 0 <= i < n
      ensures y[At(k, n) + i] == Inner(t, act, blobs[k], x)[i]
    {
      assert Get(gate, Flat(k, i, n)) == gate[At(k, n) + i] && Get(up, Flat(k, i, n)) == up[At(k, n) + i];
    }
  }

  /** The down projections, each on its expert's own inner states. */
  method ProjectDown(t: Regions, act: real -> real, blobs: seq<Buf>, ghost x: Vec, inner: seq<real>)
    returns (y: seq<real>)
    requires Regular(t) && AllFit(t, blobs) && |inner| == At(|blobs|, t.inner.rows)
    requires forall k :: 0 <= k < |blobs| ==>
                           && At(k, t.inner.rows) + t.inner.rows <= |inner|
                           && inner[At(k, t.inner.rows)..At(k, t.inner.rows) + t.inner.rows]
                              == Inner(t, act, blobs[k], x)
    ensures |y| == At(|blobs|, t.outer.rows)
    ensures forall k :: 0 <= k < |blobs| ==> RowIs(y, k, t.outer.rows, Expert(t, act, blobs[k], x))
  {
    hide At;
    hide RowSum;
    y := Q4GemvBatch(blobs, t.down, t.outer, inner, t.inner.rows);
    hide Inner;
  }

  /** The picks' experts, and one `moe_reduce`: the hidden state ends with the weighted outputs
      of exactly these experts added. */
  method LaunchExperts(t: Regions, act: real -> real, blobs: seq<Buf>, wts: seq<real>, x: Vec, h: Vec,
                       ghost f: Experts, ghost picks: seq<Pick>)
    returns (out: Vec)
    requires Regular(t) && AllFit(t, blobs) && |x| == t.inner.Cols() && |h| == t.outer.rows
    requires |wts| == |picks| == |blobs| && forall k :: 0 <= k < |picks| ==> wts[k] == picks[k].weight
    requires forall k :: 0 <= k < |picks| ==> IsOutput(t, act, blobs[k], x, f(picks[k].expert, x))
    ensures Outputs(f, x, |h|, picks) && out == AddPicks(f, x, h, picks)
    ensures forall i :: 0 <= i < |h| ==> out[i] == h[i] + Sum(Terms(f, x, picks, i), |picks|)
  {
    hide At;
    hide Sum;
    var gate := ProjectShared(blobs, t.gate, t.inner, x);
    var up := ProjectShared(blobs, t.up, t.inner, x);
    var inner := Activate(act, gate, up);
    forall k | 0 <= k < |blobs|
      ensures At(k, t.inner.rows) + t.inner.rows <= |inner|
      ensures inner[At(k, t.inner.rows)..At(k, t.inner.rows) + t.inner.rows] == Inner(t, act, blobs[k], x)
    {
      InnerRow(t, act, blobs, x, gate, up, inner, k);
    }
    hide Projection;
    hide Inner;
    forall k | 0 <= k < |blobs|
      ensures f(picks[k].expert, x) == Expert(t, act, blobs[k], x)
    {
      OutputIsExpert(t, act, blobs[k], x, f(picks[k].expert, x));
    }
    hide IsOutput;
    var eouts := ProjectDown(t, act, blobs, x, inner);
    hide Expert;
    out := ReducePicks(eouts, wts, x, h, f, picks);
    AddPicksAt(f, x, h, picks);
  }
}
