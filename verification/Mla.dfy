/** The absorbed path of multi-head latent attention: the load-time split of kv_b
    (crates/llmpager-run/src/kimi.rs:229-253) and the kernels of one attention block
    (crates/llmpager-cuda/kernels/mla.cu:50-166, crates/llmpager-run/src/kimi.rs:675-706). */
module Mla {
  import opened Util
  import opened Indexing
  import opened MlaModel

  // ------------------------------------------------------------- the split of kv_b

  /** The position the load loop writes, head * m * n + b * n + c. */
  lemma LoadIndex(a: nat, b: nat, c: nat, m: nat, n: nat)
    ensures a * m * n + b * n + c == Flat3(a, b, c, m, n)
  {
    assert (a * m + b) * n == a * m * n + b * n;
  }

  /** Loop order of the fill: `(a, b, c)` comes before `(h, r, c')`. */
  predicate Before(a: nat, b: nat, c: nat, h: nat, r: nat, k: nat) {
    a < h || (a == h && (b < r || (b == r && c < k)))
  }

  /** Transposed keys: element (h, c, r) holds row `r`, column `c` of head `h`. */
  ghost predicate KeysDone(d: Dims, kvb: seq<real>, rnd: real -> real, kt: seq<real>, h: nat, r: nat, c: nat) {
    && |kt| == At(At(d.heads, d.kvl), d.nope)
    && forall a, b, e :: 0 <= a < d.heads && 0 <= b < d.nope && 0 <= e < d.kvl && Before(a, b, e, h, r, c) ==>
                           Get(kt, Flat3(a, e, b, d.kvl, d.nope)) == Weight(d, kvb, rnd, a, b, e)
  }

  ghost predicate ValuesDone(d: Dims, kvb: seq<real>, rnd: real -> real, vw: seq<real>, h: nat, r: nat, c: nat) {
    && |vw| == At(At(d.heads, d.vh), d.kvl)
    && forall a, b, e :: 0 <= a < d.heads && 0 <= b < d.vh && 0 <= e < d.kvl && Before(a, b, e, h, r, c) ==>
                           Get(vw, Flat3(a, b, e, d.vh, d.kvl)) == Weight(d, kvb, rnd, a, d.nope + b, e)
  }

  lemma KeyStep(d: Dims, kvb: seq<real>, rnd: real -> real, kt: seq<real>, h: nat, r: nat, c: nat)
    requires KeysDone(d, kvb, rnd, kt, h, r, c) && h < d.heads && r < d.nope && c < d.kvl
    ensures Flat3(h, c, r, d.kvl, d.nope) < |kt|
    ensures KeysDone(d, kvb, rnd, kt[Flat3(h, c, r, d.kvl, d.nope) := Weight(d, kvb, rnd, h, r, c)], h, r, c + 1)
  {
    hide Flat3;
    hide Weight;
    hide At;
    Flat3Fits(h, c, r, d.heads, d.kvl, d.nope);
    var next := kt[Flat3(h, c, r, d.kvl, d.nope) := Weight(d, kvb, rnd, h, r, c)];
    forall a, b, e | 0 <= a < d.heads && 0 <= b < d.nope && 0 <= e < d.kvl && Before(a, b, e, h, r, c + 1)
      ensures Get(next, Flat3(a, e, b, d.kvl, d.nope)) == Weight(d, kvb, rnd, a, b, e)
    {
      Flat3IsUnique(h, c, r, a, e, b, d.kvl, d.nope);
    }
  }

  lemma ValueStep(d: Dims, kvb: seq<real>, rnd: real -> real, vw: seq<real>, h: nat, r: nat, c: nat)
    requires ValuesDone(d, kvb, rnd, vw, h, r, c) && h < d.heads && r < d.vh && c < d.kvl
    ensures Flat3(h, r, c, d.vh, d.kvl) < |vw|
    ensures ValuesDone(d, kvb, rnd, vw[Flat3(h, r, c, d.vh, d.kvl) := Weight(d, kvb, rnd, h, d.nope + r, c)], h, r,
        c + 1)
  {
    hide Flat3;
    hide Weight;
    hide At;
    Flat3Fits(h, r, c, d.heads, d.vh, d.kvl);
    var next := vw[Flat3(h, r, c, d.vh, d.kvl) := Weight(d, kvb, rnd, h, d.nope + r, c)];
    forall a, b, e | 0 <= a < d.heads && 0 <= b < d.vh && 0 <= e < d.kvl && Before(a, b, e, h, r, c + 1)
      ensures Get(next, Flat3(a, b, e, d.vh, d.kvl)) == Weight(d, kvb, rnd, a, d.nope + b, e)
    {
      Flat3IsUnique(h, r, c, a, b, e, d.vh, d.kvl);
    }
  }

  /** Where the loop reads row `r`, column `c` of head `h`. */
  lemma ReadIndex(d: Dims, h: nat, r: nat, c: nat)
    requires h < d.heads && r < d.nope + d.vh && c < d.kvl
    ensures (h * (d.nope + d.vh) + r) * d.kvl + c == KvbAt(d, h, r, c) < At(At(d.heads, d.nope + d.vh), d.kvl)
  {
    Flat3Fits(h, r, c, d.heads, d.nope + d.vh, d.kvl);
  }

  /** Key weights: element h * kvl * nope + c * nope + r is the rounded weight of row
      h * (nope + vh) + r, column c. */
  ghost predicate Transposed(d: Dims, kvb: seq<real>, rnd: real -> real, kt: seq<real>) {
    forall h, r, c :: 0 <= h < d.heads && 0 <= r < d.nope && 0 <= c < d.kvl ==>
                        Get(kt, Flat3(h, c, r, d.kvl, d.nope)) ==
                        rnd(Get(kvb, Flat(h * (d.nope + d.vh) + r, c, d.kvl)))
  }

  /** Value weights: element h * vh * kvl + r * kvl + c is the rounded weight of row
      h * (nope + vh) + nope + r, column c. */
  ghost predicate Straight(d: Dims, kvb: seq<real>, rnd: real -> real, vw: seq<real>) {
    forall h, r, c :: 0 <= h < d.heads && 0 <= r < d.vh && 0 <= c < d.kvl ==>
                        Get(vw, Flat3(h, r, c, d.vh, d.kvl)) ==
                        rnd(Get(kvb, Flat(h * (d.nope + d.vh) + d.nope + r, c, d.kvl)))
  }

  lemma SplitIs(d: Dims, kvb: seq<real>, rnd: real -> real, kt: seq<real>, vw: seq<real>)
    requires KeysDone(d, kvb, rnd, kt, d.heads, 0, 0) && ValuesDone(d, kvb, rnd, vw, d.heads, 0, 0)
    ensures Transposed(d, kvb, rnd, kt) && Straight(d, kvb, rnd, vw)
  {
    hide Flat3;
    hide Get;
    forall h, r, c | 0 <= h < d.heads && 0 <= r < d.nope && 0 <= c < d.kvl
      ensures Get(kt, Flat3(h, c, r, d.kvl, d.nope)) == rnd(Get(kvb, Flat(h * (d.nope + d.vh) + r, c, d.kvl)))
    {
      assert Before(h, r, c, d.heads, 0, 0);
    }
    forall h, r, c | 0 <= h < d.heads && 0 <= r < d.vh && 0 <= c < d.kvl
      ensures Get(vw, Flat3(h, r, c, d.vh, d.kvl)) ==
              rnd(Get(kvb, Flat(h * (d.nope + d.vh) + d.nope + r, c, d.kvl)))
    {
      assert Before(h, r, c, d.heads, 0, 0);
    }
  }

  /** Split kv_b into the transposed key weights and the value weights. */
  method SplitKvB(d: Dims, kvb: seq<real>, rnd: real -> real) returns (r: Result<(seq<real>, seq<real>)>)
    ensures r.Ok? <==> |kvb| == At(At(d.heads, d.nope + d.vh), d.kvl)
    ensures r.Ok? ==>
        KeysDone(d, kvb, rnd, r.value.0, d.heads, 0, 0) && ValuesDone(d, kvb, rnd, r.value.1, d.heads, 0, 0)
    ensures r.Ok? ==> Transposed(d, kvb, rnd, r.value.0) && Straight(d, kvb, rnd, r.value.1)
  {
    if |kvb| != At(At(d.heads, d.nope + d.vh), d.kvl) {
      return Err;
    }
    var kt := new real[At(At(d.heads, d.kvl), d.nope)](_ => 0.0);
    var vw := new real[At(At(d.heads, d.vh), d.kvl)](_ => 0.0);
    hide At;
    for head := 0 to d.heads
      invariant KeysDone(d, kvb, rnd, kt[..], head, 0, 0) && ValuesDone(d, kvb, rnd, vw[..], head, 0, 0)
    {
      FillKeys(d, kvb, rnd, kt, head);
      FillValues(d, kvb, rnd, vw, head);
    }
    SplitIs(d, kvb, rnd, kt[..], vw[..]);
    return Ok((kt[..], vw[..]));
  }

  method FillKeys(d: Dims, kvb: seq<real>, rnd: real -> real, kt: array<real>, head: nat)
    requires |kvb| == At(At(d.heads, d.nope + d.vh), d.kvl) && head < d.heads
    requires KeysDone(d, kvb, rnd, kt[..], head, 0, 0)
    modifies kt
    ensures KeysDone(d, kvb, rnd, kt[..], head + 1, 0, 0)
  {
    var base := head * (d.nope + d.vh);
    for r := 0 to d.nope
      invariant KeysDone(d, kvb, rnd, kt[..], head, r, 0)
    {
      for c := 0 to d.kvl
        invariant KeysDone(d, kvb, rnd, kt[..], head, r, c)
      {
        ReadIndex(d, head, r, c);
        LoadIndex(head, c, r, d.kvl, d.nope);
        KeyStep(d, kvb, rnd, kt[..], head, r, c);
        hide KeysDone;
        hide Flat3;
        hide At;
        ghost var was := kt[..];
        kt[head * d.kvl * d.nope + c * d.nope + r] := rnd(kvb[(base + r) * d.kvl + c]);
        assert kt[..] == was[Flat3(head, c, r, d.kvl, d.nope) := Weight(d, kvb, rnd, head, r, c)];
      }
    }
  }

  method FillValues(d: Dims, kvb: seq<real>, rnd: real -> real, vw: array<real>, head: nat)
    requires |kvb| == At(At(d.heads, d.nope + d.vh), d.kvl) && head < d.heads
    requires ValuesDone(d, kvb, rnd, vw[..], head, 0, 0)
    modifies vw
    ensures ValuesDone(d, kvb, rnd, vw[..], head + 1, 0, 0)
  {
    var base := head * (d.nope + d.vh);
    for r := 0 to d.vh
      invariant ValuesDone(d, kvb, rnd, vw[..], head, r, 0)
    {
      for c := 0 to d.kvl
        invariant ValuesDone(d, kvb, rnd, vw[..], head, r, c)
      {
        ReadIndex(d, head, d.nope + r, c);
        LoadIndex(head, r, c, d.vh, d.kvl);
        ValueStep(d, kvb, rnd, vw[..], head, r, c);
        hide ValuesDone;
        hide Flat3;
        hide At;
        ghost var was := vw[..];
        vw[head * d.vh * d.kvl + r * d.kvl + c] := rnd(kvb[(base + d.nope + r) * d.kvl + c]);
        assert vw[..] == was[Flat3(head, r, c, d.vh, d.kvl) := Weight(d, kvb, rnd, head, d.nope + r, c)];
      }
    }
  }
}
