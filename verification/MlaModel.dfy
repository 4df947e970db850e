/** Multi-head latent attention, materialised and absorbed
    (crates/llmpager-cuda/kernels/mla.cu:1-10, crates/llmpager-run/src/kimi.rs:229-253,
    675-706). Numbers are real; bf16 rounding of a weight is a parameter. */
module MlaModel {
  import opened Indexing
  import opened Sums

  datatype Dims = Dims(heads: nat, kvl: nat, nope: nat, rope: nat, vh: nat)

  /** Position of row `r`, column `c` of head `h` in kv_b, [heads * (nope + vh), kvl]. */
  function KvbAt(d: Dims, h: nat, r: nat, c: nat): nat {
    Flat(Flat(h, r, d.nope + d.vh), c, d.kvl)
  }

  function Weight(d: Dims, kvb: seq<real>, rnd: real -> real, h: nat, r: nat, c: nat): real {
    rnd(Get(kvb, KvbAt(d, h, r, c)))
  }

  /** What one layer attends with: the weights, the rotated query of the token, the
      latent and rotary parts of the cached rows, and the number of positions. */
  datatype Layer = Layer(
    d: Dims,
    kvb: seq<real>,
    rnd: real -> real,
    q: (nat, nat) -> real,
    lat: (nat, nat) -> real,
    rot: (nat, nat) -> real,
    n: nat,
    scale: real,
    exp: real -> real)
  {
    /** The key rows of head `h`. */
    function KeyMat(h: nat): (nat, nat) -> real {
      (r: nat, c: nat) => Weight(d, kvb, rnd, h, r, c)
    }

    function ValueMat(h: nat): (nat, nat) -> real {
      (r: nat, c: nat) => Weight(d, kvb, rnd, h, d.nope + r, c)
    }

    function RopeQuery(h: nat): nat -> real {
      (i: nat) => q(h, d.nope + i)
    }

    // -------------------------------------------------- materialised keys and values

    function Key(h: nat, p: nat): nat -> real {
      MatVec(KeyMat(h), Row(lat, p), d.kvl)
    }

    function Value(h: nat, p: nat): nat -> real {
      MatVec(ValueMat(h), Row(lat, p), d.kvl)
    }

    function Score(h: nat): nat -> real {
      (p: nat) => (Sum(Times(Row(q, h), Key(h, p)), d.nope) + Sum(Times(RopeQuery(h), Row(rot, p)), d.rope)) * scale
    }

    function Mass(h: nat): nat -> real {
      (p: nat) => exp(Score(h)(p))
    }

    function ValueAt(h: nat, r: nat): nat -> real {
      (p: nat) => Value(h, p)(r)
    }

    /** Softmax attention over per-head keys and values. */
    function Out(h: nat, r: nat): real
      requires Sum(Mass(h), n) != 0.0
    {
      Sum(Times(Mass(h), ValueAt(h, r)), n) / Sum(Mass(h), n)
    }

    // ------------------------------------------------------------------- absorbed

    function AbsorbedQuery(h: nat): nat -> real {
      MatVec(Flip(KeyMat(h)), Row(q, h), d.nope)
    }

    function FullQuery(h: nat): nat -> real {
      (i: nat) => if i < d.kvl then AbsorbedQuery(h)(i) else q(h, d.nope + (i - d.kvl))
    }

    function CacheRow(p: nat): nat -> real {
      (i: nat) => if i < d.kvl then lat(p, i) else rot(p, i - d.kvl)
    }

    function AbsorbedScore(h: nat, p: nat): real {
      Sum(Times(FullQuery(h), CacheRow(p)), d.kvl + d.rope) * scale
    }

    function Shifted(h: nat, m: real): nat -> real {
      (p: nat) => exp(AbsorbedScore(h, p) - m)
    }

    function Context(h: nat, m: real): nat -> real
      requires Sum(Shifted(h, m), n) != 0.0
    {
      (c: nat) => MatVec(Flip(lat), Shifted(h, m), n)(c) * (1.0 / Sum(Shifted(h, m), n))
    }

    function AbsorbedOut(h: nat, m: real, r: nat): real
      requires Sum(Shifted(h, m), n) != 0.0
    {
      Sum(Times(Row(ValueMat(h), r), Context(h, m)), d.kvl)
    }
  }

  /** The two laws of the exponential that softmax relies on. */
  ghost predicate ExpOk(exp: real -> real) {
    (forall x :: exp(x) > 0.0) && (forall x, y :: Multiplies(exp, x, y))
  }

  predicate Multiplies(exp: real -> real, x: real, y: real) {
    exp(x) * exp(y) == exp(x + y)
  }

  /** Absorption does not change a score. */
  lemma ScoresAgree(x: Layer, h: nat, p: nat)
    ensures x.AbsorbedScore(h, p) == x.Score(h)(p)
  {
    hide Sum;
    var kvl, nope := x.d.kvl, x.d.nope;
    var f := Times(x.FullQuery(h), x.CacheRow(p));
    LatentPart(x, h, p);
    RotaryPart(x, h, p);
    MatrixMoves(x.KeyMat(h), Row(x.q, h), Row(x.lat, p), nope, kvl);
  }

  lemma LatentPart(x: Layer, h: nat, p: nat)
    ensures Sum(Times(x.FullQuery(h), x.CacheRow(p)), x.d.kvl) == Sum(Times(x.AbsorbedQuery(h), Row(x.lat, p)), x.d.kvl)
  {
    hide Sum;
    hide MatVec;
    SumSame(Times(x.FullQuery(h), x.CacheRow(p)), Times(x.AbsorbedQuery(h), Row(x.lat, p)), x.d.kvl);
  }

  lemma RotaryPart(x: Layer, h: nat, p: nat)
    ensures Sum(Times(x.FullQuery(h), x.CacheRow(p)), x.d.kvl + x.d.rope)
         == Sum(Times(x.FullQuery(h), x.CacheRow(p)), x.d.kvl) + Sum(Times(x.RopeQuery(h), Row(x.rot, p)), x.d.rope)
  {
    hide Sum;
    hide MatVec;
    var f, g := Times(x.FullQuery(h), x.CacheRow(p)), Times(x.RopeQuery(h), Row(x.rot, p));
    var kvl := x.d.kvl;
    forall i | 0 <= i < x.d.rope
      ensures g(i) == f(kvl + i)
    {
      assert x.FullQuery(h)(kvl + i) == x.RopeQuery(h)(i);
      assert x.CacheRow(p)(kvl + i) == Row(x.rot, p)(i);
    }
    SumSplits(f, g, kvl, x.d.rope);
  }

  lemma {:induction false} SumPositive(f: nat -> real, n: nat)
    requires 0 < n && forall i :: 0 <= i < n ==> f(i) > 0.0
    ensures Sum(f, n) > 0.0
  {
    if n > 1 {
      SumPositive(f, n - 1);
    }
  }

  /** The kernel's weights are the softmax weights, up to a common factor. */
  lemma ShiftedWeight(x: Layer, h: nat, m: real, p: nat)
    requires ExpOk(x.exp)
    ensures x.Shifted(h, m)(p) == x.exp(-m) * x.Mass(h)(p) > 0.0 && x.Mass(h)(p) > 0.0
  {
    ScoresAgree(x, h, p);
    var s := x.Score(h)(p);
    hide Sum;
    assert Multiplies(x.exp, -m, s);
    assert -m + s == s - m;
  }

  lemma ShiftedMass(x: Layer, h: nat, m: real)
    requires ExpOk(x.exp) && 0 < x.n
    ensures Sum(x.Shifted(h, m), x.n) == x.exp(-m) * Sum(x.Mass(h), x.n)
    ensures Sum(x.Shifted(h, m), x.n) > 0.0 && Sum(x.Mass(h), x.n) > 0.0
  {
    hide Sum;
    var f, g := x.Shifted(h, m), x.Mass(h);
    forall p | 0 <= p < x.n
      ensures f(p) == x.exp(-m) * g(p) && f(p) > 0.0 && g(p) > 0.0
    {
      ShiftedWeight(x, h, m, p);
    }
    hide *;
    SumScales(g, f, x.exp(-m), x.n);
    SumPositive(g, x.n);
    SumPositive(f, x.n);
  }

  /** The value projection of the context is the weighted sum of the projected values. */
  lemma ValuesMove(x: Layer, h: nat, w: nat -> real, r: nat)
    ensures Sum(Times(Row(x.ValueMat(h), r), MatVec(Flip(x.lat), w, x.n)), x.d.kvl)
        == Sum(Times(w, x.ValueAt(h, r)), x.n)
  {
    hide Sum;
    var u, kvl, n := Row(x.ValueMat(h), r), x.d.kvl, x.n;
    MatrixMoves(Flip(x.lat), u, w, kvl, n);
    var left, right := Times(MatVec(Flip(Flip(x.lat)), u, kvl), w), Times(w, x.ValueAt(h, r));
    forall p | 0 <= p < n
      ensures left(p) == right(p)
    {
      ValueIsDot(x, h, r, p);
    }
    SumSame(left, right, n);
  }

  lemma ValueIsDot(x: Layer, h: nat, r: nat, p: nat)
    ensures MatVec(Flip(Flip(x.lat)), Row(x.ValueMat(h), r), x.d.kvl)(p) == x.ValueAt(h, r)(p)
  {
    hide Sum;
    var u := Row(x.ValueMat(h), r);
    var f, g := Times(Row(Flip(Flip(x.lat)), p), u), Times(u, Row(x.lat, p));
    forall i | 0 <= i < x.d.kvl
      ensures f(i) == g(i)
    {
      assert Row(Flip(Flip(x.lat)), p)(i) == Row(x.lat, p)(i);
      assert Row(x.lat, p)(i) * u(i) == u(i) * Row(x.lat, p)(i);
    }
    SumSame(f, g, x.d.kvl);
    assert x.Value(h, p) == MatVec(x.ValueMat(h), Row(x.lat, p), x.d.kvl);
    assert MatVec(x.ValueMat(h), Row(x.lat, p), x.d.kvl)(r) == Sum(g, x.d.kvl);
    assert x.ValueAt(h, r)(p) == x.Value(h, p)(r);
  }

  lemma Quotient(k: real, a: real, b: real)
    requires k > 0.0 && b > 0.0
    ensures k * b > 0.0 && 1.0 / (k * b) * (k * a) == a / b
  {
    var z := k * b;
    assert z > 0.0;
    var y := a / b;
    assert a == y * b;
    assert k * a == y * z;
    Cancel(z, y);
  }

  lemma Cancel(z: real, y: real)
    requires z > 0.0
    ensures 1.0 / z * (y * z) == y
  {
    var i := 1.0 / z;
    assert i * z == 1.0;
    Commute(i, y, z);
    assert z * (y * i) == y * (i * z);
  }

  lemma ContextScales(x: Layer, h: nat, m: real, r: nat)
    requires Sum(x.Shifted(h, m), x.n) != 0.0
    ensures x.AbsorbedOut(h, m, r)
         == 1.0 / Sum(x.Shifted(h, m), x.n)
            * Sum(Times(Row(x.ValueMat(h), r), MatVec(Flip(x.lat), x.Shifted(h, m), x.n)), x.d.kvl)
  {
    hide Sum;
    var k := 1.0 / Sum(x.Shifted(h, m), x.n);
    var u, v := Row(x.ValueMat(h), r), MatVec(Flip(x.lat), x.Shifted(h, m), x.n);
    var f, g := Times(u, x.Context(h, m)), Times(u, v);
    forall c | 0 <= c < x.d.kvl
      ensures f(c) == k * g(c)
    {
      assert f(c) == u(c) * (v(c) * k);
      Commute(u(c), v(c), k);
      assert v(c) * u(c) == u(c) * v(c);
    }
    SumScales(g, f, k, x.d.kvl);
  }

  /** Absorption and the shift by a maximum do not change the output of a head. */
  lemma OutputsAgree(x: Layer, h: nat, m: real, r: nat)
    requires ExpOk(x.exp) && 0 < x.n
    ensures Sum(x.Shifted(h, m), x.n) != 0.0 && Sum(x.Mass(h), x.n) != 0.0
    ensures x.AbsorbedOut(h, m, r) == x.Out(h, r)
  {
    hide Sum;
    ShiftedMass(x, h, m);
    assert x.exp(-m) > 0.0;
    var k, a, b := x.exp(-m), Sum(Times(x.Mass(h), x.ValueAt(h, r)), x.n), Sum(x.Mass(h), x.n);
    assert x.AbsorbedOut(h, m, r) == 1.0 / (k * b) * (k * a) by {
      hide Layer.AbsorbedOut;
      hide MatVec;
      hide Times;
      ContextScales(x, h, m, r);
      ValuesMove(x, h, x.Shifted(h, m), r);
      WeightsScale(x, h, m, r);
    }
    Quotient(k, a, b);
  }

  lemma WeightsScale(x: Layer, h: nat, m: real, r: nat)
    requires ExpOk(x.exp)
    ensures Sum(Times(x.Shifted(h, m), x.ValueAt(h, r)), x.n) == x.exp(-m) * Sum(Times(x.Mass(h), x.ValueAt(h, r)), x.n)
  {
    hide Sum;
    var k, f, g := x.exp(-m), Times(x.Shifted(h, m), x.ValueAt(h, r)), Times(x.Mass(h), x.ValueAt(h, r));
    forall p | 0 <= p < x.n
      ensures f(p) == k * g(p)
    {
      ShiftedWeight(x, h, m, p);
      Associate(k, x.Mass(h)(p), x.ValueAt(h, r)(p));
    }
    SumScales(g, f, k, x.n);
  }
}
