/** What a decode step computes, apart from the order it computes it in
    (crates/llmpager-run/src/decode.rs:263-363, 386-569).

    The layer functions are parameters. Two quantities are defined together: the KV
    rows of a layer after the first entries of a chunk, and the hidden state of an
    entry after the first layers. Neither schedule appears in the definition.
  */
module DecodeModel {
  import opened MoeWaves

  /** Layer functions: embedding, the KV row a token appends, attention over the rows
      up to its position (with residual), the norm before the router, the router, the
      experts of a layer, and the output head. */
  datatype Net = Net(
    layers: nat,
    hidden: nat,
    embed: nat -> Vec,
    row: (nat, Vec, nat) -> Vec,
    attend: (nat, Vec, nat, seq<Vec>) -> Vec,
    norm: (nat, Vec) -> Vec,
    route: (nat, Vec) -> seq<Pick>,
    experts: nat -> Experts,
    head: Vec -> seq<real>)

  ghost predicate NetOk(net: Net) {
    && (forall tok: nat :: |net.embed(tok)| == net.hidden)
    && (forall l: nat, h: Vec, p: nat, rows: seq<Vec> :: |net.attend(l, h, p, rows)| == net.hidden)
    && (forall l: nat, e: nat, x: Vec :: |net.experts(l)(e, x)| == net.hidden)
  }

  /** A layer's expert stage, as the direct weighted sum. */
  function Mix(net: Net, l: nat, h: Vec): (r: Vec)
    requires NetOk(net) && |h| == net.hidden
    ensures |r| == net.hidden
  {
    var x := net.norm(l, h);
    AddPicks(net.experts(l), x, h, net.route(l, x))
  }

  /** One token of a `step_multi` call. */
  datatype Entry = Entry(tok: nat, pos: nat, slot: nat)

  /** KV rows by layer, sequence slot and position. */
  type Rows = seq<seq<Vec>>
  type Kv = seq<Rows>

  predicate RowsShape(rows: Rows, cap: nat, maxSeq: nat) {
    |rows| == cap && forall s :: 0 <= s < cap ==> |rows[s]| == maxSeq
  }

  predicate KvShape(net: Net, kv: Kv, cap: nat, maxSeq: nat) {
    |kv| == net.layers && forall l :: 0 <= l < net.layers ==> RowsShape(kv[l], cap, maxSeq)
  }

  /** A chunk of entries run from the cache `kv`. */
  datatype Chunk = Chunk(net: Net, kv: Kv, es: seq<Entry>, cap: nat, maxSeq: nat)

  ghost predicate ChunkOk(c: Chunk) {
    && NetOk(c.net) && KvShape(c.net, c.kv, c.cap, c.maxSeq)
    && forall t :: 0 <= t < |c.es| ==> c.es[t].pos < c.maxSeq && c.es[t].slot < c.cap
  }

  function Write(rows: Rows, s: nat, p: nat, row: Vec, cap: nat, maxSeq: nat): (r: Rows)
    requires RowsShape(rows, cap, maxSeq) && s < cap && p < maxSeq
    ensures RowsShape(r, cap, maxSeq)
  {
    rows[s := rows[s][p := row]]
  }

  /** Layer `l`'s rows after the first `t` entries. */
  ghost function RowsAfter(c: Chunk, l: nat, t: nat): (r: Rows)
    requires ChunkOk(c) && l < c.net.layers && t <= |c.es|
    ensures RowsShape(r, c.cap, c.maxSeq)
    decreases l, t, 0
  {
    if t == 0 then c.kv[l]
    else
      var e := c.es[t - 1];
      Write(RowsAfter(c, l, t - 1), e.slot, e.pos, c.net.row(l, Hidden(c, t - 1, l), e.pos), c.cap, c.maxSeq)
  }

  /** Entry `t`'s hidden state after `l` layers. */
  ghost function Hidden(c: Chunk, t: nat, l: nat): (h: Vec)
    requires ChunkOk(c) && l <= c.net.layers && t < |c.es|
    ensures |h| == c.net.hidden
    decreases l, t, 0
  {
    if l == 0 then c.net.embed(c.es[t].tok) else Mix(c.net, l - 1, Attended(c, t, l - 1))
  }

  /** Entry `t` after the attention block of layer `l`. */
  ghost function Attended(c: Chunk, t: nat, l: nat): (h: Vec)
    requires ChunkOk(c) && l < c.net.layers && t < |c.es|
    ensures |h| == c.net.hidden
    decreases l, t + 1, 1
  {
    var e := c.es[t];
    c.net.attend(l, Hidden(c, t, l), e.pos, RowsAfter(c, l, t + 1)[e.slot][..e.pos + 1])
  }

  /** One entry through the attention block: append its row, then attend over the rows so far. */
  lemma EntryAttends(c: Chunk, l: nat, t: nat)
    requires ChunkOk(c) && l < c.net.layers && t < |c.es|
    ensures var e := c.es[t];
            && RowsAfter(c, l, t + 1) == Write(RowsAfter(c, l, t), e.slot, e.pos,
                                               c.net.row(l, Hidden(c, t, l), e.pos), c.cap, c.maxSeq)
            && Attended(c, t, l) == c.net.attend(l, Hidden(c, t, l), e.pos,
                                                 RowsAfter(c, l, t + 1)[e.slot][..e.pos + 1])
  {
  }

  lemma NoEntries(c: Chunk, l: nat)
    requires ChunkOk(c) && l < c.net.layers
    ensures RowsAfter(c, l, 0) == c.kv[l]
  {
  }

  /** The whole cache after a chunk. */
  ghost function After(c: Chunk): (kv: Kv)
    requires ChunkOk(c)
    ensures KvShape(c.net, kv, c.cap, c.maxSeq)
  {
    seq(c.net.layers, l requires 0 <= l < c.net.layers => RowsAfter(c, l, |c.es|))
  }

  // ------------------------------------------------------------------ chunking

  /** Entries already run do not look at later ones. */
  lemma {:induction false} EarlierEntriesAgree(c: Chunk, d: Chunk, l: nat, t: nat)
    requires ChunkOk(c) && ChunkOk(d) && d == c.(es := d.es) && c.es <= d.es
    requires l < c.net.layers && t <= |c.es|
    ensures RowsAfter(d, l, t) == RowsAfter(c, l, t)
    decreases l, t, 0
  {
    if t > 0 {
      EarlierEntriesAgree(c, d, l, t - 1);
      EarlierHiddenAgrees(c, d, t - 1, l);
    }
  }

  lemma {:induction false} EarlierHiddenAgrees(c: Chunk, d: Chunk, t: nat, l: nat)
    requires ChunkOk(c) && ChunkOk(d) && d == c.(es := d.es) && c.es <= d.es
    requires l <= c.net.layers && t < |c.es|
    ensures Hidden(d, t, l) == Hidden(c, t, l)
    decreases l, t, 0
  {
    if l > 0 {
      EarlierHiddenAgrees(c, d, t, l - 1);
      EarlierEntriesAgree(c, d, l - 1, t + 1);
    }
  }

  /** The chunk that runs `b` after `c`. */
  ghost function Then(c: Chunk, b: seq<Entry>): Chunk
    requires ChunkOk(c)
  {
    c.(kv := After(c), es := b)
  }

  /** The same entry on the same rows leaves the same rows. */
  lemma SameEntrySameRows(c: Chunk, t: nat, d: Chunk, u: nat, l: nat)
    requires ChunkOk(c) && ChunkOk(d) && l < c.net.layers && t < |c.es| && u < |d.es| && c.es[t] == d.es[u]
    requires d.net == c.net && d.cap == c.cap && d.maxSeq == c.maxSeq
    requires RowsAfter(c, l, t) == RowsAfter(d, l, u) && Hidden(c, t, l) == Hidden(d, u, l)
    ensures RowsAfter(c, l, t + 1) == RowsAfter(d, l, u + 1)
  {
    hide *;
    EntryAttends(c, l, t);
    EntryAttends(d, l, u);
  }

  lemma {:induction false} RowsSplit(c: Chunk, b: seq<Entry>, l: nat, t: nat)
    requires ChunkOk(c) && ChunkOk(c.(es := c.es + b)) && ChunkOk(Then(c, b))
    requires l < c.net.layers && t <= |b|
    ensures RowsAfter(c.(es := c.es + b), l, |c.es| + t) == RowsAfter(Then(c, b), l, t)
    decreases l, t, 0
  {
    hide RowsAfter;
    hide Hidden;
    hide NetOk;
    hide KvShape;
    var d := c.(es := c.es + b);
    if t == 0 {
      EarlierEntriesAgree(c, d, l, |c.es|);
      NoEntries(Then(c, b), l);
    } else {
      assert d.es[|c.es| + t - 1] == b[t - 1];
      RowsSplit(c, b, l, t - 1);
      HiddenSplit(c, b, t - 1, l);
      SameEntrySameRows(d, |c.es| + t - 1, Then(c, b), t - 1, l);
    }
  }

  lemma {:induction false} HiddenSplit(c: Chunk, b: seq<Entry>, t: nat, l: nat)
    requires ChunkOk(c) && ChunkOk(c.(es := c.es + b)) && ChunkOk(Then(c, b))
    requires l <= c.net.layers && t < |b|
    ensures Hidden(c.(es := c.es + b), |c.es| + t, l) == Hidden(Then(c, b), t, l)
    decreases l, t, 0
  {
    assert c.(es := c.es + b).es[|c.es| + t] == b[t];
    if l > 0 {
      HiddenSplit(c, b, t, l - 1);
      RowsSplit(c, b, l - 1, t + 1);
    }
  }

  /** The same, for a chunk already known to be the concatenation. */
  lemma HiddenSplitOf(k: Chunk, c: Chunk, b: seq<Entry>, n: nat, t: nat, l: nat)
    requires ChunkOk(c) && ChunkOk(k) && k == c.(es := c.es + b) && ChunkOk(Then(c, b))
    requires l <= c.net.layers && t < |b| && n == |c.es| + t
    ensures Hidden(k, n, l) == Hidden(Then(c, b), t, l)
  {
    HiddenSplit(c, b, t, l);
    hide Hidden;
  }

  /** Any chunking gives the same result: two chunks run in turn leave the cache of
      their concatenation, and the same hidden states. */
  lemma ChunkingIsInvisible(c: Chunk, b: seq<Entry>)
    requires ChunkOk(c) && ChunkOk(c.(es := c.es + b))
    ensures ChunkOk(Then(c, b))
    ensures After(Then(c, b)) == After(c.(es := c.es + b))
    ensures forall t, l :: 0 <= t < |b| && 0 <= l <= c.net.layers ==>
                             Hidden(Then(c, b), t, l) == Hidden(c.(es := c.es + b), |c.es| + t, l)
  {
    var d := c.(es := c.es + b);
    forall t | 0 <= t < |b|
      ensures b[t].pos < c.maxSeq && b[t].slot < c.cap
    {
      assert d.es[|c.es| + t] == b[t];
    }
    forall l | 0 <= l < c.net.layers
      ensures After(Then(c, b))[l] == After(d)[l]
    {
      RowsSplit(c, b, l, |b|);
    }
    forall t, l | 0 <= t < |b| && 0 <= l <= c.net.layers
      ensures Hidden(Then(c, b), t, l) == Hidden(d, |c.es| + t, l)
    {
      HiddenSplit(c, b, t, l);
    }
  }

  // ------------------------------------------------- a slot sees only its own prefix

  /** Two chunks that feed the same tokens at the same positions to one slot each. */
  ghost predicate SameFeed(c: Chunk, s: nat, d: Chunk, u: nat, p: nat) {
    && ChunkOk(c) && ChunkOk(d) && d.net == c.net && |d.es| == |c.es|
    && s < c.cap && u < d.cap && p <= c.maxSeq && p <= d.maxSeq
    && (forall t :: 0 <= t < |c.es| ==> c.es[t] == Entry(c.es[t].tok, p + t, s))
    && (forall t :: 0 <= t < |c.es| ==> d.es[t] == Entry(c.es[t].tok, p + t, u))
    && (forall l :: 0 <= l < c.net.layers ==> c.kv[l][s][..p] == d.kv[l][u][..p])
  }

  lemma PrefixRoom(c: Chunk, s: nat, d: Chunk, u: nat, p: nat, t: nat)
    requires SameFeed(c, s, d, u, p) && t <= |c.es|
    ensures p + t <= c.maxSeq && p + t <= d.maxSeq
  {
    if t > 0 {
      assert c.es[t - 1].pos < c.maxSeq && d.es[t - 1].pos < d.maxSeq;
    }
  }

  lemma {:induction false} RowsAgree(c: Chunk, s: nat, d: Chunk, u: nat, p: nat, l: nat, t: nat)
    requires SameFeed(c, s, d, u, p) && l < c.net.layers && t <= |c.es|
    ensures p + t <= c.maxSeq && p + t <= d.maxSeq
    ensures RowsAfter(c, l, t)[s][..p + t] == RowsAfter(d, l, t)[u][..p + t]
    decreases l, t, 0
  {
    PrefixRoom(c, s, d, u, p, t);
    if t > 0 {
      RowsAgree(c, s, d, u, p, l, t - 1);
      HiddenAgrees(c, s, d, u, p, t - 1, l);
      var n := p + t - 1;
      var x, y := RowsAfter(c, l, t - 1)[s], RowsAfter(d, l, t - 1)[u];
      var row := c.net.row(l, Hidden(c, t - 1, l), n);
      assert RowsAfter(c, l, t)[s] == x[n := row] && RowsAfter(d, l, t)[u] == y[n := row];
      assert x[n := row][..n + 1] == x[..n] + [row];
      assert y[n := row][..n + 1] == y[..n] + [row];
    }
  }

  /** The hidden states depend on the slot's prefix and the tokens, on nothing else. */
  lemma {:induction false} HiddenAgrees(c: Chunk, s: nat, d: Chunk, u: nat, p: nat, t: nat, l: nat)
    requires SameFeed(c, s, d, u, p) && l <= c.net.layers && t < |c.es|
    ensures Hidden(c, t, l) == Hidden(d, t, l)
    decreases l, t, 0
  {
    assert c.es[t].tok == d.es[t].tok;
    if l > 0 {
      HiddenAgrees(c, s, d, u, p, t, l - 1);
      RowsAgree(c, s, d, u, p, l - 1, t + 1);
    }
  }

  /** Other slots are left alone. */
  lemma {:induction false} OtherSlotsUntouched(c: Chunk, l: nat, t: nat, s: nat)
    requires ChunkOk(c) && l < c.net.layers && t <= |c.es| && s < c.cap
    requires forall i :: 0 <= i < t ==> c.es[i].slot != s
    ensures RowsAfter(c, l, t)[s] == c.kv[l][s]
    decreases t
  {
    if t > 0 {
      OtherSlotsUntouched(c, l, t - 1, s);
    }
  }

  /** Positions below the first one written keep their rows. */
  lemma {:induction false} EarlierRowsUntouched(c: Chunk, l: nat, t: nat, s: nat, p: nat)
    requires ChunkOk(c) && l < c.net.layers && t <= |c.es| && s < c.cap && p <= c.maxSeq
    requires forall i :: 0 <= i < t ==> c.es[i].slot != s || p <= c.es[i].pos
    ensures RowsAfter(c, l, t)[s][..p] == c.kv[l][s][..p]
    decreases t
  {
    if t > 0 {
      EarlierRowsUntouched(c, l, t - 1, s, p);
    }
  }
}
