/** The decoder's meaning, token by token (crates/llmpager-run/src/decode.rs:263-363): a
    plain interpreter that runs one entry after the other through all layers, on a cache
    it updates as it goes. What DecodeModel defines, layer by layer, is what it computes. */
module Interpreter {
  import opened Sums
  import opened MoeWaves
  import opened DecodeModel

  /** The cache and the hidden state of the entry being run. */
  datatype State = State(kv: Kv, h: Vec)

  /** Entry `e` through layer `l`: append its KV row, attend over the rows up to its
      position, and add the weighted outputs of the experts it is routed to. */
  ghost function OneLayer(c: Chunk, l: nat, e: Entry, s: State): (r: State)
    requires NetOk(c.net) && KvShape(c.net, s.kv, c.cap, c.maxSeq)
    requires l < c.net.layers && e.slot < c.cap && e.pos < c.maxSeq
    ensures KvShape(c.net, r.kv, c.cap, c.maxSeq) && |r.h| == c.net.hidden
  {
    var row := c.net.row(l, s.h, e.pos);
    var kv := s.kv[l := s.kv[l][e.slot := s.kv[l][e.slot][e.pos := row]]];
    var a := c.net.attend(l, s.h, e.pos, kv[l][e.slot][..e.pos + 1]);
    var x := c.net.norm(l, a);
    var picks := c.net.route(l, x);
    State(kv, seq(|a|, i requires 0 <= i < |a| => a[i] + Sum(Terms(c.net.experts(l), x, picks, i), |picks|)))
  }

  /** Entry `e` from its embedding through the first `l` layers. */
  ghost function OneEntry(c: Chunk, kv: Kv, e: Entry, l: nat): (r: State)
    requires NetOk(c.net) && KvShape(c.net, kv, c.cap, c.maxSeq)
    requires l <= c.net.layers && e.slot < c.cap && e.pos < c.maxSeq
    ensures KvShape(c.net, r.kv, c.cap, c.maxSeq) && |r.h| == c.net.hidden
  {
    if l == 0 then State(kv, c.net.embed(e.tok)) else OneLayer(c, l - 1, e, OneEntry(c, kv, e, l - 1))
  }

  /** The cache after some entries, and their hidden states. */
  datatype Trace = Trace(kv: Kv, hs: seq<Vec>)

  /** The first `n` entries of a chunk, one after the other. */
  ghost function Interpret(c: Chunk, n: nat): (r: Trace)
    requires ChunkOk(c) && n <= |c.es|
    ensures KvShape(c.net, r.kv, c.cap, c.maxSeq) && |r.hs| == n
  {
    if n == 0 then Trace(c.kv, [])
    else
      var before := Interpret(c, n - 1);
      var s := OneEntry(c, before.kv, c.es[n - 1], c.net.layers);
      Trace(s.kv, before.hs + [s.h])
  }

  // ------------------------------------------------------ it computes the meaning

  /** `kv` has entry `t` in the first `l` layers, and the entries before it in all. */
  ghost predicate UpTo(c: Chunk, t: nat, l: nat, kv: Kv) {
    && ChunkOk(c) && t <= |c.es| && |kv| == c.net.layers
    && (forall j :: 0 <= j < c.net.layers && j >= l ==> kv[j] == RowsAfter(c, j, t))
    && (forall j :: 0 <= j < c.net.layers && j < l ==> t < |c.es| && kv[j] == RowsAfter(c, j, t + 1))
  }

  lemma MixIsSum(net: Net, l: nat, a: Vec)
    requires NetOk(net) && |a| == net.hidden
    ensures var x := net.norm(l, a);
            var picks := net.route(l, x);
            Mix(net, l, a) ==
            seq(|a|, i requires 0 <= i < |a| => a[i] + Sum(Terms(net.experts(l), x, picks, i), |picks|))
  {
    var x := net.norm(l, a);
    AddPicksAt(net.experts(l), x, a, net.route(l, x));
    hide Sum;
    hide Terms;
  }

  /** One entry's write and attention, on the cache in hand. */
  lemma LayerAgrees(c: Chunk, t: nat, l: nat, kv: Kv)
    requires UpTo(c, t, l, kv) && KvShape(c.net, kv, c.cap, c.maxSeq) && t < |c.es| && l < c.net.layers
    ensures var s := OneLayer(c, l, c.es[t], State(kv, Hidden(c, t, l)));
            UpTo(c, t, l + 1, s.kv) && s.h == Hidden(c, t, l + 1)
  {
    EntryAttends(c, l, t);
    MixIsSum(c.net, l, Attended(c, t, l));
    hide RowsAfter;
    hide Attended;
    hide Mix;
    hide Sum;
    hide Terms;
    var e := c.es[t];
    assert kv[l] == RowsAfter(c, l, t);
  }

  lemma {:induction false} EntryAgrees(c: Chunk, t: nat, l: nat, kv: Kv)
    requires ChunkOk(c) && t < |c.es| && l <= c.net.layers
    requires UpTo(c, t, 0, kv) && KvShape(c.net, kv, c.cap, c.maxSeq)
    ensures var s := OneEntry(c, kv, c.es[t], l);
            UpTo(c, t, l, s.kv) && s.h == Hidden(c, t, l)
  {
    hide UpTo;
    hide OneLayer;
    if l > 0 {
      EntryAgrees(c, t, l - 1, kv);
      LayerAgrees(c, t, l - 1, OneEntry(c, kv, c.es[t], l - 1).kv);
      hide Hidden;
    }
  }

  lemma EntryDone(c: Chunk, t: nat, kv: Kv)
    requires UpTo(c, t, c.net.layers, kv) && t < |c.es|
    ensures UpTo(c, t + 1, 0, kv)
  {
    hide RowsAfter;
  }

  /** One more entry. */
  lemma NextEntryAgrees(c: Chunk, n: nat)
    requires ChunkOk(c) && 0 < n <= |c.es| && UpTo(c, n - 1, 0, Interpret(c, n - 1).kv)
    ensures UpTo(c, n, 0, Interpret(c, n).kv)
    ensures Interpret(c, n).hs == Interpret(c, n - 1).hs + [Hidden(c, n - 1, c.net.layers)]
  {
    hide UpTo;
    hide Hidden;
    hide OneEntry;
    var before := Interpret(c, n - 1);
    EntryAgrees(c, n - 1, c.net.layers, before.kv);
    EntryDone(c, n - 1, OneEntry(c, before.kv, c.es[n - 1], c.net.layers).kv);
  }

  lemma NothingRun(c: Chunk)
    requires ChunkOk(c)
    ensures UpTo(c, 0, 0, Interpret(c, 0).kv)
  {
    forall l | 0 <= l < c.net.layers
      ensures c.kv[l] == RowsAfter(c, l, 0)
    {
      NoEntries(c, l);
    }
  }

  lemma {:induction false} InterpretAgrees(c: Chunk, n: nat)
    requires ChunkOk(c) && n <= |c.es|
    ensures UpTo(c, n, 0, Interpret(c, n).kv)
    ensures forall t :: 0 <= t < n ==> Interpret(c, n).hs[t] == Hidden(c, t, c.net.layers)
  {
    hide UpTo;
    hide Hidden;
    hide Interpret;
    if n == 0 {
      NothingRun(c);
    } else {
      InterpretAgrees(c, n - 1);
      NextEntryAgrees(c, n);
    }
  }

  /** The cache and the hidden states of a chunk are the interpreter's. */
  lemma MeaningIsInterpreted(c: Chunk)
    requires ChunkOk(c)
    ensures After(c) == Interpret(c, |c.es|).kv
    ensures forall t :: 0 <= t < |c.es| ==> Hidden(c, t, c.net.layers) == Interpret(c, |c.es|).hs[t]
  {
    InterpretAgrees(c, |c.es|);
    hide RowsAfter;
    hide Hidden;
    hide Interpret;
  }
}
