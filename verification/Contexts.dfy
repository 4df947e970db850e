/** The KV state of a token list, independent of the slot, the cache size, what the slot
    held before and how the tokens were chunked. A slot that holds a context can be
    extended by any feed of further tokens. */
module Contexts {
  import opened MoeWaves
  import opened DecodeModel
  import I = Interpreter

  /** Tokens as entries of slot `s`, at positions from `p` on. */
  function Feed(toks: seq<nat>, p: nat, s: nat): (es: seq<Entry>)
    ensures |es| == |toks|
  {
    seq(|toks|, i requires 0 <= i < |toks| => Entry(toks[i], p + i, s))
  }

  function Blank(net: Net, n: nat): Kv {
    seq(net.layers, _ => [seq(n, _ => [])])
  }

  /** The tokens fed into a blank one-slot cache just long enough for them. */
  function Canon(net: Net, toks: seq<nat>): Chunk {
    Chunk(net, Blank(net, |toks|), Feed(toks, 0, 0), 1, |toks|)
  }

  lemma CanonOk(net: Net, toks: seq<nat>)
    requires NetOk(net)
    ensures ChunkOk(Canon(net, toks))
  {
  }

  /** Layer `l`'s KV rows for a token list. */
  ghost function Context(net: Net, toks: seq<nat>, l: nat): (rows: seq<Vec>)
    requires NetOk(net) && l < net.layers
    ensures |rows| == |toks|
  {
    CanonOk(net, toks);
    RowsAfter(Canon(net, toks), l, |toks|)[0]
  }

  /** The logits after a token list. */
  ghost function LogitsAfter(net: Net, toks: seq<nat>): seq<real>
    requires NetOk(net) && 0 < |toks|
  {
    CanonOk(net, toks);
    net.head(Hidden(Canon(net, toks), |toks| - 1, net.layers))
  }

  /** Slot `s` holds the KV of `toks`. */
  ghost predicate Holds(net: Net, kv: Kv, s: nat, toks: seq<nat>) {
    && NetOk(net) && |kv| == net.layers
    && forall l :: 0 <= l < net.layers ==>
                     s < |kv[l]| && |toks| <= |kv[l][s]| && kv[l][s][..|toks|] == Context(net, toks, l)
  }

  /** The first `p` tokens, run in the longer canonical chunk. */
  lemma CanonCut(net: Net, toks: seq<nat>, p: nat, l: nat)
    requires NetOk(net) && p <= |toks| && l < net.layers
    ensures ChunkOk(Canon(net, toks)) && ChunkOk(Canon(net, toks).(es := Feed(toks[..p], 0, 0)))
    ensures RowsAfter(Canon(net, toks).(es := Feed(toks[..p], 0, 0)), l, p)[0][..p] == Context(net, toks[..p], l)
  {
    CanonOk(net, toks);
    CanonOk(net, toks[..p]);
    var c, d := Canon(net, toks).(es := Feed(toks[..p], 0, 0)), Canon(net, toks[..p]);
    assert SameFeed(c, 0, d, 0, 0);
    RowsAgree(c, 0, d, 0, 0, l, p);
  }

  /** The canonical run cut after `p` tokens. */
  function Cut(net: Net, toks: seq<nat>, p: nat): Chunk
    requires p <= |toks|
  {
    Canon(net, toks).(es := Feed(toks[..p], 0, 0))
  }

  lemma CutAndRest(net: Net, toks: seq<nat>, p: nat)
    requires NetOk(net) && p <= |toks|
    ensures ChunkOk(Canon(net, toks)) && ChunkOk(Cut(net, toks, p))
    ensures Cut(net, toks, p).(es := Cut(net, toks, p).es + Feed(toks[p..], p, 0)) == Canon(net, toks)
  {
    CanonOk(net, toks);
    assert Cut(net, toks, p).es + Feed(toks[p..], p, 0) == Canon(net, toks).es;
  }

  /** The canonical run of `toks`, resumed after its first `p` tokens. */
  ghost function Resumed(net: Net, toks: seq<nat>, p: nat): (d: Chunk)
    requires NetOk(net) && p <= |toks|
    ensures ChunkOk(d) && d.net == net && d.cap == 1 && d.maxSeq == |toks| && d.es == Feed(toks[p..], p, 0)
  {
    CutAndRest(net, toks, p);
    ChunkingIsInvisible(Cut(net, toks, p), Feed(toks[p..], p, 0));
    Then(Cut(net, toks, p), Feed(toks[p..], p, 0))
  }

  lemma ResumedIsCanon(net: Net, toks: seq<nat>, p: nat, l: nat)
    requires NetOk(net) && p <= |toks| && l < net.layers
    ensures RowsAfter(Resumed(net, toks, p), l, |toks| - p)[0] == Context(net, toks, l)
    ensures Resumed(net, toks, p).kv[l][0][..p] == Context(net, toks[..p], l)
  {
    hide RowsAfter;
    CutAndRest(net, toks, p);
    CanonCut(net, toks, p, l);
    var a, b := Cut(net, toks, p), Feed(toks[p..], p, 0);
    assert Resumed(net, toks, p) == Then(a, b);
    assert Then(a, b).kv[l] == RowsAfter(a, l, p);
    hide Cut;
    RowsSplit(a, b, l, |b|);
  }

  lemma ResumedHidden(net: Net, toks: seq<nat>, p: nat, l: nat)
    requires NetOk(net) && p < |toks| && l <= net.layers
    ensures ChunkOk(Canon(net, toks))
    ensures Hidden(Resumed(net, toks, p), |toks| - 1 - p, l) == Hidden(Canon(net, toks), |toks| - 1, l)
  {
    CutAndRest(net, toks, p);
    hide Hidden;
    hide Feed;
    HiddenSplitOf(Canon(net, toks), Cut(net, toks, p), Feed(toks[p..], p, 0), |toks| - 1, |toks| - 1 - p, l);
  }

  lemma ResumedLogits(net: Net, toks: seq<nat>, p: nat)
    requires NetOk(net) && p < |toks|
    ensures net.head(Hidden(Resumed(net, toks, p), |toks| - 1 - p, net.layers)) == LogitsAfter(net, toks)
  {
    hide Hidden;
    hide Resumed;
    ResumedHidden(net, toks, p, net.layers);
  }

  /** A context contains the contexts of its prefixes. */
  lemma ContextPrefix(net: Net, toks: seq<nat>, p: nat, l: nat)
    requires NetOk(net) && p <= |toks| && l < net.layers
    ensures Context(net, toks, l)[..p] == Context(net, toks[..p], l)
  {
    ResumedIsCanon(net, toks, p, l);
    var d := Resumed(net, toks, p);
    forall i | 0 <= i < |d.es|
      ensures p <= d.es[i].pos
    {
    }
    hide RowsAfter;
    hide Context;
    hide Resumed;
    hide Feed;
    EarlierRowsUntouched(d, l, |toks| - p, 0, p);
  }

  lemma HoldsPrefix(net: Net, kv: Kv, s: nat, toks: seq<nat>, p: nat)
    requires Holds(net, kv, s, toks) && p <= |toks|
    ensures Holds(net, kv, s, toks[..p])
  {
    forall l | 0 <= l < net.layers
      ensures kv[l][s][..p] == Context(net, toks[..p], l)
    {
      ContextPrefix(net, toks, p, l);
      assert kv[l][s][..p] == kv[l][s][..|toks|][..p];
    }
  }

  /** Any slot that holds the first `p` tokens and is fed the rest is in step with the
      canonical run. */
  lemma FeedFollowsCanon(c: Chunk, s: nat, toks: seq<nat>, p: nat)
    requires ChunkOk(c) && s < c.cap && p < |toks| && Holds(c.net, c.kv, s, toks[..p])
    requires c.es == Feed(toks[p..], p, s)
    ensures SameFeed(c, s, Resumed(c.net, toks, p), 0, p)
  {
    var net := c.net;
    var d := Resumed(net, toks, p);
    assert c.es[0].pos < c.maxSeq;
    hide Resumed;
    forall l | 0 <= l < net.layers
      ensures c.kv[l][s][..p] == d.kv[l][0][..p]
    {
      ResumedIsCanon(net, toks, p, l);
      assert |toks[..p]| == p;
    }
  }

  lemma AfterAgrees(c: Chunk, s: nat, d: Chunk, p: nat, l: nat)
    requires SameFeed(c, s, d, 0, p) && l < c.net.layers
    ensures l < |After(c)| && s < |After(c)[l]| && p + |c.es| <= |After(c)[l][s]|
    ensures After(c)[l][s][..p + |c.es|] == RowsAfter(d, l, |c.es|)[0][..p + |c.es|]
  {
    RowsAgree(c, s, d, 0, p, l, |c.es|);
    hide RowsAfter;
  }

  lemma FeedExtendsAt(c: Chunk, s: nat, toks: seq<nat>, p: nat, l: nat)
    requires NetOk(c.net) && l < c.net.layers && p < |toks| && c.es == Feed(toks[p..], p, s)
    requires SameFeed(c, s, Resumed(c.net, toks, p), 0, p)
    ensures s < |After(c)[l]| && |toks| <= |After(c)[l][s]| && After(c)[l][s][..|toks|] == Context(c.net, toks, l)
  {
    hide Resumed;
    hide RowsAfter;
    hide Context;
    hide After;
    hide Feed;
    hide SameFeed;
    hide NetOk;
    assert p + |c.es| == |toks|;
    AfterAgrees(c, s, Resumed(c.net, toks, p), p, l);
    ResumedIsCanon(c.net, toks, p, l);
    var r := RowsAfter(Resumed(c.net, toks, p), l, |c.es|)[0];
    assert r[..|toks|] == r;
  }

  /** Feeding more tokens to a slot that holds a prefix makes it hold the whole list. */
  lemma FeedExtends(c: Chunk, s: nat, toks: seq<nat>, p: nat)
    requires ChunkOk(c) && s < c.cap && p < |toks| && Holds(c.net, c.kv, s, toks[..p])
    requires c.es == Feed(toks[p..], p, s)
    ensures Holds(c.net, After(c), s, toks)
  {
    FeedFollowsCanon(c, s, toks, p);
    hide Resumed;
    hide RowsAfter;
    hide Context;
    hide SameFeed;
    hide Feed;
    forall l | 0 <= l < c.net.layers
      ensures s < |After(c)[l]| && |toks| <= |After(c)[l][s]| && After(c)[l][s][..|toks|] == Context(c.net, toks, l)
    {
      FeedExtendsAt(c, s, toks, p, l);
    }
    hide SameFeed;
    hide Resumed;
    hide RowsAfter;
  }

  /** The hidden states of the feed, hence its logits, are those of the token list. */
  lemma FeedLogits(c: Chunk, s: nat, toks: seq<nat>, p: nat)
    requires ChunkOk(c) && s < c.cap && p < |toks| && Holds(c.net, c.kv, s, toks[..p])
    requires c.es == Feed(toks[p..], p, s)
    ensures c.net.head(Hidden(c, |toks| - 1 - p, c.net.layers)) == LogitsAfter(c.net, toks)
  {
    FeedFollowsCanon(c, s, toks, p);
    hide Resumed;
    hide Hidden;
    hide LogitsAfter;
    HiddenAgrees(c, s, Resumed(c.net, toks, p), 0, p, |toks| - 1 - p, c.net.layers);
    ResumedLogits(c.net, toks, p);
  }

  lemma HoldsNothing(net: Net, kv: Kv, slot: nat)
    requires NetOk(net) && |kv| == net.layers && forall l :: 0 <= l < net.layers ==> slot < |kv[l]|
    ensures Holds(net, kv, slot, [])
  {
    forall l | 0 <= l < net.layers
      ensures kv[l][slot][..0] == Context(net, [], l)
    {
      assert |Context(net, [], l)| == 0;
    }
  }

  /** The rows and the logits of a token list are what the interpreter computes on it, in
      any slot of any cache, whatever the cache holds. */
  lemma ContextIsInterpreted(c: Chunk, s: nat, toks: seq<nat>)
    requires ChunkOk(c) && s < c.cap && 0 < |toks| == |c.es|
    requires forall i :: 0 <= i < |toks| ==> c.es[i] == Entry(toks[i], i, s)
    ensures LogitsAfter(c.net, toks) == c.net.head(I.Interpret(c, |toks|).hs[|toks| - 1])
    ensures forall l :: 0 <= l < c.net.layers ==>
                          && |toks| <= |I.Interpret(c, |toks|).kv[l][s]|
                          && I.Interpret(c, |toks|).kv[l][s][..|toks|] == Context(c.net, toks, l)
  {
    assert c.es == Feed(toks[0..], 0, s);
    assert toks[..0] == [];
    HoldsNothing(c.net, c.kv, s);
    FeedExtends(c, s, toks, 0);
    FeedLogits(c, s, toks, 0);
    I.MeaningIsInterpreted(c);
    hide LogitsAfter;
    hide Context;
    hide Hidden;
    hide After;
    hide I.Interpret;
  }
}
