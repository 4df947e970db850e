/** The two schedules of the decode loop (crates/llmpager-run/src/decode.rs): `step` runs
    one token through all layers, `step_multi` runs each layer over all tokens with
    experts fetched in waves. Both compute what DecodeModel defines. */
module Decoder {
  import opened Util
  import opened MoeWaves
  import opened DecodeModel
  import opened Sums
  import I = Interpreter

  /** The least finite binary32 value, where the argmax loops start. */
  const F32_MIN: real := -340282346638528859811704183484516925440.0

  /** `b` is the first index with the greatest logit above the start value, else 0. */
  predicate IsArgmax(v: seq<real>, b: nat) {
    if exists i :: 0 <= i < |v| && v[i] > F32_MIN
    then
      && b < |v| && v[b] > F32_MIN
      && (forall i :: 0 <= i < |v| ==> v[i] <= v[b])
      && (forall i :: 0 <= i < b ==> v[i] < v[b])
    else b == 0
  }

  lemma ArgmaxIsUnique(v: seq<real>, a: nat, b: nat)
    requires IsArgmax(v, a) && IsArgmax(v, b)
    ensures a == b
  {
  }

  method Argmax(v: seq<real>) returns (best: nat)
    ensures IsArgmax(v, best)
    ensures (forall i :: 0 <= i < |v| ==> v[i] <= F32_MIN) ==> best == 0
    ensures (exists i :: 0 <= i < |v| && v[i] > F32_MIN) ==>
              && best < |v|
              && (forall i :: 0 <= i < |v| ==> v[i] <= v[best])
              && (forall i :: 0 <= i < best ==> v[i] < v[best])
  {
    best := 0;
    var bestv := F32_MIN;
    for i := 0 to |v|
      invariant bestv == F32_MIN ==> best == 0 && forall j :: 0 <= j < i ==> v[j] <= F32_MIN
      invariant bestv != F32_MIN ==> best < i && bestv == v[best] > F32_MIN
      invariant bestv != F32_MIN ==> forall j :: 0 <= j < i ==> v[j] <= bestv
      invariant bestv != F32_MIN ==> forall j :: 0 <= j < best ==> v[j] < bestv
    {
      if v[i] > bestv {
        bestv := v[i];
        best := i;
      }
    }
  }

  predicate LastOfSlot(es: seq<Entry>, t: nat)
    requires t < |es|
  {
    forall u :: t < u < |es| ==> es[u].slot != es[t].slot
  }

  /** Running one more entry on its own extends the chunk run so far. */
  lemma OneMore(c: Chunk, es: seq<Entry>, i: nat)
    requires i < |es| && ChunkOk(c.(es := es[..i])) && es[i].pos < c.maxSeq && es[i].slot < c.cap
    ensures ChunkOk(Then(c.(es := es[..i]), [es[i]])) && ChunkOk(c.(es := es[..i + 1]))
    ensures After(Then(c.(es := es[..i]), [es[i]])) == After(c.(es := es[..i + 1]))
    ensures Hidden(Then(c.(es := es[..i]), [es[i]]), 0, c.net.layers) == Hidden(c.(es := es[..i + 1]), i, c.net.layers)
  {
    assert es[..i + 1] == es[..i] + [es[i]];
    ChunkingIsInvisible(c.(es := es[..i]), [es[i]]);
  }

  /** A host copy of one slot's KV: `len` rows per layer. KvCopy has its byte layout. */
  datatype Blob = Blob(rows: seq<seq<Vec>>, len: nat)

  predicate BlobShape(net: Net, b: Blob) {
    |b.rows| == net.layers && forall l :: 0 <= l < net.layers ==> |b.rows[l]| == b.len
  }

  class Device {
    const net: Net
    const cap: nat
    const maxSeq: nat
    const chunkCap: nat
    /** Slots per layer: the size of a wave. */
    const wave: nat
    /** The KV caches, as device memory by layer. */
    var kv: Kv
    /** Hidden states of the chunk. */
    var hBuf: seq<Vec>
    /** Logits per entry of the last `StepMulti`, empty where none were computed. */
    var logitsMulti: seq<seq<real>>
    /** The logits read back last, by either schedule. */
    var logitsHost: seq<real>

    ghost predicate Valid()
      reads this
    {
      NetOk(net) && KvShape(net, kv, cap, maxSeq) && 0 < cap && 0 < wave
    }

    constructor (net: Net, cap: nat, maxSeq: nat, chunkCap: nat, wave: nat, kv: Kv)
      requires NetOk(net) && KvShape(net, kv, cap, maxSeq) && 0 < cap && 0 < wave
      ensures Valid() && this.kv == kv && this.net == net
      ensures this.cap == cap && this.maxSeq == maxSeq && this.chunkCap == chunkCap && this.wave == wave
    {
      this.net, this.cap, this.maxSeq, this.chunkCap, this.wave := net, cap, maxSeq, chunkCap, wave;
      this.kv := kv;
      hBuf, logitsMulti, logitsHost := [], [], [];
    }

    ghost function ChunkOf(es: seq<Entry>): Chunk
      reads this
    {
      Chunk(net, kv, es, cap, maxSeq)
    }

    predicate Accepts(es: seq<Entry>) {
      && 0 < |es| <= chunkCap
      && forall t :: 0 <= t < |es| ==> es[t].pos < maxSeq && es[t].slot < cap
    }

    /** Append entry `e`'s row to layer `l` and attend over the rows up to its position. */
    method AttendOne(l: nat, e: Entry, h: Vec) returns (h': Vec)
      requires Valid() && l < net.layers && e.pos < maxSeq && e.slot < cap
      modifies this`kv
      ensures Valid()
      ensures kv == old(kv)[l := Write(old(kv)[l], e.slot, e.pos, net.row(l, h, e.pos), cap, maxSeq)]
      ensures h' == net.attend(l, h, e.pos, kv[l][e.slot][..e.pos + 1])
    {
      kv := kv[l := Write(kv[l], e.slot, e.pos, net.row(l, h, e.pos), cap, maxSeq)];
      h' := net.attend(l, h, e.pos, kv[l][e.slot][..e.pos + 1]);
    }

    /** The attention block of layer `l`, over the whole chunk in order. */
    method AttendChunk(l: nat, es: seq<Entry>, ghost c: Chunk)
      requires Valid() && l < net.layers && ChunkOk(c)
      requires c.net == net && c.es == es && c.cap == cap && c.maxSeq == maxSeq
      requires kv[l] == c.kv[l] && |hBuf| == |es|
      requires forall t :: 0 <= t < |es| ==> hBuf[t] == Hidden(c, t, l)
      modifies this`kv, this`hBuf
      ensures Valid() && |hBuf| == |es|
      ensures kv == old(kv)[l := RowsAfter(c, l, |es|)]
      ensures forall t :: 0 <= t < |es| ==> hBuf[t] == Attended(c, t, l)
    {
      assert RowsAfter(c, l, 0) == kv[l];
      hide RowsAfter;
      hide Hidden;
      hide Attended;
      for t := 0 to |es|
        invariant Valid() && |hBuf| == |es|
        invariant kv == old(kv)[l := RowsAfter(c, l, t)]
        invariant forall u :: 0 <= u < t ==> hBuf[u] == Attended(c, u, l)
        invariant forall u :: t <= u < |es| ==> hBuf[u] == Hidden(c, u, l)
      {
        var h := AttendOne(l, es[t], hBuf[t]);
        EntryAttends(c, l, t);
        hBuf := hBuf[t := h];
      }
    }

    /** The expert stage of layer `l`: route every token, then serve the union in waves. */
    method MixChunk(l: nat)
      requires Valid() && forall t :: 0 <= t < |hBuf| ==> |hBuf[t]| == net.hidden
      modifies this`hBuf
      ensures Valid() && |hBuf| == |old(hBuf)|
      ensures forall t :: 0 <= t < |hBuf| ==> hBuf[t] == Mix(net, l, old(hBuf)[t])
      ensures forall t :: 0 <= t < |hBuf| ==>
                var x := net.norm(l, old(hBuf)[t]);
                var picks := net.route(l, x);
                && |hBuf[t]| == net.hidden
                && forall i :: 0 <= i < net.hidden ==>
                     hBuf[t][i] == old(hBuf)[t][i] + Sum(Terms(net.experts(l), x, picks, i), |picks|)
    {
      var n := |hBuf|;
      var xs := seq(n, t requires 0 <= t < n && n == |hBuf| reads this => net.norm(l, hBuf[t]));
      var picks := seq(n, t requires 0 <= t < n && n == |xs| => net.route(l, xs[t]));
      var out, waves, launches := RunWaves(net.experts(l), xs, hBuf, picks, wave);
      hBuf := out;
    }

    /** For final hidden states `hs`: the logits and their argmax at the last entry of each
        slot, and nothing at the others. */
    ghost predicate Answered(es: seq<Entry>, hs: seq<Vec>, best: seq<nat>)
      reads this
    {
      && |best| == |hs| == |logitsMulti| == |es|
      && (forall t :: 0 <= t < |es| && (forall u :: t < u < |es| ==> es[u].slot != es[t].slot) ==>
            logitsMulti[t] == net.head(hs[t]) && IsArgmax(net.head(hs[t]), best[t]))
      && (forall t, u :: 0 <= t < u < |es| && es[u].slot == es[t].slot ==> logitsMulti[t] == [] && best[t] == 0)
    }

    /** Run a chunk through all layers, layer by layer. The cache, hidden states and logits
        are those of running its entries one after the other. */
    method StepMulti(es: seq<Entry>, wantLogits: bool) returns (r: Result<seq<nat>>)
      requires Valid()
      modifies this
      ensures Valid()
      ensures r.Ok? <==>
              0 < |es| <= chunkCap && forall t :: 0 <= t < |es| ==> es[t].pos < maxSeq && es[t].slot < cap
      ensures r.Err? ==> kv == old(kv)
      ensures r.Ok? ==>
                var c := old(ChunkOf(es));
                && ChunkOk(c) && kv == After(c) && |r.value| == |es|
                && (forall t :: 0 <= t < |es| ==>
                      if wantLogits && LastOfSlot(es, t)
                      then IsArgmax(net.head(Hidden(c, t, net.layers)), r.value[t])
                      else r.value[t] == 0)
                && (wantLogits ==> |logitsMulti| == |es| && logitsHost == logitsMulti[|es| - 1])
                && (wantLogits ==>
                      forall t :: 0 <= t < |es| && LastOfSlot(es, t) ==>
                          logitsMulti[t] == net.head(Hidden(c, t, net.layers)))
      ensures r.Ok? ==>
                var m := I.Interpret(old(ChunkOf(es)), |es|);
                && kv == m.kv && hBuf == m.hs && |r.value| == |es|
                && (wantLogits ==> Answered(es, m.hs, r.value))
                && (!wantLogits ==> forall t :: 0 <= t < |es| ==> r.value[t] == 0)
    {
      if !Accepts(es) {
        return Err;
      }
      ghost var c := ChunkOf(es);
      I.MeaningIsInterpreted(c);
      hBuf := seq(|es|, t requires 0 <= t < |es| => net.embed(es[t].tok));
      RunLayers(es, c);
      if !wantLogits {
        return Ok(seq(|es|, _ => 0));
      }
      var out := Heads(es, c);
      return Ok(out);
    }

    method RunLayers(es: seq<Entry>, ghost c: Chunk)
      requires Valid() && ChunkOk(c) && c == ChunkOf(es) && |hBuf| == |es|
      requires forall t :: 0 <= t < |es| ==> hBuf[t] == Hidden(c, t, 0)
      modifies this`kv, this`hBuf
      ensures Valid() && kv == After(c) && |hBuf| == |es|
      ensures forall t :: 0 <= t < |es| ==> hBuf[t] == Hidden(c, t, net.layers)
    {
      for l := 0 to net.layers
        invariant Valid() && |hBuf| == |es|
        invariant forall j :: 0 <= j < l ==> kv[j] == RowsAfter(c, j, |es|)
        invariant forall j :: l <= j < net.layers ==> kv[j] == c.kv[j]
        invariant forall t :: 0 <= t < |es| ==> hBuf[t] == Hidden(c, t, l)
      {
        OneLayer(l, es, c);
      }
    }

    method OneLayer(l: nat, es: seq<Entry>, ghost c: Chunk)
      requires Valid() && l < net.layers && ChunkOk(c)
      requires c.net == net && c.es == es && c.cap == cap && c.maxSeq == maxSeq
      requires kv[l] == c.kv[l] && |hBuf| == |es|
      requires forall t :: 0 <= t < |es| ==> hBuf[t] == Hidden(c, t, l)
      modifies this`kv, this`hBuf
      ensures Valid() && |hBuf| == |es|
      ensures kv == old(kv)[l := RowsAfter(c, l, |es|)]
      ensures forall t :: 0 <= t < |es| ==> hBuf[t] == Hidden(c, t, l + 1)
    {
      AttendChunk(l, es, c);
      MixChunk(l);
    }

    /** Final norm, output head and argmax, for the last entry of each slot only. */
    method Heads(es: seq<Entry>, ghost c: Chunk) returns (out: seq<nat>)
      requires ChunkOk(c) && c.es == es && c.net == net && |hBuf| == |es|
      requires forall t :: 0 <= t < |es| ==> hBuf[t] == Hidden(c, t, net.layers)
      modifies this`logitsMulti, this`logitsHost
      ensures |out| == |es| == |logitsMulti|
      ensures es != [] ==> logitsHost == logitsMulti[|es| - 1]
      ensures forall t :: 0 <= t < |es| ==>
                            if LastOfSlot(es, t) then IsArgmax(net.head(Hidden(c, t, net.layers)), out[t])
                                else out[t] == 0
      ensures forall t :: 0 <= t < |es| ==>
                            if LastOfSlot(es, t) then logitsMulti[t] == net.head(Hidden(c, t, net.layers))
                            else logitsMulti[t] == []
    {
      logitsMulti, out := [], [];
      for t := 0 to |es|
        invariant |out| == t == |logitsMulti|
        invariant 0 < t == |es| ==> logitsHost == logitsMulti[t - 1]
        invariant forall u :: 0 <= u < t ==>
                                if LastOfSlot(es, u) then IsArgmax(net.head(Hidden(c, u, net.layers)), out[u])
                                    else out[u] == 0
        invariant forall u :: 0 <= u < t ==>
                                if LastOfSlot(es, u) then logitsMulti[u] == net.head(Hidden(c, u, net.layers))
                                else logitsMulti[u] == []
      {
        if LastOfSlot(es, t) {
          logitsHost := net.head(hBuf[t]);
          var best := Argmax(logitsHost);
          logitsMulti, out := logitsMulti + [logitsHost], out + [best];
        } else {
          logitsMulti, out := logitsMulti + [[]], out + [0];
        }
      }
    }

    /** One token at `pos` on slot 0, all layers at once; no logits, no argmax, unless wanted. */
    method Step(token: nat, pos: nat, wantLogits: bool) returns (r: Result<nat>)
      requires Valid()
      modifies this`kv, this`logitsHost
      ensures Valid()
      ensures r.Ok? <==> pos < maxSeq
      ensures r.Err? ==> kv == old(kv)
      ensures r.Ok? ==>
                var c := old(ChunkOf([Entry(token, pos, 0)]));
                && ChunkOk(c) && kv == After(c)
                && (if wantLogits
                    then logitsHost == net.head(Hidden(c, 0, net.layers)) && IsArgmax(logitsHost, r.value)
                    else r.value == 0)
      ensures r.Ok? ==>
                var m := I.Interpret(old(ChunkOf([Entry(token, pos, 0)])), 1);
                kv == m.kv && (wantLogits ==> logitsHost == net.head(m.hs[0]))
    {
      if pos >= maxSeq {
        return Err;
      }
      ghost var c := ChunkOf([Entry(token, pos, 0)]);
      I.MeaningIsInterpreted(c);
      var h := StepLayers(Entry(token, pos, 0), c);
      if !wantLogits {
        return Ok(0);
      }
      logitsHost := net.head(h);
      var best := Argmax(logitsHost);
      return Ok(best);
    }

    /** One entry from its embedding through all layers. */
    method StepLayers(e: Entry, ghost c: Chunk) returns (h: Vec)
      requires Valid() && e.pos < maxSeq && e.slot < cap && c == ChunkOf([e])
      modifies this`kv
      ensures Valid() && ChunkOk(c) && kv == After(c) && h == Hidden(c, 0, net.layers)
    {
      h := net.embed(e.tok);
      hide RowsAfter;
      hide Attended;
      for l := 0 to net.layers
        invariant Valid() && h == Hidden(c, 0, l)
        invariant forall j :: 0 <= j < l ==> kv[j] == RowsAfter(c, j, 1)
        invariant forall j :: l <= j < net.layers ==> kv[j] == c.kv[j]
      {
        h := AttendOne(l, e, h);
        EntryAttends(c, l, 0);
        NoEntries(c, l);
        var x := net.norm(l, h);
        h := LaunchPicks(net.experts(l), x, h, net.route(l, x));
      }
    }

    /** Copy slot `seq`'s KV for positions below `len` to the host. */
    method KvExport(slot: nat, len: nat) returns (r: Result<Blob>)
      requires Valid()
      ensures r.Ok? <==> slot < cap && len <= maxSeq
      ensures r.Ok? ==> BlobShape(net, r.value) && r.value.len == len
      ensures r.Ok? ==> forall l :: 0 <= l < net.layers ==> r.value.rows[l] == kv[l][slot][..len]
    {
      if slot >= cap || len > maxSeq {
        return Err;
      }
      var rows: seq<seq<Vec>> := [];
      for l := 0 to net.layers
        invariant |rows| == l && forall j :: 0 <= j < l ==> rows[j] == kv[j][slot][..len]
      {
        rows := rows + [kv[l][slot][..len]];
      }
      return Ok(Blob(rows, len));
    }

    /** Inverse of `KvExport`: put a parked context back, into this or another slot. */
    method KvImport(slot: nat, len: nat, blob: Blob) returns (ok: bool)
      requires Valid() && BlobShape(net, blob)
      modifies this`kv
      ensures Valid()
      ensures ok <==> slot < cap && len <= maxSeq && blob.len == len
      ensures !ok ==> kv == old(kv)
      ensures ok ==> forall l :: 0 <= l < net.layers ==>
                                   kv[l] == old(kv)[l][slot := blob.rows[l] + old(kv)[l][slot][len..]]
    {
      if slot >= cap || len > maxSeq || blob.len != len {
        return false;
      }
      for l := 0 to net.layers
        invariant Valid()
        invariant forall j :: 0 <= j < l ==> kv[j] == old(kv)[j][slot := blob.rows[j] + old(kv)[j][slot][len..]]
        invariant forall j :: l <= j < net.layers ==> kv[j] == old(kv)[j]
      {
        kv := kv[l := kv[l][slot := blob.rows[l] + kv[l][slot][len..]]];
      }
      return true;
    }

    /** One more token of a feed on slot 0, after `i` of them. */
    method StepNext(ghost c: Chunk, ghost es: seq<Entry>, i: nat, token: nat, pos: nat, want: bool)
      returns (r: Result<nat>)
      requires Valid() && i < |es| && es[i] == Entry(token, pos, 0)
      requires ChunkOk(c.(es := es[..i])) && c.net == net && c.cap == cap && c.maxSeq == maxSeq
      requires kv == After(c.(es := es[..i]))
      modifies this`kv, this`logitsHost
      ensures Valid()
      ensures r.Ok? <==> pos < maxSeq
      ensures r.Ok? ==>
                && ChunkOk(c.(es := es[..i + 1])) && kv == After(c.(es := es[..i + 1]))
                && (want ==> IsArgmax(net.head(Hidden(c.(es := es[..i + 1]), i, net.layers)), r.value))
    {
      ghost var done := c.(es := es[..i]);
      assert ChunkOf([es[i]]) == Then(done, [es[i]]);
      r := Step(token, pos, want);
      if r.Ok? {
        OneMore(c, es, i);
      }
      hide After;
      hide Hidden;
      hide NetOk;
    }

    /** Loop interchange: feeding the tokens of a chunk one by one through `Step` on slot 0
        leaves the cache `StepMulti` leaves, and the same final argmax. */
    method StepOneByOne(tokens: seq<nat>, start: nat) returns (r: Result<nat>)
      requires Valid() && 0 < |tokens|
      modifies this`kv, this`logitsHost
      ensures Valid()
      ensures r.Ok? <==> start + |tokens| <= maxSeq
      ensures r.Ok? ==>
                var es := seq(|tokens|, i requires 0 <= i < |tokens| => Entry(tokens[i], start + i, 0));
                var c := old(ChunkOf(es));
                && ChunkOk(c) && kv == After(c)
                && IsArgmax(net.head(Hidden(c, |tokens| - 1, net.layers)), r.value)
    {
      ghost var es := seq(|tokens|, i requires 0 <= i < |tokens| => Entry(tokens[i], start + i, 0));
      ghost var c0 := ChunkOf(es);
      assert ChunkOk(c0.(es := es[..0])) && kv == After(c0.(es := es[..0]));
      r := Err;
      hide After;
      hide Hidden;
      hide NetOk;
      for i := 0 to |tokens|
        invariant Valid() && (0 < i ==> start + i <= maxSeq)
        invariant ChunkOk(c0.(es := es[..i])) && kv == After(c0.(es := es[..i]))
        invariant i == |tokens| ==> r.Ok? && IsArgmax(net.head(Hidden(c0.(es := es[..i]), i - 1, net.layers)), r.value)
      {
        r := StepNext(c0, es, i, tokens[i], start + i, i + 1 == |tokens|);
        if r.Err? {
          return;
        }
      }
      assert es[..|tokens|] == es;
    }
  }
}
