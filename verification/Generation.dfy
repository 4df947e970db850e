/** Generation over a slot that may already hold part of the prompt
    (crates/llmpager-serve/src/main.rs:389-453, 472-553), against a cold run that
    prefills everything. */
module Generation {
  import opened Util
  import opened MoeWaves
  import opened DecodeModel
  import opened Contexts
  import opened SessionModel
  import D = Decoder

  /** `draw` is the sampler: logits, tokens so far and generator state to a token and the
      next state. Greedy decoding with no repeat penalty does not call it. */
  datatype Sampling = Sampling(greedy: bool, seed: nat, draw: (seq<real>, seq<nat>, nat) -> (nat, nat))

  datatype Gen = Gen(net: Net, sp: Sampling, eos: set<nat>, maxSeq: nat, maxTokens: nat)

  /** The vocabulary is not empty. */
  ghost predicate HeadOk(net: Net) {
    forall h: Vec :: |net.head(h)| > 0
  }

  lemma {:induction false} ArgmaxExists(v: seq<real>) returns (b: nat)
    ensures D.IsArgmax(v, b)
    decreases |v|
  {
    if v == [] {
      b := 0;
    } else {
      var n := |v| - 1;
      var w := v[..n];
      b := ArgmaxExists(w);
      assert forall i :: 0 <= i < n ==> v[i] == w[i];
      if v[n] > D.F32_MIN && (forall i :: 0 <= i < n ==> v[i] < v[n]) {
        b := n;
      } else if i :| 0 <= i < n && v[i] > D.F32_MIN {
        assert w[i] > D.F32_MIN;
      }
    }
  }

  ghost function GreedyOf(v: seq<real>): (b: nat)
    ensures D.IsArgmax(v, b)
  {
    assert exists b: nat :: D.IsArgmax(v, b) by {
      var b := ArgmaxExists(v);
    }
    var b: nat :| D.IsArgmax(v, b);
    b
  }

  ghost function NextToken(sp: Sampling, logits: seq<real>, out: seq<nat>, rng: nat): (nat, nat) {
    if sp.greedy then (GreedyOf(logits), rng) else sp.draw(logits, out, rng)
  }

  /** The decode loop from `out` on, `kv` of whose tokens are in the slot: the final
      output and how many of its tokens have KV. The last token before the length limit
      is emitted and never fed back. */
  ghost function Continue(g: Gen, ids: seq<nat>, out: seq<nat>, kv: nat, next: nat, rng: nat,
                          left: nat): (r: (seq<nat>, nat))
    requires NetOk(g.net) && kv <= |out|
    ensures r.1 <= |r.0|
    decreases left
  {
    if left == 0 || next in g.eos then (out, kv)
    else
      var out1 := out + [next];
      if |ids| + |out| + 1 >= g.maxSeq then (out1, kv)
      else
        var (n, s) := NextToken(g.sp, LogitsAfter(g.net, ids + out1), out1, rng);
        Continue(g, ids, out1, |out1|, n, s, left - 1)
  }

  /** What the engine would answer with nothing cached: the output tokens, and the context
      the slot would hold afterwards. A prompt longer than the cache is an error. */
  ghost function ColdRun(g: Gen, ids: seq<nat>): Result<(seq<nat>, seq<nat>)>
    requires NetOk(g.net) && ids != []
  {
    if |ids| > g.maxSeq then Err
    else
      var (next, rng) := NextToken(g.sp, LogitsAfter(g.net, ids), [], g.sp.seed);
      var (out, kv) := Continue(g, ids, [], 0, next, rng, g.maxTokens);
      Ok((out, ids + out[..kv]))
  }

  // ------------------------------------------------------------- what an answer is

  /** `tok` is the token chosen after `ids + out`: the argmax of the logits there, or what
      the sampler draws from them, which takes the generator from `s` to `s'`. */
  ghost predicate Follows(g: Gen, ids: seq<nat>, out: seq<nat>, tok: nat, s: nat, s': nat)
    requires NetOk(g.net) && ids != []
  {
    var logits := LogitsAfter(g.net, ids + out);
    if g.sp.greedy then D.IsArgmax(logits, tok) && s' == s else g.sp.draw(logits, out, s) == (tok, s')
  }

  /** `out` was chosen token by token, the generator going through `states` from the seed. */
  ghost predicate Traced(g: Gen, ids: seq<nat>, out: seq<nat>, states: seq<nat>)
    requires NetOk(g.net) && ids != []
  {
    && |states| == |out| + 1 && states[0] == g.sp.seed
    && forall i :: 0 <= i < |out| ==> Follows(g, ids, out[..i], out[i], states[i], states[i + 1])
  }

  /** The cache has no room for the KV of the last token of `out`. */
  predicate CacheFull(g: Gen, ids: seq<nat>, out: seq<nat>) {
    out != [] && |ids| + |out| >= g.maxSeq
  }

  /** Generation stops after `out`: at the token limit, at the cache limit, or because an
      end-of-sequence token would be next. */
  ghost predicate Ends(g: Gen, ids: seq<nat>, out: seq<nat>, s: nat)
    requires NetOk(g.net) && ids != []
  {
    || |out| == g.maxTokens || CacheFull(g, ids, out)
    || exists tok, s' :: tok in g.eos && Follows(g, ids, out, tok, s, s')
  }

  /** `out` answers `ids`: each token is the one chosen after those before it, none ends the
      sequence, and it stops at the first of the three limits. */
  ghost predicate IsAnswer(g: Gen, ids: seq<nat>, out: seq<nat>) {
    && NetOk(g.net) && 0 < |ids| <= g.maxSeq && |out| <= g.maxTokens
    && (forall i :: 0 <= i < |out| ==> out[i] !in g.eos && !CacheFull(g, ids, out[..i]))
    && exists states :: Traced(g, ids, out, states) && Ends(g, ids, out, states[|out|])
  }

  lemma ChoiceIsUnique(g: Gen, ids: seq<nat>, out: seq<nat>, s: nat, t: nat, s1: nat, u: nat, s2: nat)
    requires NetOk(g.net) && ids != [] && Follows(g, ids, out, t, s, s1) && Follows(g, ids, out, u, s, s2)
    ensures t == u && s1 == s2
  {
    if g.sp.greedy {
      D.ArgmaxIsUnique(LogitsAfter(g.net, ids + out), t, u);
    }
  }

  /** As far as both go, two answers agree, and so do their generators. */
  lemma {:induction false} AnswersAgree(g: Gen, ids: seq<nat>, a: seq<nat>, sa: seq<nat>, b: seq<nat>, sb: seq<nat>,
                                        n: nat)
    requires NetOk(g.net) && ids != [] && Traced(g, ids, a, sa) && Traced(g, ids, b, sb) && n <= |a| && n <= |b|
    ensures a[..n] == b[..n] && sa[n] == sb[n]
  {
    if n > 0 {
      AnswersAgree(g, ids, a, sa, b, sb, n - 1);
      assert Follows(g, ids, a[..n - 1], a[n - 1], sa[n - 1], sa[n - 1 + 1]);
      assert Follows(g, ids, b[..n - 1], b[n - 1], sb[n - 1], sb[n - 1 + 1]);
      hide Follows;
      ChoiceIsUnique(g, ids, a[..n - 1], sa[n - 1], a[n - 1], sa[n], b[n - 1], sb[n]);
      assert a[..n] == a[..n - 1] + [a[n - 1]] && b[..n] == b[..n - 1] + [b[n - 1]];
    }
  }

  lemma NotLonger(g: Gen, ids: seq<nat>, a: seq<nat>, sa: seq<nat>, b: seq<nat>, sb: seq<nat>)
    requires IsAnswer(g, ids, a) && IsAnswer(g, ids, b) && Traced(g, ids, a, sa) && Traced(g, ids, b, sb)
    requires Ends(g, ids, a, sa[|a|])
    ensures |b| <= |a|
  {
    if |a| < |b| {
      AnswersAgree(g, ids, a, sa, b, sb, |a|);
      assert b[..|a|] == a;
      assert Follows(g, ids, b[..|a|], b[|a|], sb[|a|], sb[|a| + 1]);
      assert b[|a|] !in g.eos && !CacheFull(g, ids, b[..|a|]);
      var tok, s' :| tok in g.eos && Follows(g, ids, a, tok, sa[|a|], s');
      ChoiceIsUnique(g, ids, a, sa[|a|], tok, s', b[|a|], sb[|a| + 1]);
      assert false;
    }
  }

  /** A prompt has one answer. */
  lemma AnswerIsUnique(g: Gen, ids: seq<nat>, a: seq<nat>, b: seq<nat>)
    requires IsAnswer(g, ids, a) && IsAnswer(g, ids, b)
    ensures a == b
  {
    var sa :| Traced(g, ids, a, sa) && Ends(g, ids, a, sa[|a|]);
    var sb :| Traced(g, ids, b, sb) && Ends(g, ids, b, sb[|b|]);
    NotLonger(g, ids, a, sa, b, sb);
    NotLonger(g, ids, b, sb, a, sa);
    AnswersAgree(g, ids, a, sa, b, sb, |a|);
  }

  /** One more token of a trace. */
  lemma TraceGrows(g: Gen, ids: seq<nat>, out: seq<nat>, states: seq<nat>, tok: nat, s: nat)
    requires NetOk(g.net) && ids != [] && Traced(g, ids, out, states) && Follows(g, ids, out, tok, states[|out|], s)
    ensures Traced(g, ids, out + [tok], states + [s])
  {
    hide Follows;
    forall i | 0 <= i < |out| + 1
      ensures Follows(g, ids, (out + [tok])[..i], (out + [tok])[i], (states + [s])[i], (states + [s])[i + 1])
    {
      assert (out + [tok])[..i] == out[..i];
      if i < |out| {
        assert Follows(g, ids, out[..i], out[i], states[i], states[i + 1]);
      } else {
        assert out[..i] == out;
      }
    }
  }

  /** What the decode loop has established when it has put out `out` and `next` is next. */
  ghost predicate Chosen(g: Gen, ids: seq<nat>, out: seq<nat>, states: seq<nat>, next: nat, rng: nat, left: nat) {
    && NetOk(g.net) && 0 < |ids| <= g.maxSeq && |out| + left == g.maxTokens
    && (forall i :: 0 <= i < |out| ==> out[i] !in g.eos && !CacheFull(g, ids, out[..i]))
    && Traced(g, ids, out, states) && Follows(g, ids, out, next, states[|out|], rng)
  }

  lemma NextFollows(g: Gen, ids: seq<nat>, out: seq<nat>, s: nat)
    requires NetOk(g.net) && ids != []
    ensures var (n, s') := NextToken(g.sp, LogitsAfter(g.net, ids + out), out, s); Follows(g, ids, out, n, s, s')
  {
  }

  lemma ChosenGrows(g: Gen, ids: seq<nat>, out: seq<nat>, states: seq<nat>, next: nat, rng: nat, left: nat)
    requires Chosen(g, ids, out, states, next, rng, left) && 0 < left && next !in g.eos && !CacheFull(g, ids, out)
    ensures var out1 := out + [next];
            && Traced(g, ids, out1, states + [rng])
            && forall i :: 0 <= i < |out1| ==> out1[i] !in g.eos && !CacheFull(g, ids, out1[..i])
  {
    hide Follows;
    hide Traced;
    TraceGrows(g, ids, out, states, next, rng);
    var out1 := out + [next];
    forall i | 0 <= i < |out1|
      ensures out1[i] !in g.eos && !CacheFull(g, ids, out1[..i])
    {
      assert out1[..i] == if i < |out| then out[..i] else out;
    }
  }

  lemma TracedLength(g: Gen, ids: seq<nat>, out: seq<nat>, states: seq<nat>)
    requires NetOk(g.net) && ids != [] && Traced(g, ids, out, states)
    ensures |states| == |out| + 1
  {
  }

  lemma StoppingAnswers(g: Gen, ids: seq<nat>, out: seq<nat>, states: seq<nat>, next: nat, rng: nat, left: nat)
    requires Chosen(g, ids, out, states, next, rng, left) && (left == 0 || next in g.eos)
    ensures IsAnswer(g, ids, out)
  {
    hide Follows;
    assert Ends(g, ids, out, states[|out|]);
    hide Traced;
  }

  /** The cache is full with one more token. */
  lemma FullAnswers(g: Gen, ids: seq<nat>, out: seq<nat>, states: seq<nat>, next: nat, rng: nat, left: nat)
    requires Chosen(g, ids, out, states, next, rng, left) && 0 < left && next !in g.eos && !CacheFull(g, ids, out)
    requires |ids| + |out| + 1 >= g.maxSeq
    ensures IsAnswer(g, ids, out + [next]) && CacheFull(g, ids, out + [next])
  {
    ChosenGrows(g, ids, out, states, next, rng, left);
    TracedLength(g, ids, out + [next], states + [rng]);
    hide Follows;
    hide Traced;
    assert Ends(g, ids, out + [next], (states + [rng])[|out + [next]|]);
  }

  lemma ChosenGoesOn(g: Gen, ids: seq<nat>, out: seq<nat>, states: seq<nat>, next: nat, rng: nat, left: nat,
                     n: nat, s: nat)
    requires Chosen(g, ids, out, states, next, rng, left) && 0 < left && next !in g.eos && !CacheFull(g, ids, out)
    requires |ids| + |out| + 1 < g.maxSeq
    requires (n, s) == NextToken(g.sp, LogitsAfter(g.net, ids + (out + [next])), out + [next], rng)
    ensures Chosen(g, ids, out + [next], states + [rng], n, s, left - 1) && !CacheFull(g, ids, out + [next])
  {
    ChosenGrows(g, ids, out, states, next, rng, left);
    TracedLength(g, ids, out, states);
    NextFollows(g, ids, out + [next], rng);
    hide Follows;
    hide Traced;
    hide NextToken;
    assert (states + [rng])[|out + [next]|] == rng;
  }

  /** The decode loop puts out an answer; the slot then holds the prompt and all of it,
      but for a last token the cache had no room for. */
  lemma {:induction false} ContinueAnswers(g: Gen, ids: seq<nat>, out: seq<nat>, states: seq<nat>, next: nat, rng: nat,
                                           left: nat)
    requires Chosen(g, ids, out, states, next, rng, left) && !CacheFull(g, ids, out)
    ensures var (o, kv) := Continue(g, ids, out, |out|, next, rng, left);
            IsAnswer(g, ids, o) && kv == (if CacheFull(g, ids, o) then |o| - 1 else |o|)
    decreases left
  {
    hide Traced;
    hide Follows;
    hide IsAnswer;
    hide NextToken;
    if left == 0 || next in g.eos {
      StoppingAnswers(g, ids, out, states, next, rng, left);
    } else if |ids| + |out| + 1 >= g.maxSeq {
      FullAnswers(g, ids, out, states, next, rng, left);
    } else {
      var (n, s) := NextToken(g.sp, LogitsAfter(g.net, ids + (out + [next])), out + [next], rng);
      ChosenGoesOn(g, ids, out, states, next, rng, left, n, s);
      ContinueAnswers(g, ids, out + [next], states + [rng], n, s, left - 1);
      hide Chosen;
    }
  }

  /** The cold run is the answer. */
  lemma ColdRunAnswers(g: Gen, ids: seq<nat>)
    requires NetOk(g.net) && ids != []
    ensures ColdRun(g, ids).Ok? <==> |ids| <= g.maxSeq
    ensures ColdRun(g, ids).Ok? ==>
              var (out, context) := ColdRun(g, ids).value;
              && IsAnswer(g, ids, out)
              && context == ids + (if CacheFull(g, ids, out) then out[..|out| - 1] else out)
  {
    if |ids| <= g.maxSeq {
      var (next, rng) := NextToken(g.sp, LogitsAfter(g.net, ids), [], g.sp.seed);
      assert ids + [] == ids;
      NextFollows(g, ids, [], g.sp.seed);
      assert Traced(g, ids, [], [g.sp.seed]);
      ContinueAnswers(g, ids, [], [g.sp.seed], next, rng, g.maxTokens);
      hide IsAnswer;
      hide NextToken;
      var (out, kv) := Continue(g, ids, [], 0, next, rng, g.maxTokens);
      assert out[..|out|] == out;
    }
  }

  /** Decode calls that succeed before one fails part-way, and what that one leaves in
      the rows it was writing. */
  datatype Faults = Faults(steps: nat, junk: (nat, nat) -> Vec)

  // ---------------------------------------------------------------- one feed

  lemma FeedTouchesOnlySlot(c: Chunk, s: nat)
    requires ChunkOk(c) && forall i :: 0 <= i < |c.es| ==> c.es[i].slot == s
    ensures OnlySlot(c.net, c.kv, After(c), s)
  {
    forall l, u | 0 <= l < c.net.layers && 0 <= u < |c.kv[l]| && u != s
      ensures After(c)[l][u] == c.kv[l][u]
    {
      OtherSlotsUntouched(c, l, |c.es|, u);
    }
  }

  lemma OnlySlotTwice(net: Net, a: Kv, b: Kv, c: Kv, s: nat)
    requires OnlySlot(net, a, b, s) && OnlySlot(net, b, c, s)
    ensures OnlySlot(net, a, c, s)
  {
  }

  lemma FedSlot(c: Chunk, slot: nat, all: seq<nat>, p: nat)
    requires ChunkOk(c) && slot < c.cap && p < |all| && Holds(c.net, c.kv, slot, all[..p])
    requires c.es == Feed(all[p..], p, slot)
    ensures Holds(c.net, After(c), slot, all) && OnlySlot(c.net, c.kv, After(c), slot)
    ensures c.net.head(Hidden(c, |all| - 1 - p, c.net.layers)) == LogitsAfter(c.net, all)
  {
    FeedTouchesOnlySlot(c, slot);
    FeedExtends(c, slot, all, p);
    FeedLogits(c, slot, all, p);
  }

  /** A call that fails part-way: anything may be in the slot from position `p` on. */
  method FailMidway(dec: D.Device, slot: nat, p: nat, junk: (nat, nat) -> Vec, ghost held: seq<nat>)
    requires dec.Valid() && slot < dec.cap && p <= dec.maxSeq && |held| <= p && Holds(dec.net, dec.kv, slot, held)
    modifies dec`kv
    ensures dec.Valid() && OnlySlot(dec.net, old(dec.kv), dec.kv, slot) && Holds(dec.net, dec.kv, slot, held)
  {
    for l := 0 to dec.net.layers
      invariant dec.Valid() && OnlySlot(dec.net, old(dec.kv), dec.kv, slot)
      invariant forall j :: 0 <= j < dec.net.layers ==> dec.kv[j][slot][..p] == old(dec.kv)[j][slot][..p]
    {
      var rows := dec.kv[l][slot][..p] + seq(dec.maxSeq - p, i requires 0 <= i => junk(l, p + i));
      dec.kv := dec.kv[l := dec.kv[l][slot := rows]];
    }
    SamePrefixHolds(dec.net, old(dec.kv), dec.kv, slot, p, held);
  }

  lemma SamePrefixHolds(net: Net, kv: Kv, kv': Kv, slot: nat, p: nat, held: seq<nat>)
    requires Holds(net, kv, slot, held) && |held| <= p && |kv'| == net.layers
    requires forall l :: 0 <= l < net.layers ==>
                           && slot < |kv'[l]| && p <= |kv[l][slot]| && p <= |kv'[l][slot]|
                           && kv'[l][slot][..p] == kv[l][slot][..p]
    ensures Holds(net, kv', slot, held)
  {
    forall l | 0 <= l < net.layers
      ensures kv'[l][slot][..|held|] == Context(net, held, l)
    {
      assert kv'[l][slot][..|held|] == kv'[l][slot][..p][..|held|] == kv[l][slot][..p][..|held|];
    }
  }

  /** Feed `chunk` to `slot`, which holds the tokens before it, if the call goes through. */
  method FeedSlot(dec: D.Device, slot: nat, ghost all: seq<nat>, chunk: seq<nat>, p: nat, want: bool, steps: nat,
                  junk: (nat, nat) -> Vec)
    returns (r: Result<nat>)
    requires dec.Valid() && slot < dec.cap && 0 < |chunk| <= dec.chunkCap
    requires p <= |all| && all[p..] == chunk && Holds(dec.net, dec.kv, slot, all[..p]) && p <= dec.maxSeq
    modifies dec
    ensures dec.Valid() && (r.Ok? <==> |all| <= dec.maxSeq && 0 < steps)
    ensures OnlySlot(dec.net, old(dec.kv), dec.kv, slot)
    ensures r.Err? ==> Holds(dec.net, dec.kv, slot, all[..p])
    ensures r.Ok? ==> Holds(dec.net, dec.kv, slot, all)
    ensures r.Ok? && want ==>
              && D.IsArgmax(LogitsAfter(dec.net, all), r.value)
              && |dec.logitsMulti| == |chunk|
              && dec.logitsMulti[|chunk| - 1] == dec.logitsHost == LogitsAfter(dec.net, all)
  {
    if steps == 0 {
      FailMidway(dec, slot, p, junk, all[..p]);
      return Err;
    }
    var es := Feed(chunk, p, slot);
    ghost var c := dec.ChunkOf(es);
    assert |all| == p + |chunk|;
    assert es[|es| - 1].pos == |all| - 1;
    assert D.LastOfSlot(es, |es| - 1);
    assert dec.Accepts(es) <==> |all| <= dec.maxSeq;
    hide D.Device.Accepts;
    var out := dec.StepMulti(es, want);
    if out.Err? {
      return Err;
    }
    FedSlot(c, slot, all, p);
    hide Holds;
    hide OnlySlot;
    hide After;
    hide Hidden;
    return Ok(out.value[|es| - 1]);
  }

  /** One chunk of a prompt. A failure leaves the reused prefix in place. */
  method FeedChunk(dec: D.Device, ghost kv0: Kv, slot: nat, ghost reuse: nat, ids: seq<nat>, pos: nat, n: nat,
                   steps: nat, junk: (nat, nat) -> Vec)
    returns (r: Result<nat>)
    requires dec.Valid() && slot < dec.cap && 0 < n <= dec.chunkCap && reuse <= pos <= pos + n <= |ids|
    requires pos <= dec.maxSeq && OnlySlot(dec.net, kv0, dec.kv, slot) && Holds(dec.net, dec.kv, slot, ids[..pos])
    modifies dec
    ensures dec.Valid() && OnlySlot(dec.net, kv0, dec.kv, slot) && (r.Ok? <==> pos + n <= dec.maxSeq && 0 < steps)
    ensures r.Err? ==> Holds(dec.net, dec.kv, slot, ids[..reuse])
    ensures r.Ok? ==> Holds(dec.net, dec.kv, slot, ids[..pos + n])
    ensures r.Ok? && pos + n == |ids| ==>
              && D.IsArgmax(LogitsAfter(dec.net, ids), r.value)
              && dec.logitsMulti != []
              && dec.logitsMulti[|dec.logitsMulti| - 1] == dec.logitsHost == LogitsAfter(dec.net, ids)
  {
    hide *;
    ghost var all := ids[..pos + n];
    assert all[..pos] == ids[..pos] && all[pos..] == ids[pos..pos + n];
    assert pos + n == |ids| ==> all == ids;
    ghost var before := dec.kv;
    r := FeedSlot(dec, slot, all, ids[pos..pos + n], pos, pos + n == |ids|, steps, junk);
    OnlySlotTwice(dec.net, kv0, before, dec.kv, slot);
    if r.Err? {
      HoldsPrefix(dec.net, dec.kv, slot, ids[..pos], reuse);
      assert ids[..pos][..reuse] == ids[..reuse];
    }
  }

  /** Feed the tokens of `ids` from position `reuse` on, in chunks. */
  method Prefill(dec: D.Device, slot: nat, reuse: nat, ids: seq<nat>, faults: Faults)
    returns (r: Result<nat>, left: nat)
    requires dec.Valid() && slot < dec.cap && 0 < dec.chunkCap
    requires reuse < |ids| && reuse <= dec.maxSeq && Holds(dec.net, dec.kv, slot, ids[..reuse])
    modifies dec
    ensures dec.Valid() && OnlySlot(dec.net, old(dec.kv), dec.kv, slot)
    ensures r.Err? ==>
        Holds(dec.net, dec.kv, slot, ids[..reuse]) && (|ids| > dec.maxSeq || faults.steps < |ids| - reuse)
    ensures r.Ok? ==>
              && |ids| <= dec.maxSeq && left + |ids| - reuse >= faults.steps
              && Holds(dec.net, dec.kv, slot, ids) && D.IsArgmax(LogitsAfter(dec.net, ids), r.value)
              && dec.logitsMulti != []
              && dec.logitsMulti[|dec.logitsMulti| - 1] == dec.logitsHost == LogitsAfter(dec.net, ids)
  {
    var pos := reuse;
    left := faults.steps;
    r := Ok(0);
    hide Holds;
    hide OnlySlot;
    OnlySlotSelf(dec.net, dec.kv, slot);
    while pos < |ids|
      invariant reuse <= pos <= |ids| && pos <= dec.maxSeq && dec.Valid()
      invariant OnlySlot(dec.net, old(dec.kv), dec.kv, slot)
      invariant Holds(dec.net, dec.kv, slot, ids[..pos]) && left + pos - reuse >= faults.steps
      invariant r.Ok?
      invariant pos == |ids| ==>
                  && D.IsArgmax(LogitsAfter(dec.net, ids), r.value)
                  && dec.logitsMulti != []
                  && dec.logitsMulti[|dec.logitsMulti| - 1] == dec.logitsHost == LogitsAfter(dec.net, ids)
    {
      var n := Min(dec.chunkCap, |ids| - pos);
      r := FeedChunk(dec, old(dec.kv), slot, reuse, ids, pos, n, left, faults.junk);
      if r.Err? {
        return;
      }
      pos, left := pos + n, left - 1;
    }
    assert ids[..pos] == ids;
  }

  lemma OnlySlotSelf(net: Net, kv: Kv, s: nat)
    requires |kv| == net.layers
    ensures OnlySlot(net, kv, kv, s)
  {
  }

  /** The token after some logits, given their argmax. */
  method Pick(sp: Sampling, logits: seq<real>, best: nat, out: seq<nat>, rng: nat) returns (next: nat, rng': nat)
    requires D.IsArgmax(logits, best)
    ensures (next, rng') == NextToken(sp, logits, out, rng)
  {
    if sp.greedy {
      D.ArgmaxIsUnique(logits, best, GreedyOf(logits));
      return best, rng;
    }
    var t := sp.draw(logits, out, rng);
    return t.0, t.1;
  }

  // ------------------------------------------------------------- the decode loops

  function GenOf(dec: D.Device, sp: Sampling, eos: set<nat>, maxTokens: nat): Gen {
    Gen(dec.net, sp, eos, dec.maxSeq, maxTokens)
  }

  /** The loop is on its way to `goal`. */
  ghost predicate Underway(g: Gen, ids: seq<nat>, out: seq<nat>, kv: nat, next: nat, rng: nat, left: nat,
                           goal: (seq<nat>, nat)) {
    NetOk(g.net) && kv <= |out| && Continue(g, ids, out, kv, next, rng, left) == goal
  }

  lemma StopsHere(g: Gen, ids: seq<nat>, out: seq<nat>, kv: nat, next: nat, rng: nat, left: nat, goal: (seq<nat>, nat))
    requires Underway(g, ids, out, kv, next, rng, left, goal) && (left == 0 || next in g.eos)
    ensures goal == (out, kv)
  {
  }

  lemma CacheIsFull(g: Gen, ids: seq<nat>, out: seq<nat>, kv: nat, next: nat, rng: nat, left: nat,
                    goal: (seq<nat>, nat))
    requires Underway(g, ids, out, kv, next, rng, left, goal) && left > 0 && next !in g.eos
    requires |ids| + |out| + 1 >= g.maxSeq
    ensures goal == (out + [next], kv)
  {
  }

  lemma GoesOn(g: Gen, ids: seq<nat>, out: seq<nat>, kv: nat, next: nat, rng: nat, left: nat, goal: (seq<nat>, nat),
               n: nat, s: nat)
    requires Underway(g, ids, out, kv, next, rng, left, goal) && left > 0 && next !in g.eos
    requires |ids| + |out| + 1 < g.maxSeq
    requires ids + (out + [next]) != []
    requires (n, s) == NextToken(g.sp, LogitsAfter(g.net, ids + (out + [next])), out + [next], rng)
    ensures Underway(g, ids, out + [next], |out| + 1, n, s, left - 1, goal)
  {
  }

  /** Answers of a generation. A failed one leaves the reused prefix in place. */
  ghost predicate Outcome(g: Gen, kv: Kv, slot: nat, ids: seq<nat>, reuse: nat, steps: nat,
                          r: Result<(seq<nat>, seq<nat>)>) {
    && NetOk(g.net) && reuse < |ids|
    && match r
       case Ok(a) =>
         && IsAnswer(g, ids, a.0) && a.1 == ids + (if CacheFull(g, ids, a.0) then a.0[..|a.0| - 1] else a.0)
         && r == ColdRun(g, ids) && |a.1| <= g.maxSeq && Holds(g.net, kv, slot, a.1)
       case Err => Holds(g.net, kv, slot, ids[..reuse]) && (steps < |ids| - reuse + g.maxTokens || |ids| > g.maxSeq)
  }

  /** Feed one token back on a session's slot. */
  method FeedBack(dec: D.Device, slot: nat, ghost ctx: seq<nat>, token: nat, p: nat, steps: nat,
                  junk: (nat, nat) -> Vec)
    returns (r: Result<nat>)
    requires dec.Valid() && slot < dec.cap && 0 < dec.chunkCap && p == |ctx| < dec.maxSeq
    requires Holds(dec.net, dec.kv, slot, ctx)
    modifies dec
    ensures dec.Valid() && OnlySlot(dec.net, old(dec.kv), dec.kv, slot) && (r.Ok? <==> 0 < steps)
    ensures r.Err? ==> Holds(dec.net, dec.kv, slot, ctx)
    ensures r.Ok? ==>
              && Holds(dec.net, dec.kv, slot, ctx + [token])
              && |dec.logitsMulti| == 1 && dec.logitsMulti[0] == LogitsAfter(dec.net, ctx + [token])
              && D.IsArgmax(dec.logitsMulti[0], r.value)
  {
    assert (ctx + [token])[..p] == ctx;
    assert (ctx + [token])[p..] == [token];
    r := FeedSlot(dec, slot, ctx + [token], [token], p, true, steps, junk);
  }

  lemma ReusePrefix(net: Net, kv: Kv, slot: nat, ids: seq<nat>, out: seq<nat>, reuse: nat)
    requires Holds(net, kv, slot, ids + out) && reuse <= |ids|
    ensures Holds(net, kv, slot, ids[..reuse])
  {
    HoldsPrefix(net, kv, slot, ids + out, reuse);
    assert (ids + out)[..reuse] == ids[..reuse];
  }

  lemma Appends(ids: seq<nat>, out: seq<nat>, x: nat)
    ensures ids + out + [x] == ids + (out + [x]) && (out + [x])[..|out|] == out
  {
  }

  /** Feed the next token of a generation back. A failure leaves every prefix of the
      prompt in place. */
  method FeedNext(dec: D.Device, ghost kv0: Kv, slot: nat, ghost ids: seq<nat>, ghost out: seq<nat>, token: nat,
                  p: nat, steps: nat, junk: (nat, nat) -> Vec)
    returns (r: Result<nat>)
    requires dec.Valid() && slot < dec.cap && 0 < dec.chunkCap && p == |ids + out| < dec.maxSeq
    requires OnlySlot(dec.net, kv0, dec.kv, slot) && Holds(dec.net, dec.kv, slot, ids + out)
    modifies dec
    ensures dec.Valid() && OnlySlot(dec.net, kv0, dec.kv, slot) && (r.Ok? <==> 0 < steps)
    ensures r.Err? ==> forall n :: 0 <= n <= |ids| ==> Holds(dec.net, dec.kv, slot, ids[..n])
    ensures r.Ok? ==>
              && Holds(dec.net, dec.kv, slot, ids + (out + [token]))
              && |dec.logitsMulti| == 1 && dec.logitsMulti[0] == LogitsAfter(dec.net, ids + (out + [token]))
              && D.IsArgmax(dec.logitsMulti[0], r.value)
  {
    hide *;
    ghost var before := dec.kv;
    Appends(ids, out, token);
    r := FeedBack(dec, slot, ids + out, token, p, steps, junk);
    OnlySlotTwice(dec.net, kv0, before, dec.kv, slot);
    if r.Err? {
      forall n | 0 <= n <= |ids|
        ensures Holds(dec.net, dec.kv, slot, ids[..n])
      {
        ReusePrefix(dec.net, dec.kv, slot, ids, out, n);
      }
    }
  }

  /** The decode loop of a session, after its prompt is in the slot. */
  method DecodeSession(dec: D.Device, ghost g: Gen, slot: nat, ids: seq<nat>, sp: Sampling, eos: set<nat>,
                       maxTokens: nat, first: nat, state: nat, steps: nat, junk: (nat, nat) -> Vec,
                       ghost goal: (seq<nat>, nat))
    returns (r: Result<(seq<nat>, seq<nat>)>)
    requires dec.Valid() && slot < dec.cap && 0 < dec.chunkCap && g == GenOf(dec, sp, eos, maxTokens)
    requires ids != [] && |ids| <= dec.maxSeq && Holds(dec.net, dec.kv, slot, ids)
    requires Underway(g, ids, [], 0, first, state, maxTokens, goal) && goal.1 <= |goal.0|
    modifies dec
    ensures dec.Valid() && OnlySlot(dec.net, old(dec.kv), dec.kv, slot)
    ensures r.Ok? ==>
        r == Ok((goal.0, ids + goal.0[..goal.1])) && |r.value.1| <= dec.maxSeq
            && Holds(dec.net, dec.kv, slot, r.value.1)
    ensures r.Err? ==> steps < maxTokens && forall n :: 0 <= n <= |ids| ==> Holds(dec.net, dec.kv, slot, ids[..n])
  {
    var next: nat, rng: nat, left: nat := first, state, steps;
    var out: seq<nat> := [];
    var kvTokens := 0;
    var i := 0;
    OnlySlotSelf(dec.net, dec.kv, slot);
    hide *;
    assert ids + out == ids;
    while i < maxTokens
      invariant 0 <= i <= maxTokens && |out| == i == kvTokens && left + i >= steps
      invariant dec.Valid() && OnlySlot(dec.net, old(dec.kv), dec.kv, slot)
      invariant |ids| + i <= dec.maxSeq && Holds(dec.net, dec.kv, slot, ids + out)
      invariant Underway(g, ids, out, kvTokens, next, rng, maxTokens - i, goal)
    {
      if next in eos {
        break;
      }
      ghost var was := out;
      out := out + [next];
      var p := |ids| + i;
      if p + 1 >= dec.maxSeq {
        // Emitted but never fed back, so it has no KV.
        CacheIsFull(g, ids, was, kvTokens, next, rng, maxTokens - i, goal);
        Appends(ids, was, next);
        return Ok((out, ids + out[..kvTokens]));
      }
      var fed := FeedNext(dec, old(dec.kv), slot, ids, was, next, p, left, junk);
      if fed.Err? {
        return Err;
      }
      kvTokens := |out|;
      var n, s := Pick(sp, dec.logitsMulti[0], fed.value, out, rng);
      GoesOn(g, ids, was, i, next, rng, maxTokens - i, goal, n, s);
      next, rng, left, i := n, s, left - 1, i + 1;
    }
    StopsHere(g, ids, out, kvTokens, next, rng, maxTokens - i, goal);
    assert out[..kvTokens] == out;
    return Ok((out, ids + out[..kvTokens]));
  }

  /** Generate inside a session: decode on its slot, prefilling only what the slot does not
      hold. Returns the output and the context the slot holds afterwards. */
  method GenerateSession(dec: D.Device, slot: nat, reuse: nat, ids: seq<nat>, sp: Sampling, eos: set<nat>,
                         maxTokens: nat, faults: Faults)
    returns (r: Result<(seq<nat>, seq<nat>)>)
    requires dec.Valid() && slot < dec.cap && 0 < dec.chunkCap && HeadOk(dec.net)
    requires reuse < |ids| && reuse <= dec.maxSeq && Holds(dec.net, dec.kv, slot, ids[..reuse])
    modifies dec
    ensures dec.Valid() && OnlySlot(dec.net, old(dec.kv), dec.kv, slot)
    ensures Outcome(GenOf(dec, sp, eos, maxTokens), dec.kv, slot, ids, reuse, faults.steps, r)
  {
    ghost var g := GenOf(dec, sp, eos, maxTokens);
    var first, left := Prefill(dec, slot, reuse, ids, faults);
    if first.Err? {
      return Err;
    }
    var next, rng := first.value, sp.seed;
    var last := dec.logitsMulti[|dec.logitsMulti| - 1];
    if last != [] {
      next, rng := Pick(sp, last, first.value, [], sp.seed);
    }
    ghost var goal := Continue(g, ids, [], 0, next, rng, maxTokens);
    assert ColdRun(g, ids) == Ok((goal.0, ids + goal.0[..goal.1]));
    ColdRunAnswers(g, ids);
    hide Continue;
    hide IsAnswer;
    hide Holds;
    hide OnlySlot;
    ghost var mid := dec.kv;
    r := DecodeSession(dec, g, slot, ids, sp, eos, maxTokens, next, rng, left, faults.junk, goal);
    OnlySlotTwice(dec.net, old(dec.kv), mid, dec.kv, slot);
  }

  // ------------------------------------------------------- the anonymous lane, slot 0

  /** One more token through `step`, after `ctx`. */
  method StepBack(dec: D.Device, ghost ctx: seq<nat>, token: nat, p: nat, steps: nat, junk: (nat, nat) -> Vec)
    returns (r: Result<nat>)
    requires dec.Valid() && p == |ctx| < dec.maxSeq && Holds(dec.net, dec.kv, 0, ctx)
    modifies dec
    ensures dec.Valid() && OnlySlot(dec.net, old(dec.kv), dec.kv, 0) && (r.Ok? <==> 0 < steps)
    ensures r.Ok? ==>
              && Holds(dec.net, dec.kv, 0, ctx + [token])
              && dec.logitsHost == LogitsAfter(dec.net, ctx + [token]) && D.IsArgmax(dec.logitsHost, r.value)
  {
    if steps == 0 {
      FailMidway(dec, 0, p, junk, ctx);
      return Err;
    }
    ghost var all := ctx + [token];
    ghost var c := dec.ChunkOf([Entry(token, p, 0)]);
    assert all[..p] == ctx && all[p..] == [token];
    assert c.es == Feed(all[p..], p, 0);
    r := dec.Step(token, p, true);
    FedSlot(c, 0, all, p);
    hide Holds;
    hide OnlySlot;
    hide After;
    hide Hidden;
  }

  method DecodeSingle(dec: D.Device, ghost g: Gen, ids: seq<nat>, sp: Sampling, eos: set<nat>, maxTokens: nat,
                      first: nat, state: nat, steps: nat, junk: (nat, nat) -> Vec, ghost goal: (seq<nat>, nat))
    returns (r: Result<seq<nat>>)
    requires dec.Valid() && g == GenOf(dec, sp, eos, maxTokens)
    requires ids != [] && |ids| <= dec.maxSeq && Holds(dec.net, dec.kv, 0, ids)
    requires Underway(g, ids, [], 0, first, state, maxTokens, goal)
    modifies dec
    ensures dec.Valid() && OnlySlot(dec.net, old(dec.kv), dec.kv, 0)
    ensures if r.Ok? then r.value == goal.0 else steps < maxTokens
  {
    var next: nat, rng: nat, left: nat := first, state, steps;
    var out: seq<nat> := [];
    var i := 0;
    OnlySlotSelf(dec.net, dec.kv, 0);
    hide *;
    assert ids + out == ids;
    while i < maxTokens
      invariant 0 <= i <= maxTokens && |out| == i && left + i >= steps
      invariant dec.Valid() && OnlySlot(dec.net, old(dec.kv), dec.kv, 0)
      invariant |ids| + i <= dec.maxSeq && Holds(dec.net, dec.kv, 0, ids + out)
      invariant Underway(g, ids, out, i, next, rng, maxTokens - i, goal)
    {
      if next in eos {
        StopsHere(g, ids, out, i, next, rng, maxTokens - i, goal);
        break;
      }
      ghost var was := out;
      out := out + [next];
      var pos := |ids| + i;
      if pos + 1 >= dec.maxSeq {
        CacheIsFull(g, ids, was, i, next, rng, maxTokens - i, goal);
        break;
      }
      ghost var before := dec.kv;
      var greedy := StepBack(dec, ids + was, next, pos, left, junk);
      OnlySlotTwice(dec.net, old(dec.kv), before, dec.kv, 0);
      if greedy.Err? {
        return Err;
      }
      assert ids + was + [next] == ids + out;
      var n, s := Pick(sp, dec.logitsHost, greedy.value, out, rng);
      GoesOn(g, ids, was, i, next, rng, maxTokens - i, goal, n, s);
      next, rng, left, i := n, s, left - 1, i + 1;
    }
    if i == maxTokens {
      StopsHere(g, ids, out, i, next, rng, 0, goal);
    }
    return Ok(out);
  }

  /** Generate without a session, on slot 0 from an unknown state. */
  method Generate(dec: D.Device, ids: seq<nat>, sp: Sampling, eos: set<nat>, maxTokens: nat, faults: Faults)
    returns (r: Result<seq<nat>>)
    requires dec.Valid() && 0 < dec.chunkCap && ids != []
    modifies dec
    ensures dec.Valid() && OnlySlot(dec.net, old(dec.kv), dec.kv, 0)
    ensures match r
            case Ok(out) =>
              var g := GenOf(dec, sp, eos, maxTokens);
              IsAnswer(g, ids, out) && ColdRun(g, ids).Ok? && out == ColdRun(g, ids).value.0
            case Err => faults.steps < |ids| + maxTokens || |ids| > dec.maxSeq
  {
    ghost var g := GenOf(dec, sp, eos, maxTokens);
    HoldsNothing(dec.net, dec.kv, 0);
    assert ids[..0] == [];
    var first, left := Prefill(dec, 0, 0, ids, faults);
    if first.Err? {
      return Err;
    }
    var next, rng := Pick(sp, dec.logitsHost, first.value, [], sp.seed);
    ghost var goal := Continue(g, ids, [], 0, next, rng, maxTokens);
    assert ColdRun(g, ids) == Ok((goal.0, ids + goal.0[..goal.1]));
    ColdRunAnswers(g, ids);
    hide Continue;
    hide IsAnswer;
    hide Holds;
    hide OnlySlot;
    ghost var mid := dec.kv;
    r := DecodeSingle(dec, g, ids, sp, eos, maxTokens, next, rng, left, faults.junk, goal);
    OnlySlotTwice(dec.net, old(dec.kv), mid, dec.kv, 0);
  }
}
