/** Expert waves (crates/llmpager-run/src/decode.rs:483-531, kimi.rs:982-1021).

    A chunk's experts are fetched as the sorted union of all tokens' picks, cut into
    waves of at most one pool. Each wave adds its experts' weighted outputs to every
    token that picked them. Over the reals this is the direct weighted sum.
  */
module MoeWaves {
  import opened Indexing
  import opened Sums
  import opened Util
  import G = Gemv

  type Vec = seq<real>

  datatype Pick = Pick(expert: nat, weight: real)

  /** Expert outputs of one layer: expert, input, output row. */
  type Experts = (nat, Vec) -> Vec

  predicate Outputs(f: Experts, x: Vec, hidden: nat, picks: seq<Pick>) {
    forall k :: 0 <= k < |picks| ==> |f(picks[k].expert, x)| == hidden
  }

  /** Element `i` of the weighted sum over `picks`, as `moe_reduce` accumulates it. */
  function PickSum(f: Experts, x: Vec, hidden: nat, picks: seq<Pick>, i: nat): real
    requires Outputs(f, x, hidden, picks) && i < hidden
  {
    if picks == [] then 0.0
    else
      var last := picks[|picks| - 1];
      PickSum(f, x, hidden, picks[..|picks| - 1], i) + last.weight * f(last.expert, x)[i]
  }

  /** `h` plus the weighted outputs of `picks`. */
  function AddPicks(f: Experts, x: Vec, h: Vec, picks: seq<Pick>): (r: Vec)
    requires Outputs(f, x, |h|, picks)
    ensures |r| == |h|
  {
    seq(|h|, i requires 0 <= i < |h| => h[i] + PickSum(f, x, |h|, picks, i))
  }

  /** What pick `k` adds to element `i`. */
  function Terms(f: Experts, x: Vec, picks: seq<Pick>, i: nat): nat -> real {
    (k: nat) => if k < |picks| then picks[k].weight * Get(f(picks[k].expert, x), i) else 0.0
  }

  lemma {:induction false} PickSumIsSum(f: Experts, x: Vec, hidden: nat, picks: seq<Pick>, i: nat)
    requires Outputs(f, x, hidden, picks) && i < hidden
    ensures PickSum(f, x, hidden, picks, i) == Sum(Terms(f, x, picks, i), |picks|)
    decreases |picks|
  {
    if picks != [] {
      var n := |picks| - 1;
      PickSumIsSum(f, x, hidden, picks[..n], i);
      SumSame(Terms(f, x, picks[..n], i), Terms(f, x, picks, i), n);
    }
  }

  /** Each element of `h`, plus the sum over the picks of weight times output. */
  lemma AddPicksAt(f: Experts, x: Vec, h: Vec, picks: seq<Pick>)
    requires Outputs(f, x, |h|, picks)
    ensures forall i :: 0 <= i < |h| ==> AddPicks(f, x, h, picks)[i] == h[i] + Sum(Terms(f, x, picks, i), |picks|)
  {
    hide Sum;
    hide Terms;
    forall i | 0 <= i < |h|
      ensures AddPicks(f, x, h, picks)[i] == h[i] + Sum(Terms(f, x, picks, i), |picks|)
    {
      PickSumIsSum(f, x, |h|, picks, i);
    }
  }

  // ------------------------------------------------------------------- one launch

  /** Row `k` of a buffer of rows of `n` elements. */
  ghost predicate RowIs(buf: seq<real>, k: nat, n: nat, v: Vec) {
    |v| == n && forall i :: 0 <= i < n ==> Get(buf, Flat(k, i, n)) == v[i]
  }

  /** The outputs of the picked experts, row after row, as the kernels leave them. */
  method OutputRows(f: Experts, x: Vec, n: nat, picks: seq<Pick>) returns (eouts: seq<real>)
    requires Outputs(f, x, n, picks)
    ensures |eouts| == At(|picks|, n) && forall k :: 0 <= k < |picks| ==> RowIs(eouts, k, n, f(picks[k].expert, x))
  {
    eouts := [];
    hide At;
    AtNext(0, n);
    for c := 0 to |picks|
      invariant |eouts| == At(c, n) && forall k :: 0 <= k < c ==> RowIs(eouts, k, n, f(picks[k].expert, x))
    {
      AtNext(c, n);
      forall k | 0 <= k < c
        ensures At(k, n) + n <= At(c, n)
      {
        AtOrder(k, c, n);
      }
      eouts := eouts + f(picks[c].expert, x);
    }
  }

  /** One `moe_reduce` over the experts' outputs adds the picks' weighted outputs. */
  method ReducePicks(eouts: seq<real>, wts: seq<real>, ghost x: Vec, h: Vec, ghost f: Experts, ghost picks: seq<Pick>)
    returns (out: Vec)
    requires Outputs(f, x, |h|, picks) && |wts| == |picks| && |eouts| == At(|picks|, |h|)
    requires forall k :: 0 <= k < |picks| ==> wts[k] == picks[k].weight
    requires forall k :: 0 <= k < |picks| ==> RowIs(eouts, k, |h|, f(picks[k].expert, x))
    ensures out == AddPicks(f, x, h, picks)
  {
    var n := |h|;
    var buf := new real[n](i requires 0 <= i < n => h[i]);
    G.MoeReduce(eouts, wts, buf, |wts|, n);
    out := buf[..];
    AddPicksAt(f, x, h, picks);
    hide AddPicks;
    hide At;
    forall i | 0 <= i < n
      ensures Sum(G.Contribution(eouts, wts, n, i), |picks|) == Sum(Terms(f, x, picks, i), |picks|)
    {
      forall k | 0 <= k < |picks|
        ensures G.Contribution(eouts, wts, n, i)(k) == Terms(f, x, picks, i)(k)
      {
        assert Get(eouts, Flat(k, i, n)) == f(picks[k].expert, x)[i];
      }
      SumSame(G.Contribution(eouts, wts, n, i), Terms(f, x, picks, i), |picks|);
    }
  }

  /** The experts of `picks` run on `x`, then one `moe_reduce` into the hidden state `h`. */
  method LaunchPicks(f: Experts, x: Vec, h: Vec, picks: seq<Pick>) returns (out: Vec)
    requires Outputs(f, x, |h|, picks)
    ensures out == AddPicks(f, x, h, picks)
  {
    var eouts := OutputRows(f, x, |h|, picks);
    var wts := seq(|picks|, k requires 0 <= k < |picks| => picks[k].weight);
    out := ReducePicks(eouts, wts, x, h, f, picks);
  }

  /** The picks a wave serves, in pick order. */
  function Filter(picks: seq<Pick>, ids: seq<nat>): (r: seq<Pick>)
    ensures |r| <= |picks|
    ensures forall k :: 0 <= k < |r| ==> r[k] in picks && r[k].expert in ids
  {
    if picks == [] then []
    else
      var last := picks[|picks| - 1];
      Filter(picks[..|picks| - 1], ids) + (if last.expert in ids then [last] else [])
  }

  lemma FilterOutputs(f: Experts, x: Vec, hidden: nat, picks: seq<Pick>, ids: seq<nat>)
    requires Outputs(f, x, hidden, picks)
    ensures Outputs(f, x, hidden, Filter(picks, ids))
  {
  }

  lemma PickSumSnoc(f: Experts, x: Vec, hidden: nat, picks: seq<Pick>, p: Pick, i: nat)
    requires Outputs(f, x, hidden, picks) && |f(p.expert, x)| == hidden && i < hidden
    ensures Outputs(f, x, hidden, picks + [p])
    ensures PickSum(f, x, hidden, picks + [p], i) == PickSum(f, x, hidden, picks, i) + p.weight * f(p.expert, x)[i]
  {
    assert (picks + [p])[..|picks|] == picks;
  }

  /** Serving two disjoint groups of experts in turn adds up to serving both. */
  lemma {:induction false} WavesAdd(f: Experts, x: Vec, hidden: nat, picks: seq<Pick>, a: seq<nat>, b: seq<nat>, i: nat)
    requires Outputs(f, x, hidden, picks) && i < hidden
    requires forall e :: e in a ==> e !in b
    ensures Outputs(f, x, hidden, Filter(picks, a)) && Outputs(f, x, hidden, Filter(picks, b))
    ensures Outputs(f, x, hidden, Filter(picks, a + b))
    ensures PickSum(f, x, hidden, Filter(picks, a + b), i) ==
            PickSum(f, x, hidden, Filter(picks, a), i) + PickSum(f, x, hidden, Filter(picks, b), i)
    decreases |picks|
  {
    FilterOutputs(f, x, hidden, picks, a);
    FilterOutputs(f, x, hidden, picks, b);
    FilterOutputs(f, x, hidden, picks, a + b);
    if picks != [] {
      var last := picks[|picks| - 1];
      var rest := picks[..|picks| - 1];
      WavesAdd(f, x, hidden, rest, a, b, i);
      if last.expert in a {
        PickSumSnoc(f, x, hidden, Filter(rest, a), last, i);
        PickSumSnoc(f, x, hidden, Filter(rest, a + b), last, i);
        assert Filter(picks, b) == Filter(rest, b);
      } else if last.expert in b {
        PickSumSnoc(f, x, hidden, Filter(rest, b), last, i);
        PickSumSnoc(f, x, hidden, Filter(rest, a + b), last, i);
        assert Filter(picks, a) == Filter(rest, a);
      } else {
        assert Filter(picks, a) == Filter(rest, a) && Filter(picks, b) == Filter(rest, b);
        assert Filter(picks, a + b) == Filter(rest, a + b);
      }
    }
  }

  /** Two waves over one token's accumulator are one wave over both id lists. */
  lemma AddPicksTwice(f: Experts, x: Vec, h: Vec, picks: seq<Pick>, a: seq<nat>, b: seq<nat>)
    requires Outputs(f, x, |h|, picks)
    requires forall e :: e in a ==> e !in b
    ensures Outputs(f, x, |h|, Filter(picks, a)) && Outputs(f, x, |h|, Filter(picks, b))
    ensures Outputs(f, x, |h|, Filter(picks, a + b))
    ensures AddPicks(f, x, AddPicks(f, x, h, Filter(picks, a)), Filter(picks, b))
        == AddPicks(f, x, h, Filter(picks, a + b))
  {
    FilterOutputs(f, x, |h|, picks, a);
    FilterOutputs(f, x, |h|, picks, b);
    FilterOutputs(f, x, |h|, picks, a + b);
    forall i | 0 <= i < |h|
      ensures AddPicks(f, x, AddPicks(f, x, h, Filter(picks, a)), Filter(picks, b))[i]
          == AddPicks(f, x, h, Filter(picks, a + b))[i]
    {
      WavesAdd(f, x, |h|, picks, a, b, i);
    }
  }

  lemma {:induction false} FilterAll(picks: seq<Pick>, ids: seq<nat>)
    requires forall k :: 0 <= k < |picks| ==> picks[k].expert in ids
    ensures Filter(picks, ids) == picks
    decreases |picks|
  {
    if picks != [] {
      FilterAll(picks[..|picks| - 1], ids);
      assert picks[..|picks| - 1] + [picks[|picks| - 1]] == picks;
    }
  }

  lemma {:induction false} FilterNothing(picks: seq<Pick>)
    ensures Filter(picks, []) == []
    decreases |picks|
  {
    if picks != [] {
      FilterNothing(picks[..|picks| - 1]);
    }
  }

  /** Across disjoint waves every pick is launched exactly as often as it was picked. */
  lemma {:induction false} LaunchesAddUp(picks: seq<Pick>, a: seq<nat>, b: seq<nat>)
    requires forall e :: e in a ==> e !in b
    ensures multiset(Filter(picks, a + b)) == multiset(Filter(picks, a)) + multiset(Filter(picks, b))
    decreases |picks|
  {
    if picks != [] {
      LaunchesAddUp(picks[..|picks| - 1], a, b);
    }
  }

  // ------------------------------------------------------------------- the union

  predicate Increasing(s: seq<nat>) {
    forall i, j :: 0 <= i < j < |s| ==> s[i] < s[j]
  }

  /** Put `e` into a sorted list without repetition. */
  function Insert(s: seq<nat>, e: nat): (r: seq<nat>)
    requires Increasing(s)
    ensures Increasing(r)
    ensures forall x :: x in r <==> x in s || x == e
  {
    if s == [] then [e]
    else if e < s[0] then [e] + s
    else if e == s[0] then s
    else
      var rest := Insert(s[1..], e);
      assert forall k :: 0 <= k < |rest| ==> rest[k] in rest;
      [s[0]] + rest
  }

  /** The sorted, deduplicated experts of all tokens' picks. */
  method Union(picks: seq<seq<Pick>>) returns (ids: seq<nat>)
    ensures Increasing(ids)
    ensures forall t, k :: 0 <= t < |picks| && 0 <= k < |picks[t]| ==> picks[t][k].expert in ids
    ensures forall e :: e in ids ==> exists t, k :: 0 <= t < |picks| && 0 <= k < |picks[t]| && picks[t][k].expert == e
  {
    ids := [];
    for t := 0 to |picks|
      invariant Increasing(ids)
      invariant forall u, k :: 0 <= u < t && 0 <= k < |picks[u]| ==> picks[u][k].expert in ids
      invariant forall e :: e in ids ==> exists u, k :: 0 <= u < t && 0 <= k < |picks[u]| && picks[u][k].expert == e
    {
      for n := 0 to |picks[t]|
        invariant Increasing(ids)
        invariant forall u, k :: 0 <= u < t && 0 <= k < |picks[u]| ==> picks[u][k].expert in ids
        invariant forall k :: 0 <= k < n ==> picks[t][k].expert in ids
        invariant forall e :: e in ids ==> exists u, k :: 0 <= u <= t && 0 <= k < |picks[u]| && picks[u][k].expert == e
      {
        ids := Insert(ids, picks[t][n].expert);
      }
    }
  }

  lemma HasElement(s: seq<nat>)
    ensures s == [] || exists x :: x in s
  {
    if s != [] {
      assert s[0] in s;
    }
  }

  /** Two lists without repetition and with the same elements in order are equal, so the
      list above is the one sort-and-dedup produces. */
  lemma {:induction false} IncreasingIsUnique(a: seq<nat>, b: seq<nat>)
    requires Increasing(a) && Increasing(b)
    requires forall x :: x in a <==> x in b
    ensures a == b
    decreases |a|
  {
    if a == [] {
      HasElement(b);
    } else {
      assert a[0] in b && b != [];
      assert b[0] in a;
      assert a[0] == b[0];
      forall x
        ensures x in a[1..] <==> x in b[1..]
      {
        assert x in a[1..] <==> x in a && x != a[0] by {
          assert a == [a[0]] + a[1..];
        }
        assert x in b[1..] <==> x in b && x != b[0] by {
          assert b == [b[0]] + b[1..];
        }
      }
      IncreasingIsUnique(a[1..], b[1..]);
    }
  }

  lemma CutsDisjoint(s: seq<nat>, at: nat, to: nat)
    requires Increasing(s) && at <= to <= |s|
    ensures forall e :: e in s[..at] ==> e !in s[at..to]
    ensures s[..to] == s[..at] + s[at..to]
  {
  }

  // --------------------------------------------------------------------- waves

  /** One batched kernel launch: the token and the picks it was for. */
  datatype Launch = Launch(token: nat, picks: seq<Pick>)

  /** All picks launched for token `t`. */
  function LaunchedFor(ls: seq<Launch>, t: nat): multiset<Pick> {
    if ls == [] then multiset{}
    else
      LaunchedFor(ls[..|ls| - 1], t)
      + (if ls[|ls| - 1].token == t then multiset(ls[|ls| - 1].picks) else multiset{})
  }

  ghost predicate Shapes(f: Experts, xs: seq<Vec>, hs: seq<Vec>, picks: seq<seq<Pick>>) {
    && |xs| == |hs| == |picks|
    && forall t :: 0 <= t < |hs| ==> Outputs(f, xs[t], |hs[t]|, picks[t])
  }

  /** Token `t` has had exactly the experts in `ids` added. */
  ghost predicate Served(f: Experts, x: Vec, h: Vec, picks: seq<Pick>, ids: seq<nat>, now: Vec, before: seq<Launch>,
                         ls: seq<Launch>, t: nat) {
    && Outputs(f, x, |h|, Filter(picks, ids))
    && now == AddPicks(f, x, h, Filter(picks, ids))
    && LaunchedFor(ls, t) == LaunchedFor(before, t) + multiset(Filter(picks, ids))
  }

  ghost predicate LaunchesOk(picks: seq<seq<Pick>>, ls: seq<Launch>) {
    forall k :: 0 <= k < |ls| ==> ls[k].token < |picks| && 0 < |ls[k].picks| <= |picks[ls[k].token]|
  }

  /** One token's share of a wave: a launch for its picks among `ids`, if it has any. */
  method ServeToken(f: Experts, x: Vec, h: Vec, picks: seq<seq<Pick>>, t: nat, ids: seq<nat>, before: seq<Launch>)
    returns (out: Vec, launches: seq<Launch>)
    requires t < |picks| && Outputs(f, x, |h|, picks[t]) && LaunchesOk(picks, before)
    ensures Served(f, x, h, picks[t], ids, out, before, launches, t) && LaunchesOk(picks, launches)
    ensures forall u :: u != t ==> LaunchedFor(launches, u) == LaunchedFor(before, u)
  {
    var sub := Filter(picks[t], ids);
    FilterOutputs(f, x, |h|, picks[t], ids);
    if sub == [] {
      out, launches := h, before;
      assert AddPicks(f, x, h, sub) == h;
    } else {
      out := LaunchPicks(f, x, h, sub);
      launches := before + [Launch(t, sub)];
      assert launches[..|before|] == before;
    }
  }

  lemma ServedStays(f: Experts, x: Vec, h: Vec, picks: seq<Pick>, ids: seq<nat>, now: Vec, before: seq<Launch>,
                    ls: seq<Launch>, ls': seq<Launch>, t: nat)
    requires Served(f, x, h, picks, ids, now, before, ls, t) && LaunchedFor(ls', t) == LaunchedFor(ls, t)
    ensures Served(f, x, h, picks, ids, now, before, ls', t)
  {
  }

  lemma ServedFrom(f: Experts, x: Vec, h: Vec, picks: seq<Pick>, ids: seq<nat>, now: Vec, before: seq<Launch>,
                   mid: seq<Launch>, ls: seq<Launch>, t: nat)
    requires Served(f, x, h, picks, ids, now, mid, ls, t) && LaunchedFor(mid, t) == LaunchedFor(before, t)
    ensures Served(f, x, h, picks, ids, now, before, ls, t)
  {
  }

  /** The token loop of one wave: each token that picked some of `ids` gets one launch. */
  method OneWave(f: Experts, xs: seq<Vec>, hs: seq<Vec>, picks: seq<seq<Pick>>, ids: seq<nat>, before: seq<Launch>)
    returns (out: seq<Vec>, launches: seq<Launch>)
    requires Shapes(f, xs, hs, picks) && LaunchesOk(picks, before)
    ensures |out| == |hs| && LaunchesOk(picks, launches)
    ensures forall t :: 0 <= t < |hs| ==> Served(f, xs[t], hs[t], picks[t], ids, out[t], before, launches, t)
  {
    out := hs;
    launches := before;
    hide Served;
    hide LaunchedFor;
    hide LaunchesOk;
    for t := 0 to |hs|
      invariant |out| == |hs| && LaunchesOk(picks, launches)
      invariant forall u :: t <= u < |hs| ==> out[u] == hs[u] && LaunchedFor(launches, u) == LaunchedFor(before, u)
      invariant forall u :: 0 <= u < t ==> Served(f, xs[u], hs[u], picks[u], ids, out[u], before, launches, u)
    {
      var h', ls := ServeToken(f, xs[t], hs[t], picks, t, ids, launches);
      ServedFrom(f, xs[t], hs[t], picks[t], ids, h', before, launches, ls, t);
      forall u | 0 <= u < t
        ensures Served(f, xs[u], hs[u], picks[u], ids, out[u], before, ls, u)
      {
        ServedStays(f, xs[u], hs[u], picks[u], ids, out[u], before, launches, ls, u);
      }
      out := out[t := h'];
      launches := ls;
    }
  }

  function Concat<T>(ws: seq<seq<T>>): seq<T> {
    if ws == [] then [] else Concat(ws[..|ws| - 1]) + ws[|ws| - 1]
  }

  lemma ConcatSnoc<T>(ws: seq<seq<T>>, w: seq<T>)
    ensures Concat(ws + [w]) == Concat(ws) + w
  {
    assert (ws + [w])[..|ws|] == ws;
  }

  predicate PickedBySome(picks: seq<seq<Pick>>, e: nat) {
    exists t, k :: 0 <= t < |picks| && 0 <= k < |picks[t]| && picks[t][k].expert == e
  }

  /** Where one token stands after the experts in `seen` have been served. */
  ghost predicate WaveState(f: Experts, x: Vec, h: Vec, picks: seq<Pick>, seen: seq<nat>, now: Vec, ls: seq<Launch>,
                            t: nat) {
    && |now| == |h| && Served(f, x, h, picks, seen, now, [], ls, t)
  }

  lemma WaveStarts(f: Experts, x: Vec, h: Vec, picks: seq<Pick>, t: nat)
    ensures WaveState(f, x, h, picks, [], h, [], t)
  {
    FilterNothing(picks);
    assert AddPicks(f, x, h, []) == h;
  }

  lemma WaveAdvances(f: Experts, x: Vec, h: Vec, picks: seq<Pick>, seen: seq<nat>, ids: seq<nat>,
                     now: Vec, next: Vec, ls: seq<Launch>, ls': seq<Launch>, t: nat)
    requires Outputs(f, x, |h|, picks) && WaveState(f, x, h, picks, seen, now, ls, t)
    requires forall e :: e in seen ==> e !in ids
    requires Served(f, x, now, picks, ids, next, ls, ls', t)
    ensures WaveState(f, x, h, picks, seen + ids, next, ls', t)
  {
    AddPicksTwice(f, x, h, picks, seen, ids);
    LaunchesAddUp(picks, seen, ids);
  }

  lemma WaveEnds(f: Experts, x: Vec, h: Vec, picks: seq<Pick>, seen: seq<nat>, now: Vec, ls: seq<Launch>, t: nat)
    requires WaveState(f, x, h, picks, seen, now, ls, t)
    requires forall k :: 0 <= k < |picks| ==> picks[k].expert in seen
    ensures Outputs(f, x, |h|, picks) && now == AddPicks(f, x, h, picks)
    ensures forall i :: 0 <= i < |h| ==> now[i] == h[i] + Sum(Terms(f, x, picks, i), |picks|)
    ensures LaunchedFor(ls, t) == multiset(picks)
  {
    FilterAll(picks, seen);
    AddPicksAt(f, x, h, picks);
    hide Sum;
    hide Terms;
  }

  /** The expert stage of a chunk. Every distinct expert is requested exactly once, in
      waves of exactly `wave` but for the last; every pick is launched exactly once, no launch is
      larger than its token's pick list; and each token ends with its state plus, element by
      element, the weighted outputs of its picks. */
  method RunWaves(f: Experts, xs: seq<Vec>, hs: seq<Vec>, picks: seq<seq<Pick>>, wave: nat)
    returns (out: seq<Vec>, waves: seq<seq<nat>>, launches: seq<Launch>)
    requires Shapes(f, xs, hs, picks) && 0 < wave
    ensures |out| == |hs| && forall t :: 0 <= t < |hs| ==> out[t] == AddPicks(f, xs[t], hs[t], picks[t])
    ensures forall t :: 0 <= t < |hs| ==>
                          && |out[t]| == |hs[t]|
                          && forall i :: 0 <= i < |hs[t]| ==>
                                           out[t][i] == hs[t][i] + Sum(Terms(f, xs[t], picks[t], i), |picks[t]|)
    ensures Increasing(Concat(waves)) && forall e :: e in Concat(waves) <==> PickedBySome(picks, e)
    ensures forall w :: 0 <= w < |waves| ==> 0 < |waves[w]| <= wave && (w + 1 < |waves| ==> |waves[w]| == wave)
    ensures forall t :: 0 <= t < |hs| ==> LaunchedFor(launches, t) == multiset(picks[t])
    ensures LaunchesOk(picks, launches)
  {
    var union := Union(picks);
    out, waves, launches := hs, [], [];
    assert LaunchesOk(picks, launches);
    var at := 0;
    assert union[..0] == [];
    forall t | 0 <= t < |hs|
      ensures WaveState(f, xs[t], hs[t], picks[t], [], hs[t], [], t)
    {
      WaveStarts(f, xs[t], hs[t], picks[t], t);
    }
    hide Served;
    hide LaunchedFor;
    hide LaunchesOk;
    hide AddPicks;
    hide Outputs;
    while at < |union|
      invariant at <= |union| && |out| == |hs| && Concat(waves) == union[..at]
      invariant forall w :: 0 <= w < |waves| ==>
                              0 < |waves[w]| <= wave && (w + 1 < |waves| || at < |union| ==> |waves[w]| == wave)
      invariant forall t :: 0 <= t < |hs| ==> WaveState(f, xs[t], hs[t], picks[t], union[..at], out[t], launches, t)
      invariant LaunchesOk(picks, launches)
    {
      var to := Min(at + wave, |union|);
      var ids := union[at..to];
      CutsDisjoint(union, at, to);
      ghost var out0, launches0 := out, launches;
      assert Shapes(f, xs, out, picks);
      out, launches := OneWave(f, xs, out, picks, ids, launches);
      forall t | 0 <= t < |hs|
        ensures WaveState(f, xs[t], hs[t], picks[t], union[..to], out[t], launches, t)
      {
        WaveAdvances(f, xs[t], hs[t], picks[t], union[..at], ids, out0[t], out[t], launches0, launches, t);
      }
      ConcatSnoc(waves, ids);
      waves := waves + [ids];
      at := to;
    }
    assert union[..at] == union;
    hide WaveState;
    hide Sum;
    hide Terms;
    forall t | 0 <= t < |hs|
      ensures Outputs(f, xs[t], |hs[t]|, picks[t]) && out[t] == AddPicks(f, xs[t], hs[t], picks[t])
      ensures forall i :: 0 <= i < |hs[t]| ==> out[t][i] == hs[t][i] + Sum(Terms(f, xs[t], picks[t], i), |picks[t]|)
      ensures LaunchedFor(launches, t) == multiset(picks[t])
    {
      WaveEnds(f, xs[t], hs[t], picks[t], union, out[t], launches, t);
    }
  }

  // --------------------------------------------------------- any waves, any order

  /** No expert is in two waves. */
  ghost predicate Disjoint(ws: seq<seq<nat>>) {
    forall a, b :: 0 <= a < b < |ws| ==> forall e :: e in ws[a] ==> e !in ws[b]
  }

  /** `h` after the waves `ws`, one after the other. */
  function AfterWaves(f: Experts, x: Vec, h: Vec, picks: seq<Pick>, ws: seq<seq<nat>>): (r: Vec)
    requires Outputs(f, x, |h|, picks)
    ensures |r| == |h|
  {
    if ws == [] then h
    else
      FilterOutputs(f, x, |h|, picks, ws[|ws| - 1]);
      AddPicks(f, x, AfterWaves(f, x, h, picks, ws[..|ws| - 1]), Filter(picks, ws[|ws| - 1]))
  }

  lemma {:induction false} ConcatHas(ws: seq<seq<nat>>, e: nat) returns (a: nat)
    requires e in Concat(ws)
    ensures a < |ws| && e in ws[a]
  {
    var n := |ws| - 1;
    if e in ws[n] {
      a := n;
    } else {
      a := ConcatHas(ws[..n], e);
    }
  }

  lemma {:induction false} WavesAddUp(f: Experts, x: Vec, h: Vec, picks: seq<Pick>, ws: seq<seq<nat>>)
    requires Outputs(f, x, |h|, picks) && Disjoint(ws)
    ensures Outputs(f, x, |h|, Filter(picks, Concat(ws)))
    ensures AfterWaves(f, x, h, picks, ws) == AddPicks(f, x, h, Filter(picks, Concat(ws)))
  {
    FilterOutputs(f, x, |h|, picks, Concat(ws));
    if ws == [] {
      FilterNothing(picks);
      assert AddPicks(f, x, h, []) == h;
    } else {
      var n := |ws| - 1;
      WavesAddUp(f, x, h, picks, ws[..n]);
      forall e | e in Concat(ws[..n])
        ensures e !in ws[n]
      {
        var a := ConcatHas(ws[..n], e);
      }
      AddPicksTwice(f, x, h, picks, Concat(ws[..n]), ws[n]);
    }
  }

  /** Any disjoint waves that cover a token's picks, in any order, add the direct sum. */
  lemma AnyWavesServe(f: Experts, x: Vec, h: Vec, picks: seq<Pick>, ws: seq<seq<nat>>)
    requires Outputs(f, x, |h|, picks) && Disjoint(ws)
    requires forall k :: 0 <= k < |picks| ==> picks[k].expert in Concat(ws)
    ensures AfterWaves(f, x, h, picks, ws) == AddPicks(f, x, h, picks)
    ensures forall i :: 0 <= i < |h| ==>
                          AfterWaves(f, x, h, picks, ws)[i] == h[i] + Sum(Terms(f, x, picks, i), |picks|)
  {
    WavesAddUp(f, x, h, picks, ws);
    FilterAll(picks, Concat(ws));
    AddPicksAt(f, x, h, picks);
    hide Sum;
    hide Terms;
  }

  // ------------------------------------------------------------ the shared expert

  function AddVec(a: Vec, b: Vec): (r: Vec)
    requires |a| == |b|
    ensures |r| == |a|
  {
    seq(|a|, i requires 0 <= i < |a| && |a| == |b| => a[i] + b[i])
  }

  /** The shared expert's output can be added before the picks or after them. */
  lemma SharedCommutes(f: Experts, x: Vec, h: Vec, shared: Vec, picks: seq<Pick>)
    requires |shared| == |h| && Outputs(f, x, |h|, picks)
    ensures AddVec(AddPicks(f, x, h, picks), shared) == AddPicks(f, x, AddVec(h, shared), picks)
  {
    hide PickSum;
  }

  lemma {:induction false} PickSumSplits(f: Experts, x: Vec, hidden: nat, a: seq<Pick>, b: seq<Pick>, i: nat)
    requires Outputs(f, x, hidden, a + b) && i < hidden
    ensures Outputs(f, x, hidden, a) && Outputs(f, x, hidden, b)
    ensures PickSum(f, x, hidden, a + b, i) == PickSum(f, x, hidden, a, i) + PickSum(f, x, hidden, b, i)
    decreases |b|
  {
    forall k | 0 <= k < |a|
      ensures |f(a[k].expert, x)| == hidden
    {
      assert (a + b)[k] == a[k];
    }
    forall k | 0 <= k < |b|
      ensures |f(b[k].expert, x)| == hidden
    {
      assert (a + b)[|a| + k] == b[k];
    }
    if b == [] {
      assert a + b == a;
    } else {
      var n := |b| - 1;
      assert (a + b)[..|a + b| - 1] == a + b[..n];
      PickSumSplits(f, x, hidden, a, b[..n], i);
    }
  }

  lemma AddPicksSplits(f: Experts, x: Vec, h: Vec, a: seq<Pick>, b: seq<Pick>)
    requires Outputs(f, x, |h|, a + b)
    ensures Outputs(f, x, |h|, a) && Outputs(f, x, |h|, b)
    ensures AddPicks(f, x, AddPicks(f, x, h, a), b) == AddPicks(f, x, h, a + b)
  {
    assert forall k :: 0 <= k < |a| ==> (a + b)[k] == a[k];
    assert forall k :: 0 <= k < |b| ==> (a + b)[|a| + k] == b[k];
    hide PickSum;
    forall i | 0 <= i < |h|
      ensures PickSum(f, x, |h|, a + b, i) == PickSum(f, x, |h|, a, i) + PickSum(f, x, |h|, b, i)
    {
      PickSumSplits(f, x, |h|, a, b, i);
    }
  }

  /** A single token's picks in waves of at most the pool, in pick order, as kimi's `step`
      fetches them; then the shared expert. */
  method StepWaves(f: Experts, x: Vec, h: Vec, shared: Vec, picks: seq<Pick>, slots: nat)
    returns (out: Vec, waves: seq<seq<Pick>>)
    requires |shared| == |h| && Outputs(f, x, |h|, picks)
    ensures out == AddPicks(f, x, AddVec(h, shared), picks)
    ensures forall i :: 0 <= i < |h| ==> out[i] == h[i] + shared[i] + Sum(Terms(f, x, picks, i), |picks|)
    ensures Concat(waves) == picks
    ensures var wave := if slots == 0 then 1 else slots;
            forall w :: 0 <= w < |waves| ==> 0 < |waves[w]| <= wave && (w + 1 < |waves| ==> |waves[w]| == wave)
  {
    var wave := if slots == 0 then 1 else slots;
    out, waves := h, [];
    var at := 0;
    assert AddPicks(f, x, h, picks[..0]) == h;
    while at < |picks|
      invariant at <= |picks| && |out| == |h| && Outputs(f, x, |h|, picks[..at])
      invariant out == AddPicks(f, x, h, picks[..at]) && Concat(waves) == picks[..at]
      invariant forall w :: 0 <= w < |waves| ==>
                              0 < |waves[w]| <= wave && (w + 1 < |waves| || at < |picks| ==> |waves[w]| == wave)
    {
      var to := Min(at + wave, |picks|);
      assert picks[..at] + picks[at..to] == picks[..to];
      AddPicksSplits(f, x, h, picks[..at], picks[at..to]);
      out := LaunchPicks(f, x, out, picks[at..to]);
      ConcatSnoc(waves, picks[at..to]);
      waves := waves + [picks[at..to]];
      at := to;
    }
    assert picks[..at] == picks;
    SharedCommutes(f, x, h, shared, picks);
    out := AddVec(out, shared);
    AddPicksAt(f, x, AddVec(h, shared), picks);
    hide AddPicks;
    hide Sum;
    hide Terms;
  }

  /** A chunk's expert stage with a shared expert, which kimi's `step_multi` adds first.
      Every token ends as `StepWaves` leaves it. */
  method ChunkWaves(f: Experts, xs: seq<Vec>, hs: seq<Vec>, shared: seq<Vec>, picks: seq<seq<Pick>>, wave: nat)
    returns (out: seq<Vec>)
    requires Shapes(f, xs, hs, picks) && 0 < wave && |shared| == |hs|
    requires forall t :: 0 <= t < |hs| ==> |shared[t]| == |hs[t]|
    ensures |out| == |hs|
    ensures forall t :: 0 <= t < |hs| ==> out[t] == AddPicks(f, xs[t], AddVec(hs[t], shared[t]), picks[t])
    ensures forall t :: 0 <= t < |hs| ==>
                          && |out[t]| == |hs[t]|
                          && forall i :: 0 <= i < |hs[t]| ==>
                               out[t][i] == hs[t][i] + shared[t][i] + Sum(Terms(f, xs[t], picks[t], i), |picks[t]|)
  {
    hide AddPicks;
    hide Sum;
    hide Terms;
    var withShared := seq(|hs|, t requires 0 <= t < |hs| && |shared| == |hs| && |shared[t]| == |hs[t]| =>
                                  AddVec(hs[t], shared[t]));
    var waves, launches;
    out, waves, launches := RunWaves(f, xs, withShared, picks, wave);
  }
}
