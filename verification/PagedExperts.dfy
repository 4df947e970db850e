/** The expert stage reads the pager's slots (crates/llmpager-run/src/decode.rs:483-531).

    A wave requests a handle per expert, waits on it, hands the slot's device address to
    the batched kernels, and drops it after they ran. What the kernels add up, from
    whatever is in those slots at the time each is read, is the direct weighted sum over
    the pack's own blobs.
  */
module PagedExperts {
  import opened CacheModel
  import M = DecodeModel
  import H = HeldRequests
  import opened MoeWaves
  import opened PagerModel
  import opened PagerSafety
  import opened Util

  /** An expert's output, from the bytes of its blob and an input row. */
  type Kernel = (seq<Byte>, Vec) -> Vec

  /** The layer's experts, straight from the pack. */
  ghost function FromPack(k: Pack, layer: nat, epl: nat, kernel: Kernel): Experts {
    (e: nat, x: Vec) =>
      if layer * epl + e < |k.blobs| then kernel(k.blobs[layer * epl + e], x) else []
  }

  /** How a chunk holds its experts: expert `e` is read at point `at[e]` of the run,
      through handle `handle[e]`. */
  datatype Holding = Holding(at: map<nat, nat>, handle: map<nat, nat>)

  /** Expert `e` is read while its waited-on handle is held. */
  ghost predicate Holds(run: seq<Pager>, hold: Holding, layer: nat, epl: nat, e: nat) {
    && e in hold.at && e in hold.handle && hold.at[e] < |run|
    && var s, h := run[hold.at[e]], hold.handle[e];
       h in s.handles && s.handles[h].waited && s.handles[h].id == layer * epl + e
  }

  /** What is in expert `e`'s slot when its kernels read it: the first `len` bytes. */
  ghost function SlotBytes(run: seq<Pager>, hold: Holding, e: nat, len: nat): (b: seq<Byte>) {
    if e in hold.at && e in hold.handle && hold.at[e] < |run| && hold.handle[e] in run[hold.at[e]].handles then
      var s := run[hold.at[e]];
      var slot := s.handles[hold.handle[e]].slot;
      if slot < |s.dev| && len <= |s.dev[slot]| then s.dev[slot][..len] else []
    else []
  }

  /** The layer's experts, as the kernels compute them from device memory. */
  ghost function FromSlots(k: Pack, run: seq<Pager>, hold: Holding, layer: nat, epl: nat, kernel: Kernel): Experts {
    (e: nat, x: Vec) =>
      if layer * epl + e < |k.blobs|
      then kernel(SlotBytes(run, hold, e, |k.blobs[layer * epl + e]|), x)
      else []
  }

  lemma SlotHasBlob(k: Pack, run: seq<Pager>, acts: seq<Action>, hold: Holding, layer: nat, epl: nat, e: nat)
    requires IsRun(k, run, acts) && Start(k, run[0]) && Holds(run, hold, layer, epl, e)
    ensures layer * epl + e < |k.blobs|
    ensures SlotBytes(run, hold, e, |k.blobs[layer * epl + e]|) == k.blobs[layer * epl + e]
  {
    PagingIsLossless(k, run, acts, hold.at[e], hold.handle[e]);
    hide IsRun;
    hide Start;
  }

  lemma {:induction false} SamePickSum(f: Experts, g: Experts, x: Vec, hidden: nat, picks: seq<Pick>, i: nat)
    requires Outputs(f, x, hidden, picks) && Outputs(g, x, hidden, picks) && i < hidden
    requires forall j :: 0 <= j < |picks| ==> f(picks[j].expert, x) == g(picks[j].expert, x)
    ensures PickSum(f, x, hidden, picks, i) == PickSum(g, x, hidden, picks, i)
  {
    if picks != [] {
      SamePickSum(f, g, x, hidden, picks[..|picks| - 1], i);
    }
  }

  /** The expert stage is lossless: in every run of the pager from cold, however clients
      and workers interleave, adding up the picked experts from their slots gives what
      adding them up from the pack gives. */
  lemma SlotsServeThePack(k: Pack, run: seq<Pager>, acts: seq<Action>, hold: Holding, layer: nat, epl: nat,
                          kernel: Kernel, picks: seq<Pick>, x: Vec, h: Vec)
    requires IsRun(k, run, acts) && Start(k, run[0])
    requires forall j :: 0 <= j < |picks| ==> Holds(run, hold, layer, epl, picks[j].expert)
    requires Outputs(FromPack(k, layer, epl, kernel), x, |h|, picks)
    ensures Outputs(FromSlots(k, run, hold, layer, epl, kernel), x, |h|, picks)
    ensures AddPicks(FromSlots(k, run, hold, layer, epl, kernel), x, h, picks)
         == AddPicks(FromPack(k, layer, epl, kernel), x, h, picks)
  {
    var f, g := FromSlots(k, run, hold, layer, epl, kernel), FromPack(k, layer, epl, kernel);
    forall j | 0 <= j < |picks|
      ensures f(picks[j].expert, x) == g(picks[j].expert, x)
    {
      SlotHasBlob(k, run, acts, hold, layer, epl, picks[j].expert);
    }
    hide IsRun;
    hide Start;
    hide Holds;
    hide FromSlots;
    hide FromPack;
    SameAddPicks(f, g, x, h, picks);
  }

  // ------------------------------------------------------------- wave by wave

  /** Some waited-on handle on `id` is held. */
  ghost predicate WaitedOn(s: Pager, id: ExpertId) {
    exists h :: h in s.handles && s.handles[h].waited && s.handles[h].id == id
  }

  /** Wave `w` of a chunk is read at point `at[w]` of the run, while each of its experts is
      held and has been waited on. */
  ghost predicate WavesHeld(run: seq<Pager>, at: seq<nat>, layer: nat, epl: nat, waves: seq<seq<nat>>) {
    && |at| == |waves|
    && forall w :: 0 <= w < |waves| ==>
         at[w] < |run| && forall i :: 0 <= i < |waves[w]| ==> WaitedOn(run[at[w]], layer * epl + waves[w][i])
  }

  /** A wave that was granted in full, and whose handles have been waited on, is held. */
  lemma GrantedWaveIsHeld(s: Pager, p: nat, ids: seq<ExpertId>)
    requires H.Elements(ids) <= H.HeldIds(s, p) && forall h :: h in s.handles ==> s.handles[h].waited
    ensures forall i :: 0 <= i < |ids| ==> WaitedOn(s, ids[i])
  {
    forall i | 0 <= i < |ids|
      ensures WaitedOn(s, ids[i])
    {
      assert ids[i] in H.Elements(ids);
    }
  }

  /** One wave's handles, as a holding. */
  lemma {:induction false} HoldWave(run: seq<Pager>, n: nat, layer: nat, epl: nat, ids: seq<nat>, was: Holding)
    returns (hold: Holding)
    requires n < |run| && forall i :: 0 <= i < |ids| ==> WaitedOn(run[n], layer * epl + ids[i])
    ensures forall e :: e in ids ==> Holds(run, hold, layer, epl, e)
    ensures forall e :: Holds(run, was, layer, epl, e) ==> Holds(run, hold, layer, epl, e)
  {
    if ids == [] {
      hold := was;
    } else {
      var rest := HoldWave(run, n, layer, epl, ids[1..], was);
      assert WaitedOn(run[n], layer * epl + ids[0]);
      var h :| h in run[n].handles && run[n].handles[h].waited && run[n].handles[h].id == layer * epl + ids[0];
      hold := Holding(rest.at[ids[0] := n], rest.handle[ids[0] := h]);
      forall e | Holds(run, rest, layer, epl, e)
        ensures Holds(run, hold, layer, epl, e)
      {
      }
      assert Holds(run, hold, layer, epl, ids[0]);
    }
  }

  lemma {:induction false} HoldWaves(run: seq<Pager>, at: seq<nat>, layer: nat, epl: nat, waves: seq<seq<nat>>)
    returns (hold: Holding)
    requires WavesHeld(run, at, layer, epl, waves)
    ensures forall e :: e in Concat(waves) ==> Holds(run, hold, layer, epl, e)
  {
    hide Holds;
    hide WaitedOn;
    if waves == [] {
      hold := Holding(map[], map[]);
    } else {
      var n := |waves| - 1;
      var rest := HoldWaves(run, at[..n], layer, epl, waves[..n]);
      hold := HoldWave(run, at[n], layer, epl, waves[n], rest);
    }
  }

  /** A chunk's expert stage, on the waves the decoder requests: whatever the pager does in
      between, every token ends with the sum over the pack's blobs. */
  lemma WavesServeThePack(k: Pack, run: seq<Pager>, acts: seq<Action>, at: seq<nat>, layer: nat, epl: nat,
                          kernel: Kernel, waves: seq<seq<nat>>, xs: seq<Vec>, hs: seq<Vec>, picks: seq<seq<Pick>>)
    returns (hold: Holding)
    requires IsRun(k, run, acts) && Start(k, run[0]) && WavesHeld(run, at, layer, epl, waves)
    requires Shapes(FromPack(k, layer, epl, kernel), xs, hs, picks)
    requires forall e :: PickedBySome(picks, e) ==> e in Concat(waves)
    ensures Shapes(FromSlots(k, run, hold, layer, epl, kernel), xs, hs, picks)
    ensures forall t :: 0 <= t < |hs| ==>
                          AddPicks(FromSlots(k, run, hold, layer, epl, kernel), xs[t], hs[t], picks[t])
                          == AddPicks(FromPack(k, layer, epl, kernel), xs[t], hs[t], picks[t])
  {
    hide IsRun;
    hide Start;
    hide Holds;
    hide FromSlots;
    hide FromPack;
    hold := HoldWaves(run, at, layer, epl, waves);
    hide WavesHeld;
    hide Concat;
    hide AddPicks;
    hide Outputs;
    forall t | 0 <= t < |hs|
      ensures Outputs(FromSlots(k, run, hold, layer, epl, kernel), xs[t], |hs[t]|, picks[t])
      ensures AddPicks(FromSlots(k, run, hold, layer, epl, kernel), xs[t], hs[t], picks[t])
           == AddPicks(FromPack(k, layer, epl, kernel), xs[t], hs[t], picks[t])
    {
      forall j | 0 <= j < |picks[t]|
        ensures Holds(run, hold, layer, epl, picks[t][j].expert)
      {
        assert PickedBySome(picks, picks[t][j].expert);
      }
      SlotsServeThePack(k, run, acts, hold, layer, epl, kernel, picks[t], xs[t], hs[t]);
    }
  }

  /** The layer's experts are those of the pack, as far as the pack goes. */
  ghost predicate PackHasExperts(net: M.Net, k: Pack, layer: nat, epl: nat, kernel: Kernel) {
    forall e: nat, x: Vec :: layer * epl + e < |k.blobs| ==>
                               net.experts(layer)(e, x) == kernel(k.blobs[layer * epl + e], x)
  }

  lemma SlotGivesExpert(net: M.Net, k: Pack, run: seq<Pager>, acts: seq<Action>, hold: Holding, layer: nat, epl: nat,
                        kernel: Kernel, e: nat, x: Vec)
    requires IsRun(k, run, acts) && Start(k, run[0]) && Holds(run, hold, layer, epl, e)
    requires PackHasExperts(net, k, layer, epl, kernel)
    ensures FromSlots(k, run, hold, layer, epl, kernel)(e, x) == net.experts(layer)(e, x)
  {
    SlotHasBlob(k, run, acts, hold, layer, epl, e);
    hide IsRun;
    hide Start;
    hide Holds;
    hide SlotBytes;
  }

  /** When the network's experts are the pack's, what the kernels add up from the slots is
      the expert stage of the decoder's meaning. */
  lemma SlotsServeTheNet(net: M.Net, k: Pack, run: seq<Pager>, acts: seq<Action>, hold: Holding, layer: nat, epl: nat,
                         kernel: Kernel, h: Vec)
    requires M.NetOk(net) && |h| == net.hidden
    requires IsRun(k, run, acts) && Start(k, run[0]) && PackHasExperts(net, k, layer, epl, kernel)
    requires var picks := net.route(layer, net.norm(layer, h));
             forall j :: 0 <= j < |picks| ==> Holds(run, hold, layer, epl, picks[j].expert)
    ensures var x, picks := net.norm(layer, h), net.route(layer, net.norm(layer, h));
            && Outputs(FromSlots(k, run, hold, layer, epl, kernel), x, |h|, picks)
            && AddPicks(FromSlots(k, run, hold, layer, epl, kernel), x, h, picks) == M.Mix(net, layer, h)
  {
    hide IsRun;
    hide Start;
    hide Holds;
    hide FromSlots;
    hide PackHasExperts;
    var x := net.norm(layer, h);
    var f, g, picks := FromSlots(k, run, hold, layer, epl, kernel), net.experts(layer), net.route(layer, x);
    forall j | 0 <= j < |picks|
      ensures f(picks[j].expert, x) == g(picks[j].expert, x)
    {
      SlotGivesExpert(net, k, run, acts, hold, layer, epl, kernel, picks[j].expert, x);
    }
    assert Outputs(g, x, |h|, picks);
    hide M.NetOk;
    SameAddPicks(f, g, x, h, picks);
    hide AddPicks;
  }

  lemma SameAddPicks(f: Experts, g: Experts, x: Vec, h: Vec, picks: seq<Pick>)
    requires Outputs(g, x, |h|, picks)
    requires forall j :: 0 <= j < |picks| ==> f(picks[j].expert, x) == g(picks[j].expert, x)
    ensures Outputs(f, x, |h|, picks) && AddPicks(f, x, h, picks) == AddPicks(g, x, h, picks)
  {
    forall i | 0 <= i < |h|
      ensures PickSum(f, x, |h|, picks, i) == PickSum(g, x, |h|, picks, i)
    {
      SamePickSum(f, g, x, |h|, picks, i);
    }
    hide PickSum;
  }
}
