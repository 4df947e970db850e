/** The requests of `step` (crates/llmpager-run/src/decode.rs:263-363): which of them can
    wait for a handle the decoder itself still holds.

    A layer's request is made after the stream has been synchronised for the router and
    before that layer defers anything, so what the decoder holds then is the batch of the
    layer before. With more than one layer that is in another pool, and the request always
    completes. With one layer it completes exactly when the experts of two tokens in a row
    fit the pool together.
  */
module StepRequests {
  import opened Util
  import opened CacheModel
  import opened CacheRuns
  import opened PagerModel
  import opened PagerSafety
  import opened PagerProgress
  import opened HeldRequests
  import Ring = ReleaseRing
  import R = RamTier

  /** The slot `x` is one of those the ring pins, in the pool of the layer it says. */
  ghost predicate InRing(c: Cache, r: Ring.Ring, x: Slot) {
    exists i, j :: 0 <= i < |r.pending| && 0 <= j < |r.pending[i].handles|
                   && r.pending[i].handles[j].slot == x && SlotInPool(c, r.pending[i].handles[j].layer, x)
  }

  /** Every handle in existence is one the decoder's ring still pins. */
  ghost predicate HeldByRing(s: Pager, r: Ring.Ring) {
    forall h :: h in s.handles ==> InRing(s.cache, r, s.handles[h].slot)
  }

  lemma OnePoolPerSlot(c: Cache, p: nat, q: nat, x: Slot)
    requires Inv(c) && SlotInPool(c, p, x) && SlotInPool(c, q, x)
    ensures p == q
  {
  }

  /** What the ring does not pin in a layer is not held in its pool. */
  lemma RingEmptyPoolEmpty(s: Pager, r: Ring.Ring, p: nat)
    requires Inv(s.cache) && HeldByRing(s, r) && !Ring.HoldsLayer(r, p)
    ensures PoolHandles(s, p) == {}
  {
    hide Inv;
    hide SlotInPool;
    forall h | h in s.handles
      ensures h !in PoolHandles(s, p)
    {
      var x := s.handles[h].slot;
      var i, j :| 0 <= i < |r.pending| && 0 <= j < |r.pending[i].handles|
                  && r.pending[i].handles[j].slot == x && SlotInPool(s.cache, r.pending[i].handles[j].layer, x);
      if SlotInPool(s.cache, p, x) {
        OnePoolPerSlot(s.cache, p, r.pending[i].handles[j].layer, x);
      }
    }
  }

  /** The state in which `step` requests the experts of the `n`-th layer of a run. */
  ghost predicate AtRequest(k: Pack, size: nat, layers: nat, picks: seq<seq<Ring.Handle>>, n: nat, r: Ring.Ring,
                            s: Pager, ids: seq<ExpertId>)
    requires 0 < layers && n <= |picks|
  {
    && Ring.StepRing(size, layers, picks, n, r) && HeldByRing(s, r)
    && Requesting(k, s, Ring.LayerOf(n, layers), ids, 0)
    && |ids| <= s.cache.parts[Ring.LayerOf(n, layers)].len
  }

  /** With more than one layer every request of `step` is a wave of its own, which always
      completes. */
  lemma StepStartsAWave(k: Pack, size: nat, layers: nat, picks: seq<seq<Ring.Handle>>, n: nat, r: Ring.Ring,
                        s: Pager, ids: seq<ExpertId>)
    requires 0 < size && 1 < layers && n <= |picks| && AtRequest(k, size, layers, picks, n, r, s, ids)
    ensures InWave(k, s, Ring.LayerOf(n, layers), ids, 0)
  {
    assert Inv(s.cache);
    hide PagerInv;
    hide Ring.StepRing;
    hide Ring.HoldsLayer;
    hide HeldByRing;
    Ring.StepMeetsNoOwnPins(size, layers, picks, n, r);
    RingEmptyPoolEmpty(s, r, Ring.LayerOf(n, layers));
  }

  lemma {:induction false} AtMostLength(ids: seq<ExpertId>)
    ensures |Elements(ids)| <= |ids|
  {
    if ids == [] {
      assert Elements(ids) == {};
    } else {
      AtMostLength(ids[1..]);
      assert Elements(ids) == Elements(ids[1..]) + {ids[0]};
    }
  }

  lemma WaveFits(k: Pack, s: Pager, p: nat, ids: seq<ExpertId>)
    requires InWave(k, s, p, ids, 0)
    ensures FitsPool(s, p, ids, 0)
  {
    hide PagerInv;
    assert PoolHandles(s, p) == {};
    assert HeldIds(s, p) == {};
    assert ids[0..] == ids && Wanted(s, p, ids, 0) == Elements(ids);
    AtMostLength(ids);
  }

  /** The requests of `step`: a run of one that cannot go on has granted every id if and
      only if the model has more than one layer, or what the last token's batch holds and
      what this token asks for fit the one pool together. Otherwise it ends wedged. */
  lemma StepRequestIsExact(k: Pack, size: nat, layers: nat, picks: seq<seq<Ring.Handle>>, n: nat, r: Ring.Ring,
                           ids: seq<ExpertId>, run: seq<Progress>)
    requires 0 < size && 0 < layers && n <= |picks| && 0 < |run| && run[0].got == 0
    requires AtRequest(k, size, layers, picks, n, r, run[0].s, ids)
    requires IsWaveRun(k, ids, run) && !CanMove(k, ids, run[|run| - 1])
    ensures var last := run[|run| - 1];
            && (last.got == |ids| <==> 1 < layers || FitsPool(run[0].s, Ring.LayerOf(n, layers), ids, 0))
            && (last.got == |ids| || AtWedge(ids, last))
  {
    var p := Ring.LayerOf(n, layers);
    hide PagerInv;
    hide CanMove;
    hide IsWaveRun;
    hide FitsPool;
    hide AtWedge;
    CompletesIffItFits(k, p, ids, run);
    if 1 < layers {
      StepStartsAWave(k, size, layers, picks, n, r, run[0].s, ids);
      WaveFits(k, run[0].s, p, ids);
    }
  }

  // ---------------------------------------------------------------- shared pools

  /** The slots the ring pins, whatever pools they are in. */
  function SlotsOf(hs: seq<Ring.Handle>): set<Slot> {
    set j | 0 <= j < |hs| :: hs[j].slot
  }

  lemma {:induction false} SlotsAtMostLength(hs: seq<Ring.Handle>)
    ensures |SlotsOf(hs)| <= |hs|
  {
    if hs == [] {
      assert SlotsOf(hs) == {};
    } else {
      var n := |hs| - 1;
      SlotsAtMostLength(hs[..n]);
      assert SlotsOf(hs) == SlotsOf(hs[..n]) + {hs[n].slot};
    }
  }

  lemma {:induction false} SubsetNotLarger(a: set<nat>, b: set<nat>)
    requires a <= b
    ensures |a| <= |b|
    decreases a
  {
    if a != {} {
      var x :| x in a;
      SubsetNotLarger(a - {x}, b - {x});
    }
  }

  /** No more experts are held in a pool than the batch that holds them has handles. */
  lemma HeldAtMostBatch(k: Pack, s: Pager, p: nat, hs: seq<Ring.Handle>)
    requires PagerInv(k, s) && forall h :: h in s.handles ==> s.handles[h].slot in SlotsOf(hs)
    ensures |HeldIds(s, p)| <= |hs|
  {
    HeldSit(k, s, p);
    var xs := SeatsOf(s.cache, p, HeldIds(s, p));
    forall x | x in xs
      ensures x in SlotsOf(hs)
    {
      assert SeatOf(s.cache, p, HeldIds(s, p), x);
      SeatIsHeld(k, s, p, x);
    }
    hide PagerInv;
    hide HeldIds;
    hide SlotsOf;
    SubsetNotLarger(xs, SlotsOf(hs));
    SlotsAtMostLength(hs);
  }

  lemma SeatIsHeld(k: Pack, s: Pager, p: nat, x: Slot)
    requires PagerInv(k, s) && Inv(s.cache) && SeatOf(s.cache, p, HeldIds(s, p), x)
    ensures exists h :: h in s.handles && s.handles[h].slot == x
  {
    HeldAreResident(k, s, p);
    hide PagerInv;
    hide Inv;
    var e := s.cache.slots[x].id.value;
    var h :| h in PoolHandles(s, p) && s.handles[h].id == e;
    SitsOnce(s.cache, p, e, x, s.handles[h].slot);
  }

  /** In a pool shared by all layers a request meets the batch of the layer before. Room for
      two batches is enough. */
  lemma RoomForTwoBatches(k: Pack, size: nat, layers: nat, picks: seq<seq<Ring.Handle>>, n: nat, r: Ring.Ring,
                          s: Pager, p: nat, ids: seq<ExpertId>)
    requires 0 < size && 0 < layers && n <= |picks| && Ring.StepRing(size, layers, picks, n, r)
    requires forall h :: h in s.handles ==>
                           exists i :: 0 <= i < |r.pending| && s.handles[h].slot in SlotsOf(r.pending[i].handles)
    requires PagerInv(k, s) && p < |s.cache.parts|
    requires (if n == 0 then 0 else |picks[n - 1]|) + |ids| <= s.cache.parts[p].len
    ensures FitsPool(s, p, ids, 0)
  {
    hide PagerInv;
    hide SlotsOf;
    hide HeldIds;
    Ring.OnlyLastBatchPending(size, layers, picks, n, r);
    hide Ring.StepRing;
    hide Ring.LayerBatch;
    var hs := if n == 0 then [] else picks[n - 1];
    HeldAtMostBatch(k, s, p, hs);
    assert ids[0..] == ids;
    AtMostLength(ids);
    UnionAtMost(HeldIds(s, p), Elements(ids));
  }

  lemma UnionAtMost(a: set<ExpertId>, b: set<ExpertId>)
    ensures |a + b| <= |a| + |b|
  {
    assert a + b == a + (b - a);
    SubsetNotLarger(b - a, b);
  }

  // ------------------------------------------------------ a one-layer model stuck

  /** One layer of two empty experts, a pool of one slot, one worker, no host tier. */
  function SmallPack(): Pack {
    Pack([[], []], 0)
  }

  function SmallCache(slot: SlotState, resident: map<ExpertId, Slot>, inserts: nat, misses: nat): Cache {
    Cache([slot], [Partition(0, 1, resident, inserts)], 2, 256, 0, misses)
  }

  function SmallRam(): R.Ram {
    R.Ram(SmallCache(SlotState(None, 0, 0, false), map[], 0, 0), [[]], 0, [R.Thread([], R.Idle)], {})
  }

  function ColdPager(): Pager {
    Pager(SmallCache(SlotState(None, 0, 0, false), map[], 0, 0), [Empty], [[]], map[], map[], 0, SmallRam(), false)
  }

  /** Expert 0 requested, its job at `place`. */
  function Fetching(place: Place): Pager {
    Pager(SmallCache(SlotState(Some(0), 1, 1, false), map[0 := 0], 1, 1), [InFlight], [[]],
          map[1 := Job(0, 0, false, 0, place)], map[0 := Handle(0, 0, false)], 2, SmallRam(), false)
  }

  function Fetched(waited: bool): Pager {
    Pager(SmallCache(SlotState(Some(0), 1, 1, true), map[0 := 0], 1, 1), [Ready], [[]],
          map[], map[0 := Handle(0, 0, waited)], 2, SmallRam(), false)
  }

  lemma ColdStarts()
    ensures Start(SmallPack(), ColdPager())
  {
    var r := SmallRam();
    assert Inv(r.cache);
    assert R.Holders(r.threads, 0) == {};
  }

  lemma FirstRequest()
    ensures RequestOne(SmallPack(), ColdPager(), Fetching(Outbox), 0)
  {
    var c := ColdPager().cache;
    assert Inv(c) && PartOf(c, 0) == 0;
    assert Victim(c.slots, 0, 0) == None;
    assert Victim(c.slots, 0, 1) == Some(0);
    assert Acquire(c, 0).1 == Miss(0, None);
  }

  function SmallRun(): seq<Pager> {
    [ColdPager(), Fetching(Outbox), Fetching(Queued), Fetching(Held(0, Fetch)), Fetching(Held(0, Read)),
     Fetching(Held(0, Loaded)), Fetching(Held(0, Upload(0))), Fetched(false), Fetched(true)]
  }

  function SmallActs(): seq<Action> {
    [DoRequest(0), DoSend(1), DoTake(1, 0), DoWork(1, 0), DoWork(1, 0), DoWork(1, 0), DoWork(1, 0), DoWait(0)]
  }

  lemma WorkerRuns()
    ensures NoTier(Fetching(Held(0, Fetch)), Fetching(Held(0, Read)), 1, 0)
    ensures ReadDisk(SmallPack(), Fetching(Held(0, Read)), Fetching(Held(0, Loaded)), 1, 0)
    ensures SkipPut(Fetching(Held(0, Loaded)), Fetching(Held(0, Upload(0))), 1, 0)
    ensures Finish(SmallPack(), Fetching(Held(0, Upload(0))), Fetched(false), 1, 0)
  {
  }

  lemma SmallRunIsRun()
    ensures IsRun(SmallPack(), SmallRun(), SmallActs())
  {
    hide RequestOne;
    hide WorkerStep;
    FirstRequest();
    SmallWork();
    hide Fetching;
    hide Fetched;
    SmallHandOver();
    hide Send;
    hide Take;
    hide Wait;
  }

  lemma SmallHandOver()
    ensures Send(Fetching(Outbox), Fetching(Queued), 1) && Take(Fetching(Queued), Fetching(Held(0, Fetch)), 1, 0)
    ensures Wait(Fetched(false), Fetched(true), 0)
  {
  }

  lemma SmallWork()
    ensures WorkerStep(SmallPack(), Fetching(Held(0, Fetch)), Fetching(Held(0, Read)), 1, 0)
    ensures WorkerStep(SmallPack(), Fetching(Held(0, Read)), Fetching(Held(0, Loaded)), 1, 0)
    ensures WorkerStep(SmallPack(), Fetching(Held(0, Loaded)), Fetching(Held(0, Upload(0))), 1, 0)
    ensures WorkerStep(SmallPack(), Fetching(Held(0, Upload(0))), Fetched(false), 1, 0)
  {
    WorkerRuns();
    hide NoTier;
    hide ReadDisk;
    hide SkipPut;
    hide Finish;
  }

  /** The ring after the first token: its one batch. */
  function SmallRing(): Ring.Ring {
    Ring.Defer(Ring.Ring([], 0, 8), 0, [Ring.Handle(0, 0)])
  }

  lemma SmallRingSteps()
    ensures Ring.StepRing(8, 1, [[Ring.Handle(0, 0)]], 1, SmallRing())
  {
    var q := Ring.Ring([], 0, 8);
    assert Ring.StepRing(8, 1, [[Ring.Handle(0, 0)]], 0, q);
    assert SmallRing() == Ring.Defer(q, |q.pending|, [Ring.Handle(0, 0)]);
  }

  /** The failing input is reached from cold: a one-layer model with one slot, whose second
      token picks another expert than its first. Nothing can move and the pool is wedged. */
  lemma OneLayerWedges()
    ensures IsRun(SmallPack(), SmallRun(), SmallActs()) && Start(SmallPack(), SmallRun()[0])
    ensures AtRequest(SmallPack(), 8, 1, [[Ring.Handle(0, 0)]], 1, SmallRing(), SmallRun()[8], [1])
    ensures !CanMove(SmallPack(), [1], Progress(SmallRun()[8], 0)) && AtWedge([1], Progress(SmallRun()[8], 0))
  {
    ColdStarts();
    SmallRunIsRun();
    SmallRingSteps();
    SmallRunKeepsInv();
    WedgedNow();
    hide PagerInv;
    hide IsRun;
    hide Start;
    hide Ring.StepRing;
    hide CanMove;
    hide AtWedge;
    SmallRingHolds();
    hide HeldByRing;
    hide SmallRing;
  }

  lemma SmallRunKeepsInv()
    ensures PagerInv(SmallPack(), Fetched(true))
  {
    ColdStarts();
    SmallRunIsRun();
    hide PagerInv;
    StartInv(SmallPack(), SmallRun()[0]);
    hide Start;
    RunKeepsInv(SmallPack(), SmallRun(), SmallActs(), 8);
    hide IsRun;
  }

  lemma SmallRingHolds()
    ensures HeldByRing(Fetched(true), SmallRing())
  {
    var r := SmallRing();
    assert r.pending[0].handles[0].slot == 0;
    assert InRing(Fetched(true).cache, r, 0);
  }

  lemma WedgedNow()
    ensures !CanMove(SmallPack(), [1], Progress(Fetched(true), 0)) && AtWedge([1], Progress(Fetched(true), 0))
  {
    var s := Fetched(true);
    assert Inv(s.cache);
    StalledIff(s.cache, 1);
    hide Acquire;
    hide Inv;
    hide RequestOne;
    hide WorkerStep;
  }
}
