/** Paging is lossless: every step of the pager keeps its invariant
    (crates/llmpager-cuda/src/pager.rs:402-510, 650-718). */
module PagerSafety {
  import opened Util
  import opened CacheModel
  import opened CacheRuns
  import opened PagerModel
  import R = RamTier
  import X = Indexing

  // ------------------------------------------------------------- pin counting

  lemma HandleAdded(s: Pager, s': Pager, h: nat, x: Slot)
    requires h !in s.handles && h in s'.handles && s'.handles == s.handles[h := s'.handles[h]]
    ensures |HandlesOn(s', x)| == |HandlesOn(s, x)| + (if s'.handles[h].slot == x then 1 else 0)
  {
    assert HandlesOn(s', x) == HandlesOn(s, x) + (if s'.handles[h].slot == x then {h} else {});
  }

  lemma HandleDropped(s: Pager, s': Pager, h: nat, x: Slot)
    requires h in s.handles && s'.handles == s.handles - {h}
    ensures |HandlesOn(s', x)| == |HandlesOn(s, x)| - (if s.handles[h].slot == x then 1 else 0)
  {
    assert HandlesOn(s, x) == HandlesOn(s', x) + (if s.handles[h].slot == x then {h} else {});
  }

  lemma HandlesSame(s: Pager, s': Pager, x: Slot)
    requires s'.handles.Keys == s.handles.Keys
    requires forall h :: h in s.handles ==> s'.handles[h].slot == s.handles[h].slot
    ensures HandlesOn(s', x) == HandlesOn(s, x)
  {
  }

  lemma JobAdded(s: Pager, s': Pager, j: nat, x: Slot)
    requires j !in s.jobs && j in s'.jobs && s'.jobs == s.jobs[j := s'.jobs[j]]
    ensures |PrefetchesOn(s', x)| ==
            |PrefetchesOn(s, x)| + (if s'.jobs[j].releaseAfterFill && s'.jobs[j].slot == x then 1 else 0)
  {
    assert PrefetchesOn(s', x) ==
           PrefetchesOn(s, x) + (if s'.jobs[j].releaseAfterFill && s'.jobs[j].slot == x then {j} else {});
  }

  lemma JobRemoved(s: Pager, s': Pager, j: nat, x: Slot)
    requires j in s.jobs && s'.jobs == s.jobs - {j}
    ensures |PrefetchesOn(s', x)| ==
            |PrefetchesOn(s, x)| - (if s.jobs[j].releaseAfterFill && s.jobs[j].slot == x then 1 else 0)
  {
    assert PrefetchesOn(s, x) ==
           PrefetchesOn(s', x) + (if s.jobs[j].releaseAfterFill && s.jobs[j].slot == x then {j} else {});
  }

  lemma JobsSame(s: Pager, s': Pager, x: Slot)
    requires s'.jobs.Keys == s.jobs.Keys
    requires forall j :: j in s.jobs ==>
                           s'.jobs[j].releaseAfterFill == s.jobs[j].releaseAfterFill
                           && s'.jobs[j].slot == s.jobs[j].slot
    ensures PrefetchesOn(s', x) == PrefetchesOn(s, x)
  {
  }

  lemma PinsHandleAdded(s: Pager, s': Pager, h: nat)
    requires PinsAccounted(s) && |s'.cache.slots| == |s.cache.slots| && s'.jobs == s.jobs
    requires h !in s.handles && h in s'.handles && s'.handles == s.handles[h := s'.handles[h]]
    requires forall x :: 0 <= x < |s.cache.slots| ==>
                           s'.cache.slots[x].pins == s.cache.slots[x].pins + (if x == s'.handles[h].slot then 1 else 0)
    ensures PinsAccounted(s')
  {
    forall x | 0 <= x < |s'.cache.slots|
      ensures s'.cache.slots[x].pins == |HandlesOn(s', x)| + |PrefetchesOn(s', x)|
    {
      HandleAdded(s, s', h, x);
      JobsSame(s, s', x);
    }
  }

  lemma PinsHandleDropped(s: Pager, s': Pager, h: nat)
    requires PinsAccounted(s) && |s'.cache.slots| == |s.cache.slots| && s'.jobs == s.jobs
    requires h in s.handles && s'.handles == s.handles - {h}
    requires forall x :: 0 <= x < |s.cache.slots| ==>
                           s'.cache.slots[x].pins == s.cache.slots[x].pins - (if x == s.handles[h].slot then 1 else 0)
    ensures PinsAccounted(s')
  {
    forall x | 0 <= x < |s'.cache.slots|
      ensures s'.cache.slots[x].pins == |HandlesOn(s', x)| + |PrefetchesOn(s', x)|
    {
      HandleDropped(s, s', h, x);
      JobsSame(s, s', x);
    }
  }

  lemma PinsSame(s: Pager, s': Pager)
    requires PinsAccounted(s) && |s'.cache.slots| == |s.cache.slots|
    requires s'.handles.Keys == s.handles.Keys && s'.jobs.Keys == s.jobs.Keys
    requires forall h :: h in s.handles ==> s'.handles[h].slot == s.handles[h].slot
    requires forall j :: j in s.jobs ==>
                           s'.jobs[j].releaseAfterFill == s.jobs[j].releaseAfterFill
                           && s'.jobs[j].slot == s.jobs[j].slot
    requires forall x :: 0 <= x < |s.cache.slots| ==> s'.cache.slots[x].pins == s.cache.slots[x].pins
    ensures PinsAccounted(s')
  {
    forall x | 0 <= x < |s'.cache.slots|
      ensures s'.cache.slots[x].pins == |HandlesOn(s', x)| + |PrefetchesOn(s', x)|
    {
      HandlesSame(s, s', x);
      JobsSame(s, s', x);
    }
  }

  // ------------------------------------------------------------------- frames

  /** Workers look at jobs, device memory and the tier only. */
  lemma WorkersFrame(k: Pack, s: Pager, s': Pager)
    requires WorkersOk(k, s)
    requires s'.jobs == s.jobs && s'.ram == s.ram && s'.dev == s.dev && s'.useRam == s.useRam
    ensures WorkersOk(k, s')
  {
    forall j | j in s'.jobs
      ensures PlaceOk(k, s', s'.jobs[j])
    {
      assert PlaceOk(k, s, s.jobs[j]);
    }
    forall w | 0 <= w < |s'.ram.threads| && Free(s', w)
      ensures s'.ram.threads[w].pc == R.Idle
    {
      assert Free(s, w);
    }
  }

  /** The occupants and their readiness are the same in both caches. */
  ghost predicate SameOccupants(c: Cache, d: Cache) {
    && |d.slots| == |c.slots|
    && forall x :: 0 <= x < |c.slots| ==> d.slots[x].id == c.slots[x].id && d.slots[x].ready == c.slots[x].ready
  }

  /** A client step that moves pins and handles but neither occupants nor jobs. */
  lemma PinStepKeeps(k: Pack, s: Pager, s': Pager)
    requires PagerInv(k, s) && Inv(s'.cache) && SameOccupants(s.cache, s'.cache)
    requires s' == s.(cache := s'.cache, handles := s'.handles, next := s'.next) && s.next <= s'.next
    requires PinsAccounted(s')
    requires forall h :: h in s'.handles ==> h < s'.next && HandleOk(k, s', s'.handles[h])
    requires forall j :: j in s.jobs && !s.jobs[j].releaseAfterFill ==>
                           && s.jobs[j].owner in s'.handles
                           && s'.handles[s.jobs[j].owner].slot == s.jobs[j].slot && !s'.handles[s.jobs[j].owner].waited
    ensures PagerInv(k, s')
  {
    hide Inv;
    hide R.RamInv;
    hide PinsAccounted;
    hide HandleOk;
    hide WorkersOk;
    WorkersFrame(k, s, s');
    assert OneJobPerSlot(s') by {
      forall x | 0 <= x < |s'.fill| && s'.fill[x] == InFlight
        ensures HasJob(s', x)
      {
        assert HasJob(s, x);
      }
    }
    forall j | j in s'.jobs
      ensures JobTarget(k, s', s'.jobs[j])
    {
      assert JobTarget(k, s, s.jobs[j]);
    }
  }

  lemma HitSlots(c: Cache, id: ExpertId)
    requires Inv(c) && Acquire(c, id).1.Hit?
    ensures var (d, l) := Acquire(c, id);
            && Inv(d) && l.slot < |c.slots| && c.slots[l.slot].id == Some(id)
            && d.slots == c.slots[l.slot := Touched(c.slots[l.slot])]
  {
    AcquireKeepsInv(c, id);
  }

  lemma HandleMoves(k: Pack, s: Pager, s': Pager, h: Handle)
    requires HandleOk(k, s, h) && SameOccupants(s.cache, s'.cache) && s'.fill == s.fill
    ensures HandleOk(k, s', h)
  {
  }

  lemma RequestHitFacts(k: Pack, s: Pager, s': Pager, id: ExpertId)
    requires Inv(s.cache) && RequestOne(k, s, s', id) && Acquire(s.cache, id).1.Hit?
    ensures var slot := Acquire(s.cache, id).1.slot;
            && Inv(s'.cache) && SameOccupants(s.cache, s'.cache) && slot < |s.cache.slots|
            && s.cache.slots[slot].id == Some(id)
            && (forall x :: 0 <= x < |s.cache.slots| ==>
                  s'.cache.slots[x].pins == s.cache.slots[x].pins + (if x == slot then 1 else 0))
            && s' == s.(cache := s'.cache, handles := s.handles[s.next := Handle(id, slot, false)], next := s.next + 1)
  {
    HitSlots(s.cache, id);
    hide Inv;
  }

  lemma RequestHitKeeps(k: Pack, s: Pager, s': Pager, id: ExpertId)
    requires PagerInv(k, s) && RequestOne(k, s, s', id) && Acquire(s.cache, id).1.Hit?
    ensures PagerInv(k, s')
  {
    RequestHitFacts(k, s, s', id);
    HitGrantKeeps(k, s, s', id, Acquire(s.cache, id).1.slot);
    hide *;
  }

  lemma HitGrantKeeps(k: Pack, s: Pager, s': Pager, id: ExpertId, slot: Slot)
    requires PagerInv(k, s) && id < |k.blobs| && Inv(s'.cache) && SameOccupants(s.cache, s'.cache)
    requires slot < |s.cache.slots| && s.cache.slots[slot].id == Some(id)
    requires forall x :: 0 <= x < |s.cache.slots| ==>
                           s'.cache.slots[x].pins == s.cache.slots[x].pins + (if x == slot then 1 else 0)
    requires s' == s.(cache := s'.cache, handles := s.handles[s.next := Handle(id, slot, false)], next := s.next + 1)
    ensures PagerInv(k, s')
  {
    hide Inv;
    hide WorkersOk;
    hide ReadyHolds;
    hide TierLawful;
    hide R.RamInv;
    PinsHandleAdded(s, s', s.next);
    hide PinsAccounted;
    forall h | h in s'.handles
      ensures h < s'.next && HandleOk(k, s', s'.handles[h])
    {
      if h != s.next {
        HandleMoves(k, s, s', s.handles[h]);
      }
    }
    OwnersAreOlder(k, s);
    hide HandleOk;
    hide JobTarget;
    PinStepKeeps(k, s, s');
  }

  lemma OwnersAreOlder(k: Pack, s: Pager)
    requires PagerInv(k, s)
    ensures forall j :: j in s.jobs && !s.jobs[j].releaseAfterFill ==> s.jobs[j].owner != s.next
  {
    hide Inv;
    hide R.RamInv;
    hide WorkersOk;
    hide ReadyHolds;
    hide PinsAccounted;
    forall j | j in s.jobs && !s.jobs[j].releaseAfterFill
      ensures s.jobs[j].owner != s.next
    {
      assert JobTarget(k, s, s.jobs[j]);
    }
  }

  lemma PrefetchHitKeeps(k: Pack, s: Pager, s': Pager, id: ExpertId)
    requires PagerInv(k, s) && PrefetchOne(k, s, s', id) && Acquire(s.cache, id).1.Hit?
    ensures PagerInv(k, s')
  {
    HitSlots(s.cache, id);
    var (d, l) := Acquire(s.cache, id);
    hide Inv;
    hide WorkersOk;
    hide ReadyHolds;
    hide TierLawful;
    hide R.RamInv;
    hide Acquire;
    ReleaseKeepsInv(d, l.slot);
    PinsSame(s, s');
    ClientStillOk(k, s, s');
    hide PinsAccounted;
    hide HandleOk;
    PinStepKeeps(k, s, s');
  }

  /** Handles and owners are unaffected when only the cache's counters moved. */
  lemma ClientStillOk(k: Pack, s: Pager, s': Pager)
    requires PagerInv(k, s) && SameOccupants(s.cache, s'.cache)
    requires s'.fill == s.fill && s'.handles == s.handles && s'.next == s.next
    ensures forall h :: h in s'.handles ==> h < s'.next && HandleOk(k, s', s'.handles[h])
    ensures forall j :: j in s.jobs && !s.jobs[j].releaseAfterFill ==>
                          && s.jobs[j].owner in s'.handles
                          && s'.handles[s.jobs[j].owner].slot == s.jobs[j].slot && !s'.handles[s.jobs[j].owner].waited
  {
    hide Inv;
    hide WorkersOk;
    hide ReadyHolds;
    hide TierLawful;
    hide R.RamInv;
    forall h | h in s'.handles
      ensures h < s'.next && HandleOk(k, s', s'.handles[h])
    {
      HandleMoves(k, s, s', s.handles[h]);
    }
    forall j | j in s.jobs && !s.jobs[j].releaseAfterFill
      ensures s.jobs[j].owner in s'.handles && s'.handles[s.jobs[j].owner].slot == s.jobs[j].slot
      ensures !s'.handles[s.jobs[j].owner].waited
    {
      assert JobTarget(k, s, s.jobs[j]);
    }
  }

  lemma TickKeeps(k: Pack, s: Pager, s': Pager)
    requires PagerInv(k, s) && TickPool(s, s')
    ensures PagerInv(k, s')
  {
    DecayAllKeepsInv(s.cache);
    hide Inv;
    hide WorkersOk;
    hide ReadyHolds;
    hide TierLawful;
    hide R.RamInv;
    PinsSame(s, s');
    ClientStillOk(k, s, s');
    hide PinsAccounted;
    hide HandleOk;
    PinStepKeeps(k, s, s');
  }

  lemma WaitKeeps(k: Pack, s: Pager, s': Pager, h: nat)
    requires PagerInv(k, s) && Wait(s, s', h)
    ensures PagerInv(k, s')
  {
    hide Inv;
    hide WorkersOk;
    hide ReadyHolds;
    hide TierLawful;
    hide R.RamInv;
    PinsSame(s, s');
    forall g | g in s'.handles
      ensures g < s'.next && HandleOk(k, s', s'.handles[g])
    {
      HandleMoves(k, s, s', s.handles[g]);
    }
    forall j | j in s.jobs && !s.jobs[j].releaseAfterFill
      ensures s.jobs[j].owner in s.handles && s.jobs[j].owner != h
    {
      assert JobTarget(k, s, s.jobs[j]);
    }
    hide PinsAccounted;
    hide HandleOk;
    PinStepKeeps(k, s, s');
  }

  lemma DropReleases(s: Pager, s': Pager, h: nat)
    requires Inv(s.cache) && DropHandle(s, s', h)
    ensures h in s.handles && Inv(s'.cache) && SameOccupants(s.cache, s'.cache)
    ensures s' == s.(cache := s'.cache, handles := s.handles - {h})
    ensures forall x :: 0 <= x < |s.cache.slots| ==>
                          s'.cache.slots[x].pins == s.cache.slots[x].pins - (if x == s.handles[h].slot then 1 else 0)
  {
    ReleaseKeepsInv(s.cache, s.handles[h].slot);
    hide Inv;
  }

  lemma DropKeeps(k: Pack, s: Pager, s': Pager, h: nat)
    requires PagerInv(k, s) && DropHandle(s, s', h)
    ensures PagerInv(k, s')
  {
    hide Inv;
    hide WorkersOk;
    hide ReadyHolds;
    hide TierLawful;
    hide R.RamInv;
    DropReleases(s, s', h);
    hide DropHandle;
    PinsHandleDropped(s, s', h);
    forall g | g in s'.handles
      ensures g < s'.next && HandleOk(k, s', s'.handles[g])
    {
      HandleMoves(k, s, s', s.handles[g]);
    }
    forall j | j in s.jobs && !s.jobs[j].releaseAfterFill
      ensures s.jobs[j].owner in s.handles && s.jobs[j].owner != h
    {
      assert JobTarget(k, s, s.jobs[j]);
    }
    hide PinsAccounted;
    hide HandleOk;
    PinStepKeeps(k, s, s');
  }

  // ------------------------------------------------------------------- misses

  /** Nothing refers to an unpinned slot: no handle and no job of either kind. */
  lemma UnpinnedIsUnused(k: Pack, s: Pager, slot: Slot)
    requires Core(k, s) && slot < |s.cache.slots| && s.cache.slots[slot].pins == 0
    ensures forall h :: h in s.handles ==> s.handles[h].slot != slot
    ensures forall j :: j in s.jobs ==> s.jobs[j].slot != slot
  {
    hide Inv;
    hide R.RamInv;
    assert HandlesOn(s, slot) == {} && PrefetchesOn(s, slot) == {};
    forall h | h in s.handles
      ensures s.handles[h].slot != slot
    {
      assert h !in HandlesOn(s, slot);
    }
    forall j | j in s.jobs
      ensures s.jobs[j].slot != slot
    {
      assert j !in PrefetchesOn(s, slot);
      assert JobTarget(k, s, s.jobs[j]);
    }
  }

  /** `s'` is `s` with the unpinned `slot` claimed for `id` and job `j` created to fill it. */
  ghost predicate Claimed(k: Pack, s: Pager, s': Pager, id: ExpertId, slot: Slot, j: nat) {
    && id < |k.blobs| && Inv(s'.cache) && slot < |s.cache.slots| == |s'.cache.slots| == |s.fill|
    && s.cache.slots[slot].pins == 0
    && (forall x :: 0 <= x < |s.cache.slots| ==>
          && s'.cache.slots[x].pins == (if x == slot then 1 else s.cache.slots[x].pins)
          && s'.cache.slots[x].ready == (x != slot && s.cache.slots[x].ready)
          && s'.cache.slots[x].id == (if x == slot then Some(id) else s.cache.slots[x].id))
    && s.next <= j < s'.next && j in s'.jobs && s'.jobs == s.jobs[j := s'.jobs[j]]
    && s'.jobs[j].id == id && s'.jobs[j].slot == slot && s'.jobs[j].place == Outbox
    && s' == s.(cache := s'.cache, fill := s.fill[slot := InFlight], jobs := s'.jobs, handles := s'.handles,
                 next := s'.next)
    && (forall h :: h in s.handles ==> h in s'.handles && s'.handles[h] == s.handles[h])
  }

  lemma ClaimKeepsWorkers(k: Pack, s: Pager, s': Pager, id: ExpertId, slot: Slot, j: nat)
    requires PagerInv(k, s) && Claimed(k, s, s', id, slot, j)
    ensures WorkersOk(k, s')
  {
    hide Inv;
    hide R.RamInv;
    hide ReadyHolds;
    hide PinsAccounted;
    hide OneJobPerSlot;
    hide FillAgrees;
    hide HandleOk;
    hide JobTarget;
    assert j !in s.jobs;
    forall i | i in s'.jobs
      ensures PlaceOk(k, s', s'.jobs[i])
    {
      if i != j {
        assert PlaceOk(k, s, s.jobs[i]);
      }
    }
    hide PlaceOk;
    forall w | 0 <= w < |s'.ram.threads| && Free(s', w)
      ensures s'.ram.threads[w].pc == R.Idle
    {
      forall i | i in s.jobs && s.jobs[i].place.Held?
        ensures s.jobs[i].place.w != w
      {
        assert i in s'.jobs && s'.jobs[i] == s.jobs[i];
      }
      assert Free(s, w);
    }
  }

  lemma ClaimKeepsJobs(k: Pack, s: Pager, s': Pager, id: ExpertId, slot: Slot, j: nat)
    requires PagerInv(k, s) && Claimed(k, s, s', id, slot, j)
    requires JobTarget(k, s', s'.jobs[j])
    ensures forall i :: i in s'.jobs ==> i < s'.next && JobTarget(k, s', s'.jobs[i])
    ensures FillAgrees(s') && ReadyHolds(k, s')
  {
    hide Inv;
    hide R.RamInv;
    hide WorkersOk;
    assert j !in s.jobs;
    UnpinnedIsUnused(k, s, slot);
    hide PinsAccounted;
    hide OneJobPerSlot;
    hide HandleOk;
    forall i | i in s'.jobs
      ensures i < s'.next && JobTarget(k, s', s'.jobs[i])
    {
      if i != j {
        assert JobTarget(k, s, s.jobs[i]) && s.jobs[i].slot != slot;
      }
    }
  }

  lemma ClaimKeepsOneJob(k: Pack, s: Pager, s': Pager, id: ExpertId, slot: Slot, j: nat)
    requires Core(k, s) && Claimed(k, s, s', id, slot, j)
    ensures OneJobPerSlot(s')
  {
    hide Inv;
    hide R.RamInv;
    assert j !in s.jobs;
    UnpinnedIsUnused(k, s, slot);
    hide PinsAccounted;
    hide FillAgrees;
    hide HandleOk;
    hide JobTarget;
    forall x | 0 <= x < |s'.fill| && s'.fill[x] == InFlight
      ensures HasJob(s', x)
    {
      if x != slot {
        assert HasJob(s, x);
        var i :| i in s.jobs && s.jobs[i].slot == x;
        assert i in s'.jobs && s'.jobs[i].slot == x;
      } else {
        assert j in s'.jobs && s'.jobs[j].slot == x;
      }
    }
  }

  lemma ClaimKeeps(k: Pack, s: Pager, s': Pager, id: ExpertId, slot: Slot, j: nat)
    requires PagerInv(k, s) && Claimed(k, s, s', id, slot, j)
    requires JobTarget(k, s', s'.jobs[j]) && PinsAccounted(s')
    requires forall h :: h in s'.handles && h !in s.handles ==> h < s'.next && HandleOk(k, s', s'.handles[h])
    ensures PagerInv(k, s')
  {
    hide Inv;
    hide R.RamInv;
    hide WorkersOk;
    hide PinsAccounted;
    hide OneJobPerSlot;
    hide FillAgrees;
    hide ReadyHolds;
    hide JobTarget;
    UnpinnedIsUnused(k, s, slot);
    ClaimKeepsWorkers(k, s, s', id, slot, j);
    ClaimKeepsJobs(k, s, s', id, slot, j);
    ClaimKeepsOneJob(k, s, s', id, slot, j);
    forall h | h in s'.handles
      ensures h < s'.next && HandleOk(k, s', s'.handles[h])
    {
      if h in s.handles {
        assert HandleOk(k, s, s.handles[h]) && s.handles[h].slot != slot;
      }
    }
  }

  lemma MissClaims(k: Pack, s: Pager, s': Pager, id: ExpertId, j: nat)
    requires PagerInv(k, s) && id < |k.blobs| && Acquire(s.cache, id).1.Miss?
    requires s'.cache == Acquire(s.cache, id).0 && s.next <= j < s'.next && j in s'.jobs
    requires s'.jobs == s.jobs[j := s'.jobs[j]]
    requires var slot := Acquire(s.cache, id).1.slot;
             && slot < |s.fill|
             && s'.jobs[j].id == id && s'.jobs[j].slot == slot && s'.jobs[j].place == Outbox
             && s' == s.(cache := s'.cache, fill := s.fill[slot := InFlight], jobs := s'.jobs,
                          handles := s'.handles, next := s'.next)
    requires forall h :: h in s.handles ==> h in s'.handles && s'.handles[h] == s.handles[h]
    ensures Claimed(k, s, s', id, Acquire(s.cache, id).1.slot, j)
  {
    MissSlots(s.cache, id);
    AcquireKeepsInv(s.cache, id);
    hide Inv;
    hide Acquire;
    hide R.RamInv;
    hide WorkersOk;
  }

  lemma PinsClaimed(k: Pack, s: Pager, s': Pager, id: ExpertId, slot: Slot, j: nat, h: nat)
    requires Core(k, s) && Claimed(k, s, s', id, slot, j)
    requires if s'.jobs[j].releaseAfterFill then s'.handles == s.handles
             else && h !in s.handles && h in s'.handles
                  && s'.handles == s.handles[h := s'.handles[h]] && s'.handles[h].slot == slot
    ensures PinsAccounted(s')
  {
    hide Inv;
    hide R.RamInv;
    assert j !in s.jobs;
    hide JobTarget;
    hide HandleOk;
    hide FillAgrees;
    hide OneJobPerSlot;
    forall x | 0 <= x < |s'.cache.slots|
      ensures s'.cache.slots[x].pins == |HandlesOn(s', x)| + |PrefetchesOn(s', x)|
    {
      JobAdded(s, s', j, x);
      if s'.jobs[j].releaseAfterFill {
        HandlesSame(s, s', x);
      } else {
        HandleAdded(s, s', h, x);
      }
    }
  }

  lemma RequestMissKeeps(k: Pack, s: Pager, s': Pager, id: ExpertId)
    requires PagerInv(k, s) && RequestOne(k, s, s', id) && Acquire(s.cache, id).1.Miss?
    ensures PagerInv(k, s')
  {
    hide Acquire;
    hide R.RamInv;
    hide WorkersOk;
    hide PinsAccounted;
    hide OneJobPerSlot;
    hide FillAgrees;
    hide ReadyHolds;
    var slot := Acquire(s.cache, id).1.slot;
    hide Inv;
    MissClaims(k, s, s', id, s.next + 1);
    PinsClaimed(k, s, s', id, slot, s.next + 1, s.next);
    ClaimKeeps(k, s, s', id, slot, s.next + 1);
  }

  lemma PrefetchMissKeeps(k: Pack, s: Pager, s': Pager, id: ExpertId)
    requires PagerInv(k, s) && PrefetchOne(k, s, s', id) && Acquire(s.cache, id).1.Miss?
    ensures PagerInv(k, s')
  {
    hide Acquire;
    hide R.RamInv;
    hide WorkersOk;
    hide PinsAccounted;
    hide OneJobPerSlot;
    hide FillAgrees;
    hide ReadyHolds;
    var slot := Acquire(s.cache, id).1.slot;
    hide Inv;
    MissClaims(k, s, s', id, s.next);
    PinsClaimed(k, s, s', id, slot, s.next, s.next);
    ClaimKeeps(k, s, s', id, slot, s.next);
  }

  // -------------------------------------------------------------- worker steps

  /** `s'` is `s` after job `j` moved to `p`; thread `w` and the job's device slot may have changed. */
  ghost predicate JobMoved(k: Pack, s: Pager, s': Pager, j: nat, w: nat, p: Place) {
    && j in s.jobs && s.jobs[j].slot < |s.dev| == |s'.dev|
    && s' == s.(ram := s'.ram, dev := s'.dev, jobs := Moved(s, j, p))
    && s'.dev == s.dev[s.jobs[j].slot := s'.dev[s.jobs[j].slot]] && |s'.dev[s.jobs[j].slot]| == k.span
    && R.RamInv(s'.ram) && s'.ram.span == s.ram.span && |s'.ram.threads| == |s.ram.threads|
    && (forall u :: 0 <= u < |s.ram.threads| && u != w ==> s'.ram.threads[u] == s.ram.threads[u])
    && (s.jobs[j].place.Held? ==> s.jobs[j].place.w == w)
    && (p.Held? ==> p.w == w && (s.jobs[j].place.Held? || Free(s, w)))
    && (p.Held? || s'.ram == s.ram)
    && (s.jobs[j].place.Held? ==> p.Held?)
  }

  lemma MoveKeepsTargets(k: Pack, s: Pager, s': Pager, j: nat, w: nat, p: Place)
    requires Core(k, s) && JobMoved(k, s, s', j, w, p)
    ensures forall i :: i in s'.jobs ==> i < s'.next && JobTarget(k, s', s'.jobs[i])
    ensures forall h :: h in s'.handles ==> h < s'.next && HandleOk(k, s', s'.handles[h])
  {
    hide Inv;
    hide R.RamInv;
    hide PinsAccounted;
    hide OneJobPerSlot;
    hide FillAgrees;
    forall i | i in s'.jobs
      ensures i < s'.next && JobTarget(k, s', s'.jobs[i])
    {
      assert JobTarget(k, s, s.jobs[i]);
    }
    hide JobTarget;
    forall h | h in s'.handles
      ensures h < s'.next && HandleOk(k, s', s'.handles[h])
    {
      assert HandleOk(k, s, s.handles[h]);
    }
  }

  lemma MoveKeepsOneJob(s: Pager, s': Pager, j: nat, p: Place)
    requires OneJobPerSlot(s) && j in s.jobs && s'.jobs == Moved(s, j, p) && s'.fill == s.fill
    ensures OneJobPerSlot(s')
  {
    forall x | 0 <= x < |s'.fill| && s'.fill[x] == InFlight
      ensures HasJob(s', x)
    {
      assert HasJob(s, x);
      var i :| i in s.jobs && s.jobs[i].slot == x;
      assert i in s'.jobs && s'.jobs[i].slot == x;
    }
  }

  lemma MoveKeepsPins(s: Pager, s': Pager, j: nat, p: Place)
    requires PinsAccounted(s) && j in s.jobs && s'.jobs == Moved(s, j, p) && s'.handles == s.handles
    requires s'.cache == s.cache
    ensures PinsAccounted(s')
  {
    PinsSame(s, s');
    hide PinsAccounted;
  }

  lemma MoveKeepsSizes(k: Pack, s: Pager, s': Pager, j: nat, w: nat, p: Place)
    requires Sizes(k, s) && FillAgrees(s) && JobMoved(k, s, s', j, w, p)
    ensures Sizes(k, s') && FillAgrees(s')
  {
    hide Inv;
    hide R.RamInv;
  }

  lemma MoveKeepsCore(k: Pack, s: Pager, s': Pager, j: nat, w: nat, p: Place)
    requires Core(k, s) && JobMoved(k, s, s', j, w, p)
    ensures Core(k, s')
  {
    MoveKeepsTargets(k, s, s', j, w, p);
    hide Inv;
    hide R.RamInv;
    hide JobTarget;
    hide HandleOk;
    hide PinsAccounted;
    hide OneJobPerSlot;
    hide Sizes;
    hide FillAgrees;
    MoveKeepsOneJob(s, s', j, p);
    MoveKeepsPins(s, s', j, p);
    MoveKeepsSizes(k, s, s', j, w, p);
  }

  lemma MoveKeepsPlaces(k: Pack, s: Pager, s': Pager, j: nat, w: nat, p: Place)
    requires WorkersOk(k, s) && OneJobPerSlot(s) && JobMoved(k, s, s', j, w, p)
    requires PlaceOk(k, s', s'.jobs[j])
    ensures forall i :: i in s'.jobs ==> PlaceOk(k, s', s'.jobs[i])
  {
    hide R.RamInv;
    forall i | i in s'.jobs
      ensures PlaceOk(k, s', s'.jobs[i])
    {
      if i != j {
        assert PlaceOk(k, s, s.jobs[i]);
        assert s.jobs[i].slot != s.jobs[j].slot;
        assert s.jobs[i].place.Held? && p.Held? ==> s.jobs[i].place.w != w;
      }
    }
  }

  lemma MoveKeepsWorkers(k: Pack, s: Pager, s': Pager, j: nat, w: nat, p: Place)
    requires WorkersOk(k, s) && OneJobPerSlot(s) && JobMoved(k, s, s', j, w, p)
    requires PlaceOk(k, s', s'.jobs[j])
    ensures WorkersOk(k, s')
  {
    MoveKeepsPlaces(k, s, s', j, w, p);
    hide R.RamInv;
    hide PlaceOk;
    hide OneJobPerSlot;
    forall u | 0 <= u < |s'.ram.threads| && Free(s', u)
      ensures s'.ram.threads[u].pc == R.Idle
    {
      assert j in s'.jobs;
      assert p.Held? ==> u != w;
      forall i | i in s.jobs && s.jobs[i].place.Held?
        ensures s.jobs[i].place.w != u
      {
        assert i in s'.jobs;
      }
      assert Free(s, u);
    }
  }

  lemma MoveKeeps(k: Pack, s: Pager, s': Pager, j: nat, w: nat, p: Place)
    requires PagerInv(k, s) && JobMoved(k, s, s', j, w, p)
    requires PlaceOk(k, s', s'.jobs[j]) && TierLawful(k, s')
    ensures PagerInv(k, s')
  {
    hide Inv;
    hide R.RamInv;
    hide WorkersOk;
    hide TierLawful;
    hide PinsAccounted;
    hide OneJobPerSlot;
    hide FillAgrees;
    hide HandleOk;
    assert JobTarget(k, s, s.jobs[j]);
    MoveKeepsCore(k, s, s', j, w, p);
    MoveKeepsWorkers(k, s, s', j, w, p);
  }

  lemma SendKeeps(k: Pack, s: Pager, s': Pager, j: nat)
    requires PagerInv(k, s) && Send(s, s', j)
    ensures PagerInv(k, s')
  {
    assert JobTarget(k, s, s.jobs[j]);
    hide Inv;
    hide R.RamInv;
    hide WorkersOk;
    MoveKeeps(k, s, s', j, 0, Queued);
  }

  lemma TakeKeeps(k: Pack, s: Pager, s': Pager, j: nat, w: nat)
    requires PagerInv(k, s) && Take(s, s', j, w)
    ensures PagerInv(k, s')
  {
    assert JobTarget(k, s, s.jobs[j]);
    hide Inv;
    hide R.RamInv;
    hide TierLawful;
    assert s'.ram.threads[w].pc == R.Idle;
    hide WorkersOk;
    MoveKeeps(k, s, s', j, w, Held(w, Fetch));
  }

  /** What a step of the tier means to the pager. */
  ghost predicate TierMoved(r: R.Ram, r': R.Ram, w: nat) {
    && R.RamInv(r') && r'.span == r.span && |r'.threads| == |r.threads| && w < |r.threads|
    && (forall u :: 0 <= u < |r.threads| && u != w ==> r'.threads[u] == r.threads[u])
  }

  lemma TierStep(r: R.Ram, r': R.Ram, a: R.Action)
    requires R.RamInv(r) && R.Step(r, r', a)
    ensures TierMoved(r, r', a.t)
    ensures !a.DoStartPut? ==> r'.puts == r.puts
  {
    R.StepKeepsInv(r, r', a);
    hide R.RamInv;
    hide Inv;
    hide Acquire;
    hide LookupReady;
  }

  lemma WorkMoves(k: Pack, s: Pager, s': Pager, j: nat, w: nat, st: Stage, st': Stage)
    requires PagerInv(k, s) && At(s, j, w, st)
    requires s' == s.(ram := s'.ram, jobs := Moved(s, j, Held(w, st')))
    requires TierMoved(s.ram, s'.ram, w) && TierLawful(k, s')
    requires StageOk(k, s', s.jobs[j].id, s.jobs[j].slot, s'.ram.threads[w], st')
    ensures PagerInv(k, s')
  {
    WorkerAt(k, s, j, w, st);
    hide PagerInv;
    hide StageOk;
    hide TierLawful;
    hide R.RamInv;
    MoveKeeps(k, s, s', j, w, Held(w, st'));
  }

  /** The facts a worker step starts from. */
  lemma WorkerAt(k: Pack, s: Pager, j: nat, w: nat, st: Stage)
    requires PagerInv(k, s) && At(s, j, w, st)
    ensures s.jobs[j].id < |k.blobs| && s.jobs[j].slot < |s.dev| == |s.fill| == |s.cache.slots|
    ensures s.fill[s.jobs[j].slot] == InFlight && s.cache.slots[s.jobs[j].slot].id == Some(s.jobs[j].id)
    ensures |s.dev[s.jobs[j].slot]| == k.span == s.ram.span == |s.ram.threads[w].buf|
    ensures AlignUp(|k.blobs[s.jobs[j].id]|) <= k.span
    ensures StageOk(k, s, s.jobs[j].id, s.jobs[j].slot, s.ram.threads[w], st)
    ensures R.RamInv(s.ram) && TierLawful(k, s)
  {
    assert PlaceOk(k, s, s.jobs[j]) && JobTarget(k, s, s.jobs[j]);
  }

  lemma BeginGetKeeps(k: Pack, s: Pager, s': Pager, j: nat, w: nat)
    requires PagerInv(k, s) && BeginGet(s, s', j, w)
    ensures PagerInv(k, s')
  {
    WorkerAt(k, s, j, w, Fetch);
    hide PagerInv;
    hide R.RamInv;
    hide LookupReady;
    TierStep(s.ram, s'.ram, R.DoStartGet(w, s.jobs[j].id));
    WorkMoves(k, s, s', j, w, Fetch, Getting);
  }

  lemma NoTierKeeps(k: Pack, s: Pager, s': Pager, j: nat, w: nat)
    requires PagerInv(k, s) && NoTier(s, s', j, w)
    ensures PagerInv(k, s')
  {
    WorkerAt(k, s, j, w, Fetch);
    hide PagerInv;
    hide R.RamInv;
    WorkMoves(k, s, s', j, w, Fetch, Read);
  }

  lemma GetTickKeeps(k: Pack, s: Pager, s': Pager, j: nat, w: nat)
    requires PagerInv(k, s) && GetTick(s, s', j, w)
    ensures PagerInv(k, s')
  {
    hide PagerInv;
    WorkerAt(k, s, j, w, Getting);
    hide R.RamInv;
    TierStep(s.ram, s'.ram, if R.CopyOut(s.ram, s'.ram, w) then R.DoCopyOut(w) else R.DoFinishGet(w));
    assert s'.jobs == Moved(s, j, Held(w, Getting));
    WorkMoves(k, s, s', j, w, Getting, Getting);
  }

  lemma GetOverKeeps(k: Pack, s: Pager, s': Pager, j: nat, w: nat)
    requires PagerInv(k, s) && GetOver(s, s', j, w)
    ensures PagerInv(k, s')
  {
    WorkerAt(k, s, j, w, Getting);
    var th := s.ram.threads[w];
    assert R.ThreadOk(s.ram, th);
    assert th.pc.hit ==> StagedOk(k, s.jobs[j].id, th.buf);
    hide PagerInv;
    hide R.RamInv;
    TierStep(s.ram, s'.ram, R.DoRefill(w, th.buf));
    WorkMoves(k, s, s', j, w, Getting, if th.pc.hit then Upload(0) else Read);
  }

  lemma ReadDiskKeeps(k: Pack, s: Pager, s': Pager, j: nat, w: nat)
    requires PagerInv(k, s) && ReadDisk(k, s, s', j, w)
    ensures PagerInv(k, s')
  {
    WorkerAt(k, s, j, w, Read);
    var blob := k.blobs[s.jobs[j].id];
    var bytes := Staged(blob, s.ram.threads[w].buf);
    assert bytes[..|blob|] == blob;
    hide PagerInv;
    hide R.RamInv;
    TierStep(s.ram, s'.ram, R.DoRefill(w, bytes));
    hide Staged;
    WorkMoves(k, s, s', j, w, Read, Loaded);
  }

  lemma LawfulStays(k: Pack, s: Pager, s': Pager, id: ExpertId, buf: seq<Byte>)
    requires TierLawful(k, s) && StagedOk(k, id, buf) && s'.ram.puts <= s.ram.puts + {(id, buf)}
    ensures TierLawful(k, s')
  {
  }

  lemma TierPut(r: R.Ram, r': R.Ram, w: nat, key: nat, src: seq<Byte>)
    requires R.RamInv(r) && R.StartPut(r, r', w, key, src)
    ensures TierMoved(r, r', w)
    ensures r'.threads[w].buf == r.threads[w].buf && r'.puts <= r.puts + {(key, src)}
    ensures var pc := r'.threads[w].pc;
            pc == R.PutDone || (pc.PutCopy? && pc.key == key && pc.src == src)
  {
    hide Inv;
    hide Acquire;
    hide R.RamInv;
    TierStep(r, r', R.DoStartPut(w, key, src));
  }

  lemma BeginPutFacts(k: Pack, s: Pager, s': Pager, j: nat, w: nat)
    requires R.RamInv(s.ram) && TierLawful(k, s) && BeginPut(s, s', j, w)
    requires StagedOk(k, s.jobs[j].id, s.ram.threads[w].buf)
    ensures TierMoved(s.ram, s'.ram, w) && TierLawful(k, s')
    ensures StageOk(k, s', s.jobs[j].id, s.jobs[j].slot, s'.ram.threads[w], Putting)
  {
    hide R.RamInv;
    hide R.StartPut;
    TierPut(s.ram, s'.ram, w, s.jobs[j].id, s.ram.threads[w].buf);
    LawfulStays(k, s, s', s.jobs[j].id, s.ram.threads[w].buf);
  }

  lemma BeginPutKeeps(k: Pack, s: Pager, s': Pager, j: nat, w: nat)
    requires PagerInv(k, s) && BeginPut(s, s', j, w)
    ensures PagerInv(k, s')
  {
    WorkerAt(k, s, j, w, Loaded);
    hide PagerInv;
    hide R.RamInv;
    hide R.StartPut;
    hide TierMoved;
    hide TierLawful;
    BeginPutFacts(k, s, s', j, w);
    WorkMoves(k, s, s', j, w, Loaded, Putting);
  }

  lemma SkipPutKeeps(k: Pack, s: Pager, s': Pager, j: nat, w: nat)
    requires PagerInv(k, s) && SkipPut(s, s', j, w)
    ensures PagerInv(k, s')
  {
    WorkerAt(k, s, j, w, Loaded);
    hide PagerInv;
    hide R.RamInv;
    WorkMoves(k, s, s', j, w, Loaded, Upload(0));
  }

  lemma PutTickKeeps(k: Pack, s: Pager, s': Pager, j: nat, w: nat)
    requires PagerInv(k, s) && PutTick(s, s', j, w)
    ensures PagerInv(k, s')
  {
    hide PagerInv;
    WorkerAt(k, s, j, w, Putting);
    hide R.RamInv;
    TierStep(s.ram, s'.ram, if R.CopyIn(s.ram, s'.ram, w) then R.DoCopyIn(w) else R.DoFinishPut(w));
    assert s'.jobs == Moved(s, j, Held(w, Putting));
    WorkMoves(k, s, s', j, w, Putting, Putting);
  }

  lemma PutOverKeeps(k: Pack, s: Pager, s': Pager, j: nat, w: nat)
    requires PagerInv(k, s) && PutOver(s, s', j, w)
    ensures PagerInv(k, s')
  {
    WorkerAt(k, s, j, w, Putting);
    var th := s.ram.threads[w];
    hide PagerInv;
    hide R.RamInv;
    TierStep(s.ram, s'.ram, R.DoRefill(w, th.buf));
    WorkMoves(k, s, s', j, w, Putting, Upload(0));
  }

  lemma UploadByteKeeps(k: Pack, s: Pager, s': Pager, j: nat, w: nat)
    requires PagerInv(k, s) && UploadByte(k, s, s', j, w)
    ensures PagerInv(k, s')
  {
    var n := s.jobs[j].place.stage.k;
    WorkerAt(k, s, j, w, Upload(n));
    hide PagerInv;
    hide R.RamInv;
    var slot := s.jobs[j].slot;
    assert s'.dev[slot][..n + 1] == s.dev[slot][..n] + [s.ram.threads[w].buf[n]];
    assert s.ram.threads[w].buf[..n + 1] == s.ram.threads[w].buf[..n] + [s.ram.threads[w].buf[n]];
    assert PlaceOk(k, s', s'.jobs[j]);
    hide StagedOk;
    hide PlaceOk;
    MoveKeeps(k, s, s', j, w, Held(w, Upload(n + 1)));
  }

  // ------------------------------------------------------------------- finish

  lemma FinishPins(k: Pack, s: Pager, s': Pager, j: nat, w: nat)
    requires Core(k, s) && Finish(k, s, s', j, w)
    ensures Inv(s'.cache) && PinsAccounted(s')
  {
    var slot := s.jobs[j].slot;
    PublishKeepsInv(s.cache, slot);
    var d := Publish(s.cache, slot);
    if s.jobs[j].releaseAfterFill {
      ReleaseKeepsInv(d, slot);
    }
    hide Inv;
    hide R.RamInv;
    hide JobTarget;
    hide HandleOk;
    hide OneJobPerSlot;
    hide FillAgrees;
    forall x | 0 <= x < |s'.cache.slots|
      ensures s'.cache.slots[x].pins == |HandlesOn(s', x)| + |PrefetchesOn(s', x)|
    {
      JobRemoved(s, s', j, x);
      HandlesSame(s, s', x);
    }
  }

  lemma FinishTargets(k: Pack, s: Pager, s': Pager, j: nat, w: nat)
    requires Core(k, s) && Finish(k, s, s', j, w)
    ensures FillAgrees(s')
    ensures forall i :: i in s'.jobs ==> i < s'.next && JobTarget(k, s', s'.jobs[i])
    ensures forall h :: h in s'.handles ==> h < s'.next && HandleOk(k, s', s'.handles[h])
  {
    hide Inv;
    hide R.RamInv;
    hide PinsAccounted;
    assert JobTarget(k, s, s.jobs[j]);
    forall i | i in s'.jobs
      ensures i < s'.next && JobTarget(k, s', s'.jobs[i])
    {
      assert i in s.jobs && JobTarget(k, s, s.jobs[i]) && s.jobs[i].slot != s.jobs[j].slot;
    }
    hide OneJobPerSlot;
    forall h | h in s'.handles
      ensures h < s'.next && HandleOk(k, s', s'.handles[h])
    {
      assert HandleOk(k, s, s.handles[h]);
    }
  }

  lemma FinishOneJob(k: Pack, s: Pager, s': Pager, j: nat, w: nat)
    requires OneJobPerSlot(s) && Finish(k, s, s', j, w)
    ensures OneJobPerSlot(s')
  {
    forall x | 0 <= x < |s'.fill| && s'.fill[x] == InFlight
      ensures HasJob(s', x)
    {
      assert HasJob(s, x);
      var i :| i in s.jobs && s.jobs[i].slot == x;
      assert i != j;
      assert i in s'.jobs && s'.jobs[i].slot == x;
    }
  }

  lemma FinishWorkers(k: Pack, s: Pager, s': Pager, j: nat, w: nat)
    requires WorkersOk(k, s) && Finish(k, s, s', j, w)
    ensures WorkersOk(k, s')
  {
    assert PlaceOk(k, s, s.jobs[j]);
    forall i | i in s'.jobs
      ensures PlaceOk(k, s', s'.jobs[i])
    {
      assert i in s.jobs && PlaceOk(k, s, s.jobs[i]);
    }
    forall u | 0 <= u < |s'.ram.threads| && Free(s', u)
      ensures s'.ram.threads[u].pc == R.Idle
    {
      if u != w {
        forall i | i in s.jobs && s.jobs[i].place.Held?
          ensures s.jobs[i].place.w != u
        {
          assert i == j || i in s'.jobs;
        }
        assert Free(s, u);
      }
    }
  }

  /** The copy is complete when the slot is declared ready. */
  lemma FinishHolds(k: Pack, s: Pager, s': Pager, j: nat, w: nat)
    requires PagerInv(k, s) && Finish(k, s, s', j, w)
    ensures ReadyHolds(k, s')
  {
    var n := AlignUp(|k.blobs[s.jobs[j].id]|);
    WorkerAt(k, s, j, w, Upload(n));
    var slot := s.jobs[j].slot;
    var blob := k.blobs[s.jobs[j].id];
    var buf := s.ram.threads[w].buf;
    assert s.dev[slot][..|blob|] == s.dev[slot][..n][..|blob|] == buf[..n][..|blob|] == buf[..|blob|] == blob;
    assert StagedOk(k, s.jobs[j].id, s.dev[slot]);
    hide Inv;
    hide R.RamInv;
    hide WorkersOk;
    hide StageOk;
    hide StagedOk;
    hide TierLawful;
    hide PinsAccounted;
    hide OneJobPerSlot;
    hide JobTarget;
    hide HandleOk;
  }

  lemma FinishSizes(k: Pack, s: Pager, s': Pager, j: nat, w: nat)
    requires Sizes(k, s) && Finish(k, s, s', j, w) && Inv(s'.cache)
    ensures Sizes(k, s')
  {
    hide Inv;
    hide R.RamInv;
  }

  lemma FinishKeeps(k: Pack, s: Pager, s': Pager, j: nat, w: nat)
    requires PagerInv(k, s) && Finish(k, s, s', j, w)
    ensures PagerInv(k, s')
  {
    FinishPins(k, s, s', j, w);
    FinishTargets(k, s, s', j, w);
    FinishOneJob(k, s, s', j, w);
    FinishWorkers(k, s, s', j, w);
    FinishHolds(k, s, s', j, w);
    FinishSizes(k, s, s', j, w);
    assert TierLawful(k, s');
    hide TierLawful;
    hide Sizes;
    hide Finish;
    hide WorkersOk;
    hide ReadyHolds;
    hide PinsAccounted;
    hide OneJobPerSlot;
    hide JobTarget;
    hide HandleOk;
    hide FillAgrees;
  }

  // ----------------------------------------------------------------- theorems

  lemma WorkerStepKeeps(k: Pack, s: Pager, s': Pager, j: nat, w: nat)
    requires PagerInv(k, s) && WorkerStep(k, s, s', j, w)
    ensures PagerInv(k, s')
  {
    hide PagerInv;
    hide BeginGet;
    hide NoTier;
    hide GetTick;
    hide GetOver;
    hide ReadDisk;
    hide BeginPut;
    hide SkipPut;
    hide PutTick;
    hide PutOver;
    hide UploadByte;
    hide Finish;
    if {
      case BeginGet(s, s', j, w) => BeginGetKeeps(k, s, s', j, w);
      case NoTier(s, s', j, w) => NoTierKeeps(k, s, s', j, w);
      case GetTick(s, s', j, w) => GetTickKeeps(k, s, s', j, w);
      case GetOver(s, s', j, w) => GetOverKeeps(k, s, s', j, w);
      case ReadDisk(k, s, s', j, w) => ReadDiskKeeps(k, s, s', j, w);
      case BeginPut(s, s', j, w) => BeginPutKeeps(k, s, s', j, w);
      case SkipPut(s, s', j, w) => SkipPutKeeps(k, s, s', j, w);
      case PutTick(s, s', j, w) => PutTickKeeps(k, s, s', j, w);
      case PutOver(s, s', j, w) => PutOverKeeps(k, s, s', j, w);
      case UploadByte(k, s, s', j, w) => UploadByteKeeps(k, s, s', j, w);
      case Finish(k, s, s', j, w) => FinishKeeps(k, s, s', j, w);
    }
  }

  lemma StepKeepsInv(k: Pack, s: Pager, s': Pager, a: Action)
    requires PagerInv(k, s) && Step(k, s, s', a)
    ensures PagerInv(k, s')
  {
    hide PagerInv;
    hide WorkerStep;
    match a {
      case DoRequest(id) =>
        match Acquire(s.cache, id).1 {
          case Hit(_) => RequestHitKeeps(k, s, s', id);
          case Miss(_, _) => RequestMissKeeps(k, s, s', id);
          case Stalled =>
        }
      case DoPrefetch(id) =>
        match Acquire(s.cache, id).1 {
          case Hit(_) => PrefetchHitKeeps(k, s, s', id);
          case Miss(_, _) => PrefetchMissKeeps(k, s, s', id);
          case Stalled =>
        }
      case DoWait(h) => WaitKeeps(k, s, s', h);
      case DoDrop(h) => DropKeeps(k, s, s', h);
      case DoTick => TickKeeps(k, s, s');
      case DoSend(j) => SendKeeps(k, s, s', j);
      case DoTake(j, w) => TakeKeeps(k, s, s', j, w);
      case DoWork(j, w) => WorkerStepKeeps(k, s, s', j, w);
    }
  }

  /** A pager as `Pager::new` leaves it: per-layer pools or one shared pool, cold. */
  ghost predicate Start(k: Pack, s: Pager) {
    && PackOk(k) && Inv(s.cache)
    && (forall x :: 0 <= x < |s.cache.slots| ==> s.cache.slots[x] == SlotState(None, 0, 0, false))
    && |s.fill| == |s.cache.slots| == |s.dev|
    && (forall x :: 0 <= x < |s.fill| ==> s.fill[x] == Empty && |s.dev[x]| == k.span)
    && s.jobs == map[] && s.handles == map[]
    && R.RamInv(s.ram) && s.ram.span == k.span && s.ram.puts == {}
    && (forall w :: 0 <= w < |s.ram.threads| ==> s.ram.threads[w].pc == R.Idle)
  }

  lemma StartInv(k: Pack, s: Pager)
    requires Start(k, s)
    ensures PagerInv(k, s)
  {
    hide Inv;
    hide R.RamInv;
    forall x | 0 <= x < |s.cache.slots|
      ensures |HandlesOn(s, x)| + |PrefetchesOn(s, x)| == 0
    {
      assert HandlesOn(s, x) == {} && PrefetchesOn(s, x) == {};
    }
  }

  // ------------------------------------------------------- what asking brings about

  /** The new handle of a request, and the fetch if there is one. */
  ghost predicate Handed(s: Pager, s': Pager, id: ExpertId, x: Slot, fetch: bool) {
    && x < |s.fill| && x < |s'.cache.slots|
    && s'.cache.slots[x].id == Some(id) && s'.handles == s.handles[s.next := Handle(id, x, false)]
    && s'.fill == (if fetch then s.fill[x := InFlight] else s.fill)
    && s'.jobs == (if fetch then s.jobs[s.next + 1 := Job(id, x, false, s.next, Outbox)] else s.jobs)
  }

  /** A request gets a handle on the slot its expert lives in, without a fetch; if it lives
      nowhere, on a slot it takes, with a fetch into that slot; and only if every slot of
      the pool is pinned does nothing happen. */
  lemma RequestHands(k: Pack, s: Pager, id: ExpertId) returns (s': Pager, x: Slot)
    requires Inv(s.cache) && |s.fill| == |s.cache.slots| && id < |k.blobs|
    ensures RequestOne(k, s, s', id)
    ensures if exists y :: Lives(s.cache, id, y) then Lives(s.cache, id, x) && Handed(s, s', id, x, false)
            else if exists y :: Takeable(s.cache, id, y) then Takeable(s.cache, id, x) && Handed(s, s', id, x, true)
            else s' == s
  {
    AcquireCases(s.cache, id);
    AcquireSlots(s.cache, id);
    hide Acquire;
    hide MapsAgree;
    hide SlotsAgree;
    hide Counters;
    hide Release;
    hide SameButFreq;
    var (d, l) := Acquire(s.cache, id);
    match l {
      case Hit(slot) =>
        x := slot;
        s' := s.(cache := d, handles := s.handles[s.next := Handle(id, slot, false)], next := s.next + 1);
      case Miss(slot, _) =>
        x := slot;
        s' := s.(cache := d, fill := s.fill[slot := InFlight],
                 handles := s.handles[s.next := Handle(id, slot, false)],
                 jobs := s.jobs[s.next + 1 := Job(id, slot, false, s.next, Outbox)], next := s.next + 2);
      case Stalled =>
        x := 0;
        s' := s;
    }
    hide Inv;
  }

  /** The fetch of a prefetch, into a slot it pins until the fetch is over. */
  ghost predicate Fetched(s: Pager, s': Pager, id: ExpertId, x: Slot) {
    && x < |s.fill| && x < |s'.cache.slots|
    && s'.cache.slots[x].id == Some(id) && s'.cache.slots[x].pins == 1 && s'.handles == s.handles
    && s'.fill == s.fill[x := InFlight] && s'.jobs == s.jobs[s.next := Job(id, x, true, s.next, Outbox)]
  }

  /** A prefetch of an expert that lives nowhere starts a fetch into a slot it takes. If the
      expert is there already, nothing but counters change; if every slot of the pool is
      pinned, nothing at all. */
  lemma PrefetchFetches(k: Pack, s: Pager, id: ExpertId) returns (s': Pager, x: Slot)
    requires Inv(s.cache) && |s.fill| == |s.cache.slots| && id < |k.blobs|
    ensures PrefetchOne(k, s, s', id)
    ensures if exists y :: Lives(s.cache, id, y) then s' == s.(cache := s'.cache) && SameButFreq(s.cache, s'.cache)
            else if exists y :: Takeable(s.cache, id, y) then Takeable(s.cache, id, x) && Fetched(s, s', id, x)
            else s' == s
  {
    AcquireCases(s.cache, id);
    AcquireSlots(s.cache, id);
    hide Acquire;
    hide MapsAgree;
    hide SlotsAgree;
    hide Counters;
    hide Release;
    hide SameButFreq;
    var (d, l) := Acquire(s.cache, id);
    match l {
      case Hit(slot) =>
        x := slot;
        s' := s.(cache := Release(d, slot));
      case Miss(slot, _) =>
        x := slot;
        s' := s.(cache := d, fill := s.fill[slot := InFlight],
                 jobs := s.jobs[s.next := Job(id, slot, true, s.next, Outbox)], next := s.next + 1);
      case Stalled =>
        x := 0;
        s' := s;
    }
    hide Inv;
  }

  /** A hit in the RAM tier saves the disk read: the job goes on to its upload, with its
      expert's blob in the buffer. A miss goes to disk. */
  lemma TierHitSkipsDisk(k: Pack, s: Pager, s': Pager, j: nat, w: nat)
    requires PagerInv(k, s) && GetOver(s, s', j, w)
    ensures j in s'.jobs && w < |s'.ram.threads| == |s.ram.threads|
    ensures if s.ram.threads[w].pc.hit
            then s'.jobs[j].place == Held(w, Upload(0)) && StagedOk(k, s.jobs[j].id, s'.ram.threads[w].buf)
            else s'.jobs[j].place == Held(w, Read)
  {
    hide Core;
    hide TierLawful;
    hide ReadyHolds;
    GetOverKeeps(k, s, s', j, w);
    assert PlaceOk(k, s', s'.jobs[j]);
  }

  ghost predicate IsRun(k: Pack, run: seq<Pager>, acts: seq<Action>) {
    |run| == |acts| + 1 && forall i :: 0 <= i < |acts| ==> Step(k, run[i], run[i + 1], acts[i])
  }

  lemma {:induction false} RunKeepsInv(k: Pack, run: seq<Pager>, acts: seq<Action>, n: nat)
    requires IsRun(k, run, acts) && PagerInv(k, run[0]) && n < |run|
    ensures PagerInv(k, run[n])
  {
    hide PagerInv;
    hide Step;
    if n > 0 {
      RunKeepsInv(k, run, acts, n - 1);
      assert Step(k, run[n - 1], run[n - 1 + 1], acts[n - 1]);
      StepKeepsInv(k, run[n - 1], run[n], acts[n - 1]);
    }
  }

  /** Paging is lossless: at every point of every run from a cold pager, the device slot
      of every handle that has been waited on, and not yet released, holds exactly the
      pack's blob of that handle's expert. */
  lemma PagingIsLossless(k: Pack, run: seq<Pager>, acts: seq<Action>, n: nat, h: nat)
    requires IsRun(k, run, acts) && Start(k, run[0]) && n < |run|
    requires h in run[n].handles && run[n].handles[h].waited
    ensures var s := run[n];
            var id, slot := s.handles[h].id, s.handles[h].slot;
            id < |k.blobs| && slot < |s.dev| && |k.blobs[id]| <= |s.dev[slot]|
            && s.dev[slot][..|k.blobs[id]|] == k.blobs[id]
  {
    StartInv(k, run[0]);
    RunKeepsInv(k, run, acts, n);
    var s := run[n];
    assert HandleOk(k, s, s.handles[h]);
  }

  /** The fold is row-major: layer and expert can be read off the id. */
  lemma FoldIsRowMajor(l: nat, e: nat, epl: nat)
    requires e < epl
    ensures IdOf(l, e, epl) / epl == l && IdOf(l, e, epl) % epl == e
  {
    assert IdOf(l, e, epl) - l * epl == e;
    X.DivMod(IdOf(l, e, epl), epl, l, e);
  }

  /** Folding (layer, expert) never confuses two experts of a pack. */
  lemma FoldIsInjective(l1: nat, e1: nat, l2: nat, e2: nat, epl: nat)
    requires e1 < epl && e2 < epl && IdOf(l1, e1, epl) == IdOf(l2, e2, epl)
    ensures l1 == l2 && e1 == e2
  {
    if l1 < l2 {
      PoolEnd(l1, l2, epl);
    } else if l2 < l1 {
      PoolEnd(l2, l1, epl);
    }
  }
}
