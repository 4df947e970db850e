/** Requests by a client that still holds handles of the same pool
    (crates/llmpager-cuda/src/pager.rs:402-462).

    Such a request completes if and only if the experts it holds and the experts it asks
    for fit the pool together. If they do not, every run of it ends in the state that the
    wedged check reports.
  */
module HeldRequests {
  import opened Util
  import opened CacheModel
  import opened CacheRuns
  import opened PagerModel
  import opened PagerProgress
  import R = RamTier

  /** The experts of pool `p` some handle is held on. */
  function HeldIds(s: Pager, p: nat): set<ExpertId> {
    set h | h in PoolHandles(s, p) :: s.handles[h].id
  }

  function Elements(ids: seq<ExpertId>): set<ExpertId> {
    set x | x in ids
  }

  /** What will be held once the rest of a request is granted. */
  function Wanted(s: Pager, p: nat, ids: seq<ExpertId>, got: nat): set<ExpertId>
    requires got <= |ids|
  {
    HeldIds(s, p) + Elements(ids[got..])
  }

  // ---------------------------------------------------------- experts and slots

  /** Held experts are resident, each in the slot of its handles. */
  lemma HeldAreResident(k: Pack, s: Pager, p: nat)
    requires PagerInv(k, s)
    ensures forall h :: h in PoolHandles(s, p) ==>
                          var x := s.handles[h].slot;
                          x < |s.cache.slots| && s.cache.slots[x].id == Some(s.handles[h].id)
  {
    hide Inv;
    hide R.RamInv;
    hide WorkersOk;
    hide ReadyHolds;
    hide TierLawful;
    forall h | h in PoolHandles(s, p)
      ensures s.handles[h].slot < |s.cache.slots|
      ensures s.cache.slots[s.handles[h].slot].id == Some(s.handles[h].id)
    {
      assert HandleOk(k, s, s.handles[h]);
    }
  }

  /** The slot expert `e` has in pool `p`. */
  ghost predicate Sits(c: Cache, p: nat, e: ExpertId, x: Slot) {
    x < |c.slots| && SlotInPool(c, p, x) && c.slots[x].id == Some(e)
  }

  lemma SitsOnce(c: Cache, p: nat, e: ExpertId, x: Slot, y: Slot)
    requires Inv(c) && Sits(c, p, e, x) && Sits(c, p, e, y)
    ensures x == y && PartOf(c, e) == p && Resident(c, e)
  {
  }

  /** Experts that sit in one pool are as many as their slots. */
  lemma {:induction false} SeatsOf(c: Cache, p: nat, es: set<ExpertId>) returns (xs: set<nat>)
    requires Inv(c) && forall e :: e in es ==> exists x :: Sits(c, p, e, x)
    ensures |xs| == |es|
    ensures forall x: nat :: x in xs <==> SeatOf(c, p, es, x)
    decreases es
  {
    hide Inv;
    hide SlotInPool;
    if es == {} {
      xs := {};
    } else {
      var e :| e in es;
      var x :| Sits(c, p, e, x);
      var rest := SeatsOf(c, p, es - {e});
      assert !SeatOf(c, p, es - {e}, x);
      xs := rest + {x};
      forall y: nat
        ensures y in xs <==> SeatOf(c, p, es, y)
      {
        if Sits(c, p, e, y) {
          SitsOnce(c, p, e, x, y);
        }
      }
    }
  }

  /** Slot `x` of the pool has one of the experts. */
  ghost predicate SeatOf(c: Cache, p: nat, es: set<ExpertId>, x: Slot) {
    x < |c.slots| && SlotInPool(c, p, x) && c.slots[x].id.Some? && c.slots[x].id.value in es
  }

  lemma {:induction false} RangeSize(lo: nat, hi: nat, xs: set<nat>)
    requires lo <= hi && forall x :: x in xs ==> lo <= x < hi
    ensures |xs| <= hi - lo
    decreases hi - lo
  {
    if lo < hi {
      RangeSize(lo + 1, hi, xs - {lo});
    } else {
      assert xs == {};
    }
  }

  lemma HeldSit(k: Pack, s: Pager, p: nat)
    requires PagerInv(k, s)
    ensures Inv(s.cache) && forall e :: e in HeldIds(s, p) ==> exists x :: Sits(s.cache, p, e, x)
  {
    HeldAreResident(k, s, p);
    assert Inv(s.cache);
    hide PagerInv;
    hide Inv;
    forall e | e in HeldIds(s, p)
      ensures exists x :: Sits(s.cache, p, e, x)
    {
      var h :| h in PoolHandles(s, p) && s.handles[h].id == e;
      assert Sits(s.cache, p, e, s.handles[h].slot);
    }
  }

  /** What is held in a pool fits it. */
  lemma HeldFits(k: Pack, s: Pager, p: nat)
    requires PagerInv(k, s) && p < |s.cache.parts|
    ensures |HeldIds(s, p)| <= s.cache.parts[p].len
  {
    HeldSit(k, s, p);
    hide PagerInv;
    hide HeldIds;
    var xs := SeatsOf(s.cache, p, HeldIds(s, p));
    var part := s.cache.parts[p];
    hide Inv;
    RangeSize(part.base, part.base + part.len, xs);
  }

  /** With fewer experts held than slots, some slot of the pool is not held. */
  lemma SomeSlotFree(k: Pack, s: Pager, p: nat) returns (x: Slot)
    requires PagerInv(k, s) && p < |s.cache.parts| && |HeldIds(s, p)| < s.cache.parts[p].len
    ensures x < |s.cache.slots| && SlotInPool(s.cache, p, x) && HandlesOn(s, x) == {}
  {
    HeldSit(k, s, p);
    HeldAreResident(k, s, p);
    assert Shape(s.cache);
    hide PagerInv;
    var xs := SeatsOf(s.cache, p, HeldIds(s, p));
    hide Inv;
    var part := s.cache.parts[p];
    x := SomeOutside(part.base, part.base + part.len, xs);
    forall h | h in PoolHandles(s, p)
      ensures s.handles[h].slot in xs
    {
      assert s.handles[h].id in HeldIds(s, p);
      assert SeatOf(s.cache, p, HeldIds(s, p), s.handles[h].slot);
    }
    forall h | h in s.handles
      ensures s.handles[h].slot != x
    {
      assert h in PoolHandles(s, p) || !SlotInPool(s.cache, p, s.handles[h].slot);
    }
  }

  // ---------------------------------------------------------------- one request

  /** What a request will hold does not change as it goes on. */
  lemma WantedStays(p: nat, ids: seq<ExpertId>, a: Progress, b: Progress)
    requires a.got <= |ids| && b.got <= |ids| && SamePools(a.s.cache, b.s.cache) && Gained(p, ids, a, b)
    ensures Wanted(b.s, p, ids, b.got) == Wanted(a.s, p, ids, a.got)
  {
    PoolAfterStep(p, ids, a, b);
    hide PoolHandles;
    hide SamePools;
    if b.got != a.got {
      var h := a.s.next;
      assert ids[a.got..] == [ids[a.got]] + ids[b.got..];
      HeldAfterGrant(a.s, b.s, p, h);
    } else {
      assert HeldIds(b.s, p) == HeldIds(a.s, p);
    }
  }

  lemma HeldAfterGrant(s: Pager, s': Pager, p: nat, h: nat)
    requires h !in s.handles && h in s'.handles && s'.handles == s.handles[h := s'.handles[h]]
    requires PoolHandles(s', p) == PoolHandles(s, p) + {h}
    ensures HeldIds(s', p) == HeldIds(s, p) + {s'.handles[h].id}
  {
    forall g | g in PoolHandles(s, p)
      ensures g in s'.handles && s'.handles[g] == s.handles[g]
    {
    }
    hide PoolHandles;
    forall e
      ensures e in HeldIds(s', p) <==> e in HeldIds(s, p) + {s'.handles[h].id}
    {
      if e in HeldIds(s, p) {
        var g :| g in PoolHandles(s, p) && s.handles[g].id == e;
        assert g in PoolHandles(s', p) && s'.handles[g].id == e;
      }
      if e == s'.handles[h].id {
        assert h in PoolHandles(s', p);
      }
    }
  }

  lemma {:induction false} RequestRun(k: Pack, p: nat, ids: seq<ExpertId>, run: seq<Progress>, n: nat)
    requires IsWaveRun(k, ids, run) && Requesting(k, run[0].s, p, ids, run[0].got) && n < |run|
    ensures Requesting(k, run[n].s, p, ids, run[n].got)
    ensures Wanted(run[n].s, p, ids, run[n].got) == Wanted(run[0].s, p, ids, run[0].got)
    ensures run[n].s.cache.parts[p].len == run[0].s.cache.parts[p].len
    ensures n <= Measure(ids, run[0]) - Measure(ids, run[n]) && 0 <= Measure(ids, run[n])
  {
    hide PagerInv;
    hide Effective;
    hide Measure;
    hide Wanted;
    if n > 0 {
      RequestRun(k, p, ids, run, n - 1);
      RequestDescends(k, p, ids, run[n - 1], run[n]);
      WantedStays(p, ids, run[n - 1], run[n]);
    } else {
      MeasureNonNegative(k, p, ids, run[0]);
    }
  }

  ghost predicate FitsPool(s: Pager, p: nat, ids: seq<ExpertId>, got: nat)
    requires p < |s.cache.parts| && got <= |ids|
  {
    |Wanted(s, p, ids, got)| <= s.cache.parts[p].len
  }

  lemma {:induction false} SubsetSmaller(a: set<ExpertId>, b: set<ExpertId>, e: ExpertId)
    requires a <= b && e in b && e !in a
    ensures |a| < |b|
    decreases a
  {
    if a != {} {
      var x :| x in a;
      SubsetSmaller(a - {x}, b - {x}, e);
    }
  }

  /** An absent expert is not held. */
  lemma AbsentIsNotHeld(k: Pack, s: Pager, p: nat, id: ExpertId)
    requires PagerInv(k, s) && id in HeldIds(s, p)
    ensures Inv(s.cache) && Resident(s.cache, id)
  {
    HeldSit(k, s, p);
    hide PagerInv;
    hide HeldIds;
    var x :| Sits(s.cache, p, id, x);
    SitsOnce(s.cache, p, id, x, x);
  }

  lemma GrantMoves(k: Pack, p: nat, ids: seq<ExpertId>, a: Progress)
    requires Requesting(k, a.s, p, ids, a.got) && a.got < |ids|
    requires Inv(a.s.cache) && !Acquire(a.s.cache, ids[a.got]).1.Stalled?
    ensures CanMove(k, ids, a)
  {
    var s, id := a.s, ids[a.got];
    assert |s.fill| == |s.cache.slots|;
    hide PagerInv;
    hide Inv;
    hide Step;
    hide RequestOne;
    var s' := GrantPossible(k, s, id);
    hide Acquire;
    assert Grant(k, ids, a, Progress(s', a.got + 1));
    assert Effective(k, ids, a, Progress(s', a.got + 1));
  }

  lemma JobsMove(k: Pack, p: nat, ids: seq<ExpertId>, a: Progress, j: nat)
    requires Requesting(k, a.s, p, ids, a.got) && j in a.s.jobs
    ensures CanMove(k, ids, a)
  {
    hide PagerInv;
    hide Step;
    var s', act := BackgroundCanMove(k, a.s, j);
    assert BackgroundStep(k, a.s, s');
    assert Effective(k, ids, a, Progress(s', a.got));
  }

  /** A request that fits can go on until every id is granted. */
  lemma FittingCanMove(k: Pack, p: nat, ids: seq<ExpertId>, a: Progress)
    requires Requesting(k, a.s, p, ids, a.got) && a.got < |ids| && FitsPool(a.s, p, ids, a.got)
    ensures CanMove(k, ids, a)
  {
    var s, id := a.s, ids[a.got];
    assert Inv(s.cache);
    hide Effective;
    if Acquire(s.cache, id).1.Stalled? {
      StalledIff(s.cache, id);
      hide Acquire;
      hide CanMove;
      if id in HeldIds(s, p) {
        AbsentIsNotHeld(k, s, p, id);
      }
      hide HeldIds;
      assert id in Wanted(s, p, ids, a.got) && HeldIds(s, p) <= Wanted(s, p, ids, a.got);
      SubsetSmaller(HeldIds(s, p), Wanted(s, p, ids, a.got), id);
      var x := SomeSlotFree(k, s, p);
      assert InPool(s.cache, p, x);
      var j := PinnedByPrefetch(k, s, x);
      JobsMove(k, p, ids, a, j);
    } else {
      GrantMoves(k, p, ids, a);
    }
  }

  lemma PinnedByPrefetch(k: Pack, s: Pager, x: Slot) returns (j: nat)
    requires PagerInv(k, s) && x < |s.cache.slots| && s.cache.slots[x].pins > 0 && HandlesOn(s, x) == {}
    ensures j in s.jobs
  {
    hide Inv;
    hide R.RamInv;
    hide WorkersOk;
    hide ReadyHolds;
    hide TierLawful;
    assert PrefetchesOn(s, x) != {};
    j :| j in PrefetchesOn(s, x);
  }

  /** The wedged check of the source holds for the id asked for. */
  ghost predicate AtWedge(ids: seq<ExpertId>, a: Progress) {
    a.got < |ids| && Shape(a.s.cache) && Wedged(a.s.cache, ids[a.got])
  }

  /** A request that cannot go on has every slot of the pool pinned and filled. */
  lemma StuckIsWedged(k: Pack, p: nat, ids: seq<ExpertId>, a: Progress)
    requires Requesting(k, a.s, p, ids, a.got) && a.got < |ids| && !CanMove(k, ids, a)
    ensures AtWedge(ids, a)
  {
    var s, id := a.s, ids[a.got];
    assert Inv(s.cache);
    hide CanMove;
    if !Acquire(s.cache, id).1.Stalled? {
      GrantMoves(k, p, ids, a);
    }
    StalledIff(s.cache, id);
    hide Acquire;
    if j :| j in s.jobs {
      JobsMove(k, p, ids, a, j);
    }
    IdlePoolIsWedged(k, s, id);
  }

  /** With no job anywhere, a pool whose slots are all pinned is wedged. */
  lemma IdlePoolIsWedged(k: Pack, s: Pager, id: ExpertId)
    requires PagerInv(k, s) && (forall j :: j !in s.jobs) && Inv(s.cache)
    requires forall x :: InPool(s.cache, PartOf(s.cache, id), x) ==> s.cache.slots[x].pins > 0
    ensures Wedged(s.cache, id)
  {
    hide PagerInv;
    forall x: nat | InPool(s.cache, PartOf(s.cache, id), x)
      ensures x < |s.cache.slots| && s.cache.slots[x].ready
    {
      IdlePinsAreReady(k, s, x);
    }
    hide MapsAgree;
    hide SlotsAgree;
  }

  /** With no job anywhere, a pinned slot is filled. */
  lemma IdlePinsAreReady(k: Pack, s: Pager, x: Slot)
    requires PagerInv(k, s) && (forall j :: j !in s.jobs) && x < |s.cache.slots| && s.cache.slots[x].pins > 0
    ensures s.cache.slots[x].ready
  {
    hide Inv;
    hide R.RamInv;
    hide WorkersOk;
    hide ReadyHolds;
    hide TierLawful;
    assert PrefetchesOn(s, x) == {};
    assert HandlesOn(s, x) != {};
    var h :| h in HandlesOn(s, x);
    assert HandleOk(k, s, s.handles[h]);
    assert !HasJob(s, x);
  }

  /** A request made while handles of its pool are held: every run of it is finite; one
      that cannot be extended has granted every id if and only if the experts held and
      asked for fit the pool together; and otherwise it ends wedged. */
  lemma CompletesIffItFits(k: Pack, p: nat, ids: seq<ExpertId>, run: seq<Progress>)
    requires IsWaveRun(k, ids, run) && Requesting(k, run[0].s, p, ids, run[0].got)
    requires !CanMove(k, ids, run[|run| - 1])
    ensures |run| <= Measure(ids, run[0]) + 1
    ensures run[|run| - 1].got == |ids| <==> FitsPool(run[0].s, p, ids, run[0].got)
    ensures run[|run| - 1].got == |ids| || AtWedge(ids, run[|run| - 1])
  {
    var last := run[|run| - 1];
    hide PagerInv;
    hide Effective;
    hide Measure;
    hide CanMove;
    hide AtWedge;
    hide HeldIds;
    RequestRun(k, p, ids, run, |run| - 1);
    if last.got == |ids| {
      HeldFits(k, last.s, p);
      assert Wanted(last.s, p, ids, last.got) == HeldIds(last.s, p);
    } else {
      StuckIsWedged(k, p, ids, last);
      if FitsPool(last.s, p, ids, last.got) {
        FittingCanMove(k, p, ids, last);
      }
    }
  }

  /** A completed request holds a handle for each of its ids. */
  lemma CompletedHoldsAll(k: Pack, p: nat, ids: seq<ExpertId>, run: seq<Progress>)
    requires IsWaveRun(k, ids, run) && Requesting(k, run[0].s, p, ids, run[0].got) && run[|run| - 1].got == |ids|
    requires run[0].got == 0
    ensures HeldIds(run[|run| - 1].s, p) == HeldIds(run[0].s, p) + Elements(ids)
  {
    var last := run[|run| - 1];
    hide PagerInv;
    hide Effective;
    hide Measure;
    hide HeldIds;
    RequestRun(k, p, ids, run, |run| - 1);
    assert ids[0..] == ids && ids[|ids|..] == [];
  }
}
