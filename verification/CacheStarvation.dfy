/** The decay interval must not be shorter than the pool: otherwise newcomers are
    always cold again before the scan gets past them, and a dead expert behind them
    is never evicted. With CacheAging.DeadExpertsLeave this makes the aging bound exact. */
module CacheStarvation {
  import opened Util
  import opened CacheModel
  import opened CacheRuns
  import opened CacheAging

  // ------------------------------------------------------- one newcomer after another

  /** Acquire a newcomer, publish it, let it go. */
  function Round(slot: Slot, m: ExpertId): seq<Op> {
    [AcquireOp(m), PublishOp(slot), ReleaseOp(slot)]
  }

  ghost function AfterRound(c: Cache, slot: Slot, m: ExpertId): Cache
    requires Inv(c) && slot < |Acquire(c, m).0.slots| && Acquire(c, m).0.slots[slot].pins > 0
  {
    Release(Publish(Acquire(c, m).0, slot), slot)
  }

  lemma OneStep(c: Cache, op: Op, rest: seq<Op>, p: nat)
    requires Inv(c) && Allowed(c, op)
    ensures Inv(Do(c, op))
    ensures Exec(c, [op] + rest) == Exec(Do(c, op), rest)
    ensures MissesIn(c, [op] + rest, p) == (if IsMissIn(c, op, p) then 1 else 0) + MissesIn(Do(c, op), rest, p)
  {
    hide Inv;
    hide Do;
    hide Allowed;
    hide IsMissIn;
    DoKeepsInv(c, op);
    assert ([op] + rest)[1..] == rest;
  }

  /** A run that starts with a round is that round, then the rest. */
  lemma RoundRuns(c: Cache, slot: Slot, m: ExpertId, rest: seq<Op>)
    requires Inv(c) && |c.parts| == 1
    requires Acquire(c, m).1.Miss? && slot < |Acquire(c, m).0.slots| && Acquire(c, m).0.slots[slot].pins > 0
    ensures Inv(AfterRound(c, slot, m))
    ensures Exec(c, Round(slot, m) + rest) == Exec(AfterRound(c, slot, m), rest)
    ensures MissesIn(c, Round(slot, m) + rest, 0) == 1 + MissesIn(AfterRound(c, slot, m), rest, 0)
  {
    var d := Acquire(c, m).0;
    AcquireKeepsInv(c, m);
    assert PartOf(c, m) == 0;
    PublishKeepsInv(d, slot);
    var d2 := Publish(d, slot);
    var rest1 := [ReleaseOp(slot)] + rest;
    var rest2 := [PublishOp(slot)] + rest1;
    assert Round(slot, m) + rest == [AcquireOp(m)] + rest2;
    assert Allowed(d2, ReleaseOp(slot));
    assert Do(d2, ReleaseOp(slot)) == AfterRound(c, slot, m);
    assert IsMissIn(c, AcquireOp(m), 0);
    hide Inv;
    hide Acquire;
    OneStep(c, AcquireOp(m), rest2, 0);
    OneStep(d, PublishOp(slot), rest1, 0);
    OneStep(d2, ReleaseOp(slot), rest, 0);
    hide Exec;
    hide MissesIn;
  }

  lemma RoundIsElsewhere(slot: Slot, m: ExpertId, e: ExpertId, rest: seq<Op>)
    requires m != e && forall op :: op in rest ==> Elsewhere(op, e)
    ensures forall op :: op in Round(slot, m) + rest ==> Elsewhere(op, e)
  {
  }

  /** One pool of `n` slots, in an interval shorter than it. */
  ghost predicate OnePool(c: Cache, n: nat, decay: nat) {
    && Inv(c) && |c.slots| == n && |c.parts| == 1 && c.parts[0].base == 0 && c.parts[0].len == n
    && c.decayInterval == decay < n
  }

  /** What a round does to one pool, when its newcomer is not resident and finds `slot`. */
  lemma RoundSlots(c: Cache, n: nat, decay: nat, slot: Slot, m: ExpertId)
    requires OnePool(c, n, decay) && !Resident(c, m) && Victim(c.slots, 0, n) == Some(slot) && c.slots[slot].pins == 0
    ensures Acquire(c, m).1.Miss? && slot < |Acquire(c, m).0.slots| && Acquire(c, m).0.slots[slot].pins > 0
    ensures
      var d := AfterRound(c, slot, m);
      var aged := c.parts[0].inserts + 1 == decay;
      && OnePool(d, n, decay) && d.parts[0].inserts == (if aged then 0 else c.parts[0].inserts + 1)
      && d.slots[slot] == SlotState(Some(m), if aged then 0 else 1, 0, true)
      && forall i :: 0 <= i < n && i != slot ==> d.slots[i] == if aged then Halved(c.slots[i]) else c.slots[i]
  {
    AcquireKeepsInv(c, m);
    var d := Acquire(c, m).0;
    PublishKeepsInv(d, slot);
    ReleaseKeepsInv(Publish(d, slot), slot);
    assert c.parts[0].inserts < decay;
    hide MapsAgree;
    hide SlotsAgree;
  }

  // ---------------------------------------------------------------- starving

  /** `j` newcomers sit in the lowest slots, `late` slots before the last are still warm
      from filling the pool, the others are cold, and `e` sits unpinned in the last slot.
      Ids are below `m`. */
  ghost predicate Starving(c: Cache, n: nat, decay: nat, j: nat, late: nat, e: ExpertId, m: nat) {
    && OnePool(c, n, decay) && c.parts[0].inserts == j + late < decay
    && (forall i :: 0 <= i < n ==> c.slots[i].id.Some? && c.slots[i].id.value < m && c.slots[i].pins == 0)
    && (forall i :: 0 <= i < n - 1 ==> c.slots[i].freq == if i < j || n - late <= i then 1 else 0)
    && c.slots[n - 1].id == Some(e)
  }

  lemma NewcomerNotResident(c: Cache, n: nat, decay: nat, j: nat, late: nat, e: ExpertId, m: nat)
    requires Starving(c, n, decay, j, late, e, m)
    ensures !Resident(c, m) && Resident(c, e) && e != m
  {
    assert InPool(c, 0, n - 1);
  }

  /** The scan settles on the first cold slot, past the newcomers. */
  lemma ScanStopsAt(slots: seq<SlotState>, j: nat, hi: nat)
    requires j < hi <= |slots| && slots[j].pins == 0 && slots[j].freq == 0 && slots[j].id.Some?
    requires forall i :: 0 <= i < j ==> slots[i].freq == 1
    requires forall i :: j < i < hi ==> slots[i].id.Some?
    ensures Victim(slots, 0, hi) == Some(j)
  {
    VictimIsFirstLeast(slots, 0, hi);
    var v := Victim(slots, 0, hi).value;
    assert !Before(slots[j], slots[v]);
  }

  lemma RoundKeepsStarving(c: Cache, n: nat, decay: nat, j: nat, late: nat, e: ExpertId, m: nat)
    requires Starving(c, n, decay, j, late, e, m)
    ensures Acquire(c, m).1.Miss? && j < |Acquire(c, m).0.slots| && Acquire(c, m).0.slots[j].pins > 0
    ensures
      var same := j + late + 1 < decay;
      Starving(AfterRound(c, j, m), n, decay, if same then j + 1 else 0, if same then late else 0, e, m + 1)
  {
    hide Acquire;
    hide AfterRound;
    hide Victim;
    hide MapsAgree;
    hide SlotsAgree;
    NewcomerNotResident(c, n, decay, j, late, e, m);
    ScanStopsAt(c.slots, j, n);
    RoundSlots(c, n, decay, j, m);
    hide Inv;
  }

  lemma {:induction false} StarvingForever(c: Cache, n: nat, decay: nat, j: nat, late: nat, e: ExpertId, m: nat,
                                           misses: nat)
    returns (ops: seq<Op>)
    requires Starving(c, n, decay, j, late, e, m)
    ensures Exec(c, ops).Some? && Inv(Exec(c, ops).value) && Resident(Exec(c, ops).value, e)
    ensures forall op :: op in ops ==> Elsewhere(op, e)
    ensures MissesIn(c, ops, 0) == misses
    decreases misses
  {
    NewcomerNotResident(c, n, decay, j, late, e, m);
    if misses == 0 {
      ops := [];
    } else {
      RoundKeepsStarving(c, n, decay, j, late, e, m);
      var same := j + late + 1 < decay;
      var d := AfterRound(c, j, m);
      assert Inv(c) && |c.parts| == 1;
      hide Inv;
      hide Acquire;
      hide AfterRound;
      hide Starving;
      var j', late' := if same then j + 1 else 0, if same then late else 0;
      var rest := StarvingForever(d, n, decay, j', late', e, m + 1, misses - 1);
      RoundRuns(c, j, m, rest);
      RoundIsElsewhere(j, m, e, rest);
      ops := Round(j, m) + rest;
      hide Exec;
      hide MissesIn;
    }
  }

  // ---------------------------------------------------------------- filling the pool

  /** Ids 0 .. i were taken in, in order, by the first slots; the latest `j` are warm. */
  ghost predicate Filling(c: Cache, n: nat, decay: nat, i: nat, j: nat) {
    && OnePool(c, n, decay) && j <= i <= n && c.parts[0].inserts == j
    && (forall x :: 0 <= x < i ==> c.slots[x] == SlotState(Some(x), if i - j <= x then 1 else 0, 0, true))
    && (forall x :: i <= x < n ==> c.slots[x] == SlotState(None, 0, 0, false))
  }

  /** The scan settles on the first empty slot. */
  lemma ScanFindsEmpty(slots: seq<SlotState>, i: nat, hi: nat)
    requires i < hi <= |slots| && forall x :: i <= x < hi ==> slots[x] == SlotState(None, 0, 0, false)
    requires forall x :: 0 <= x < i ==> slots[x].id.Some?
    ensures Victim(slots, 0, hi) == Some(i)
  {
    VictimIsFirstLeast(slots, 0, hi);
    var v := Victim(slots, 0, hi).value;
    assert !Before(slots[i], slots[v]);
  }

  lemma RoundFills(c: Cache, n: nat, decay: nat, i: nat, j: nat)
    requires Filling(c, n, decay, i, j) && i < n
    ensures Acquire(c, i).1.Miss? && i < |Acquire(c, i).0.slots| && Acquire(c, i).0.slots[i].pins > 0
    ensures Filling(AfterRound(c, i, i), n, decay, i + 1, if j + 1 == decay then 0 else j + 1)
  {
    assert !Resident(c, i);
    hide Acquire;
    hide AfterRound;
    hide Victim;
    ScanFindsEmpty(c.slots, i, n);
    RoundSlots(c, n, decay, i, i);
    hide Inv;
  }

  /** From a partly filled pool to one where the last expert taken in was asked for once
      more, and starves. */
  lemma {:induction false} FillUp(c: Cache, n: nat, decay: nat, i: nat, j: nat) returns (ops: seq<Op>, late: nat)
    requires Filling(c, n, decay, i, j) && 0 < n
    ensures Exec(c, ops).Some? && Starving(Exec(c, ops).value, n, decay, 0, late, n - 1, n)
    ensures Exec(c, ops).value.slots[n - 1].freq >= 1
    decreases n - i
  {
    if i == n {
      ops := LastHit(c, n, decay, j);
      late := j;
    } else {
      RoundFills(c, n, decay, i, j);
      var d := AfterRound(c, i, i);
      assert Inv(c) && |c.parts| == 1;
      hide Inv;
      hide Acquire;
      hide AfterRound;
      hide Filling;
      var rest;
      rest, late := FillUp(d, n, decay, i + 1, if j + 1 == decay then 0 else j + 1);
      RoundRuns(c, i, i, rest);
      ops := Round(i, i) + rest;
      hide Exec;
      hide Starving;
    }
  }

  /** A hit on the expert in the last slot of a full pool. */
  lemma LastHit(c: Cache, n: nat, decay: nat, j: nat) returns (ops: seq<Op>)
    requires Filling(c, n, decay, n, j) && 0 < n
    ensures Exec(c, ops).Some? && Starving(Exec(c, ops).value, n, decay, 0, j, n - 1, n)
    ensures Exec(c, ops).value.slots[n - 1].freq >= 1
  {
    var e := n - 1;
    assert InPool(c, 0, e);
    assert c.parts[0].resident[e] == e;
    var d := Acquire(c, e).0;
    assert d.slots == c.slots[e := Touched(c.slots[e])] && d.parts == c.parts;
    AcquireKeepsInv(c, e);
    ReleaseKeepsInv(d, e);
    var f := Release(d, e);
    ops := [AcquireOp(e)] + ([ReleaseOp(e)] + []);
    assert Starving(f, n, decay, 0, j, e, n) by {
      hide Inv;
      hide Acquire;
    }
    assert Do(c, AcquireOp(e)) == d && Do(d, ReleaseOp(e)) == f;
    assert Allowed(d, ReleaseOp(e));
    hide Inv;
    hide Acquire;
    hide Starving;
    OneStep(c, AcquireOp(e), [ReleaseOp(e)] + [], 0);
    OneStep(d, ReleaseOp(e), [], 0);
  }

  // ---------------------------------------------------------------- the exact condition

  /** A run from a new cache of one pool, after which the bound fails for `e`: unpinned and
      with a counter of at least one when the run `setup` ends, never asked for in `ops`,
      past the bounded number of misses, and still there. */
  ghost predicate Outlives(n: nat, decay: nat, setup: seq<Op>, ops: seq<Op>, e: ExpertId)
    requires 0 < n && 0 < decay
  {
    FreshInv(1, 1, n, decay);
    && Exec(Fresh(1, 1, n, decay), setup).Some?
    && OutlivesFrom(n, decay, Exec(Fresh(1, 1, n, decay), setup).value, ops, e)
  }

  ghost predicate OutlivesFrom(n: nat, decay: nat, c: Cache, ops: seq<Op>, e: ExpertId) {
    && Inv(c) && Resident(c, e) && c.slots[SlotOf(c, e)].pins == 0 && FreqOf(c, e) >= 1
    && Exec(c, ops).Some? && (forall op :: op in ops ==> Elsewhere(op, e))
    && MissesIn(c, ops, PartOf(c, e)) >= (Log2(FreqOf(c, e)) + 1) * decay + n
    && Inv(Exec(c, ops).value) && Resident(Exec(c, ops).value, e)
  }

  ghost predicate AgesOut(n: nat, decay: nat)
    requires 0 < n && 0 < decay
  {
    forall setup, ops, e :: !Outlives(n, decay, setup, ops, e)
  }

  /** With an interval shorter than the pool some expert outlives the bound. */
  lemma ShortIntervalStarves(n: nat, decay: nat) returns (setup: seq<Op>, ops: seq<Op>, e: ExpertId)
    requires 0 < decay < n
    ensures Outlives(n, decay, setup, ops, e)
  {
    FreshInv(1, 1, n, decay);
    var start := Fresh(1, 1, n, decay);
    assert Filling(start, n, decay, 0, 0);
    var late;
    setup, late := FillUp(start, n, decay, 0, 0);
    var c := Exec(start, setup).value;
    e := n - 1;
    hide Exec;
    hide Starving;
    hide OutlivesFrom;
    ops := StarvesFrom(n, decay, c, late);
  }

  lemma StarvesFrom(n: nat, decay: nat, c: Cache, late: nat) returns (ops: seq<Op>)
    requires 0 < decay < n && Starving(c, n, decay, 0, late, n - 1, n) && c.slots[n - 1].freq >= 1
    ensures OutlivesFrom(n, decay, c, ops, n - 1)
  {
    LastIsStarving(c, n, decay, late);
    hide Starving;
    hide FreqOf;
    hide Exec;
    hide MissesIn;
    hide Inv;
    ops := StarvingForever(c, n, decay, 0, late, n - 1, n, (Log2(FreqOf(c, n - 1)) + 1) * decay + n);
  }

  lemma LastIsStarving(c: Cache, n: nat, decay: nat, late: nat)
    requires 0 < n && Starving(c, n, decay, 0, late, n - 1, n) && c.slots[n - 1].freq >= 1
    ensures Inv(c) && Resident(c, n - 1) && PartOf(c, n - 1) == 0 && c.slots[SlotOf(c, n - 1)].pins == 0
    ensures FreqOf(c, n - 1) >= 1
  {
    assert InPool(c, 0, n - 1);
  }

  /** Operations leave the pools and the interval as they were built. */
  ghost predicate SameGeometry(c: Cache, d: Cache) {
    && d.decayInterval == c.decayInterval && |d.parts| == |c.parts|
    && forall p :: 0 <= p < |c.parts| ==> d.parts[p].base == c.parts[p].base && d.parts[p].len == c.parts[p].len
  }

  lemma DoKeepsGeometry(c: Cache, op: Op)
    requires Inv(c) && Allowed(c, op)
    ensures SameGeometry(c, Do(c, op))
  {
    hide Victim;
    hide HalveRange;
  }

  lemma {:induction false} ExecKeepsGeometry(c: Cache, ops: seq<Op>)
    requires Inv(c) && Exec(c, ops).Some?
    ensures SameGeometry(c, Exec(c, ops).value)
    decreases |ops|
  {
    if ops != [] {
      DoKeepsInv(c, ops[0]);
      DoKeepsGeometry(c, ops[0]);
      hide Inv;
      hide Do;
      ExecKeepsGeometry(Do(c, ops[0]), ops[1..]);
    }
  }

  lemma LongIntervalAges(n: nat, decay: nat, setup: seq<Op>, ops: seq<Op>, e: ExpertId)
    requires 0 < n <= decay
    ensures !Outlives(n, decay, setup, ops, e)
  {
    FreshInv(1, 1, n, decay);
    var start := Fresh(1, 1, n, decay);
    if Exec(start, setup).Some? {
      ExecKeepsGeometry(start, setup);
      var c := Exec(start, setup).value;
      assert c.decayInterval == decay && |c.parts| == 1 && c.parts[0].len == n;
      hide Exec;
      NotFrom(n, decay, c, ops, e);
      hide OutlivesFrom;
    }
  }

  lemma NotFrom(n: nat, decay: nat, c: Cache, ops: seq<Op>, e: ExpertId)
    requires c.decayInterval == decay && |c.parts| == 1 && c.parts[0].len == n <= decay
    ensures !OutlivesFrom(n, decay, c, ops, e)
  {
    if Inv(c) && Resident(c, e) && c.slots[SlotOf(c, e)].pins == 0 && FreqOf(c, e) >= 1 && Exec(c, ops).Some?
      && (forall op :: op in ops ==> Elsewhere(op, e))
      && MissesIn(c, ops, PartOf(c, e)) >= (Log2(FreqOf(c, e)) + 1) * decay + n
    {
      assert PartOf(c, e) == 0;
      hide Inv;
      hide Exec;
      hide MissesIn;
      hide FreqOf;
      hide Resident;
      DeadExpertsLeave(c, ops, e);
    }
    hide *;
  }

  /** The aging bound holds of every run of a one-pool cache if and only if the decay
      interval is at least the pool size. */
  lemma AgingIsExact(n: nat, decay: nat)
    requires 0 < n && 0 < decay
    ensures AgesOut(n, decay) <==> decay >= n
  {
    hide Outlives;
    if decay >= n {
      forall setup, ops, e
        ensures !Outlives(n, decay, setup, ops, e)
      {
        LongIntervalAges(n, decay, setup, ops, e);
      }
    } else {
      var setup, ops, e := ShortIntervalStarves(n, decay);
      assert Outlives(n, decay, setup, ops, e);
    }
  }
}
