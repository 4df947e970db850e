/** Aging bounds how long a dead expert can stay cached
    (crates/llmpager-core/src/cache.rs:142-178).

    An expert that nobody asks for any more is evicted after at most
    (floor(log2 freq) + 1) * decayInterval + pool size misses in its pool, whatever
    happens in between, when the decay interval is at least the pool size; and only then
    (CacheStarvation.AgingIsExact).
  */
module CacheAging {
  import opened Util
  import opened CacheModel
  import opened CacheRuns

  function Log2(n: nat): (r: nat)
    requires n > 0
  {
    if n == 1 then 0 else 1 + Log2(n / 2)
  }

  /** Zero-frequency slots of a range, not counting `except`. */
  function Zeros(slots: seq<SlotState>, lo: nat, hi: nat, except: nat): (n: nat)
    requires lo <= hi <= |slots|
    ensures n <= hi - lo - (if lo <= except < hi then 1 else 0)
  {
    if lo == hi then 0
    else Zeros(slots, lo, hi - 1, except) + (if hi - 1 != except && slots[hi - 1].freq == 0 then 1 else 0)
  }

  /** Raising one slot's frequency from zero removes it from the count; other changes
      of that slot that keep it non-zero or raise it never add to the count. */
  lemma {:induction false} ZerosAfterUpdate(slots: seq<SlotState>, lo: nat, hi: nat, except: nat, s: nat, st: SlotState)
    requires lo <= hi <= |slots| && s < |slots|
    requires slots[s].freq <= st.freq
    ensures Zeros(slots[s := st], lo, hi, except) ==
            Zeros(slots, lo, hi, except)
            - (if lo <= s < hi && s != except && slots[s].freq == 0 && st.freq > 0 then 1 else 0)
  {
    if lo < hi {
      ZerosAfterUpdate(slots, lo, hi - 1, except, s, st);
    }
  }

  lemma {:induction false} ZeroIsCounted(slots: seq<SlotState>, lo: nat, hi: nat, except: nat, s: nat)
    requires lo <= s < hi <= |slots| && s != except && slots[s].freq == 0
    ensures Zeros(slots, lo, hi, except) > 0
  {
    if s < hi - 1 {
      ZeroIsCounted(slots, lo, hi - 1, except, s);
    }
  }

  ghost function PartZeros(c: Cache, e: ExpertId): nat
    requires Inv(c) && Resident(c, e)
  {
    var part := c.parts[PartOf(c, e)];
    Zeros(c.slots, part.base, part.base + part.len, SlotOf(c, e))
  }

  ghost function FreqOf(c: Cache, e: ExpertId): nat
    requires Inv(c) && Resident(c, e)
  {
    c.slots[SlotOf(c, e)].freq
  }

  /** How many more misses the pool of `e` can see before `e` goes. */
  ghost function Potential(c: Cache, e: ExpertId): int
    requires Inv(c) && Resident(c, e)
  {
    var part := c.parts[PartOf(c, e)];
    if FreqOf(c, e) > 0
    then (Log2(FreqOf(c, e)) + 1) * c.decayInterval - part.inserts + part.len
    else PartZeros(c, e) + 1
  }

  /** `e` is unpinned, and once its counter is zero the remaining candidates run out
      before the next decay. */
  ghost predicate Doomed(c: Cache, e: ExpertId)
    requires Inv(c)
  {
    && Resident(c, e) && c.slots[SlotOf(c, e)].pins == 0
    && c.parts[PartOf(c, e)].len <= c.decayInterval
    && (FreqOf(c, e) == 0 ==> c.parts[PartOf(c, e)].inserts + PartZeros(c, e) + 1 <= c.decayInterval)
  }

  /** Accesses to other experts; decay only by insertion count. */
  predicate Elsewhere(op: Op, e: ExpertId) {
    match op
    case AcquireOp(id) => id != e
    case LookupOp(id) => id != e
    case DecayOp => false
    case _ => true
  }

  predicate IsMissIn(c: Cache, op: Op, p: nat)
    requires Inv(c)
  {
    op.AcquireOp? && PartOf(c, op.id) == p && Acquire(c, op.id).1.Miss?
  }

  /** Misses a run causes in pool `p`. */
  ghost function MissesIn(c: Cache, ops: seq<Op>, p: nat): nat
    requires Inv(c)
    decreases |ops|
  {
    if ops == [] || !Allowed(c, ops[0]) then 0
    else
      DoKeepsInv(c, ops[0]);
      (if IsMissIn(c, ops[0], p) then 1 else 0) + MissesIn(Do(c, ops[0]), ops[1..], p)
  }

  // ------------------------------------------------------------- one operation

  /** `d` differs from `c` in one slot, which got no colder and, if it is that of `e`, no hotter. */
  ghost predicate OneSlotWarmer(c: Cache, d: Cache, e: ExpertId, s: nat)
    requires Inv(c) && Inv(d) && Resident(c, e)
  {
    && Resident(d, e) && SlotOf(d, e) == SlotOf(c, e) && PartOf(d, e) == PartOf(c, e)
    && s < |c.slots|
    && (s == SlotOf(c, e) ==> d.slots[s].freq == c.slots[s].freq && d.slots[s].pins == c.slots[s].pins)
    && |d.slots| == |c.slots| && d.slots == c.slots[s := d.slots[s]] && c.slots[s].freq <= d.slots[s].freq
    && |d.parts| == |c.parts| && d.decayInterval == c.decayInterval
    && d.parts[PartOf(c, e)].base == c.parts[PartOf(c, e)].base
    && d.parts[PartOf(c, e)].len == c.parts[PartOf(c, e)].len
    && d.parts[PartOf(c, e)].inserts == c.parts[PartOf(c, e)].inserts
  }

  lemma WarmerKeepsDoom(c: Cache, d: Cache, e: ExpertId, s: nat)
    requires Inv(c) && Inv(d) && Doomed(c, e) && OneSlotWarmer(c, d, e, s)
    ensures Doomed(d, e) && Potential(d, e) <= Potential(c, e)
  {
    var part := c.parts[PartOf(c, e)];
    assert FreqOf(d, e) == FreqOf(c, e);
    ZerosAfterUpdate(c.slots, part.base, part.base + part.len, SlotOf(c, e), s, d.slots[s]);
    hide Inv;
    hide Resident;
  }

  lemma {:induction false} ZerosFrame(a: seq<SlotState>, b: seq<SlotState>, lo: nat, hi: nat, except: nat)
    requires lo <= hi <= |a| && |a| == |b|
    requires forall i :: lo <= i < hi ==> a[i].freq == b[i].freq
    ensures Zeros(a, lo, hi, except) == Zeros(b, lo, hi, except)
  {
    if lo < hi {
      ZerosFrame(a, b, lo, hi - 1, except);
    }
  }

  lemma OtherPoolUntouched(c: Cache, id: ExpertId, p: nat, i: nat)
    requires Inv(c) && Acquire(c, id).1.Miss? && p < |c.parts| && PartOf(c, id) != p && InPool(c, p, i)
    ensures var d := Acquire(c, id).0;
            i < |c.slots| == |d.slots| && d.slots[i] == c.slots[i] && |d.parts| == |c.parts| && d.parts[p] == c.parts[p]
  {
    MissSlots(c, id);
    assert !InPool(c, PartOf(c, id), i);
  }

  /** `d` has the pool of `e` exactly as `c` has it. */
  ghost predicate SamePool(c: Cache, d: Cache, e: ExpertId)
    requires Inv(c) && Inv(d) && Resident(c, e)
  {
    var p := PartOf(c, e);
    && Resident(d, e) && PartOf(d, e) == p && |d.slots| == |c.slots| && |d.parts| == |c.parts|
    && d.decayInterval == c.decayInterval && d.parts[p] == c.parts[p]
    && (forall i :: InPool(c, p, i) ==> d.slots[i] == c.slots[i])
  }

  lemma SamePoolSameDoom(c: Cache, d: Cache, e: ExpertId)
    requires Inv(c) && Inv(d) && Doomed(c, e) && SamePool(c, d, e)
    ensures Doomed(d, e) && Potential(d, e) == Potential(c, e)
  {
    var part := c.parts[PartOf(c, e)];
    assert SlotOf(d, e) == SlotOf(c, e) && InPool(c, PartOf(c, e), SlotOf(c, e));
    hide Inv;
    hide Resident;
    forall i | part.base <= i < part.base + part.len
      ensures d.slots[i] == c.slots[i]
    {
      assert InPool(c, PartOf(c, e), i);
    }
    ZerosFrame(c.slots, d.slots, part.base, part.base + part.len, SlotOf(c, e));
  }

  /** A miss in another pool leaves the pool of `e` as it was. */
  lemma MissInOtherPool(c: Cache, id: ExpertId, e: ExpertId)
    requires Inv(c) && Doomed(c, e) && Acquire(c, id).1.Miss? && PartOf(c, id) != PartOf(c, e)
    ensures var d := Acquire(c, id).0;
            Inv(d) && Doomed(d, e) && Potential(d, e) == Potential(c, e)
  {
    AcquireKeepsInv(c, id);
    var d := Acquire(c, id).0;
    var p := PartOf(c, e);
    OtherPoolUntouched(c, id, p, c.parts[p].base);
    assert d.decayInterval == c.decayInterval && PartOf(d, e) == p;
    hide Inv;
    hide Acquire;
    forall i | InPool(c, p, i)
      ensures i < |c.slots| && d.slots[i] == c.slots[i]
    {
      OtherPoolUntouched(c, id, p, i);
    }
    SamePoolSameDoom(c, d, e);
  }

  /** The victim of a miss in the pool of a doomed expert is no hotter than it. */
  lemma VictimNoHotter(c: Cache, id: ExpertId, e: ExpertId)
    requires Inv(c) && Doomed(c, e) && Acquire(c, id).1.Miss? && PartOf(c, id) == PartOf(c, e)
    ensures c.slots[Acquire(c, id).1.slot].freq <= FreqOf(c, e)
  {
    var part := c.parts[PartOf(c, id)];
    VictimIsFirstLeast(c.slots, part.base, part.base + part.len);
  }

  /** The slots and the pool of `e` after a miss that did not evict it. */
  lemma MissHereShape(c: Cache, id: ExpertId, e: ExpertId)
    requires Inv(c) && Doomed(c, e) && Acquire(c, id).1.Miss? && PartOf(c, id) == PartOf(c, e)
    requires Acquire(c, id).1.evicted != Some(e) && id != e
    ensures var (d, r) := Acquire(c, id);
            var part := c.parts[PartOf(c, e)];
            && Inv(d) && Resident(d, e) && SlotOf(d, e) == SlotOf(c, e) != r.slot && InPool(c, PartOf(c, e), r.slot)
            && PartOf(d, e) == PartOf(c, e) && d.decayInterval == c.decayInterval
            && (if part.inserts + 1 < c.decayInterval
                then d.slots == c.slots[r.slot := SlotState(Some(id), 1, 1, false)]
                else var claimed := c.slots[r.slot := SlotState(Some(id), 1, 1, false)];
                     d.slots == HalveRange(claimed, part.base, part.base + part.len))
            && d.parts[PartOf(c, e)].base == part.base && d.parts[PartOf(c, e)].len == part.len
            && d.parts[PartOf(c, e)].inserts == (if part.inserts + 1 < c.decayInterval then part.inserts + 1 else 0)
  {
    MissResidents(c, id, e);
    MissSlots(c, id);
  }

  lemma MissHereQuiet(c: Cache, id: ExpertId, e: ExpertId)
    requires Inv(c) && Doomed(c, e) && Acquire(c, id).1.Miss? && PartOf(c, id) == PartOf(c, e)
    requires Acquire(c, id).1.evicted != Some(e) && id != e
    requires c.parts[PartOf(c, e)].inserts + 1 < c.decayInterval
    ensures var d := Acquire(c, id).0;
            Inv(d) && Doomed(d, e) && Potential(d, e) <= Potential(c, e) - 1
  {
    MissHereShape(c, id, e);
    VictimNoHotter(c, id, e);
    var (d, r) := Acquire(c, id);
    hide Inv;
    hide Acquire;
    NewcomerDescends(c, d, e, r.slot, SlotState(Some(id), 1, 1, false));
  }

  /** A newcomer, put where something no hotter than `e` was, brings `e` nearer its end. */
  lemma NewcomerDescends(c: Cache, d: Cache, e: ExpertId, s: nat, st: SlotState)
    requires Inv(c) && Inv(d) && Doomed(c, e) && Resident(d, e)
    requires SlotOf(d, e) == SlotOf(c, e) != s && InPool(c, PartOf(c, e), s) && PartOf(d, e) == PartOf(c, e)
    requires d.slots == c.slots[s := st] && st.freq == 1 && c.slots[s].freq <= FreqOf(c, e)
    requires d.decayInterval == c.decayInterval
    requires var p, q := c.parts[PartOf(c, e)], d.parts[PartOf(c, e)];
             q.base == p.base && q.len == p.len && q.inserts == p.inserts + 1
    ensures Doomed(d, e) && Potential(d, e) <= Potential(c, e) - 1
  {
    var part := c.parts[PartOf(c, e)];
    assert FreqOf(d, e) == FreqOf(c, e) && d.slots[SlotOf(d, e)].pins == 0;
    hide Inv;
    hide Resident;
    if FreqOf(c, e) == 0 {
      ZerosAfterUpdate(c.slots, part.base, part.base + part.len, SlotOf(c, e), s, st);
    }
  }

  lemma MissHereAging(c: Cache, id: ExpertId, e: ExpertId)
    requires Inv(c) && Doomed(c, e) && Acquire(c, id).1.Miss? && PartOf(c, id) == PartOf(c, e)
    requires Acquire(c, id).1.evicted != Some(e) && id != e
    requires c.parts[PartOf(c, e)].inserts + 1 >= c.decayInterval
    ensures var d := Acquire(c, id).0;
            Inv(d) && Doomed(d, e) && Potential(d, e) <= Potential(c, e) - 1
  {
    MissHereShape(c, id, e);
    VictimNoHotter(c, id, e);
    var (d, r) := Acquire(c, id);
    var part := c.parts[PartOf(c, e)];
    assert part.inserts + 1 == c.decayInterval;
    var f := FreqOf(c, e);
    assert FreqOf(d, e) == f / 2;
    if f == 0 {
      ZeroIsCounted(c.slots, part.base, part.base + part.len, SlotOf(c, e), r.slot);
      assert false;
    } else {
      hide Inv;
      hide Acquire;
      if f > 1 {
        assert (Log2(f) + 1) * c.decayInterval == Log2(f) * c.decayInterval + c.decayInterval;
      }
    }
  }

  // ------------------------------------------------------------------ runs

  lemma AcquireKeepsDoom(c: Cache, id: ExpertId, e: ExpertId)
    requires Inv(c) && Doomed(c, e) && id != e
    requires Inv(Acquire(c, id).0) && Resident(Acquire(c, id).0, e)
    ensures var d := Acquire(c, id).0;
            Doomed(d, e)
            && Potential(d, e) + (if IsMissIn(c, AcquireOp(id), PartOf(c, e)) then 1 else 0) <= Potential(c, e)
    ensures PartOf(Acquire(c, id).0, e) == PartOf(c, e)
  {
    var (d, r) := Acquire(c, id);
    match r {
      case Hit(s) =>
        HitResidents(c, id, e);
        SlotsDiffer(c, id, e);
        assert OneSlotWarmer(c, d, e, s);
        hide Inv;
        hide Acquire;
        WarmerKeepsDoom(c, d, e, s);
      case Miss(s, _) =>
        MissResidents(c, id, e);
        hide Inv;
        hide Acquire;
        if PartOf(c, id) != PartOf(c, e) {
          MissInOtherPool(c, id, e);
        } else if c.parts[PartOf(c, e)].inserts + 1 < c.decayInterval {
          MissHereQuiet(c, id, e);
        } else {
          MissHereAging(c, id, e);
        }
      case Stalled =>
        StalledIff(c, id);
    }
  }

  lemma StepKeepsDoom(c: Cache, op: Op, e: ExpertId)
    requires Inv(c) && Doomed(c, e) && Allowed(c, op) && Elsewhere(op, e)
    requires Inv(Do(c, op)) && Resident(Do(c, op), e)
    ensures Doomed(Do(c, op), e) && PartOf(Do(c, op), e) == PartOf(c, e)
    ensures Potential(Do(c, op), e) + (if IsMissIn(c, op, PartOf(c, e)) then 1 else 0) <= Potential(c, e)
  {
    match op {
      case AcquireOp(id) =>
        AcquireKeepsDoom(c, id, e);
        hide Inv;
        hide Acquire;
      case LookupOp(id) =>
        if LookupReady(c, id).1.Some? {
          SlotsDiffer(c, id, e);
          assert OneSlotWarmer(c, Do(c, op), e, SlotOf(c, id));
          hide Inv;
          WarmerKeepsDoom(c, Do(c, op), e, SlotOf(c, id));
        }
      case PublishOp(s) =>
        assert OneSlotWarmer(c, Do(c, op), e, s);
        hide Inv;
        WarmerKeepsDoom(c, Do(c, op), e, s);
      case ReleaseOp(s) =>
        assert OneSlotWarmer(c, Do(c, op), e, s);
        hide Inv;
        WarmerKeepsDoom(c, Do(c, op), e, s);
    }
  }

  lemma AbsentStaysAbsentStep(c: Cache, op: Op, e: ExpertId)
    requires Inv(c) && Allowed(c, op) && Elsewhere(op, e) && !Resident(c, e)
    ensures Inv(Do(c, op)) && !Resident(Do(c, op), e)
  {
    DoKeepsInv(c, op);
    match op {
      case AcquireOp(id) =>
        var r := Acquire(c, id).1;
        if r.Miss? {
          MissResidents(c, id, e);
        } else if r.Hit? {
          HitResidents(c, id, e);
        }
        hide Inv;
        hide Acquire;
      case _ =>
    }
  }

  lemma {:induction false} AbsentStaysAbsent(c: Cache, ops: seq<Op>, e: ExpertId)
    requires Inv(c) && !Resident(c, e) && Exec(c, ops).Some?
    requires forall op :: op in ops ==> Elsewhere(op, e)
    ensures Inv(Exec(c, ops).value) && !Resident(Exec(c, ops).value, e)
    decreases |ops|
  {
    if ops != [] {
      hide Inv;
      hide Do;
      hide Allowed;
      hide Resident;
      assert ops[0] in ops;
      AbsentStaysAbsentStep(c, ops[0], e);
      AbsentStaysAbsent(Do(c, ops[0]), ops[1..], e);
    }
  }

  lemma {:induction false} PotentialCoversMisses(c: Cache, ops: seq<Op>, e: ExpertId)
    requires Inv(c) && Doomed(c, e) && Exec(c, ops).Some?
    requires forall op :: op in ops ==> Elsewhere(op, e)
    requires Inv(Exec(c, ops).value) && Resident(Exec(c, ops).value, e)
    ensures MissesIn(c, ops, PartOf(c, e)) < Potential(c, e)
    decreases |ops|
  {
    if ops == [] {
      PotentialPositive(c, e);
      hide Potential;
    } else {
      hide Inv;
      hide Do;
      hide Allowed;
      hide Resident;
      hide Doomed;
      hide Potential;
      assert ops[0] in ops;
      var d := Do(c, ops[0]);
      DoKeepsInv(c, ops[0]);
      if !Resident(d, e) {
        AbsentStaysAbsent(d, ops[1..], e);
        assert false;
      } else {
        StepKeepsDoom(c, ops[0], e);
        PotentialCoversMisses(d, ops[1..], e);
      }
    }
  }

  lemma PotentialPositive(c: Cache, e: ExpertId)
    requires Inv(c) && Doomed(c, e)
    ensures Potential(c, e) > 0
  {
    var f := FreqOf(c, e);
    if f > 0 {
      assert (Log2(f) + 1) * c.decayInterval >= c.decayInterval;
    }
  }

  /** The bound of the design: an unpinned expert with counter F that nobody acquires
      again has left the cache once its pool has seen (floor(log2 F) + 1) * D + len misses. */
  lemma DeadExpertsLeave(c: Cache, ops: seq<Op>, e: ExpertId)
    requires Inv(c) && Resident(c, e) && c.slots[SlotOf(c, e)].pins == 0 && FreqOf(c, e) >= 1
    requires c.decayInterval >= c.parts[PartOf(c, e)].len
    requires Exec(c, ops).Some? && forall op :: op in ops ==> Elsewhere(op, e)
    requires MissesIn(c, ops, PartOf(c, e))
             >= (Log2(FreqOf(c, e)) + 1) * c.decayInterval + c.parts[PartOf(c, e)].len
    ensures Inv(Exec(c, ops).value) && !Resident(Exec(c, ops).value, e)
  {
    assert Doomed(c, e);
    assert Potential(c, e) <= (Log2(FreqOf(c, e)) + 1) * c.decayInterval + c.parts[PartOf(c, e)].len;
    ExecKeepsInv(c, ops);
    hide Inv;
    if Resident(Exec(c, ops).value, e) {
      PotentialCoversMisses(c, ops, e);
    }
  }

  lemma {:induction false} ExecKeepsInv(c: Cache, ops: seq<Op>)
    requires Inv(c) && Exec(c, ops).Some?
    ensures Inv(Exec(c, ops).value)
    decreases |ops|
  {
    if ops != [] {
      hide Inv;
      hide Do;
      hide Allowed;
      DoKeepsInv(c, ops[0]);
      ExecKeepsInv(Do(c, ops[0]), ops[1..]);
    }
  }
}
