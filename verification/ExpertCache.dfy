/** The mutable expert cache of crates/llmpager-core/src/cache.rs: each method is
    proved against the function of the same name in CacheModel. */
module ExpertCaches {
  import opened Util
  import opened CacheModel
  import R = CacheRuns

  class ExpertCache {
    var slots: array<SlotState>
    var parts: seq<Partition>
    const idsPerPartition: nat
    const decayInterval: nat
    var hits: nat
    var misses: nat

    ghost function State(): Cache
      reads this, slots
    {
      Cache(slots[..], parts, idsPerPartition, decayInterval, hits, misses)
    }

    ghost predicate Valid()
      reads this, slots
    {
      Inv(State())
    }

    constructor Partitioned(partitions: nat, idsPerPartition: nat, slotsPer: nat, decay: nat)
      requires 0 < partitions && 0 < slotsPer && 0 < decay
      requires partitions == 1 || 0 < idsPerPartition
      ensures Valid() && fresh(slots)
      ensures State() == Fresh(partitions, idsPerPartition, slotsPer, decay)
      ensures slots.Length == partitions * slotsPer && |parts| == partitions && hits == misses == 0
      ensures forall s :: 0 <= s < slots.Length ==> slots[s] == SlotState(None, 0, 0, false)
      ensures forall p :: 0 <= p < partitions ==> parts[p] == Partition(p * slotsPer, slotsPer, map[], 0)
    {
      this.idsPerPartition := idsPerPartition;
      this.decayInterval := decay;
      slots := new SlotState[partitions * slotsPer](_ => SlotState(None, 0, 0, false));
      parts := seq(partitions, p requires 0 <= p < partitions => Partition(p * slotsPer, slotsPer, map[], 0));
      hits, misses := 0, 0;
      new;
      assert slots[..] == Fresh(partitions, idsPerPartition, slotsPer, decay).slots;
      FreshInv(partitions, idsPerPartition, slotsPer, decay);
    }

    method FindPart(id: ExpertId) returns (p: nat)
      requires Valid()
      ensures p == PartOf(State(), id)
    {
      if |parts| == 1 {
        return 0;
      }
      p := Min(id / idsPerPartition, |parts| - 1);
    }

    method Acquire(id: ExpertId) returns (r: Lookup)
      requires Valid()
      modifies this, slots
      ensures Valid() && slots == old(slots)
      ensures (State(), r) == CacheModel.Acquire(old(State()), id)
    {
      ghost var c := State();
      AcquireKeepsInv(c, id);
      var p := FindPart(id);
      if id in parts[p].resident {
        var s := parts[p].resident[id];
        TouchHit(s);
        return Hit(s);
      }
      var victim := ScanVictim(parts[p].base, parts[p].len);
      hide Inv;
      if victim.None? {
        return Stalled;
      }
      var slot := victim.value;
      var evicted := slots[slot].id;
      Claim(id, p, slot);
      return Miss(slot, evicted);
    }

    /** Pin and count a hit. */
    method TouchHit(s: Slot)
      requires s < slots.Length
      modifies this, slots
      ensures slots == old(slots)
      ensures State() == old(State().(slots := State().slots[s := Touched(State().slots[s])], hits := State().hits + 1))
    {
      slots[s] := Touched(slots[s]);
      hits := hits + 1;
    }

    /** The scan for an eviction victim over one pool. */
    method ScanVictim(base: nat, len: nat) returns (victim: Option<Slot>)
      requires base + len <= slots.Length
      ensures victim == Victim(slots[..], base, base + len)
    {
      victim := None;
      for i := base to base + len
        invariant victim == Victim(slots[..], base, i)
      {
        var s := slots[i];
        if s.pins == 0 {
          if victim.None? || Before(s, slots[victim.value]) {
            victim := Some(i);
          }
        }
      }
    }

    /** Put `id` into `slot`, then age the pool if its insertion count says so. */
    method Claim(id: ExpertId, p: nat, slot: Slot)
      requires Valid() && p == PartOf(State(), id) && slot < slots.Length
      modifies this, slots
      ensures slots == old(slots) && slots.Length == old(slots.Length)
      ensures Shape(Install(old(State()), id, slot))
      ensures State() == Age(Install(old(State()), id, slot), p)
    {
      ghost var c := State();
      var part := parts[p];
      var evicted := slots[slot].id;
      parts := parts[p := part.(resident := Evict(part.resident, evicted)[id := slot], inserts := part.inserts + 1)];
      slots[slot] := SlotState(Some(id), 1, 1, false);
      misses := misses + 1;
      assert State() == Install(c, id, slot);
      if parts[p].inserts >= decayInterval {
        parts := parts[p := parts[p].(inserts := 0)];
        HalveLoop(part.base, part.base + part.len);
      }
    }

    /** The halving loop both aging paths share. */
    method HalveLoop(lo: nat, hi: nat)
      requires lo <= hi <= slots.Length
      modifies slots
      ensures slots[..] == HalveRange(old(slots[..]), lo, hi)
    {
      ghost var was := slots[..];
      for i := lo to hi
        invariant forall j :: 0 <= j < slots.Length ==>
                                slots[j] == if lo <= j < i then Halved(was[j]) else was[j]
      {
        slots[i] := Halved(slots[i]);
      }
    }

    method LookupReady(id: ExpertId) returns (r: Option<Slot>)
      requires Valid()
      modifies this, slots
      ensures Valid() && slots == old(slots)
      ensures (State(), r) == CacheModel.LookupReady(old(State()), id)
      ensures r.Some? ==> R.PinnedOnce(old(State()), r.value, State()) && slots[r.value].id == Some(id)
      ensures r.None? ==> State() == old(State())
    {
      R.LookupFindsPublished(State(), id);
      LookupReadyKeepsInv(State(), id);
      var p := FindPart(id);
      if id !in parts[p].resident {
        return None;
      }
      var s := parts[p].resident[id];
      if !slots[s].ready {
        return None;
      }
      TouchHit(s);
      return Some(s);
    }

    method Publish(slot: Slot)
      requires Valid() && slot < slots.Length
      modifies slots
      ensures Valid() && State() == CacheModel.Publish(old(State()), slot)
      ensures slots[slot] == SlotState(old(slots[slot].id), old(slots[slot].freq), old(slots[slot].pins), true)
      ensures forall s :: 0 <= s < slots.Length && s != slot ==> slots[s] == old(slots[s])
    {
      PublishKeepsInv(State(), slot);
      slots[slot] := slots[slot].(ready := true);
    }

    method Release(slot: Slot)
      requires Valid() && slot < slots.Length && slots[slot].pins > 0
      modifies slots
      ensures Valid() && State() == CacheModel.Release(old(State()), slot)
      ensures slots[slot] == SlotState(old(slots[slot].id), old(slots[slot].freq), old(slots[slot].pins) - 1,
                                       old(slots[slot].ready))
      ensures forall s :: 0 <= s < slots.Length && s != slot ==> slots[s] == old(slots[s])
    {
      ReleaseKeepsInv(State(), slot);
      slots[slot] := slots[slot].(pins := slots[slot].pins - 1);
    }

    method DecayAll()
      requires Valid()
      modifies this, slots
      ensures Valid() && slots == old(slots)
      ensures State() == CacheModel.DecayAll(old(State()))
      ensures forall s :: 0 <= s < slots.Length ==>
                            slots[s] == SlotState(old(slots[s].id), old(slots[s].freq) / 2, old(slots[s].pins),
                                                  old(slots[s].ready))
      ensures |parts| == |old(parts)| && forall p :: 0 <= p < |parts| ==> parts[p] == old(parts)[p].(inserts := 0)
    {
      ghost var c := State();
      DecayAllKeepsInv(c);
      HalveLoop(0, slots.Length);
      for p := 0 to |parts|
        invariant slots == old(slots) && slots[..] == HalveRange(c.slots, 0, |c.slots|)
        invariant hits == c.hits && misses == c.misses
        invariant |parts| == |c.parts|
        invariant forall q :: 0 <= q < |parts| ==>
                                parts[q] == if q < p then c.parts[q].(inserts := 0) else c.parts[q]
      {
        parts := parts[p := parts[p].(inserts := 0)];
      }
      assert parts == CacheModel.DecayAll(c).parts;
    }

    method IsWedged(id: ExpertId) returns (b: bool)
      requires Valid()
      ensures b == Wedged(State(), id)
      ensures b <==> forall s :: InPool(State(), PartOf(State(), id), s) ==> slots[s].pins > 0 && slots[s].ready
    {
      var p := FindPart(id);
      var base, len := parts[p].base, parts[p].len;
      b := true;
      for i := base to base + len
        invariant b == forall s :: base <= s < i ==> slots[s].pins > 0 && slots[s].ready
      {
        b := b && slots[i].pins > 0 && slots[i].ready;
      }
    }
  }
}
