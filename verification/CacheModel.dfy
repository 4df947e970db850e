/** The aged-LFU expert cache (crates/llmpager-core/src/cache.rs).

    `Cache` is the value a cache object holds; the functions below say what each
    operation does to that value. ExpertCache.dfy holds the mutable object whose
    methods are proved against the function of the same name.
  */
module CacheModel {
  import opened Util

  type ExpertId = nat
  type Slot = nat

  const U32_MAX: nat := 0xFFFF_FFFF

  datatype SlotState = SlotState(id: Option<ExpertId>, freq: nat, pins: nat, ready: bool)

  datatype Partition = Partition(base: nat, len: nat, resident: map<ExpertId, Slot>, inserts: nat)

  datatype Lookup = Hit(slot: Slot) | Miss(slot: Slot, evicted: Option<ExpertId>) | Stalled

  datatype Cache = Cache(
    slots: seq<SlotState>,
    parts: seq<Partition>,
    idsPerPartition: nat,
    decayInterval: nat,
    hits: nat,
    misses: nat)

  // ---------------------------------------------------------------- invariant

  ghost predicate Shape(c: Cache) {
    && 0 < |c.parts| && 0 < c.decayInterval
    && (|c.parts| == 1 || 0 < c.idsPerPartition)
    && (forall p :: 0 <= p < |c.parts| ==>
                      0 < c.parts[p].len && c.parts[p].base + c.parts[p].len <= |c.slots|)
    && (forall p, q :: 0 <= p < q < |c.parts| ==>
                         c.parts[p].base + c.parts[p].len <= c.parts[q].base)
  }

  /** Slot `s` belongs to the pool of partition `p`. */
  predicate InPool(c: Cache, p: nat, s: int)
    requires p < |c.parts|
  {
    c.parts[p].base <= s < c.parts[p].base + c.parts[p].len
  }

  function PartOf(c: Cache, id: ExpertId): (p: nat)
    requires Shape(c)
    ensures p < |c.parts|
  {
    if |c.parts| == 1 then 0 else Min(id / c.idsPerPartition, |c.parts| - 1)
  }

  /** Every map entry points at a slot of its own pool that names the id back. */
  ghost predicate MapsAgree(c: Cache)
    requires Shape(c)
  {
    forall p, id :: 0 <= p < |c.parts| && id in c.parts[p].resident ==>
                      var s := c.parts[p].resident[id];
                      PartOf(c, id) == p && InPool(c, p, s) && c.slots[s].id == Some(id)
  }

  /** Every occupied slot is found through the map of its pool. */
  ghost predicate SlotsAgree(c: Cache)
    requires Shape(c)
  {
    forall p, s :: 0 <= p < |c.parts| && InPool(c, p, s) && c.slots[s].id.Some? ==>
                     var id := c.slots[s].id.value;
                     id in c.parts[p].resident && c.parts[p].resident[id] == s
  }

  ghost predicate Counters(c: Cache) {
    && (forall s :: 0 <= s < |c.slots| ==> c.slots[s].freq <= U32_MAX)
    && (forall s :: 0 <= s < |c.slots| && c.slots[s].id.None? ==> c.slots[s].freq == 0 && c.slots[s].pins == 0)
    && (forall p :: 0 <= p < |c.parts| ==> c.parts[p].inserts < c.decayInterval)
  }

  ghost predicate Inv(c: Cache) {
    Shape(c) && MapsAgree(c) && SlotsAgree(c) && Counters(c)
  }

  // ---------------------------------------------------------------- operations

  /** Eviction order: lower frequency first, then empty before occupied. */
  predicate Before(a: SlotState, b: SlotState) {
    a.freq < b.freq || (a.freq == b.freq && a.id.None? && b.id.Some?)
  }

  /** The slot the scan settles on after looking at `lo .. hi`. */
  function Victim(slots: seq<SlotState>, lo: nat, hi: nat): (v: Option<Slot>)
    requires lo <= hi <= |slots|
    ensures v.Some? ==> lo <= v.value < hi
  {
    if lo == hi then None
    else
      var best := Victim(slots, lo, hi - 1);
      if slots[hi - 1].pins > 0 then best
      else if best.None? || Before(slots[hi - 1], slots[best.value]) then Some(hi - 1)
      else best
  }

  function Halved(s: SlotState): SlotState {
    s.(freq := s.freq / 2)
  }

  function HalveRange(slots: seq<SlotState>, lo: nat, hi: nat): (r: seq<SlotState>)
    requires lo <= hi <= |slots|
    ensures |r| == |slots|
    ensures forall i :: 0 <= i < |slots| ==> r[i] == if lo <= i < hi then Halved(slots[i]) else slots[i]
  {
    seq(|slots|, i requires 0 <= i < |slots| => if lo <= i < hi then Halved(slots[i]) else slots[i])
  }

  function Touched(s: SlotState): SlotState {
    s.(freq := Min(s.freq + 1, U32_MAX), pins := s.pins + 1)
  }

  function Evict(m: map<ExpertId, Slot>, evicted: Option<ExpertId>): map<ExpertId, Slot> {
    if evicted.Some? then m - {evicted.value} else m
  }

  /** The state after `id` takes over `slot`, before the aging step. */
  function Install(c: Cache, id: ExpertId, slot: Slot): Cache
    requires Shape(c) && slot < |c.slots|
  {
    var p := PartOf(c, id);
    var part := c.parts[p];
    c.(slots := c.slots[slot := SlotState(Some(id), 1, 1, false)],
       parts := c.parts[p := part.(resident := Evict(part.resident, c.slots[slot].id)[id := slot],
                                   inserts := part.inserts + 1)],
       misses := c.misses + 1)
  }

  /** Halve the pool's counters when it has seen `decayInterval` insertions. */
  function Age(c: Cache, p: nat): Cache
    requires Shape(c) && p < |c.parts|
  {
    var part := c.parts[p];
    if part.inserts >= c.decayInterval then
      c.(slots := HalveRange(c.slots, part.base, part.base + part.len),
         parts := c.parts[p := part.(inserts := 0)])
    else c
  }

  function Acquire(c: Cache, id: ExpertId): (r: (Cache, Lookup))
    requires Shape(c) && MapsAgree(c)
  {
    var p := PartOf(c, id);
    var part := c.parts[p];
    if id in part.resident then
      var s := part.resident[id];
      (c.(slots := c.slots[s := Touched(c.slots[s])], hits := c.hits + 1), Hit(s))
    else
      match Victim(c.slots, part.base, part.base + part.len)
      case None => (c, Stalled)
      case Some(s) => (Age(Install(c, id, s), p), Miss(s, c.slots[s].id))
  }

  function LookupReady(c: Cache, id: ExpertId): (r: (Cache, Option<Slot>))
    requires Shape(c) && MapsAgree(c)
  {
    var p := PartOf(c, id);
    if id !in c.parts[p].resident then (c, None)
    else
      var s := c.parts[p].resident[id];
      if !c.slots[s].ready then (c, None)
      else (c.(slots := c.slots[s := Touched(c.slots[s])], hits := c.hits + 1), Some(s))
  }

  function Publish(c: Cache, slot: Slot): Cache
    requires slot < |c.slots|
  {
    c.(slots := c.slots[slot := c.slots[slot].(ready := true)])
  }

  function Release(c: Cache, slot: Slot): Cache
    requires slot < |c.slots| && c.slots[slot].pins > 0
  {
    c.(slots := c.slots[slot := c.slots[slot].(pins := c.slots[slot].pins - 1)])
  }

  function DecayAll(c: Cache): Cache {
    c.(slots := HalveRange(c.slots, 0, |c.slots|),
       parts := seq(|c.parts|, p requires 0 <= p < |c.parts| => c.parts[p].(inserts := 0)))
  }

  ghost predicate Wedged(c: Cache, id: ExpertId)
    requires Shape(c)
  {
    forall s :: InPool(c, PartOf(c, id), s) ==> c.slots[s].pins > 0 && c.slots[s].ready
  }

  // ------------------------------------------------ what the operations guarantee

  /** The scan returns the first unpinned slot with the least (frequency, occupied)
      key, and nothing exactly when every slot is pinned. */
  lemma {:induction false} VictimIsFirstLeast(slots: seq<SlotState>, lo: nat, hi: nat)
    requires lo <= hi <= |slots|
    ensures var v := Victim(slots, lo, hi);
            && (v.None? <==> forall i :: lo <= i < hi ==> slots[i].pins > 0)
            && (v.Some? ==>
                  && slots[v.value].pins == 0
                  && (forall i :: lo <= i < hi && slots[i].pins == 0 ==> !Before(slots[i], slots[v.value]))
                  && (forall i :: lo <= i < v.value && slots[i].pins == 0 ==> Before(slots[v.value], slots[i]))
                  && (forall i :: lo <= i < hi && slots[i].pins == 0 ==>
                        && slots[v.value].freq <= slots[i].freq
                        && (slots[v.value].freq == slots[i].freq && slots[i].id == None ==>
                              slots[v.value].id == None && v.value <= i)
                        && (slots[v.value].freq == slots[i].freq && i < v.value ==>
                              slots[v.value].id == None && slots[i].id.Some?)))
  {
    if lo < hi {
      VictimIsFirstLeast(slots, lo, hi - 1);
    }
  }

  lemma PoolsDisjoint(c: Cache, p: nat, q: nat, s: Slot)
    requires Shape(c) && p < |c.parts| && q < |c.parts|
    requires InPool(c, p, s) && InPool(c, q, s)
    ensures p == q
  {
  }

  /** `d` has the pools and the residents of `c`; only counters may differ. */
  ghost predicate SameResidents(c: Cache, d: Cache) {
    && d.idsPerPartition == c.idsPerPartition && d.decayInterval == c.decayInterval
    && |d.parts| == |c.parts| && |d.slots| == |c.slots|
    && (forall p :: 0 <= p < |c.parts| ==>
                      d.parts[p] == c.parts[p].(inserts := d.parts[p].inserts))
    && (forall s :: 0 <= s < |c.slots| ==> d.slots[s].id == c.slots[s].id)
  }

  lemma SameResidentsKeepsMaps(c: Cache, d: Cache)
    requires Shape(c) && MapsAgree(c) && SlotsAgree(c) && SameResidents(c, d)
    ensures Shape(d) && MapsAgree(d) && SlotsAgree(d)
  {
    assert forall p, s :: 0 <= p < |c.parts| ==> InPool(d, p, s) == InPool(c, p, s);
    forall p, id | 0 <= p < |d.parts| && id in d.parts[p].resident
      ensures var s := d.parts[p].resident[id];
              PartOf(d, id) == p && InPool(d, p, s) && d.slots[s].id == Some(id)
    {
      assert id in c.parts[p].resident && PartOf(c, id) == p;
    }
    forall p, s | 0 <= p < |d.parts| && InPool(d, p, s) && d.slots[s].id.Some?
      ensures var id := d.slots[s].id.value;
              id in d.parts[p].resident && d.parts[p].resident[id] == s
    {
      assert InPool(c, p, s) && c.slots[s].id.Some?;
    }
  }

  lemma InstallKeepsShape(c: Cache, id: ExpertId, slot: Slot)
    requires Inv(c) && InPool(c, PartOf(c, id), slot)
    ensures var d := Install(c, id, slot);
            && Shape(d) && |d.parts| == |c.parts| && |d.slots| == |c.slots|
            && (forall x :: PartOf(d, x) == PartOf(c, x))
            && (forall p, s :: 0 <= p < |c.parts| ==> InPool(d, p, s) == InPool(c, p, s))
  {
  }

  lemma InstallKeepsMapsAgree(c: Cache, id: ExpertId, slot: Slot)
    requires Inv(c) && InPool(c, PartOf(c, id), slot) && id !in c.parts[PartOf(c, id)].resident
    ensures Shape(Install(c, id, slot)) && MapsAgree(Install(c, id, slot))
  {
    InstallKeepsShape(c, id, slot);
    var d := Install(c, id, slot);
    var pd := PartOf(c, id);
    forall p, x | 0 <= p < |d.parts| && x in d.parts[p].resident
      ensures var s := d.parts[p].resident[x];
              PartOf(d, x) == p && InPool(d, p, s) && d.slots[s].id == Some(x)
    {
      if p != pd || x != id {
        assert x in c.parts[p].resident;
        var s := c.parts[p].resident[x];
        assert PartOf(c, x) == p && InPool(c, p, s) && c.slots[s].id == Some(x);
        assert s != slot;
        assert InPool(d, p, s) && d.slots[s] == c.slots[s];
      }
    }
  }

  lemma InstallKeepsSlotsAgree(c: Cache, id: ExpertId, slot: Slot)
    requires Inv(c) && InPool(c, PartOf(c, id), slot) && id !in c.parts[PartOf(c, id)].resident
    ensures Shape(Install(c, id, slot)) && SlotsAgree(Install(c, id, slot))
  {
    InstallKeepsShape(c, id, slot);
    var d := Install(c, id, slot);
    var pd := PartOf(c, id);
    forall p, s | 0 <= p < |d.parts| && InPool(d, p, s) && d.slots[s].id.Some?
      ensures var x := d.slots[s].id.value;
              x in d.parts[p].resident && d.parts[p].resident[x] == s
    {
      if s == slot {
        PoolsDisjoint(c, p, pd, s);
      } else {
        assert InPool(c, p, s);
        assert c.slots[s].id.value in c.parts[p].resident;
      }
    }
  }

  /** The invariant, except that pool `p` may have reached its aging threshold. */
  ghost predicate InvBeforeAge(c: Cache, p: nat) {
    && Shape(c) && MapsAgree(c) && SlotsAgree(c) && p < |c.parts|
    && (forall s :: 0 <= s < |c.slots| ==> c.slots[s].freq <= U32_MAX)
    && (forall s :: 0 <= s < |c.slots| && c.slots[s].id.None? ==> c.slots[s].freq == 0 && c.slots[s].pins == 0)
    && (forall q :: 0 <= q < |c.parts| && q != p ==> c.parts[q].inserts < c.decayInterval)
  }

  lemma AgeKeepsInv(c: Cache, p: nat)
    requires InvBeforeAge(c, p)
    ensures Inv(Age(c, p))
  {
    SameResidentsKeepsMaps(c, Age(c, p));
  }

  lemma InstallIsReadyToAge(c: Cache, id: ExpertId, slot: Slot)
    requires Inv(c) && InPool(c, PartOf(c, id), slot) && id !in c.parts[PartOf(c, id)].resident
    ensures InvBeforeAge(Install(c, id, slot), PartOf(c, id))
  {
    InstallKeepsMapsAgree(c, id, slot);
    InstallKeepsSlotsAgree(c, id, slot);
    hide MapsAgree;
    hide SlotsAgree;
  }

  lemma MissKeepsInv(c: Cache, id: ExpertId, slot: Slot)
    requires Inv(c) && InPool(c, PartOf(c, id), slot) && id !in c.parts[PartOf(c, id)].resident
    ensures Shape(Install(c, id, slot)) && Inv(Age(Install(c, id, slot), PartOf(c, id)))
  {
    InstallIsReadyToAge(c, id, slot);
    AgeKeepsInv(Install(c, id, slot), PartOf(c, id));
  }

  lemma HitKeepsInv(c: Cache, id: ExpertId)
    requires Inv(c) && id in c.parts[PartOf(c, id)].resident
    ensures var s := c.parts[PartOf(c, id)].resident[id];
            Inv(c.(slots := c.slots[s := Touched(c.slots[s])], hits := c.hits + 1))
  {
    var s := c.parts[PartOf(c, id)].resident[id];
    SlotTouchKeepsInv(c, s, Touched(c.slots[s]), c.hits + 1);
    hide Inv;
  }

  lemma AcquireKeepsInv(c: Cache, id: ExpertId)
    requires Inv(c)
    ensures Inv(Acquire(c, id).0)
  {
    var p := PartOf(c, id);
    var part := c.parts[p];
    if id in part.resident {
      HitKeepsInv(c, id);
      hide Inv;
    } else {
      var v := Victim(c.slots, part.base, part.base + part.len);
      if v.Some? {
        assert InPool(c, p, v.value);
        hide Inv;
        MissKeepsInv(c, id, v.value);
      }
    }
  }

  /** Changing counters of one slot without changing who lives there keeps the invariant. */
  lemma SlotTouchKeepsInv(c: Cache, s: Slot, st: SlotState, hits: nat)
    requires Inv(c) && s < |c.slots| && st.id == c.slots[s].id && st.freq <= U32_MAX
    requires st.id.None? ==> st.freq == 0 && st.pins == 0
    ensures Inv(c.(slots := c.slots[s := st], hits := hits))
  {
    SameResidentsKeepsMaps(c, c.(slots := c.slots[s := st], hits := hits));
  }

  lemma LookupReadyKeepsInv(c: Cache, id: ExpertId)
    requires Inv(c)
    ensures Inv(LookupReady(c, id).0)
  {
    if id in c.parts[PartOf(c, id)].resident {
      HitKeepsInv(c, id);
    }
    hide Inv;
  }

  lemma PublishKeepsInv(c: Cache, slot: Slot)
    requires Inv(c) && slot < |c.slots|
    ensures Inv(Publish(c, slot))
  {
    SlotTouchKeepsInv(c, slot, c.slots[slot].(ready := true), c.hits);
  }

  lemma ReleaseKeepsInv(c: Cache, slot: Slot)
    requires Inv(c) && slot < |c.slots| && c.slots[slot].pins > 0
    ensures Inv(Release(c, slot))
  {
    SlotTouchKeepsInv(c, slot, c.slots[slot].(pins := c.slots[slot].pins - 1), c.hits);
  }

  lemma DecayAllKeepsInv(c: Cache)
    requires Inv(c)
    ensures Inv(DecayAll(c))
  {
    SameResidentsKeepsMaps(c, DecayAll(c));
  }

  // ---------------------------------------------------------------- creation

  function Fresh(partitions: nat, idsPerPartition: nat, slotsPer: nat, decay: nat): Cache {
    Cache(seq(partitions * slotsPer, _ => SlotState(None, 0, 0, false)),
          seq(partitions, p requires 0 <= p < partitions => Partition(p * slotsPer, slotsPer, map[], 0)),
          idsPerPartition, decay, 0, 0)
  }

  /** Pool `p` of `n` slots ends where, or before, a later pool begins. */
  lemma {:induction false} PoolEnd(p: nat, q: nat, n: nat)
    requires p < q
    ensures p * n + n <= q * n
  {
    if q == p + 1 {
      assert q * n == p * n + n;
    } else {
      PoolEnd(p, q - 1, n);
      assert q * n == (q - 1) * n + n;
    }
  }

  lemma FreshInv(partitions: nat, idsPerPartition: nat, slotsPer: nat, decay: nat)
    requires 0 < partitions && 0 < slotsPer && 0 < decay
    requires partitions == 1 || 0 < idsPerPartition
    ensures Inv(Fresh(partitions, idsPerPartition, slotsPer, decay))
  {
    var c := Fresh(partitions, idsPerPartition, slotsPer, decay);
    forall p | 0 <= p < |c.parts|
      ensures c.parts[p].base + c.parts[p].len <= |c.slots|
    {
      PoolEnd(p, partitions, slotsPer);
    }
    forall p, q | 0 <= p < q < |c.parts|
      ensures c.parts[p].base + c.parts[p].len <= c.parts[q].base
    {
      PoolEnd(p, q, slotsPer);
    }
  }
}
