/** Runs of the expert cache: the pinned map it refines, the pin ledger, and who
    can be evicted while pinned (crates/llmpager-core/src/cache.rs:132-211). */
module CacheRuns {
  import opened Util
  import opened CacheModel
  import X = Indexing

  // ------------------------------------------------------ the abstract pinned map

  datatype Entry = Entry(slot: Slot, pins: nat, ready: bool)

  /** What a client can know of the cache: who is resident where, pinned how often. */
  type PinnedMap = map<ExpertId, Entry>

  predicate Resident(c: Cache, id: ExpertId)
    requires Shape(c)
  {
    id in c.parts[PartOf(c, id)].resident
  }

  function SlotOf(c: Cache, id: ExpertId): (s: Slot)
    requires Shape(c) && MapsAgree(c) && Resident(c, id)
    ensures s < |c.slots| && InPool(c, PartOf(c, id), s) && c.slots[s].id == Some(id)
  {
    c.parts[PartOf(c, id)].resident[id]
  }

  function Residents(c: Cache): set<ExpertId> {
    set p, id | 0 <= p < |c.parts| && id in c.parts[p].resident :: id
  }

  lemma ResidentsAreResident(c: Cache, id: ExpertId)
    requires Inv(c)
    ensures id in Residents(c) <==> Resident(c, id)
  {
    if Resident(c, id) {
      assert 0 <= PartOf(c, id) < |c.parts| && id in c.parts[PartOf(c, id)].resident;
    }
  }

  ghost function Abstract(c: Cache): PinnedMap
    requires Inv(c)
  {
    map id | id in Residents(c) && Resident(c, id) ::
      Entry(SlotOf(c, id), c.slots[SlotOf(c, id)].pins, c.slots[SlotOf(c, id)].ready)
  }

  /** The pool an id may live in, as a range of slots. */
  function Pool(c: Cache, id: ExpertId): (r: (nat, nat))
    requires Shape(c)
  {
    var part := c.parts[PartOf(c, id)];
    (part.base, part.base + part.len)
  }

  /** The cache as its clients see it: a hit adds a pin, a miss takes an unpinned
      slot of the pool away from whoever had it, a stall means the pool is pinned out. */
  ghost predicate AbstractAcquire(a: PinnedMap, id: ExpertId, pool: (nat, nat), r: Lookup, b: PinnedMap) {
    match r
    case Hit(s) =>
      id in a && a[id].slot == s && b == a[id := Entry(s, a[id].pins + 1, a[id].ready)]
    case Miss(s, None) =>
      && id !in a && pool.0 <= s < pool.1
      && (forall x :: x in a ==> a[x].slot != s)
      && b == a[id := Entry(s, 1, false)]
    case Miss(s, Some(gone)) =>
      && id !in a && pool.0 <= s < pool.1
      && gone in a && a[gone].slot == s && a[gone].pins == 0
      && b == (a - {gone})[id := Entry(s, 1, false)]
    case Stalled =>
      && id !in a && b == a
      && (forall s :: pool.0 <= s < pool.1 ==> PinnedAt(a, s))
  }

  ghost predicate PinnedAt(a: PinnedMap, s: int) {
    exists x :: x in a && a[x].slot == s && a[x].pins > 0
  }

  ghost predicate Injective(a: PinnedMap) {
    forall x, y :: x in a && y in a && a[x].slot == a[y].slot ==> x == y
  }

  /** No two experts share a slot, whatever their pools. */
  lemma ResidencyIsInjective(c: Cache)
    requires Inv(c)
    ensures Injective(Abstract(c))
  {
    forall x, y | x in Abstract(c) && y in Abstract(c) && Abstract(c)[x].slot == Abstract(c)[y].slot
      ensures x == y
    {
      assert c.slots[SlotOf(c, x)].id == Some(x) && c.slots[SlotOf(c, y)].id == Some(y);
    }
  }

  /** What a miss does to the slots. */
  lemma MissSlots(c: Cache, id: ExpertId)
    requires Inv(c) && Acquire(c, id).1.Miss?
    ensures var (d, r) := Acquire(c, id);
            && !Resident(c, id) && InPool(c, PartOf(c, id), r.slot) && c.slots[r.slot].pins == 0
            && r.evicted == c.slots[r.slot].id && |d.slots| == |c.slots|
            && (forall s :: 0 <= s < |c.slots| ==>
                  && d.slots[s].pins == (if s == r.slot then 1 else c.slots[s].pins)
                  && d.slots[s].ready == (s != r.slot && c.slots[s].ready)
                  && d.slots[s].id == (if s == r.slot then Some(id) else c.slots[s].id))
  {
    var part := c.parts[PartOf(c, id)];
    VictimIsFirstLeast(c.slots, part.base, part.base + part.len);
    hide Inv;
  }

  /** Where any expert stands after a miss. */
  lemma MissResidents(c: Cache, id: ExpertId, x: ExpertId)
    requires Inv(c) && Acquire(c, id).1.Miss?
    ensures var (d, r) := Acquire(c, id);
            && Inv(d)
            && (Resident(d, x) <==> x == id || (Resident(c, x) && Some(x) != r.evicted))
            && (x == id ==> SlotOf(d, x) == r.slot)
            && (x != id && Resident(d, x) ==> SlotOf(d, x) == SlotOf(c, x) != r.slot)
            && (Some(x) == r.evicted ==> Resident(c, x) && SlotOf(c, x) == r.slot)
  {
    AcquireKeepsInv(c, id);
    MissSlots(c, id);
    var (d, r) := Acquire(c, id);
    assert PartOf(d, x) == PartOf(c, x);
    if Some(x) == r.evicted {
      var part := c.parts[PartOf(c, id)];
      assert x in part.resident && part.resident[x] == r.slot;
      assert PartOf(c, x) == PartOf(c, id);
    } else if x != id && Resident(c, x) {
      assert c.slots[SlotOf(c, x)].id == Some(x);
    }
  }

  lemma HitResidents(c: Cache, id: ExpertId, x: ExpertId)
    requires Inv(c) && Acquire(c, id).1.Hit?
    ensures var (d, r) := Acquire(c, id);
            && Inv(d) && Resident(c, id) && SlotOf(c, id) == r.slot
            && (Resident(d, x) <==> Resident(c, x))
            && (Resident(c, x) ==> SlotOf(d, x) == SlotOf(c, x))
            && (Resident(c, x) ==>
                  && d.slots[SlotOf(c, x)].pins == c.slots[SlotOf(c, x)].pins + (if x == id then 1 else 0)
                  && d.slots[SlotOf(c, x)].ready == c.slots[SlotOf(c, x)].ready)
  {
    AcquireKeepsInv(c, id);
    if x != id && Resident(c, x) {
      SlotsDiffer(c, x, id);
    }
  }

  /** Stalling means exactly: not resident, and every slot of the pool pinned. */
  lemma StalledIff(c: Cache, id: ExpertId)
    requires Inv(c)
    ensures Acquire(c, id).1.Stalled? <==>
            !Resident(c, id) && forall s :: InPool(c, PartOf(c, id), s) ==> c.slots[s].pins > 0
    ensures Acquire(c, id).1.Stalled? ==> Acquire(c, id).0 == c
  {
    var part := c.parts[PartOf(c, id)];
    VictimIsFirstLeast(c.slots, part.base, part.base + part.len);
  }

  lemma AbstractAt(c: Cache, x: ExpertId)
    requires Inv(c)
    ensures x in Abstract(c) <==> Resident(c, x)
    ensures x in Abstract(c) ==>
              Abstract(c)[x] == Entry(SlotOf(c, x), c.slots[SlotOf(c, x)].pins, c.slots[SlotOf(c, x)].ready)
  {
    ResidentsAreResident(c, x);
  }

  lemma MissAt(c: Cache, id: ExpertId, x: ExpertId)
    requires Inv(c) && Acquire(c, id).1.Miss?
    ensures Inv(Acquire(c, id).0)
    ensures var r := Acquire(c, id).1;
            var a, b := Abstract(c), Abstract(Acquire(c, id).0);
            && (x in b <==> x == id || (x in a && Some(x) != r.evicted))
            && (x in b ==> b[x] == if x == id then Entry(r.slot, 1, false) else a[x])
            && (x in a ==> x != id && (a[x].slot == r.slot <==> Some(x) == r.evicted))
            && (x in a && Some(x) == r.evicted ==> a[x].pins == 0)
            && (Some(x) == r.evicted ==> x in a)
  {
    MissSlots(c, id);
    MissResidents(c, id, x);
    AbstractAt(c, x);
    AbstractAt(Acquire(c, id).0, x);
    hide Abstract;
    hide Acquire;
    hide Inv;
  }

  /** Pointwise description of a miss, put together. */
  lemma MissShape(a: PinnedMap, b: PinnedMap, id: ExpertId, pool: (nat, nat), s: Slot, evicted: Option<ExpertId>)
    requires pool.0 <= s < pool.1
    requires forall x :: x in b <==> x == id || (x in a && Some(x) != evicted)
    requires forall x :: x in b ==> b[x] == if x == id then Entry(s, 1, false) else a[x]
    requires forall x :: x in a ==> x != id && (a[x].slot == s <==> Some(x) == evicted)
    requires evicted.Some? ==> evicted.value in a && a[evicted.value].pins == 0
    ensures AbstractAcquire(a, id, pool, Miss(s, evicted), b)
  {
    match evicted {
      case None =>
        assert b == a[id := Entry(s, 1, false)];
      case Some(gone) =>
        assert b == (a - {gone})[id := Entry(s, 1, false)];
    }
  }

  lemma MissRefines(c: Cache, id: ExpertId)
    requires Inv(c) && Acquire(c, id).1.Miss?
    ensures Inv(Acquire(c, id).0)
    ensures AbstractAcquire(Abstract(c), id, Pool(c, id), Acquire(c, id).1, Abstract(Acquire(c, id).0))
  {
    MissSlots(c, id);
    AcquireKeepsInv(c, id);
    var (d, r) := Acquire(c, id);
    var a, b := Abstract(c), Abstract(d);
    var pool := Pool(c, id);
    assert pool.0 <= r.slot < pool.1;
    hide *;
    forall x
      ensures x in b <==> x == id || (x in a && Some(x) != r.evicted)
      ensures x in b ==> b[x] == if x == id then Entry(r.slot, 1, false) else a[x]
      ensures x in a ==> x != id && (a[x].slot == r.slot <==> Some(x) == r.evicted)
      ensures Some(x) == r.evicted ==> x in a && a[x].pins == 0
    {
      MissAt(c, id, x);
    }
    MissShape(a, b, id, pool, r.slot, r.evicted);
  }

  /** `s` is the first unpinned slot of the pool with the least (frequency, occupied) key. */
  ghost predicate IsFirstLeast(c: Cache, pool: (nat, nat), s: Slot) {
    && pool.0 <= s < pool.1 <= |c.slots| && c.slots[s].pins == 0
    && forall i :: pool.0 <= i < pool.1 && c.slots[i].pins == 0 ==>
                     && c.slots[s].freq <= c.slots[i].freq
                     && (c.slots[s].freq == c.slots[i].freq && c.slots[i].id == None ==>
                           c.slots[s].id == None && s <= i)
                     && (c.slots[s].freq == c.slots[i].freq && i < s ==> c.slots[s].id == None && c.slots[i].id.Some?)
  }

  /** Frequencies and statistics after an acquire: a hit counts up to the width of the
      counter; a miss starts at one, and every `decayInterval` insertions halve the pool. */
  ghost predicate Counted(c: Cache, id: ExpertId, r: Lookup, d: Cache)
    requires Shape(c)
  {
    && |d.slots| == |c.slots| && |d.parts| == |c.parts|
    && match r
       case Stalled => d == c
       case Hit(s) =>
         && d.hits == c.hits + 1 && d.misses == c.misses && d.parts == c.parts
         && forall i :: 0 <= i < |c.slots| ==>
              d.slots[i].freq ==
              if i == s && c.slots[i].freq < 0xFFFF_FFFF then c.slots[i].freq + 1 else c.slots[i].freq
       case Miss(s, _) =>
         var p := PartOf(c, id);
         var aged := c.parts[p].inserts + 1 == c.decayInterval;
         && d.hits == c.hits && d.misses == c.misses + 1
         && (forall q :: 0 <= q < |c.parts| ==>
               d.parts[q].inserts == if q != p then c.parts[q].inserts else if aged then 0 else c.parts[q].inserts + 1)
         && (forall i :: 0 <= i < |c.slots| ==>
               var f := if i == s then 1 else c.slots[i].freq;
               d.slots[i].freq == if aged && InPool(c, p, i) then f / 2 else f)
  }

  lemma AcquireCounts(c: Cache, id: ExpertId)
    requires Inv(c)
    ensures Counted(c, id, Acquire(c, id).1, Acquire(c, id).0)
    ensures Acquire(c, id).1.Miss? ==> IsFirstLeast(c, Pool(c, id), Acquire(c, id).1.slot)
  {
    if Resident(c, id) {
      HitCounts(c, id);
    } else {
      MissCounts(c, id);
    }
    hide *;
  }

  lemma HitCounts(c: Cache, id: ExpertId)
    requires Inv(c) && Resident(c, id)
    ensures Acquire(c, id).1.Hit? && Counted(c, id, Acquire(c, id).1, Acquire(c, id).0)
  {
    assert InPool(c, PartOf(c, id), SlotOf(c, id));
    hide MapsAgree;
    hide SlotsAgree;
  }

  lemma MissCounts(c: Cache, id: ExpertId)
    requires Inv(c) && !Resident(c, id)
    ensures Counted(c, id, Acquire(c, id).1, Acquire(c, id).0)
    ensures Acquire(c, id).1.Miss? ==> IsFirstLeast(c, Pool(c, id), Acquire(c, id).1.slot)
  {
    hide MapsAgree;
    hide SlotsAgree;
    hide Victim;
    var part := c.parts[PartOf(c, id)];
    VictimIsFirstLeast(c.slots, part.base, part.base + part.len);
  }

  /** Every outcome of `Acquire` is one the abstract pinned map allows, its victim is the
      first least one, and the counters are kept as designed. */
  lemma AcquireRefines(c: Cache, id: ExpertId)
    requires Inv(c)
    ensures Inv(Acquire(c, id).0)
    ensures AbstractAcquire(Abstract(c), id, Pool(c, id), Acquire(c, id).1, Abstract(Acquire(c, id).0))
    ensures Acquire(c, id).1.Miss? ==> IsFirstLeast(c, Pool(c, id), Acquire(c, id).1.slot)
    ensures Counted(c, id, Acquire(c, id).1, Acquire(c, id).0)
  {
    AcquireCounts(c, id);
    hide Counted;
    hide IsFirstLeast;
    AcquireKeepsInv(c, id);
    var (d, r) := Acquire(c, id);
    match r {
      case Hit(_) =>
        HitRefines(c, id);
      case Miss(_, _) =>
        MissRefines(c, id);
      case Stalled =>
        StallRefines(c, id);
    }
  }

  lemma SlotsDiffer(c: Cache, x: ExpertId, y: ExpertId)
    requires Inv(c) && Resident(c, x) && Resident(c, y) && x != y
    ensures SlotOf(c, x) != SlotOf(c, y)
  {
    assert c.slots[SlotOf(c, x)].id == Some(x);
  }

  lemma HitAt(c: Cache, id: ExpertId, x: ExpertId)
    requires Inv(c) && Acquire(c, id).1.Hit?
    ensures Inv(Acquire(c, id).0)
    ensures var r := Acquire(c, id).1;
            var a, b := Abstract(c), Abstract(Acquire(c, id).0);
            && id in a && a[id].slot == r.slot
            && (x in b <==> x in a)
            && (x in b ==> b[x] == if x == id then Entry(r.slot, a[id].pins + 1, a[id].ready) else a[x])
  {
    hide Abstract;
    hide Acquire;
    hide Resident;
    hide SlotOf;
    hide PartOf;
    hide Shape;
    hide MapsAgree;
    HitResidents(c, id, x);
    HitResidents(c, id, id);
    AbstractAt(c, x);
    AbstractAt(c, id);
    AbstractAt(Acquire(c, id).0, x);
    hide Inv;
  }

  lemma HitShape(a: PinnedMap, b: PinnedMap, id: ExpertId, pool: (nat, nat), s: Slot)
    requires id in a && a[id].slot == s
    requires forall x :: x in b <==> x in a
    requires forall x :: x in b ==> b[x] == if x == id then Entry(s, a[id].pins + 1, a[id].ready) else a[x]
    ensures AbstractAcquire(a, id, pool, Hit(s), b)
  {
    assert b == a[id := Entry(s, a[id].pins + 1, a[id].ready)];
  }

  lemma HitRefines(c: Cache, id: ExpertId)
    requires Inv(c) && Acquire(c, id).1.Hit?
    ensures Inv(Acquire(c, id).0)
    ensures AbstractAcquire(Abstract(c), id, Pool(c, id), Acquire(c, id).1, Abstract(Acquire(c, id).0))
  {
    HitAt(c, id, id);
    var (d, r) := Acquire(c, id);
    var a, b := Abstract(c), Abstract(d);
    var pool := Pool(c, id);
    hide *;
    forall x
      ensures x in b <==> x in a
      ensures x in b ==> b[x] == if x == id then Entry(r.slot, a[id].pins + 1, a[id].ready) else a[x]
    {
      HitAt(c, id, x);
    }
    HitShape(a, b, id, pool, r.slot);
  }

  lemma StallRefines(c: Cache, id: ExpertId)
    requires Inv(c) && Acquire(c, id).1.Stalled?
    ensures AbstractAcquire(Abstract(c), id, Pool(c, id), Stalled, Abstract(c))
  {
    StalledIff(c, id);
    ResidentsAreResident(c, id);
    var a := Abstract(c);
    var p := PartOf(c, id);
    forall s | Pool(c, id).0 <= s < Pool(c, id).1
      ensures PinnedAt(a, s)
    {
      assert InPool(c, p, s);
      assert c.slots[s].pins > 0 && c.slots[s].id.Some?;
      var x := c.slots[s].id.value;
      assert x in c.parts[p].resident && c.parts[p].resident[x] == s;
      ResidentsAreResident(c, x);
      assert x in a && a[x].slot == s && a[x].pins > 0;
    }
  }

  /** With one pool per layer, the experts of a layer live in its own pool, and ids past the
      last layer in the last pool; a single pool takes them all. */
  lemma LayersHaveTheirPools(c: Cache, layer: nat, expert: nat)
    requires Shape(c)
    requires |c.parts| > 1 ==> expert < c.idsPerPartition
    ensures var p := PartOf(c, layer * c.idsPerPartition + expert);
            if |c.parts| == 1 then p == 0 else if layer < |c.parts| then p == layer else p == |c.parts| - 1
  {
    if |c.parts| > 1 {
      var n := c.idsPerPartition;
      X.DivMod(layer * n + expert, n, layer, expert);
    }
  }

  // ------------------------------------------------ who lives where, and what is free

  /** Expert `id` lives in slot `x` of its pool. */
  ghost predicate Lives(c: Cache, id: ExpertId, x: Slot)
    requires Shape(c)
  {
    InPool(c, PartOf(c, id), x) && c.slots[x].id == Some(id)
  }

  /** Slot `x` of the pool of `id` may be taken. */
  ghost predicate Takeable(c: Cache, id: ExpertId, x: Slot)
    requires Shape(c)
  {
    InPool(c, PartOf(c, id), x) && c.slots[x].pins == 0
  }

  /** Who lives where, pinned how often and published is the same. */
  ghost predicate SameButFreq(c: Cache, d: Cache) {
    && |d.slots| == |c.slots| && d.parts == c.parts
    && forall x :: 0 <= x < |c.slots| ==> d.slots[x] == c.slots[x].(freq := d.slots[x].freq)
  }

  lemma AcquireSlots(c: Cache, id: ExpertId)
    requires Inv(c)
    ensures var (d, l) := Acquire(c, id);
            match l
            case Hit(x) =>
              && x < |d.slots| && d.slots[x].pins > 0 && d.slots[x].id == Some(id)
              && SameButFreq(c, Release(d, x))
            case Miss(x, _) => x < |c.slots| == |d.slots| && d.slots[x].id == Some(id) && d.slots[x].pins == 1
            case Stalled => true
  {
    if Acquire(c, id).1.Miss? {
      MissSlots(c, id);
      hide Inv;
      hide Acquire;
    } else {
      AcquireCases(c, id);
    }
  }

  lemma AcquireCases(c: Cache, id: ExpertId)
    requires Inv(c)
    ensures match Acquire(c, id).1
            case Hit(x) => Lives(c, id, x)
            case Miss(x, _) => (forall y :: !Lives(c, id, y)) && Takeable(c, id, x)
            case Stalled => forall y :: !Lives(c, id, y) && !Takeable(c, id, y)
  {
    var p := PartOf(c, id);
    StalledIff(c, id);
    if id in c.parts[p].resident {
      assert InPool(c, p, c.parts[p].resident[id]);
    } else if Acquire(c, id).1.Miss? {
      MissSlots(c, id);
    }
  }

  lemma LivesOnce(c: Cache, id: ExpertId, x: Slot, y: Slot)
    requires Inv(c) && Lives(c, id, x) && Lives(c, id, y)
    ensures x == y
  {
    assert InPool(c, PartOf(c, id), x) && InPool(c, PartOf(c, id), y);
  }

  // --------------------------------------------------------- the other operations

  /** Slot `s` after one more pin for its occupant. */
  ghost predicate PinnedOnce(c: Cache, s: Slot, d: Cache) {
    && s < |c.slots| == |d.slots| && d == c.(slots := d.slots, hits := c.hits + 1)
    && d.slots[s].id == c.slots[s].id && d.slots[s].ready == c.slots[s].ready
    && d.slots[s].pins == c.slots[s].pins + 1
    && d.slots[s].freq == (if c.slots[s].freq < 0xFFFF_FFFF then c.slots[s].freq + 1 else c.slots[s].freq)
    && forall i :: 0 <= i < |c.slots| && i != s ==> d.slots[i] == c.slots[i]
  }

  /** A lookup finds exactly the experts that are in a slot of their pool and published, and
      pins that slot; any other lookup changes nothing. */
  lemma LookupFindsPublished(c: Cache, id: ExpertId)
    requires Inv(c)
    ensures var (d, r) := LookupReady(c, id);
            && (forall s :: InPool(c, PartOf(c, id), s) && c.slots[s].id == Some(id) && c.slots[s].ready ==>
                  r == Some(s))
            && match r
               case Some(s) =>
                 && InPool(c, PartOf(c, id), s) && c.slots[s].id == Some(id) && c.slots[s].ready && PinnedOnce(c, s, d)
               case None => d == c
  {
    var p := PartOf(c, id);
    if id in c.parts[p].resident {
      assert InPool(c, p, c.parts[p].resident[id]);
    }
  }

  // ------------------------------------------------------------------- runs

  datatype Op =
    | AcquireOp(id: ExpertId)
    | LookupOp(id: ExpertId)
    | PublishOp(slot: Slot)
    | ReleaseOp(slot: Slot)
    | DecayOp

  /** The panics of the source: a slot out of range, a release without a pin. */
  predicate Allowed(c: Cache, op: Op) {
    match op
    case PublishOp(s) => s < |c.slots|
    case ReleaseOp(s) => s < |c.slots| && c.slots[s].pins > 0
    case _ => true
  }

  function Do(c: Cache, op: Op): Cache
    requires Inv(c) && Allowed(c, op)
  {
    match op
    case AcquireOp(id) => Acquire(c, id).0
    case LookupOp(id) => LookupReady(c, id).0
    case PublishOp(s) => Publish(c, s)
    case ReleaseOp(s) => Release(c, s)
    case DecayOp => DecayAll(c)
  }

  /** The slot an operation pinned for its caller, if any. */
  function Granted(c: Cache, op: Op): Option<Slot>
    requires Inv(c)
  {
    match op
    case AcquireOp(id) =>
      var r := Acquire(c, id).1;
      if r.Stalled? then None else Some(r.slot)
    case LookupOp(id) => LookupReady(c, id).1
    case _ => None
  }

  lemma DoKeepsInv(c: Cache, op: Op)
    requires Inv(c) && Allowed(c, op)
    ensures Inv(Do(c, op)) && |Do(c, op).slots| == |c.slots|
  {
    match op {
      case AcquireOp(id) => AcquireKeepsInv(c, id);
      case LookupOp(id) => LookupReadyKeepsInv(c, id);
      case PublishOp(s) => PublishKeepsInv(c, s);
      case ReleaseOp(s) => ReleaseKeepsInv(c, s);
      case DecayOp => DecayAllKeepsInv(c);
    }
    hide Inv;
  }

  /** The state after `ops`, or None when one of them panics. */
  ghost function Exec(c: Cache, ops: seq<Op>): Option<Cache>
    requires Inv(c)
    decreases |ops|
  {
    if ops == [] then Some(c)
    else if !Allowed(c, ops[0]) then None
    else DoKeepsInv(c, ops[0]); Exec(Do(c, ops[0]), ops[1..])
  }

  /** Pins granted on `s` minus releases of `s`. */
  ghost function Balance(c: Cache, ops: seq<Op>, s: Slot): int
    requires Inv(c)
    decreases |ops|
  {
    if ops == [] || !Allowed(c, ops[0]) then 0
    else
      DoKeepsInv(c, ops[0]);
      (if Granted(c, ops[0]) == Some(s) then 1 else 0)
      - (if ops[0] == ReleaseOp(s) then 1 else 0)
      + Balance(Do(c, ops[0]), ops[1..], s)
  }

  function Releases(ops: seq<Op>, s: Slot): nat {
    if ops == [] then 0
    else (if ops[0] == ReleaseOp(s) then 1 else 0) + Releases(ops[1..], s)
  }

  lemma StepPins(c: Cache, op: Op, s: Slot)
    requires Inv(c) && Allowed(c, op) && s < |c.slots|
    ensures |Do(c, op).slots| == |c.slots|
    ensures Do(c, op).slots[s].pins ==
            c.slots[s].pins + (if Granted(c, op) == Some(s) then 1 else 0) - (if op == ReleaseOp(s) then 1 else 0)
    ensures c.slots[s].pins > 0 ==>
              && Do(c, op).slots[s].id == c.slots[s].id
              && (c.slots[s].ready ==> Do(c, op).slots[s].ready)
  {
    match op {
      case AcquireOp(id) =>
        var (d, r) := Acquire(c, id);
        if r.Miss? {
          MissSlots(c, id);
          hide Acquire;
        }
      case _ =>
    }
  }

  /** Pins are exactly the grants not yet released, over every run. */
  lemma {:induction false} PinsAreTheLedger(c: Cache, ops: seq<Op>, s: Slot)
    requires Inv(c) && s < |c.slots| && Exec(c, ops).Some?
    ensures var d := Exec(c, ops).value;
            Inv(d) && |d.slots| == |c.slots| && d.slots[s].pins == c.slots[s].pins + Balance(c, ops, s)
    decreases |ops|
  {
    if ops != [] {
      hide Inv;
      hide Do;
      hide Granted;
      hide Allowed;
      DoKeepsInv(c, ops[0]);
      StepPins(c, ops[0], s);
      PinsAreTheLedger(Do(c, ops[0]), ops[1..], s);
    }
  }

  /** While a slot has pins left over from before, whatever else the clients do,
      its occupant stays and published weights stay published. */
  lemma {:induction false} PinnedOccupantStays(c: Cache, ops: seq<Op>, s: Slot)
    requires Inv(c) && s < |c.slots| && Exec(c, ops).Some?
    requires Releases(ops, s) < c.slots[s].pins
    ensures var d := Exec(c, ops).value;
            && |d.slots| == |c.slots| && d.slots[s].id == c.slots[s].id
            && (c.slots[s].ready ==> d.slots[s].ready)
    decreases |ops|
  {
    if ops != [] {
      hide Inv;
      hide Do;
      hide Granted;
      hide Allowed;
      DoKeepsInv(c, ops[0]);
      StepPins(c, ops[0], s);
      PinnedOccupantStays(Do(c, ops[0]), ops[1..], s);
    }
  }
}
