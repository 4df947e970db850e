/** The host-RAM expert tier (crates/llmpager-cuda/src/pager.rs:66-158).

    `get` and `put` take the tier's lock only around cache bookkeeping; the slab copies
    run unlocked, one byte at a time here, with any number of threads interleaved.
    Pins are what keeps a slab from being reassigned under a copy.
  */
module RamTier {
  import opened Util
  import opened CacheModel
  import opened CacheRuns

  datatype Pc =
    | Idle
    | GetCopy(key: nat, slot: Slot, k: nat)
    | GetDone(key: nat, hit: bool)
    | PutCopy(key: nat, slot: Slot, src: seq<Byte>, k: nat)
    | PutDone

  datatype Thread = Thread(buf: seq<Byte>, pc: Pc)

  /** `puts` remembers every (key, bytes) some `put` started to store. */
  datatype Ram = Ram(cache: Cache, slabs: seq<seq<Byte>>, span: nat, threads: seq<Thread>, puts: set<(nat, seq<Byte>)>)

  // ------------------------------------------------------------------ steps

  /** `get`, first lock: pin the slot if the expert is resident and published. */
  ghost predicate StartGet(r: Ram, r': Ram, t: nat, key: nat) {
    && Inv(r.cache) && t < |r.threads| && r.threads[t].pc == Idle
    && var (d, s) := LookupReady(r.cache, key);
       r' == r.(cache := d,
                threads := r.threads[t :=
                    r.threads[t].(pc := if s.Some? then GetCopy(key, s.value, 0) else GetDone(key, false))])
  }

  /** One byte of the unlocked copy out of the slab. */
  ghost predicate CopyOut(r: Ram, r': Ram, t: nat) {
    && t < |r.threads| && r.threads[t].pc.GetCopy?
    && var pc := r.threads[t].pc;
    && pc.k < r.span && pc.slot < |r.slabs| && |r.slabs[pc.slot]| == r.span && |r.threads[t].buf| == r.span
    && r' == r.(threads :=
         r.threads[t := Thread(r.threads[t].buf[pc.k := r.slabs[pc.slot][pc.k]], GetCopy(pc.key, pc.slot, pc.k + 1))])
  }

  /** `get`, second lock: drop the pin and report the hit. */
  ghost predicate FinishGet(r: Ram, r': Ram, t: nat) {
    && t < |r.threads| && r.threads[t].pc.GetCopy?
    && var pc := r.threads[t].pc;
    && pc.k == r.span && pc.slot < |r.cache.slots| && r.cache.slots[pc.slot].pins > 0
    && r' == r.(cache := Release(r.cache, pc.slot),
                threads := r.threads[t := r.threads[t].(pc := GetDone(pc.key, true))])
  }

  /** `put`, first lock: claim a slot on a miss; on a hit or a stall there is nothing to do. */
  ghost predicate StartPut(r: Ram, r': Ram, t: nat, key: nat, src: seq<Byte>) {
    && Inv(r.cache) && t < |r.threads| && r.threads[t].pc == Idle && |src| == r.span
    && var (d, l) := Acquire(r.cache, key);
       match l
       case Miss(s, _) =>
         r' == r.(cache := d, puts := r.puts + {(key, src)},
                  threads := r.threads[t := r.threads[t].(pc := PutCopy(key, s, src, 0))])
       case Hit(s) =>
         && s < |d.slots| && d.slots[s].pins > 0
         && r' == r.(cache := Release(d, s), threads := r.threads[t := r.threads[t].(pc := PutDone)])
       case Stalled =>
         r' == r.(threads := r.threads[t := r.threads[t].(pc := PutDone)])
  }

  /** One byte of the unlocked copy into the slab. */
  ghost predicate CopyIn(r: Ram, r': Ram, t: nat) {
    && t < |r.threads| && r.threads[t].pc.PutCopy?
    && var pc := r.threads[t].pc;
    && pc.k < r.span == |pc.src| && pc.slot < |r.slabs| && |r.slabs[pc.slot]| == r.span
    && r' == r.(slabs := r.slabs[pc.slot := r.slabs[pc.slot][pc.k := pc.src[pc.k]]],
                threads := r.threads[t := r.threads[t].(pc := PutCopy(pc.key, pc.slot, pc.src, pc.k + 1))])
  }

  /** `put`, second lock: publish and drop the pin. */
  ghost predicate FinishPut(r: Ram, r': Ram, t: nat) {
    && t < |r.threads| && r.threads[t].pc.PutCopy?
    && var pc := r.threads[t].pc;
    && pc.k == r.span && pc.slot < |r.cache.slots| && r.cache.slots[pc.slot].pins > 0
    && r' == r.(cache := Release(Publish(r.cache, pc.slot), pc.slot),
                threads := r.threads[t := r.threads[t].(pc := PutDone)])
  }

  /** Between calls the owner of a thread may put anything into its staging buffer. */
  ghost predicate Refill(r: Ram, r': Ram, t: nat, bytes: seq<Byte>) {
    && t < |r.threads| && |bytes| == r.span
    && (r.threads[t].pc == Idle || r.threads[t].pc.GetDone? || r.threads[t].pc == PutDone)
    && r' == r.(threads := r.threads[t := Thread(bytes, Idle)])
  }

  datatype Action =
    | DoStartGet(t: nat, key: nat)
    | DoCopyOut(t: nat)
    | DoFinishGet(t: nat)
    | DoStartPut(t: nat, key: nat, src: seq<Byte>)
    | DoCopyIn(t: nat)
    | DoFinishPut(t: nat)
    | DoRefill(t: nat, bytes: seq<Byte>)

  ghost predicate Step(r: Ram, r': Ram, a: Action) {
    match a
    case DoStartGet(t, key) => StartGet(r, r', t, key)
    case DoCopyOut(t) => CopyOut(r, r', t)
    case DoFinishGet(t) => FinishGet(r, r', t)
    case DoStartPut(t, key, src) => StartPut(r, r', t, key, src)
    case DoCopyIn(t) => CopyIn(r, r', t)
    case DoFinishPut(t) => FinishPut(r, r', t)
    case DoRefill(t, bytes) => Refill(r, r', t, bytes)
  }

  // -------------------------------------------------------------- invariant

  predicate Holds(pc: Pc, s: Slot) {
    (pc.GetCopy? || pc.PutCopy?) && pc.slot == s
  }

  function Holders(threads: seq<Thread>, s: Slot): set<nat> {
    set t | 0 <= t < |threads| && Holds(threads[t].pc, s)
  }

  ghost predicate Sizes(r: Ram) {
    && Inv(r.cache) && |r.slabs| == |r.cache.slots|
    && (forall s :: 0 <= s < |r.slabs| ==> |r.slabs[s]| == r.span)
    && (forall t :: 0 <= t < |r.threads| ==> |r.threads[t].buf| == r.span)
  }

  /** Pins of the tier's cache are exactly the copies in progress. */
  ghost predicate PinsAreCopies(r: Ram) {
    forall s :: 0 <= s < |r.cache.slots| ==> r.cache.slots[s].pins == |Holders(r.threads, s)|
  }

  /** What a thread may rely on in the middle of a copy, and what a finished get delivered. */
  ghost predicate ThreadOk(r: Ram, th: Thread)
    requires Sizes(r)
  {
    match th.pc
    case GetCopy(key, s, k) =>
      && s < |r.slabs| && k <= r.span == |th.buf|
      && r.cache.slots[s].id == Some(key) && r.cache.slots[s].ready
      && th.buf[..k] == r.slabs[s][..k]
    case PutCopy(key, s, src, k) =>
      && s < |r.slabs| && k <= r.span == |src|
      && r.cache.slots[s].id == Some(key) && !r.cache.slots[s].ready
      && r.slabs[s][..k] == src[..k] && (key, src) in r.puts
    case GetDone(key, hit) => hit ==> (key, th.buf) in r.puts
    case _ => true
  }

  ghost predicate ThreadsOk(r: Ram)
    requires Sizes(r)
  {
    forall t :: 0 <= t < |r.threads| ==> ThreadOk(r, r.threads[t])
  }

  /** At most one writer per slab. */
  ghost predicate OneWriter(r: Ram) {
    forall t, u :: 0 <= t < |r.threads| && 0 <= u < |r.threads|
                   && r.threads[t].pc.PutCopy? && r.threads[u].pc.PutCopy?
                   && r.threads[t].pc.slot == r.threads[u].pc.slot
                   ==> t == u
  }

  /** A published slab holds, whole, the bytes of some put of its expert. */
  ghost predicate PublishedWhole(r: Ram)
    requires Sizes(r)
  {
    forall s :: 0 <= s < |r.slabs| && r.cache.slots[s].ready ==>
                  r.cache.slots[s].id.Some? && (r.cache.slots[s].id.value, r.slabs[s]) in r.puts
  }

  ghost predicate RamInv(r: Ram) {
    Sizes(r) && PinsAreCopies(r) && ThreadsOk(r) && OneWriter(r) && PublishedWhole(r)
  }

  // ----------------------------------------------------------- preservation

  lemma HoldersUpdate(threads: seq<Thread>, t: nat, th: Thread, s: Slot)
    requires t < |threads|
    ensures |Holders(threads[t := th], s)| ==
            |Holders(threads, s)| - (if Holds(threads[t].pc, s) then 1 else 0) + (if Holds(th.pc, s) then 1 else 0)
  {
    var a, b := Holders(threads, s), Holders(threads[t := th], s);
    assert b == (a - {t}) + (if Holds(th.pc, s) then {t} else {});
    assert a == (a - {t}) + (if Holds(threads[t].pc, s) then {t} else {});
  }

  lemma HolderPins(r: Ram, t: nat)
    requires RamInv(r) && t < |r.threads| && (r.threads[t].pc.GetCopy? || r.threads[t].pc.PutCopy?)
    ensures r.threads[t].pc.slot < |r.cache.slots| && r.cache.slots[r.threads[t].pc.slot].pins > 0
  {
    assert ThreadOk(r, r.threads[t]);
    var s := r.threads[t].pc.slot;
    assert t in Holders(r.threads, s);
  }

  /** Threads other than `t` do not notice a step that leaves their slabs alone. */
  lemma OthersUndisturbed(r: Ram, r': Ram, t: nat)
    requires RamInv(r) && Sizes(r') && t < |r.threads| == |r'.threads| && r'.span == r.span
    requires |r'.cache.slots| == |r.cache.slots| && r.puts <= r'.puts
    requires forall u :: 0 <= u < |r.threads| && u != t ==> r'.threads[u] == r.threads[u]
    requires forall u, s :: 0 <= u < |r.threads| && u != t && 0 <= s < |r.slabs| && Holds(r.threads[u].pc, s) ==>
                           && r'.cache.slots[s].id == r.cache.slots[s].id
                           && r'.cache.slots[s].ready == r.cache.slots[s].ready
                           && r'.slabs[s] == r.slabs[s]
    requires ThreadOk(r', r'.threads[t])
    ensures ThreadsOk(r')
  {
    forall u | 0 <= u < |r'.threads|
      ensures ThreadOk(r', r'.threads[u])
    {
      if u != t {
        assert ThreadOk(r, r.threads[u]);
        if r.threads[u].pc.GetCopy? || r.threads[u].pc.PutCopy? {
          HolderPins(r, u);
          assert Holds(r.threads[u].pc, r.threads[u].pc.slot);
        }
      }
    }
  }

  lemma StartGetKeeps(r: Ram, r': Ram, t: nat, key: nat)
    requires RamInv(r) && StartGet(r, r', t, key)
    ensures RamInv(r')
  {
    LookupReadyKeepsInv(r.cache, key);
    var s := LookupReady(r.cache, key).1;
    forall x | 0 <= x < |r.cache.slots|
      ensures r'.cache.slots[x].pins == |Holders(r'.threads, x)|
    {
      HoldersUpdate(r.threads, t, r'.threads[t], x);
    }
    hide Inv;
    OthersUndisturbed(r, r', t);
  }

  lemma PinsFollow(r: Ram, r': Ram, t: nat)
    requires PinsAreCopies(r) && t < |r.threads| && |r'.cache.slots| == |r.cache.slots|
    requires t < |r'.threads| && r'.threads == r.threads[t := r'.threads[t]]
    requires forall s :: 0 <= s < |r.cache.slots| ==>
                           r'.cache.slots[s].pins == r.cache.slots[s].pins
                                                     - (if Holds(r.threads[t].pc, s) then 1 else 0)
                                                     + (if Holds(r'.threads[t].pc, s) then 1 else 0)
    ensures PinsAreCopies(r')
  {
    forall s | 0 <= s < |r'.cache.slots|
      ensures r'.cache.slots[s].pins == |Holders(r'.threads, s)|
    {
      HoldersUpdate(r.threads, t, r'.threads[t], s);
    }
  }

  lemma CopyOutKeeps(r: Ram, r': Ram, t: nat)
    requires RamInv(r) && CopyOut(r, r', t)
    ensures RamInv(r')
  {
    hide Inv;
    PinsFollow(r, r', t);
    assert ThreadOk(r, r.threads[t]);
    OthersUndisturbed(r, r', t);
  }

  lemma FinishGetKeeps(r: Ram, r': Ram, t: nat)
    requires RamInv(r) && FinishGet(r, r', t)
    ensures RamInv(r')
  {
    hide Inv;
    var pc := r.threads[t].pc;
    ReleaseKeepsInv(r.cache, pc.slot);
    PinsFollow(r, r', t);
    assert ThreadOk(r, r.threads[t]);
    assert r.threads[t].buf[..r.span] == r.threads[t].buf && r.slabs[pc.slot][..r.span] == r.slabs[pc.slot];
    OthersUndisturbed(r, r', t);
  }

  lemma StartPutMissKeeps(r: Ram, r': Ram, t: nat, key: nat, src: seq<Byte>)
    requires RamInv(r) && StartPut(r, r', t, key, src) && Acquire(r.cache, key).1.Miss?
    ensures RamInv(r')
  {
    var s := Acquire(r.cache, key).1.slot;
    AcquireKeepsInv(r.cache, key);
    MissSlots(r.cache, key);
    hide Inv;
    hide Acquire;
    PinsFollow(r, r', t);
    assert Holders(r.threads, s) == {};
    forall u | 0 <= u < |r.threads|
      ensures !Holds(r.threads[u].pc, s)
    {
      assert u !in Holders(r.threads, s);
    }
    OthersUndisturbed(r, r', t);
  }

  lemma HitTouches(c: Cache, key: nat)
    requires Inv(c) && Acquire(c, key).1.Hit?
    ensures var (d, l) := Acquire(c, key);
            l.slot < |c.slots| && d.slots == c.slots[l.slot := Touched(c.slots[l.slot])]
  {
  }

  lemma StartPutHitKeeps(r: Ram, r': Ram, t: nat, key: nat, src: seq<Byte>)
    requires RamInv(r) && StartPut(r, r', t, key, src) && Acquire(r.cache, key).1.Hit?
    ensures RamInv(r')
  {
    var (d, l) := Acquire(r.cache, key);
    AcquireKeepsInv(r.cache, key);
    HitTouches(r.cache, key);
    hide Inv;
    hide Acquire;
    ReleaseKeepsInv(d, l.slot);
    PinsFollow(r, r', t);
    OthersUndisturbed(r, r', t);
  }

  lemma StartPutStallKeeps(r: Ram, r': Ram, t: nat, key: nat, src: seq<Byte>)
    requires RamInv(r) && StartPut(r, r', t, key, src) && Acquire(r.cache, key).1.Stalled?
    ensures RamInv(r')
  {
    hide Inv;
    hide Acquire;
    PinsFollow(r, r', t);
    OthersUndisturbed(r, r', t);
  }

  lemma CopyInKeeps(r: Ram, r': Ram, t: nat)
    requires RamInv(r) && CopyIn(r, r', t)
    ensures RamInv(r')
  {
    hide Inv;
    PinsFollow(r, r', t);
    assert ThreadOk(r, r.threads[t]);
    forall u, s | 0 <= u < |r.threads| && u != t && 0 <= s < |r.slabs| && Holds(r.threads[u].pc, s)
      ensures s != r.threads[t].pc.slot
    {
      assert ThreadOk(r, r.threads[u]);
    }
    OthersUndisturbed(r, r', t);
  }

  lemma FinishPutKeeps(r: Ram, r': Ram, t: nat)
    requires RamInv(r) && FinishPut(r, r', t)
    ensures RamInv(r')
  {
    hide Inv;
    var pc := r.threads[t].pc;
    PublishKeepsInv(r.cache, pc.slot);
    ReleaseKeepsInv(Publish(r.cache, pc.slot), pc.slot);
    PinsFollow(r, r', t);
    assert ThreadOk(r, r.threads[t]);
    assert pc.src[..r.span] == pc.src && r.slabs[pc.slot][..r.span] == r.slabs[pc.slot];
    forall u, s | 0 <= u < |r.threads| && u != t && 0 <= s < |r.slabs| && Holds(r.threads[u].pc, s)
      ensures s != pc.slot
    {
      assert ThreadOk(r, r.threads[u]);
    }
    OthersUndisturbed(r, r', t);
  }

  lemma RefillKeeps(r: Ram, r': Ram, t: nat, bytes: seq<Byte>)
    requires RamInv(r) && Refill(r, r', t, bytes)
    ensures RamInv(r')
  {
    hide Inv;
    PinsFollow(r, r', t);
    OthersUndisturbed(r, r', t);
  }

  /** Every step of every thread keeps the tier sound. */
  lemma StepKeepsInv(r: Ram, r': Ram, a: Action)
    requires RamInv(r) && Step(r, r', a)
    ensures RamInv(r')
  {
    hide RamInv;
    match a {
      case DoStartGet(t, key) => StartGetKeeps(r, r', t, key);
      case DoCopyOut(t) => CopyOutKeeps(r, r', t);
      case DoFinishGet(t) => FinishGetKeeps(r, r', t);
      case DoStartPut(t, key, src) =>
        match Acquire(r.cache, key).1 {
          case Miss(_, _) => StartPutMissKeeps(r, r', t, key, src);
          case Hit(_) => StartPutHitKeeps(r, r', t, key, src);
          case Stalled => StartPutStallKeeps(r, r', t, key, src);
        }
      case DoCopyIn(t) => CopyInKeeps(r, r', t);
      case DoFinishPut(t) => FinishPutKeeps(r, r', t);
      case DoRefill(t, bytes) => RefillKeeps(r, r', t, bytes);
    }
  }

  // ------------------------------------------------- what `get` and `put` bring about

  /** Expert `key` is in slot `x` of its pool, and published. */
  ghost predicate Stored(c: Cache, key: nat, x: Slot)
    requires Shape(c)
  {
    Lives(c, key, x) && c.slots[x].ready
  }

  /** A `get` copies from the slot its expert is stored in, and reports a miss exactly when it
      is stored nowhere. */
  lemma GetFinds(r: Ram, t: nat, key: nat) returns (r': Ram, x: Slot)
    requires Inv(r.cache) && t < |r.threads| && r.threads[t].pc == Idle
    ensures StartGet(r, r', t, key) && |r'.threads| == |r.threads|
    ensures if exists y :: Stored(r.cache, key, y)
            then Stored(r.cache, key, x) && r'.threads[t].pc == GetCopy(key, x, 0)
            else r'.threads[t].pc == GetDone(key, false)
  {
    LookupFindsPublished(r.cache, key);
    var (d, s) := LookupReady(r.cache, key);
    x := if s.Some? then s.value else 0;
    r' := r.(cache := d,
             threads := r.threads[t :=
                 r.threads[t].(pc := if s.Some? then GetCopy(key, s.value, 0) else GetDone(key, false))]);
    hide Inv;
  }

  /** A `put` of an expert that lives nowhere takes a slot, if the pool has one to take, and
      copies into it; any other stores nothing. */
  lemma PutTakes(r: Ram, t: nat, key: nat, src: seq<Byte>) returns (r': Ram, x: Slot)
    requires Inv(r.cache) && t < |r.threads| && r.threads[t].pc == Idle && |src| == r.span
    ensures StartPut(r, r', t, key, src) && |r'.threads| == |r.threads|
    ensures if (forall y :: !Lives(r.cache, key, y)) && exists y :: Takeable(r.cache, key, y)
            then Takeable(r.cache, key, x) && r'.threads[t].pc == PutCopy(key, x, src, 0)
            else r'.threads[t].pc == PutDone && SameButFreq(r.cache, r'.cache)
  {
    AcquireCases(r.cache, key);
    AcquireSlots(r.cache, key);
    var (d, l) := Acquire(r.cache, key);
    hide Acquire;
    hide Release;
    x := if l.Stalled? then 0 else l.slot;
    match l {
      case Miss(s, _) =>
        r' := r.(cache := d, puts := r.puts + {(key, src)},
                 threads := r.threads[t := r.threads[t].(pc := PutCopy(key, s, src, 0))]);
      case Hit(s) =>
        r' := r.(cache := Release(d, s), threads := r.threads[t := r.threads[t].(pc := PutDone)]);
      case Stalled =>
        r' := r.(threads := r.threads[t := r.threads[t].(pc := PutDone)]);
    }
  }

  /** The tier's slots are one pool. */
  ghost predicate OnePool(c: Cache) {
    |c.parts| == 1 && c.parts[0].base == 0 && c.parts[0].len == |c.slots|
  }

  lemma AcquireKeepsPool(c: Cache, key: nat)
    requires Inv(c) && OnePool(c)
    ensures OnePool(Acquire(c, key).0)
  {
    if Acquire(c, key).1.Miss? {
      MissSlots(c, key);
    }
    hide MapsAgree;
    hide SlotsAgree;
  }

  lemma StepKeepsPool(r: Ram, r': Ram, a: Action)
    requires RamInv(r) && Step(r, r', a) && OnePool(r.cache)
    ensures OnePool(r'.cache)
  {
    match a {
      case DoStartPut(t, key, src) =>
        AcquireKeepsPool(r.cache, key);
        hide Acquire;
        hide Inv;
      case _ =>
        hide Inv;
    }
    hide ThreadsOk;
    hide PinsAreCopies;
    hide OneWriter;
    hide PublishedWhole;
  }

  /** When a `put` is over, its expert is stored: the next `get` of it copies from that slot. */
  lemma PutThenGet(r: Ram, r': Ram, t: nat, u: nat) returns (r'': Ram)
    requires RamInv(r) && OnePool(r.cache) && FinishPut(r, r', t) && u < |r'.threads| && r'.threads[u].pc == Idle
    ensures var pc := r.threads[t].pc;
            StartGet(r', r'', u, pc.key) && u < |r''.threads| && r''.threads[u].pc == GetCopy(pc.key, pc.slot, 0)
  {
    FinishPutKeeps(r, r', t);
    var pc := r.threads[t].pc;
    assert ThreadOk(r, r.threads[t]);
    var x;
    r'', x := GetFinds(r', u, pc.key);
    hide PinsAreCopies;
    hide OneWriter;
    hide PublishedWhole;
    assert Stored(r'.cache, pc.key, pc.slot);
    hide StartGet;
    LivesOnce(r'.cache, pc.key, x, pc.slot);
    hide Inv;
  }

  // ---------------------------------------------------------------- theorems

  /** A tier as `RamTier::new` leaves it, with any number of worker threads. */
  ghost predicate Start(r: Ram, slots: nat) {
    && 0 < slots
    && r.cache == Fresh(1, U32_MAX, slots, Max(slots, 64) * 4)
    && |r.slabs| == slots && (forall s :: 0 <= s < slots ==> |r.slabs[s]| == r.span)
    && (forall t :: 0 <= t < |r.threads| ==> r.threads[t].pc == Idle && |r.threads[t].buf| == r.span)
    && r.puts == {}
  }

  ghost predicate IsRun(run: seq<Ram>, acts: seq<Action>) {
    |run| == |acts| + 1 && forall i :: 0 <= i < |acts| ==> Step(run[i], run[i + 1], acts[i])
  }

  lemma StartInv(r: Ram, slots: nat)
    requires Start(r, slots)
    ensures RamInv(r)
  {
    FreshInv(1, U32_MAX, slots, Max(slots, 64) * 4);
    forall s | 0 <= s < |r.cache.slots|
      ensures |Holders(r.threads, s)| == 0
    {
      assert Holders(r.threads, s) == {};
    }
  }

  lemma {:induction false} RunKeepsInv(run: seq<Ram>, acts: seq<Action>, n: nat)
    requires IsRun(run, acts) && RamInv(run[0]) && n < |run|
    ensures RamInv(run[n])
  {
    if n > 0 {
      hide RamInv;
      hide Step;
      RunKeepsInv(run, acts, n - 1);
      StepKeepsInv(run[n - 1], run[n], acts[n - 1]);
    }
  }

  /** Every run keeps the one pool. */
  lemma {:induction false} RunKeepsPool(run: seq<Ram>, acts: seq<Action>, slots: nat, n: nat)
    requires IsRun(run, acts) && Start(run[0], slots) && n < |run|
    ensures OnePool(run[n].cache)
  {
    if n > 0 {
      StartInv(run[0], slots);
      RunKeepsInv(run, acts, n - 1);
      RunKeepsPool(run, acts, slots, n - 1);
      hide RamInv;
      hide Step;
      StepKeepsPool(run[n - 1], run[n], acts[n - 1]);
    }
  }

  /** What was ever handed to `put` in the first `n` actions. */
  function PutsOf(acts: seq<Action>, n: nat): set<(nat, seq<Byte>)>
    requires n <= |acts|
  {
    set i | 0 <= i < n && acts[i].DoStartPut? :: (acts[i].key, acts[i].src)
  }

  lemma {:induction false} PutsAreCalls(run: seq<Ram>, acts: seq<Action>, n: nat)
    requires IsRun(run, acts) && run[0].puts == {} && n < |run|
    ensures run[n].puts <= PutsOf(acts, n)
  {
    if n > 0 {
      PutsAreCalls(run, acts, n - 1);
      assert Step(run[n - 1], run[n], acts[n - 1]);
      hide Inv;
      forall p | p in run[n].puts
        ensures p in PutsOf(acts, n)
      {
        if p in run[n - 1].puts {
          assert p in PutsOf(acts, n - 1);
        } else {
          assert acts[n - 1].DoStartPut? && p == (acts[n - 1].key, acts[n - 1].src);
        }
      }
    }
  }

  /** Whatever the interleaving, a `get` that reports a hit has copied out, whole, the
      bytes some earlier `put` of that same expert passed in. */
  lemma TrueGetDelivers(run: seq<Ram>, acts: seq<Action>, slots: nat, n: nat, t: nat)
    requires IsRun(run, acts) && Start(run[0], slots) && n < |run|
    requires t < |run[n].threads| && run[n].threads[t].pc.GetDone? && run[n].threads[t].pc.hit
    ensures (run[n].threads[t].pc.key, run[n].threads[t].buf) in PutsOf(acts, n)
  {
    StartInv(run[0], slots);
    RunKeepsInv(run, acts, n);
    PutsAreCalls(run, acts, n);
    assert ThreadOk(run[n], run[n].threads[t]);
  }

  /** While a thread is between the two locks of a call, no step of any other thread
      changes who its slab belongs to, and none writes to that slab. */
  lemma SlabIsNotReassigned(r: Ram, r': Ram, a: Action, u: nat, s: Slot)
    requires RamInv(r) && Step(r, r', a)
    requires u < |r.threads| && Holds(r.threads[u].pc, s) && a.t != u
    ensures s < |r.slabs| && |r'.cache.slots| == |r.cache.slots| && |r'.slabs| == |r.slabs|
    ensures r'.cache.slots[s].id == r.cache.slots[s].id == Some(r.threads[u].pc.key)
    ensures r'.slabs[s] == r.slabs[s]
  {
    HolderPins(r, u);
    assert ThreadOk(r, r.threads[u]);
    match a {
      case DoStartPut(t, key, _) =>
        if Acquire(r.cache, key).1.Miss? {
          MissSlots(r.cache, key);
        }
        hide Inv;
      case DoCopyIn(t) =>
        assert ThreadOk(r, r.threads[t]);
        hide Inv;
      case _ =>
        hide Inv;
    }
  }
}
