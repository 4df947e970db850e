/** The expert pager as a state machine (crates/llmpager-cuda/src/pager.rs).

    The state behind the pager's mutex, the fetch jobs wherever they are (about to be
    sent, in the channel, in a worker's hands), the handles clients hold, device memory
    and the RAM tier. One step is one critical section or one byte of an unlocked copy.
    Any number of clients and workers interleave.
  */
module PagerModel {
  import opened Util
  import opened CacheModel
  import R = RamTier

  /** An uncompressed pack: blob `id` belongs to layer `id / epl`, expert `id % epl`. */
  datatype Pack = Pack(blobs: seq<seq<Byte>>, span: nat)

  ghost predicate PackOk(k: Pack) {
    forall id :: 0 <= id < |k.blobs| ==> AlignUp(|k.blobs[id]|) <= k.span
  }

  function IdOf(layer: nat, expert: nat, expertsPerLayer: nat): nat {
    layer * expertsPerLayer + expert
  }

  datatype Fill = Empty | InFlight | Ready

  /** Where a worker is with the job it took. */
  datatype Stage = Fetch | Getting | Read | Loaded | Putting | Upload(k: nat)

  datatype Place = Outbox | Queued | Held(w: nat, stage: Stage)

  /** `owner` is the handle a `request` miss was made for; prefetch jobs have none. */
  datatype Job = Job(id: ExpertId, slot: Slot, releaseAfterFill: bool, owner: nat, place: Place)

  datatype Handle = Handle(id: ExpertId, slot: Slot, waited: bool)

  datatype Pager = Pager(
    cache: Cache,
    fill: seq<Fill>,
    dev: seq<seq<Byte>>,
    jobs: map<nat, Job>,
    handles: map<nat, Handle>,
    next: nat,
    ram: R.Ram,
    useRam: bool)

  // ------------------------------------------------------------ client steps

  /** One turn of the loop in `request`: a handle on a hit, a handle and a job on a miss,
      nothing yet on a stall. */
  ghost predicate RequestOne(k: Pack, s: Pager, s': Pager, id: ExpertId) {
    && Inv(s.cache) && id < |k.blobs|
    && var (d, l) := Acquire(s.cache, id);
       match l
       case Hit(slot) =>
         s' == s.(cache := d, handles := s.handles[s.next := Handle(id, slot, false)], next := s.next + 1)
       case Miss(slot, _) =>
         && slot < |s.fill|
         && s' == s.(cache := d, fill := s.fill[slot := InFlight],
                     handles := s.handles[s.next := Handle(id, slot, false)],
                     jobs := s.jobs[s.next + 1 := Job(id, slot, false, s.next, Outbox)], next := s.next + 2)
       case Stalled => s' == s
  }

  ghost predicate PrefetchOne(k: Pack, s: Pager, s': Pager, id: ExpertId) {
    && Inv(s.cache) && id < |k.blobs|
    && var (d, l) := Acquire(s.cache, id);
       match l
       case Hit(slot) =>
         && slot < |d.slots| && d.slots[slot].pins > 0
         && s' == s.(cache := Release(d, slot))
       case Miss(slot, _) =>
         && slot < |s.fill|
         && s' == s.(cache := d, fill := s.fill[slot := InFlight],
                     jobs := s.jobs[s.next := Job(id, slot, true, s.next, Outbox)], next := s.next + 1)
       case Stalled => s' == s
  }

  ghost predicate Wait(s: Pager, s': Pager, h: nat) {
    && h in s.handles && s.handles[h].slot < |s.fill| && s.fill[s.handles[h].slot] == Ready
    && s' == s.(handles := s.handles[h := s.handles[h].(waited := true)])
  }

  /** Clients release a handle once, and only after waiting on it. */
  ghost predicate DropHandle(s: Pager, s': Pager, h: nat) {
    && h in s.handles && s.handles[h].waited
    && s.handles[h].slot < |s.cache.slots| && s.cache.slots[s.handles[h].slot].pins > 0
    && s' == s.(cache := Release(s.cache, s.handles[h].slot), handles := s.handles - {h})
  }

  /** `tick` on a shared pool. */
  ghost predicate TickPool(s: Pager, s': Pager) {
    s' == s.(cache := DecayAll(s.cache))
  }

  // ------------------------------------------------------------ worker steps

  ghost predicate At(s: Pager, j: nat, w: nat, st: Stage) {
    j in s.jobs && s.jobs[j].place == Held(w, st) && w < |s.ram.threads|
  }

  function Moved(s: Pager, j: nat, p: Place): map<nat, Job>
    requires j in s.jobs
  {
    s.jobs[j := s.jobs[j].(place := p)]
  }

  /** The sender's `send`, after it let go of the lock. */
  ghost predicate Send(s: Pager, s': Pager, j: nat) {
    && j in s.jobs && s.jobs[j].place == Outbox
    && s' == s.(jobs := Moved(s, j, Queued))
  }

  ghost predicate Free(s: Pager, w: nat) {
    forall j :: j in s.jobs && s.jobs[j].place.Held? ==> s.jobs[j].place.w != w
  }

  ghost predicate Take(s: Pager, s': Pager, j: nat, w: nat) {
    && j in s.jobs && s.jobs[j].place == Queued && w < |s.ram.threads| && Free(s, w)
    && s' == s.(jobs := Moved(s, j, Held(w, Fetch)))
  }

  ghost predicate BeginGet(s: Pager, s': Pager, j: nat, w: nat) {
    && At(s, j, w, Fetch) && s.useRam
    && R.StartGet(s.ram, s'.ram, w, s.jobs[j].id)
    && s' == s.(ram := s'.ram, jobs := Moved(s, j, Held(w, Getting)))
  }

  ghost predicate NoTier(s: Pager, s': Pager, j: nat, w: nat) {
    && At(s, j, w, Fetch) && !s.useRam
    && s' == s.(jobs := Moved(s, j, Held(w, Read)))
  }

  ghost predicate GetTick(s: Pager, s': Pager, j: nat, w: nat) {
    && At(s, j, w, Getting)
    && (R.CopyOut(s.ram, s'.ram, w) || R.FinishGet(s.ram, s'.ram, w))
    && s' == s.(ram := s'.ram)
  }

  /** `get` returned: a hit leaves the blob in the staging buffer, a miss means disk. */
  ghost predicate GetOver(s: Pager, s': Pager, j: nat, w: nat) {
    && At(s, j, w, Getting) && s.ram.threads[w].pc.GetDone?
    && R.Refill(s.ram, s'.ram, w, s.ram.threads[w].buf)
    && s' == s.(ram := s'.ram, jobs := Moved(s, j, Held(w, if s.ram.threads[w].pc.hit then Upload(0) else Read)))
  }

  /** The staging buffer after a disk read: the padded blob over whatever was there. */
  function Staged(blob: seq<Byte>, buf: seq<Byte>): seq<Byte>
    requires AlignUp(|blob|) <= |buf|
  {
    blob + seq(AlignUp(|blob|) - |blob|, _ => 0) + buf[AlignUp(|blob|)..]
  }

  ghost predicate ReadDisk(k: Pack, s: Pager, s': Pager, j: nat, w: nat) {
    && At(s, j, w, Read) && s.jobs[j].id < |k.blobs|
    && var blob := k.blobs[s.jobs[j].id];
    && AlignUp(|blob|) <= |s.ram.threads[w].buf|
    && R.Refill(s.ram, s'.ram, w, Staged(blob, s.ram.threads[w].buf))
    && s' == s.(ram := s'.ram, jobs := Moved(s, j, Held(w, Loaded)))
  }

  ghost predicate BeginPut(s: Pager, s': Pager, j: nat, w: nat) {
    && At(s, j, w, Loaded) && s.useRam
    && R.StartPut(s.ram, s'.ram, w, s.jobs[j].id, s.ram.threads[w].buf)
    && s' == s.(ram := s'.ram, jobs := Moved(s, j, Held(w, Putting)))
  }

  ghost predicate SkipPut(s: Pager, s': Pager, j: nat, w: nat) {
    && At(s, j, w, Loaded) && !s.useRam
    && s' == s.(jobs := Moved(s, j, Held(w, Upload(0))))
  }

  ghost predicate PutTick(s: Pager, s': Pager, j: nat, w: nat) {
    && At(s, j, w, Putting)
    && (R.CopyIn(s.ram, s'.ram, w) || R.FinishPut(s.ram, s'.ram, w))
    && s' == s.(ram := s'.ram)
  }

  ghost predicate PutOver(s: Pager, s': Pager, j: nat, w: nat) {
    && At(s, j, w, Putting) && s.ram.threads[w].pc.PutDone?
    && R.Refill(s.ram, s'.ram, w, s.ram.threads[w].buf)
    && s' == s.(ram := s'.ram, jobs := Moved(s, j, Held(w, Upload(0))))
  }

  /** One byte of the host-to-device copy. */
  ghost predicate UploadByte(k: Pack, s: Pager, s': Pager, j: nat, w: nat) {
    && j in s.jobs && s.jobs[j].place.Held? && s.jobs[j].place.stage.Upload? && w == s.jobs[j].place.w < |s.ram.threads|
    && var n := s.jobs[j].place.stage.k;
    && var slot := s.jobs[j].slot;
    && s.jobs[j].id < |k.blobs| && n < AlignUp(|k.blobs[s.jobs[j].id]|)
    && n < |s.ram.threads[w].buf| && slot < |s.dev| && n < |s.dev[slot]|
    && s' == s.(dev := s.dev[slot := s.dev[slot][n := s.ram.threads[w].buf[n]]],
                jobs := Moved(s, j, Held(w, Upload(n + 1))))
  }

  /** The last lock of the worker loop: mark ready, publish, drop a prefetch's own pin. */
  ghost predicate Finish(k: Pack, s: Pager, s': Pager, j: nat, w: nat) {
    && j in s.jobs && s.jobs[j].id < |k.blobs|
    && At(s, j, w, Upload(AlignUp(|k.blobs[s.jobs[j].id]|)))
    && var slot := s.jobs[j].slot;
    && slot < |s.fill| && slot < |s.cache.slots|
    && (s.jobs[j].releaseAfterFill ==> s.cache.slots[slot].pins > 0)
    && var d := Publish(s.cache, slot);
    && s' == s.(fill := s.fill[slot := Ready],
                cache := (if s.jobs[j].releaseAfterFill then Release(d, slot) else d),
                jobs := s.jobs - {j})
  }

  ghost predicate WorkerStep(k: Pack, s: Pager, s': Pager, j: nat, w: nat) {
    || BeginGet(s, s', j, w) || NoTier(s, s', j, w) || GetTick(s, s', j, w) || GetOver(s, s', j, w)
    || ReadDisk(k, s, s', j, w) || BeginPut(s, s', j, w) || SkipPut(s, s', j, w)
    || PutTick(s, s', j, w) || PutOver(s, s', j, w)
    || UploadByte(k, s, s', j, w) || Finish(k, s, s', j, w)
  }

  datatype Action =
    | DoRequest(id: ExpertId)
    | DoPrefetch(id: ExpertId)
    | DoWait(h: nat)
    | DoDrop(h: nat)
    | DoTick
    | DoSend(j: nat)
    | DoTake(j: nat, w: nat)
    | DoWork(j: nat, w: nat)

  ghost predicate Step(k: Pack, s: Pager, s': Pager, a: Action) {
    match a
    case DoRequest(id) => RequestOne(k, s, s', id)
    case DoPrefetch(id) => PrefetchOne(k, s, s', id)
    case DoWait(h) => Wait(s, s', h)
    case DoDrop(h) => DropHandle(s, s', h)
    case DoTick => TickPool(s, s')
    case DoSend(j) => Send(s, s', j)
    case DoTake(j, w) => Take(s, s', j, w)
    case DoWork(j, w) => WorkerStep(k, s, s', j, w)
  }

  // -------------------------------------------------------------- invariant

  function HandlesOn(s: Pager, slot: Slot): set<nat> {
    set h | h in s.handles && s.handles[h].slot == slot
  }

  function PrefetchesOn(s: Pager, slot: Slot): set<nat> {
    set j | j in s.jobs && s.jobs[j].releaseAfterFill && s.jobs[j].slot == slot
  }

  ghost predicate Sizes(k: Pack, s: Pager) {
    && PackOk(k) && Inv(s.cache) && R.RamInv(s.ram) && s.ram.span == k.span
    && |s.fill| == |s.cache.slots| == |s.dev|
    && (forall x :: 0 <= x < |s.dev| ==> |s.dev[x]| == k.span)
    && (forall j :: j in s.jobs ==> j < s.next)
    && (forall h :: h in s.handles ==> h < s.next)
  }

  /** The fill state says what the cache says. */
  ghost predicate FillAgrees(s: Pager) {
    && |s.fill| == |s.cache.slots|
    && forall x :: 0 <= x < |s.fill| ==>
                     && (s.fill[x] == Empty <==> s.cache.slots[x].id == None)
                     && (s.fill[x] == Ready <==> s.cache.slots[x].id.Some? && s.cache.slots[x].ready)
  }

  /** Every pin belongs to a handle or to an unfinished prefetch. */
  ghost predicate PinsAccounted(s: Pager) {
    forall x :: 0 <= x < |s.cache.slots| ==>
                  s.cache.slots[x].pins == |HandlesOn(s, x)| + |PrefetchesOn(s, x)|
  }

  ghost predicate HandleOk(k: Pack, s: Pager, h: Handle) {
    && h.id < |k.blobs| && h.slot < |s.cache.slots| == |s.fill|
    && s.cache.slots[h.slot].id == Some(h.id)
    && (h.waited ==> s.fill[h.slot] == Ready)
  }

  ghost predicate JobTarget(k: Pack, s: Pager, j: Job) {
    && j.id < |k.blobs| && j.slot < |s.cache.slots| == |s.fill|
    && s.cache.slots[j.slot].id == Some(j.id) && s.fill[j.slot] == InFlight
    && (!j.releaseAfterFill ==> j.owner in s.handles && s.handles[j.owner].slot == j.slot && !s.handles[j.owner].waited)
  }

  /** Each in-flight slot has exactly one outstanding job. */
  ghost predicate OneJobPerSlot(s: Pager) {
    && (forall i, j :: i in s.jobs && j in s.jobs && s.jobs[i].slot == s.jobs[j].slot ==> i == j)
    && (forall x :: 0 <= x < |s.fill| && s.fill[x] == InFlight ==> HasJob(s, x))
  }

  ghost predicate HasJob(s: Pager, x: Slot) {
    exists j :: j in s.jobs && s.jobs[j].slot == x
  }

  ghost predicate Core(k: Pack, s: Pager) {
    && Sizes(k, s) && FillAgrees(s) && PinsAccounted(s) && OneJobPerSlot(s)
    && (forall h :: h in s.handles ==> HandleOk(k, s, s.handles[h]))
    && (forall j :: j in s.jobs ==> JobTarget(k, s, s.jobs[j]))
  }

  ghost predicate StagedOk(k: Pack, id: ExpertId, buf: seq<Byte>) {
    && id < |k.blobs| && |k.blobs[id]| <= |buf|
    && buf[..|k.blobs[id]|] == k.blobs[id]
  }

  /** What a worker in the middle of a job may rely on. */
  ghost predicate StageOk(k: Pack, s: Pager, id: ExpertId, slot: Slot, th: R.Thread, st: Stage) {
    match st
    case Fetch => th.pc == R.Idle
    case Read => th.pc == R.Idle
    case Getting => s.useRam && (th.pc.GetCopy? || th.pc.GetDone?) && th.pc.key == id
    case Loaded => th.pc == R.Idle && StagedOk(k, id, th.buf)
    case Putting =>
      && s.useRam && StagedOk(k, id, th.buf)
      && (th.pc == R.PutDone || (th.pc.PutCopy? && th.pc.key == id && th.pc.src == th.buf))
    case Upload(n) =>
      && th.pc == R.Idle && StagedOk(k, id, th.buf)
      && slot < |s.dev| && n <= AlignUp(|k.blobs[id]|) && n <= |th.buf| && n <= |s.dev[slot]|
      && s.dev[slot][..n] == th.buf[..n]
  }

  ghost predicate PlaceOk(k: Pack, s: Pager, j: Job) {
    j.place.Held? ==>
      j.place.w < |s.ram.threads| && StageOk(k, s, j.id, j.slot, s.ram.threads[j.place.w], j.place.stage)
  }

  ghost predicate WorkersOk(k: Pack, s: Pager) {
    && (forall j :: j in s.jobs ==> PlaceOk(k, s, s.jobs[j]))
    && (forall i, j :: i in s.jobs && j in s.jobs && s.jobs[i].place.Held? && s.jobs[j].place.Held?
                       && s.jobs[i].place.w == s.jobs[j].place.w
                       ==> i == j)
    && (forall w :: 0 <= w < |s.ram.threads| && Free(s, w) ==> s.ram.threads[w].pc == R.Idle)
  }

  /** Everything ever stored in the RAM tier starts with its expert's blob. */
  ghost predicate TierLawful(k: Pack, s: Pager) {
    forall p :: p in s.ram.puts ==> StagedOk(k, p.0, p.1)
  }

  /** A ready slot holds the whole blob of its occupant. */
  ghost predicate ReadyHolds(k: Pack, s: Pager) {
    forall x :: 0 <= x < |s.fill| && s.fill[x] == Ready ==>
                  x < |s.cache.slots| && x < |s.dev| && s.cache.slots[x].id.Some?
                      && StagedOk(k, s.cache.slots[x].id.value, s.dev[x])
  }

  ghost predicate PagerInv(k: Pack, s: Pager) {
    Core(k, s) && WorkersOk(k, s) && TierLawful(k, s) && ReadyHolds(k, s)
  }
}
