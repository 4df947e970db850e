/** No wave deadlock: a `request` for at most a pool's worth of experts, by a client
    that holds nothing in that pool, always completes
    (crates/llmpager-cuda/src/pager.rs:402-462, crates/llmpager-run/src/decode.rs:403-409).

    Other pins in the pool may belong to unfinished prefetches only. Effective steps,
    which are grants and background work, strictly decrease a number, and some
    effective step is always possible until every id is granted.
  */
module PagerProgress {
  import opened Util
  import opened CacheModel
  import opened CacheRuns
  import opened PagerModel
  import opened PagerSafety
  import R = RamTier

  // ---------------------------------------------------------------- work left

  function TicksLeft(pc: R.Pc, span: nat): nat {
    if (pc.GetCopy? || pc.PutCopy?) && pc.k <= span then span - pc.k + 1 else 0
  }

  function StageWork(span: nat, th: R.Thread, st: Stage): nat {
    match st
    case Upload(n) => if n <= span then span - n + 1 else 0
    case Putting => span + 2 + TicksLeft(th.pc, span)
    case Loaded => 2 * span + 4
    case Read => 2 * span + 5
    case Getting => 2 * span + 6 + TicksLeft(th.pc, span)
    case Fetch => 3 * span + 8
  }

  const OUTBOX_EXTRA: nat := 10

  /** The steps a new job can take at most. */
  function JobBound(span: nat): nat {
    3 * span + OUTBOX_EXTRA
  }

  function JobWork(span: nat, threads: seq<R.Thread>, j: Job): nat {
    match j.place
    case Outbox => JobBound(span)
    case Queued => 3 * span + 9
    case Held(w, st) => if w < |threads| then StageWork(span, threads[w], st) else 0
  }

  /** Work of the jobs numbered below `n`. */
  function WorkBelow(s: Pager, n: nat): nat {
    if n == 0 then 0
    else WorkBelow(s, n - 1) + (if n - 1 in s.jobs then JobWork(s.ram.span, s.ram.threads, s.jobs[n - 1]) else 0)
  }

  function Work(s: Pager): nat {
    WorkBelow(s, s.next)
  }

  function WorkOf(s: Pager, j: nat): nat {
    if j in s.jobs then JobWork(s.ram.span, s.ram.threads, s.jobs[j]) else 0
  }

  lemma {:induction false} WorkSame(s: Pager, s': Pager, n: nat)
    requires forall i :: 0 <= i < n ==> WorkOf(s', i) == WorkOf(s, i)
    ensures WorkBelow(s', n) == WorkBelow(s, n)
  {
    if n > 0 {
      WorkSame(s, s', n - 1);
      assert WorkOf(s', n - 1) == WorkOf(s, n - 1);
    }
  }

  /** Replacing one job's share changes the total by the difference. */
  lemma {:induction false} WorkMovesWith(s: Pager, s': Pager, n: nat, j: nat)
    requires j < n
    requires forall i :: 0 <= i < n && i != j ==> WorkOf(s', i) == WorkOf(s, i)
    ensures WorkBelow(s', n) == WorkBelow(s, n) - WorkOf(s, j) + WorkOf(s', j)
  {
    if j == n - 1 {
      WorkSame(s, s', n - 1);
    } else {
      WorkMovesWith(s, s', n - 1, j);
      assert WorkOf(s', n - 1) == WorkOf(s, n - 1);
    }
  }

  predicate Background(a: Action) {
    a.DoSend? || a.DoTake? || a.DoWork?
  }

  /** `s'` differs from `s` in job `j`, held by worker `w`, which has less left to do. */
  ghost predicate Shrunk(s: Pager, s': Pager, j: nat, w: nat) {
    && j in s.jobs && s.jobs[j].place.Held? && s.jobs[j].place.w == w < |s.ram.threads|
    && WorkOf(s', j) < WorkOf(s, j)
    && s'.next == s.next && s'.ram.span == s.ram.span && |s'.ram.threads| == |s.ram.threads|
    && (forall i :: i != j ==> (i in s'.jobs <==> i in s.jobs) && (i in s.jobs ==> s'.jobs[i] == s.jobs[i]))
    && (forall u :: 0 <= u < |s.ram.threads| && u != w ==> s'.ram.threads[u] == s.ram.threads[u])
  }

  lemma StageShrinks(s: Pager, s': Pager, j: nat, w: nat, st: Stage, st': Stage)
    requires At(s, j, w, st) && s' == s.(ram := s'.ram, jobs := Moved(s, j, Held(w, st')))
    requires s'.ram == s.ram || TierMoved(s.ram, s'.ram, w)
    requires w < |s'.ram.threads|
    requires StageWork(s.ram.span, s'.ram.threads[w], st') < StageWork(s.ram.span, s.ram.threads[w], st)
    ensures Shrunk(s, s', j, w)
  {
    hide R.RamInv;
    hide StageWork;
  }

  lemma GetShrinks(k: Pack, s: Pager, s': Pager, j: nat, w: nat)
    requires R.RamInv(s.ram)
    requires BeginGet(s, s', j, w) || GetTick(s, s', j, w) || GetOver(s, s', j, w)
    ensures Shrunk(s, s', j, w)
  {
    hide R.RamInv;
    hide LookupReady;
    if BeginGet(s, s', j, w) {
      TierStep(s.ram, s'.ram, R.DoStartGet(w, s.jobs[j].id));
      StageShrinks(s, s', j, w, Fetch, Getting);
    } else if GetTick(s, s', j, w) {
      TierStep(s.ram, s'.ram, if R.CopyOut(s.ram, s'.ram, w) then R.DoCopyOut(w) else R.DoFinishGet(w));
      assert s'.jobs == Moved(s, j, Held(w, Getting));
      StageShrinks(s, s', j, w, Getting, Getting);
    } else {
      TierStep(s.ram, s'.ram, R.DoRefill(w, s.ram.threads[w].buf));
      StageShrinks(s, s', j, w, Getting, if s.ram.threads[w].pc.hit then Upload(0) else Read);
    }
  }

  lemma PutShrinks(k: Pack, s: Pager, s': Pager, j: nat, w: nat)
    requires R.RamInv(s.ram)
    requires BeginPut(s, s', j, w) || PutTick(s, s', j, w) || PutOver(s, s', j, w)
    ensures Shrunk(s, s', j, w)
  {
    hide R.RamInv;
    if BeginPut(s, s', j, w) {
      TierPut(s.ram, s'.ram, w, s.jobs[j].id, s.ram.threads[w].buf);
      hide R.StartPut;
      StageShrinks(s, s', j, w, Loaded, Putting);
    } else if PutTick(s, s', j, w) {
      TierStep(s.ram, s'.ram, if R.CopyIn(s.ram, s'.ram, w) then R.DoCopyIn(w) else R.DoFinishPut(w));
      assert s'.jobs == Moved(s, j, Held(w, Putting));
      StageShrinks(s, s', j, w, Putting, Putting);
    } else {
      TierStep(s.ram, s'.ram, R.DoRefill(w, s.ram.threads[w].buf));
      StageShrinks(s, s', j, w, Putting, Upload(0));
    }
  }

  lemma ReadShrinks(k: Pack, s: Pager, s': Pager, j: nat, w: nat)
    requires R.RamInv(s.ram)
    requires NoTier(s, s', j, w) || ReadDisk(k, s, s', j, w) || SkipPut(s, s', j, w)
    ensures Shrunk(s, s', j, w)
  {
    hide R.RamInv;
    if NoTier(s, s', j, w) {
      StageShrinks(s, s', j, w, Fetch, Read);
    } else if ReadDisk(k, s, s', j, w) {
      TierStep(s.ram, s'.ram, R.DoRefill(w, Staged(k.blobs[s.jobs[j].id], s.ram.threads[w].buf)));
      hide Staged;
      StageShrinks(s, s', j, w, Read, Loaded);
    } else {
      StageShrinks(s, s', j, w, Loaded, Upload(0));
    }
  }

  lemma UploadShrinks(k: Pack, s: Pager, s': Pager, j: nat, w: nat)
    requires s.ram.span == k.span && UploadByte(k, s, s', j, w)
    requires AlignUp(|k.blobs[s.jobs[j].id]|) <= k.span
    ensures Shrunk(s, s', j, w)
  {
    hide AlignUp;
  }

  lemma FinishShrinks(k: Pack, s: Pager, s': Pager, j: nat, w: nat)
    requires s.ram.span == k.span && Finish(k, s, s', j, w)
    requires AlignUp(|k.blobs[s.jobs[j].id]|) <= k.span
    ensures Shrunk(s, s', j, w)
  {
    hide AlignUp;
    hide Publish;
    hide Release;
  }

  /** Every step of a worker brings its own job closer to the end. */
  lemma WorkerShrinksOwnJob(k: Pack, s: Pager, s': Pager, j: nat, w: nat)
    requires PagerInv(k, s) && WorkerStep(k, s, s', j, w)
    ensures Shrunk(s, s', j, w)
  {
    WorkerStepHolds(k, s, s', j, w);
    WorkerAt(k, s, j, w, s.jobs[j].place.stage);
    hide PagerInv;
    hide R.RamInv;
    hide TierLawful;
    hide StageOk;
    hide AlignUp;
    hide Shrunk;
    hide BeginGet;
    hide NoTier;
    hide GetTick;
    hide GetOver;
    hide ReadDisk;
    hide BeginPut;
    hide SkipPut;
    hide PutTick;
    hide PutOver;
    hide UploadByte;
    hide Finish;
    if BeginGet(s, s', j, w) || GetTick(s, s', j, w) || GetOver(s, s', j, w) {
      GetShrinks(k, s, s', j, w);
    } else if BeginPut(s, s', j, w) || PutTick(s, s', j, w) || PutOver(s, s', j, w) {
      PutShrinks(k, s, s', j, w);
    } else if NoTier(s, s', j, w) || ReadDisk(k, s, s', j, w) || SkipPut(s, s', j, w) {
      ReadShrinks(k, s, s', j, w);
    } else if UploadByte(k, s, s', j, w) {
      UploadShrinks(k, s, s', j, w);
    } else {
      FinishShrinks(k, s, s', j, w);
    }
  }

  lemma WorkerStepHolds(k: Pack, s: Pager, s': Pager, j: nat, w: nat)
    requires WorkerStep(k, s, s', j, w)
    ensures j in s.jobs && s.jobs[j].place.Held? && At(s, j, w, s.jobs[j].place.stage)
  {
    hide R.StartGet;
    hide R.CopyOut;
    hide R.FinishGet;
    hide R.StartPut;
    hide R.CopyIn;
    hide R.FinishPut;
    hide R.Refill;
    hide Staged;
    hide AlignUp;
    hide Moved;
  }

  /** Other workers' jobs have what they had left. */
  lemma OthersKeepWork(k: Pack, s: Pager, s': Pager, j: nat, w: nat, i: nat)
    requires WorkersOk(k, s) && Shrunk(s, s', j, w) && i != j
    ensures WorkOf(s', i) == WorkOf(s, i)
  {
  }

  lemma ShrunkShrinksWork(k: Pack, s: Pager, s': Pager, j: nat, w: nat)
    requires WorkersOk(k, s) && Shrunk(s, s', j, w) && j < s.next
    ensures s'.next == s.next && Work(s') < Work(s)
  {
    assert s'.next == s.next && WorkOf(s', j) < WorkOf(s, j);
    hide WorkersOk;
    hide Shrunk;
    hide WorkOf;
    forall i | 0 <= i < s.next && i != j
      ensures WorkOf(s', i) == WorkOf(s, i)
    {
      OthersKeepWork(k, s, s', j, w, i);
    }
    WorkMovesWith(s, s', s.next, j);
  }

  lemma MoveShrinksWork(s: Pager, s': Pager, j: nat, w: nat)
    requires j in s.jobs && j < s.next && (Send(s, s', j) || Take(s, s', j, w))
    ensures s'.next == s.next && Work(s') < Work(s)
  {
    WorkMovesWith(s, s', s.next, j);
  }

  /** Background work always makes progress. */
  lemma BackgroundShrinksWork(k: Pack, s: Pager, s': Pager, a: Action)
    requires PagerInv(k, s) && Step(k, s, s', a) && Background(a)
    ensures s'.next == s.next && Work(s') < Work(s)
  {
    var j := a.j;
    assert Sizes(k, s) && WorkersOk(k, s);
    hide PagerInv;
    hide WorkersOk;
    hide WorkerStep;
    hide R.RamInv;
    hide Inv;
    hide Work;
    if a.DoWork? {
      WorkerShrinksOwnJob(k, s, s', j, a.w);
      assert j in s.jobs by {
        assert Shrunk(s, s', j, a.w);
      }
      hide Shrunk;
      ShrunkShrinksWork(k, s, s', j, a.w);
    } else {
      MoveShrinksWork(s, s', j, if a.DoTake? then a.w else 0);
    }
  }

  // --------------------------------------------------- some worker can always move

  lemma GetTickCanMove(s: Pager, j: nat, w: nat) returns (s': Pager)
    requires R.RamInv(s.ram) && At(s, j, w, Getting) && s.ram.threads[w].pc.GetCopy?
    ensures GetTick(s, s', j, w)
  {
    var r, th := s.ram, s.ram.threads[w];
    var pc := th.pc;
    assert R.ThreadOk(r, th);
    R.HolderPins(r, w);
    hide Inv;
    if pc.k < r.span {
      var moved := R.Thread(th.buf[pc.k := r.slabs[pc.slot][pc.k]], R.GetCopy(pc.key, pc.slot, pc.k + 1));
      s' := s.(ram := r.(threads := r.threads[w := moved]));
      assert R.CopyOut(r, s'.ram, w);
    } else {
      s' := s.(ram :=
          r.(cache := Release(r.cache, pc.slot), threads := r.threads[w := th.(pc := R.GetDone(pc.key, true))]));
      assert R.FinishGet(r, s'.ram, w);
    }
  }

  lemma GetCanMove(k: Pack, s: Pager, j: nat, w: nat) returns (s': Pager)
    requires PagerInv(k, s)
    requires (At(s, j, w, Fetch) && s.useRam) || At(s, j, w, Getting)
    ensures BeginGet(s, s', j, w) || GetTick(s, s', j, w) || GetOver(s, s', j, w)
  {
    var st := s.jobs[j].place.stage;
    WorkerAt(k, s, j, w, st);
    var r, th, id := s.ram, s.ram.threads[w], s.jobs[j].id;
    assert Inv(r.cache);
    hide PagerInv;
    hide R.RamInv;
    if st == Fetch {
      var (d, x) := LookupReady(r.cache, id);
      hide Inv;
      hide LookupReady;
      var pc := if x.Some? then R.GetCopy(id, x.value, 0) else R.GetDone(id, false);
      s' := s.(ram := r.(cache := d, threads := r.threads[w := th.(pc := pc)]), jobs := Moved(s, j, Held(w, Getting)));
      assert BeginGet(s, s', j, w);
    } else if th.pc.GetDone? {
      s' := s.(ram := r.(threads := r.threads[w := R.Thread(th.buf, R.Idle)]),
               jobs := Moved(s, j, Held(w, if th.pc.hit then Upload(0) else Read)));
      assert GetOver(s, s', j, w);
    } else {
      s' := GetTickCanMove(s, j, w);
    }
  }

  lemma StartPutPossible(r: R.Ram, w: nat, key: nat, src: seq<Byte>) returns (r': R.Ram)
    requires Inv(r.cache) && w < |r.threads| && r.threads[w].pc == R.Idle && |src| == r.span
    ensures R.StartPut(r, r', w, key, src)
  {
    var (d, l) := Acquire(r.cache, key);
    match l {
      case Miss(x, _) =>
        r' := r.(cache := d, puts := r.puts + {(key, src)},
                 threads := r.threads[w := r.threads[w].(pc := R.PutCopy(key, x, src, 0))]);
      case Hit(x) =>
        assert d.slots == r.cache.slots[x := Touched(r.cache.slots[x])];
        r' := r.(cache := Release(d, x), threads := r.threads[w := r.threads[w].(pc := R.PutDone)]);
      case Stalled =>
        r' := r.(threads := r.threads[w := r.threads[w].(pc := R.PutDone)]);
    }
    hide Inv;
    hide Acquire;
  }

  lemma PutTickCanMove(s: Pager, j: nat, w: nat) returns (s': Pager)
    requires R.RamInv(s.ram) && At(s, j, w, Putting) && s.ram.threads[w].pc.PutCopy?
    ensures PutTick(s, s', j, w)
  {
    var r, th := s.ram, s.ram.threads[w];
    var pc := th.pc;
    assert R.ThreadOk(r, th);
    R.HolderPins(r, w);
    hide Inv;
    if pc.k < r.span {
      s' := s.(ram := r.(slabs := r.slabs[pc.slot := r.slabs[pc.slot][pc.k := pc.src[pc.k]]],
                         threads := r.threads[w := th.(pc := R.PutCopy(pc.key, pc.slot, pc.src, pc.k + 1))]));
      assert R.CopyIn(r, s'.ram, w);
    } else {
      s' := s.(ram :=
          r.(cache := Release(Publish(r.cache, pc.slot), pc.slot), threads := r.threads[w := th.(pc := R.PutDone)]));
      assert R.FinishPut(r, s'.ram, w);
    }
  }

  lemma PutCanMove(k: Pack, s: Pager, j: nat, w: nat) returns (s': Pager)
    requires PagerInv(k, s)
    requires (At(s, j, w, Loaded) && s.useRam) || At(s, j, w, Putting)
    ensures BeginPut(s, s', j, w) || PutTick(s, s', j, w) || PutOver(s, s', j, w)
  {
    var st := s.jobs[j].place.stage;
    WorkerAt(k, s, j, w, st);
    var r, th, id := s.ram, s.ram.threads[w], s.jobs[j].id;
    assert Inv(r.cache);
    hide PagerInv;
    hide R.RamInv;
    hide Inv;
    if st == Loaded {
      var r' := StartPutPossible(r, w, id, th.buf);
      hide R.StartPut;
      s' := s.(ram := r', jobs := Moved(s, j, Held(w, Putting)));
      assert BeginPut(s, s', j, w);
    } else if th.pc.PutDone? {
      s' := s.(ram := r.(threads := r.threads[w := R.Thread(th.buf, R.Idle)]), jobs := Moved(s, j, Held(w, Upload(0))));
      assert PutOver(s, s', j, w);
    } else {
      s' := PutTickCanMove(s, j, w);
    }
  }

  /** A prefetch in flight has its pin, so the worker can drop it. */
  lemma PrefetchHasPin(k: Pack, s: Pager, j: nat)
    requires Core(k, s) && j in s.jobs && s.jobs[j].releaseAfterFill
    ensures s.jobs[j].slot < |s.cache.slots| && s.cache.slots[s.jobs[j].slot].pins > 0
  {
    hide Inv;
    hide R.RamInv;
    assert JobTarget(k, s, s.jobs[j]);
    assert j in PrefetchesOn(s, s.jobs[j].slot);
  }

  lemma ReadCanMove(k: Pack, s: Pager, j: nat, w: nat) returns (s': Pager)
    requires PagerInv(k, s)
    requires (At(s, j, w, Fetch) && !s.useRam) || At(s, j, w, Read) || (At(s, j, w, Loaded) && !s.useRam)
    ensures NoTier(s, s', j, w) || ReadDisk(k, s, s', j, w) || SkipPut(s, s', j, w)
  {
    var st := s.jobs[j].place.stage;
    WorkerAt(k, s, j, w, st);
    var r, th, id := s.ram, s.ram.threads[w], s.jobs[j].id;
    hide PagerInv;
    hide R.RamInv;
    match st {
      case Fetch =>
        s' := s.(jobs := Moved(s, j, Held(w, Read)));
        assert NoTier(s, s', j, w);
      case Read =>
        var bytes := Staged(k.blobs[id], th.buf);
        assert |bytes| == r.span;
        hide Staged;
        s' := s.(ram := r.(threads := r.threads[w := R.Thread(bytes, R.Idle)]), jobs := Moved(s, j, Held(w, Loaded)));
        assert R.Refill(s.ram, s'.ram, w, bytes);
        assert ReadDisk(k, s, s', j, w);
      case Loaded =>
        s' := s.(jobs := Moved(s, j, Held(w, Upload(0))));
        assert SkipPut(s, s', j, w);
    }
  }

  lemma FinishCanMove(k: Pack, s: Pager, j: nat, w: nat, n: nat) returns (s': Pager)
    requires Core(k, s) && At(s, j, w, Upload(n)) && s.jobs[j].id < |k.blobs|
    requires n == AlignUp(|k.blobs[s.jobs[j].id]|)
    ensures Finish(k, s, s', j, w)
  {
    var job := s.jobs[j];
    var slot := job.slot;
    assert JobTarget(k, s, job);
    if job.releaseAfterFill {
      PrefetchHasPin(k, s, j);
    }
    hide Core;
    hide AlignUp;
    var d := Publish(s.cache, slot);
    s' := s.(fill := s.fill[slot := Ready],
             cache := (if job.releaseAfterFill then Release(d, slot) else d), jobs := s.jobs - {j});
  }

  lemma UploadCanMove(k: Pack, s: Pager, j: nat, w: nat, n: nat) returns (s': Pager)
    requires PagerInv(k, s) && At(s, j, w, Upload(n))
    ensures UploadByte(k, s, s', j, w) || Finish(k, s, s', j, w)
  {
    hide R.RamInv;
    hide TierLawful;
    hide AlignUp;
    hide StagedOk;
    hide Core;
    assert Core(k, s);
    hide PagerInv;
    WorkerAt(k, s, j, w, Upload(n));
    var job := s.jobs[j];
    var slot := job.slot;
    if n < AlignUp(|k.blobs[job.id]|) {
      s' := s.(dev := s.dev[slot := s.dev[slot][n := s.ram.threads[w].buf[n]]],
               jobs := Moved(s, j, Held(w, Upload(n + 1))));
      assert UploadByte(k, s, s', j, w);
    } else {
      s' := FinishCanMove(k, s, j, w, n);
    }
  }

  lemma WorkerCanMove(k: Pack, s: Pager, j: nat) returns (s': Pager)
    requires PagerInv(k, s) && j in s.jobs && s.jobs[j].place.Held?
    ensures WorkerStep(k, s, s', j, s.jobs[j].place.w)
  {
    var w := s.jobs[j].place.w;
    assert PlaceOk(k, s, s.jobs[j]);
    hide PagerInv;
    hide BeginGet;
    hide NoTier;
    hide GetTick;
    hide GetOver;
    hide ReadDisk;
    hide BeginPut;
    hide SkipPut;
    hide PutTick;
    hide PutOver;
    hide UploadByte;
    hide Finish;
    match s.jobs[j].place.stage {
      case Fetch =>
        if s.useRam {
          s' := GetCanMove(k, s, j, w);
        } else {
          s' := ReadCanMove(k, s, j, w);
        }
      case Getting => s' := GetCanMove(k, s, j, w);
      case Read => s' := ReadCanMove(k, s, j, w);
      case Loaded =>
        if s.useRam {
          s' := PutCanMove(k, s, j, w);
        } else {
          s' := ReadCanMove(k, s, j, w);
        }
      case Putting => s' := PutCanMove(k, s, j, w);
      case Upload(n) => s' := UploadCanMove(k, s, j, w, n);
    }
  }

  /** With at least one worker, unfinished jobs mean background work can go on. */
  lemma BackgroundCanMove(k: Pack, s: Pager, j: nat) returns (s': Pager, a: Action)
    requires PagerInv(k, s) && j in s.jobs && 0 < |s.ram.threads|
    ensures Background(a) && Step(k, s, s', a)
  {
    hide PagerInv;
    if i :| i in s.jobs && s.jobs[i].place.Held? {
      hide WorkerStep;
      s' := WorkerCanMove(k, s, i);
      a := DoWork(i, s.jobs[i].place.w);
    } else if s.jobs[j].place == Outbox {
      s' := s.(jobs := Moved(s, j, Queued));
      a := DoSend(j);
    } else {
      s' := s.(jobs := Moved(s, j, Held(0, Fetch)));
      a := DoTake(j, 0);
      assert Free(s, 0);
    }
  }

  // ------------------------------------------------------------ one pool's request

  predicate SlotInPool(c: Cache, p: nat, x: Slot) {
    p < |c.parts| && InPool(c, p, x)
  }

  function PoolHandles(s: Pager, p: nat): set<nat> {
    set h | h in s.handles && SlotInPool(s.cache, p, s.handles[h].slot)
  }

  /** A request over pool `p` with `got` of its ids granted, whatever else is held. */
  ghost predicate Requesting(k: Pack, s: Pager, p: nat, ids: seq<ExpertId>, got: nat) {
    && PagerInv(k, s) && 0 < |s.ram.threads| && p < |s.cache.parts| && got <= |ids|
    && (forall i :: 0 <= i < |ids| ==> ids[i] < |k.blobs| && PartOf(s.cache, ids[i]) == p)
  }

  /** A wave: the only handles in the pool are those of the ids granted; every other pin
      there belongs to an unfinished prefetch. */
  ghost predicate InWave(k: Pack, s: Pager, p: nat, ids: seq<ExpertId>, got: nat) {
    && Requesting(k, s, p, ids, got)
    && |ids| <= s.cache.parts[p].len && |PoolHandles(s, p)| == got
  }

  /** A requester that holds no handle in a pool may start a wave there. */
  lemma EmptyPoolStartsAWave(k: Pack, s: Pager, p: nat, ids: seq<ExpertId>)
    requires PagerInv(k, s) && 0 < |s.ram.threads| && PoolHandles(s, p) == {}
    requires p < |s.cache.parts| && |ids| <= s.cache.parts[p].len
    requires forall i :: 0 <= i < |ids| ==> ids[i] < |k.blobs| && PartOf(s.cache, ids[i]) == p
    ensures InWave(k, s, p, ids, 0)
  {
    hide PagerInv;
  }

  /** A requester that holds no handle at all, as after a flush of the deferred releases,
      may start a wave in any pool. */
  lemma EmptyHandsStartAWave(k: Pack, s: Pager, p: nat, ids: seq<ExpertId>)
    requires PagerInv(k, s) && 0 < |s.ram.threads| && s.handles == map[]
    requires p < |s.cache.parts| && |ids| <= s.cache.parts[p].len
    requires forall i :: 0 <= i < |ids| ==> ids[i] < |k.blobs| && PartOf(s.cache, ids[i]) == p
    ensures InWave(k, s, p, ids, 0)
  {
    hide PagerInv;
    assert PoolHandles(s, p) == {};
  }

  lemma {:induction false} ImageNotLarger(hs: set<nat>, f: map<nat, Handle>) returns (img: set<nat>)
    requires hs <= f.Keys
    ensures forall h :: h in hs ==> f[h].slot in img
    ensures |img| <= |hs|
    decreases hs
  {
    if hs == {} {
      img := {};
    } else {
      var h :| h in hs;
      var rest := ImageNotLarger(hs - {h}, f);
      img := rest + {f[h].slot};
    }
  }

  lemma {:induction false} SomeOutside(lo: nat, hi: nat, taken: set<nat>) returns (x: nat)
    requires lo <= hi && |taken| < hi - lo
    ensures lo <= x < hi && x !in taken
    decreases hi - lo
  {
    if lo !in taken {
      x := lo;
    } else {
      x := SomeOutside(lo + 1, hi, taken - {lo});
    }
  }

  /** While a wave is unfinished some slot of its pool is unpinned, or still being filled
      by a prefetch, which will drop its pin. */
  lemma WaveHasRoom(k: Pack, s: Pager, p: nat, ids: seq<ExpertId>, got: nat) returns (x: Slot)
    requires InWave(k, s, p, ids, got) && got < |ids|
    ensures x < |s.cache.slots| && InPool(s.cache, p, x)
    ensures s.cache.slots[x].pins > 0 ==> !s.cache.slots[x].ready && PrefetchesOn(s, x) != {}
  {
    var part := s.cache.parts[p];
    var img := ImageNotLarger(PoolHandles(s, p), s.handles);
    x := SomeOutside(part.base, part.base + part.len, img);
    assert InPool(s.cache, p, x);
    forall h | h in s.handles
      ensures s.handles[h].slot != x
    {
      assert h in PoolHandles(s, p) || !InPool(s.cache, p, s.handles[h].slot);
    }
    hide Inv;
    hide R.RamInv;
    hide WorkersOk;
    hide ReadyHolds;
    hide TierLawful;
    assert HandlesOn(s, x) == {};
    if s.cache.slots[x].pins > 0 {
      assert PrefetchesOn(s, x) != {};
      var j :| j in PrefetchesOn(s, x);
      assert JobTarget(k, s, s.jobs[j]);
    }
  }

  /** The wedged error cannot be raised for an unfinished wave, in whatever state the
      requester looks: it looks again after it has waited. */
  lemma WaveIsNotWedged(k: Pack, s: Pager, p: nat, ids: seq<ExpertId>, got: nat)
    requires InWave(k, s, p, ids, got) && got < |ids|
    ensures !Wedged(s.cache, ids[got])
  {
    var x := WaveHasRoom(k, s, p, ids, got);
    hide PagerInv;
  }

  /** A stall inside a wave waits for a prefetch. */
  lemma StallAwaitsPrefetch(k: Pack, s: Pager, p: nat, ids: seq<ExpertId>, got: nat) returns (j: nat)
    requires InWave(k, s, p, ids, got) && got < |ids|
    requires Acquire(s.cache, ids[got]).1.Stalled?
    ensures j in s.jobs && s.jobs[j].releaseAfterFill && SlotInPool(s.cache, p, s.jobs[j].slot)
  {
    StalledIff(s.cache, ids[got]);
    var x := WaveHasRoom(k, s, p, ids, got);
    hide PagerInv;
    hide Acquire;
    j :| j in PrefetchesOn(s, x);
  }

  datatype Progress = Progress(s: Pager, got: nat)

  /** A grant of the next id, or one step of background work. */
  ghost predicate Effective(k: Pack, ids: seq<ExpertId>, a: Progress, b: Progress) {
    || (b.got == a.got && BackgroundStep(k, a.s, b.s))
    || Grant(k, ids, a, b)
  }

  ghost predicate BackgroundStep(k: Pack, s: Pager, s': Pager) {
    exists act :: Background(act) && Step(k, s, s', act)
  }

  ghost predicate Grant(k: Pack, ids: seq<ExpertId>, a: Progress, b: Progress) {
    && a.got < |ids| && b.got == a.got + 1
    && Inv(a.s.cache) && !Acquire(a.s.cache, ids[a.got]).1.Stalled?
    && RequestOne(k, a.s, b.s, ids[a.got])
  }

  function Measure(ids: seq<ExpertId>, a: Progress): int {
    Work(a.s) + (|ids| - a.got) * (JobBound(a.s.ram.span) + 1)
  }

  /** Pools do not move. */
  ghost predicate SamePools(c: Cache, d: Cache) {
    && d.idsPerPartition == c.idsPerPartition && |d.parts| == |c.parts| && |d.slots| == |c.slots|
    && forall p :: 0 <= p < |c.parts| ==> d.parts[p].base == c.parts[p].base && d.parts[p].len == c.parts[p].len
  }

  lemma AcquireKeepsPools(c: Cache, id: ExpertId)
    requires Inv(c)
    ensures SamePools(c, Acquire(c, id).0)
  {
  }

  lemma BackgroundFrame(k: Pack, s: Pager, s': Pager, a: Action)
    requires Step(k, s, s', a) && Background(a)
    ensures SamePools(s.cache, s'.cache) && s'.handles == s.handles
    ensures s'.ram.span == s.ram.span && |s'.ram.threads| == |s.ram.threads|
  {
    hide Acquire;
    hide LookupReady;
    hide Inv;
    hide AlignUp;
    hide Staged;
  }

  /** What a request needs of a new state: the pool has not moved. */
  lemma RequestFrame(k: Pack, s: Pager, s': Pager, p: nat, ids: seq<ExpertId>, got: nat, got': nat)
    requires Requesting(k, s, p, ids, got) && PagerInv(k, s') && SamePools(s.cache, s'.cache)
    requires |s'.ram.threads| == |s.ram.threads| && got' <= |ids|
    ensures Requesting(k, s', p, ids, got')
  {
    assert Shape(s.cache) && Shape(s'.cache);
    hide PagerInv;
    forall i | 0 <= i < |ids|
      ensures PartOf(s'.cache, ids[i]) == p
    {
      assert PartOf(s'.cache, ids[i]) == PartOf(s.cache, ids[i]);
    }
  }

  /** What an effective step does to the requester's handles: nothing, or one more of them
      in the pool, for the id it asked for. */
  ghost predicate Gained(p: nat, ids: seq<ExpertId>, a: Progress, b: Progress) {
    || (b.got == a.got && b.s.handles == a.s.handles)
    || (&& a.got < |ids| && b.got == a.got + 1 && a.s.next !in a.s.handles && a.s.next in b.s.handles
        && b.s.handles == a.s.handles[a.s.next := b.s.handles[a.s.next]]
        && SlotInPool(a.s.cache, p, b.s.handles[a.s.next].slot) && b.s.handles[a.s.next].id == ids[a.got])
  }

  lemma BackgroundKeepsRequest(k: Pack, s: Pager, s': Pager, a: Action, p: nat, ids: seq<ExpertId>, got: nat)
    requires Requesting(k, s, p, ids, got) && Step(k, s, s', a) && Background(a)
    ensures Requesting(k, s', p, ids, got) && s'.ram.span == s.ram.span
    ensures SamePools(s.cache, s'.cache) && s'.handles == s.handles
  {
    hide PagerInv;
    StepKeepsInv(k, s, s', a);
    BackgroundFrame(k, s, s', a);
    hide Step;
    RequestFrame(k, s, s', p, ids, got, got);
  }

  lemma GrantFrame(k: Pack, s: Pager, s': Pager, p: nat, id: ExpertId)
    requires Inv(s.cache) && RequestOne(k, s, s', id) && !Acquire(s.cache, id).1.Stalled? && PartOf(s.cache, id) == p
    ensures SamePools(s.cache, s'.cache) && s'.ram == s.ram
    ensures s.next in s'.handles && s'.handles == s.handles[s.next := s'.handles[s.next]]
    ensures SlotInPool(s.cache, p, s'.handles[s.next].slot) && s'.handles[s.next].id == id
    ensures s'.next <= s.next + 2
    ensures
      || s'.jobs == s.jobs
      || (&& s'.next == s.next + 2 && s.next + 1 in s'.jobs
          && s'.jobs == s.jobs[s.next + 1 := s'.jobs[s.next + 1]] && s'.jobs[s.next + 1].place == Outbox)
  {
    AcquireKeepsPools(s.cache, id);
    assert InPool(s.cache, p, Acquire(s.cache, id).1.slot);
    hide Inv;
    hide Acquire;
  }

  lemma GrantKeepsRequest(k: Pack, p: nat, ids: seq<ExpertId>, a: Progress, b: Progress)
    requires Requesting(k, a.s, p, ids, a.got) && Grant(k, ids, a, b)
    ensures Requesting(k, b.s, p, ids, b.got)
    ensures SamePools(a.s.cache, b.s.cache) && Gained(p, ids, a, b)
  {
    var id := ids[a.got];
    assert a.s.next !in a.s.handles;
    hide PagerInv;
    hide Inv;
    hide Acquire;
    hide SamePools;
    GrantFrame(k, a.s, b.s, p, id);
    StepKeepsInv(k, a.s, b.s, DoRequest(id));
    hide RequestOne;
    RequestFrame(k, a.s, b.s, p, ids, a.got, b.got);
  }

  lemma {:induction false} WorkPastNext(s: Pager, n: nat)
    requires s.next <= n && forall j :: j in s.jobs ==> j < s.next
    ensures WorkBelow(s, n) == Work(s)
  {
    if s.next < n {
      WorkPastNext(s, n - 1);
    }
  }

  lemma OneJobAdded(s: Pager, s': Pager)
    requires s'.ram == s.ram && s.next <= s'.next <= s.next + 2
    requires forall j :: j in s.jobs ==> j < s.next
    requires forall j :: j in s'.jobs ==> j < s'.next
    requires s'.jobs == s.jobs || (s.next + 1 in s'.jobs && s'.jobs == s.jobs[s.next + 1 := s'.jobs[s.next + 1]]
                                   && s'.jobs[s.next + 1].place == Outbox)
    ensures Work(s') <= Work(s) + JobBound(s.ram.span)
  {
    var n := s.next + 2;
    WorkPastNext(s, n);
    WorkPastNext(s', n);
    if s'.jobs == s.jobs {
      WorkSame(s, s', n);
    } else {
      WorkMovesWith(s, s', n, s.next + 1);
    }
  }

  /** A grant adds at most one whole job. */
  lemma GrantAddsOneJob(k: Pack, s: Pager, s': Pager, p: nat, id: ExpertId)
    requires PagerInv(k, s) && RequestOne(k, s, s', id) && !Acquire(s.cache, id).1.Stalled? && PartOf(s.cache, id) == p
    ensures Work(s') <= Work(s) + JobBound(s.ram.span) && s'.ram.span == s.ram.span
  {
    StepKeepsInv(k, s, s', DoRequest(id));
    assert s.next <= s'.next;
    assert Sizes(k, s) && Sizes(k, s');
    hide PagerInv;
    hide Inv;
    hide Acquire;
    hide R.RamInv;
    GrantFrame(k, s, s', p, id);
    hide RequestOne;
    OneJobAdded(s, s');
    hide Work;
  }

  lemma ProductStep(n: nat, c: nat)
    ensures 0 <= n * c && (n + 1) * c == n * c + c
  {
  }

  /** The arithmetic of a grant: a job's worth of work is paid for by one id less. */
  lemma GrantArithmetic(ids: seq<ExpertId>, a: Progress, b: Progress)
    requires b.got == a.got + 1 <= |ids| && b.s.ram.span == a.s.ram.span
    requires Work(b.s) <= Work(a.s) + JobBound(a.s.ram.span)
    ensures 0 <= Measure(ids, b) < Measure(ids, a)
  {
    hide Work;
    hide JobBound;
    ProductStep(|ids| - b.got, JobBound(a.s.ram.span) + 1);
    assert |ids| - a.got == (|ids| - b.got) + 1;
  }

  lemma BackgroundArithmetic(ids: seq<ExpertId>, a: Progress, b: Progress)
    requires b.got == a.got <= |ids| && b.s.ram.span == a.s.ram.span && Work(b.s) < Work(a.s)
    ensures 0 <= Measure(ids, b) < Measure(ids, a)
  {
    hide Work;
    hide JobBound;
    ProductStep(|ids| - b.got, JobBound(a.s.ram.span) + 1);
  }

  lemma GrantDescends(k: Pack, p: nat, ids: seq<ExpertId>, a: Progress, b: Progress)
    requires Requesting(k, a.s, p, ids, a.got) && Grant(k, ids, a, b)
    ensures 0 <= Measure(ids, b) < Measure(ids, a)
  {
    hide PagerInv;
    hide Work;
    hide RequestOne;
    hide Acquire;
    hide Inv;
    hide JobBound;
    GrantAddsOneJob(k, a.s, b.s, p, ids[a.got]);
    GrantArithmetic(ids, a, b);
    hide Measure;
  }

  lemma BackgroundDescends(k: Pack, p: nat, ids: seq<ExpertId>, a: Progress, b: Progress)
    requires Requesting(k, a.s, p, ids, a.got) && b.got == a.got && BackgroundStep(k, a.s, b.s)
    ensures Requesting(k, b.s, p, ids, b.got)
    ensures SamePools(a.s.cache, b.s.cache) && b.s.handles == a.s.handles
    ensures 0 <= Measure(ids, b) < Measure(ids, a)
  {
    var act :| Background(act) && Step(k, a.s, b.s, act);
    hide PagerInv;
    hide Step;
    hide Work;
    BackgroundShrinksWork(k, a.s, b.s, act);
    BackgroundKeepsRequest(k, a.s, b.s, act, p, ids, a.got);
    BackgroundArithmetic(ids, a, b);
    hide Measure;
  }

  /** Each effective step keeps the request going and brings it strictly nearer its end. */
  lemma RequestDescends(k: Pack, p: nat, ids: seq<ExpertId>, a: Progress, b: Progress)
    requires Requesting(k, a.s, p, ids, a.got) && Effective(k, ids, a, b)
    ensures Requesting(k, b.s, p, ids, b.got)
    ensures SamePools(a.s.cache, b.s.cache) && Gained(p, ids, a, b)
    ensures 0 <= Measure(ids, b) < Measure(ids, a)
  {
    hide Requesting;
    hide Measure;
    hide Grant;
    hide BackgroundStep;
    hide SamePools;
    if Grant(k, ids, a, b) {
      GrantKeepsRequest(k, p, ids, a, b);
      GrantDescends(k, p, ids, a, b);
    } else {
      BackgroundDescends(k, p, ids, a, b);
    }
  }

  /** The handles of the pool after an effective step. */
  lemma PoolAfterStep(p: nat, ids: seq<ExpertId>, a: Progress, b: Progress)
    requires SamePools(a.s.cache, b.s.cache) && Gained(p, ids, a, b)
    ensures PoolHandles(b.s, p) == PoolHandles(a.s, p) + (if b.got == a.got then {} else {a.s.next})
    ensures b.got != a.got ==> a.s.next !in PoolHandles(a.s, p)
  {
    assert forall x :: SlotInPool(b.s.cache, p, x) == SlotInPool(a.s.cache, p, x);
    hide SlotInPool;
  }

  /** Each effective step keeps the wave going and brings it strictly nearer its end. */
  lemma EffectiveStepsDescend(k: Pack, p: nat, ids: seq<ExpertId>, a: Progress, b: Progress)
    requires InWave(k, a.s, p, ids, a.got) && Effective(k, ids, a, b)
    ensures InWave(k, b.s, p, ids, b.got)
    ensures 0 <= Measure(ids, b) < Measure(ids, a)
  {
    hide Measure;
    hide Effective;
    hide PagerInv;
    hide PoolHandles;
    RequestDescends(k, p, ids, a, b);
    PoolAfterStep(p, ids, a, b);
  }

  lemma GrantPossible(k: Pack, s: Pager, id: ExpertId) returns (s': Pager)
    requires Inv(s.cache) && id < |k.blobs| && |s.fill| == |s.cache.slots| && !Acquire(s.cache, id).1.Stalled?
    ensures RequestOne(k, s, s', id)
  {
    var (d, l) := Acquire(s.cache, id);
    assert l.slot < |s.fill|;
    hide Inv;
    hide Acquire;
    var h := Handle(id, l.slot, false);
    if l.Hit? {
      s' := s.(cache := d, handles := s.handles[s.next := h], next := s.next + 1);
    } else {
      s' := s.(cache := d, fill := s.fill[l.slot := InFlight], handles := s.handles[s.next := h],
               jobs := s.jobs[s.next + 1 := Job(id, l.slot, false, s.next, Outbox)], next := s.next + 2);
    }
  }

  /** Until every id is granted some effective step exists, and the pool is not wedged. */
  lemma WaveNeverStuck(k: Pack, p: nat, ids: seq<ExpertId>, a: Progress) returns (b: Progress)
    requires InWave(k, a.s, p, ids, a.got) && a.got < |ids|
    ensures Effective(k, ids, a, b)
    ensures !Wedged(a.s.cache, ids[a.got])
  {
    var s, id := a.s, ids[a.got];
    assert Inv(s.cache) && |s.fill| == |s.cache.slots|;
    hide PagerInv;
    hide Step;
    hide RequestOne;
    hide Inv;
    hide Wedged;
    WaveIsNotWedged(k, s, p, ids, a.got);
    if Acquire(s.cache, id).1.Stalled? {
      var j := StallAwaitsPrefetch(k, s, p, ids, a.got);
      var s', act := BackgroundCanMove(k, s, j);
      hide Acquire;
      b := Progress(s', a.got);
      assert BackgroundStep(k, s, s');
    } else {
      var s' := GrantPossible(k, s, id);
      hide Acquire;
      b := Progress(s', a.got + 1);
      assert Grant(k, ids, a, b);
    }
  }

  ghost predicate IsWaveRun(k: Pack, ids: seq<ExpertId>, run: seq<Progress>) {
    0 < |run| && forall i :: 0 <= i < |run| - 1 ==> Effective(k, ids, run[i], run[i + 1])
  }

  lemma {:induction false} WaveRunDescends(k: Pack, p: nat, ids: seq<ExpertId>, run: seq<Progress>, n: nat)
    requires IsWaveRun(k, ids, run) && InWave(k, run[0].s, p, ids, run[0].got) && n < |run|
    ensures InWave(k, run[n].s, p, ids, run[n].got)
    ensures n <= Measure(ids, run[0]) - Measure(ids, run[n]) && 0 <= Measure(ids, run[n])
  {
    hide InWave;
    hide Effective;
    hide Measure;
    if n > 0 {
      WaveRunDescends(k, p, ids, run, n - 1);
      EffectiveStepsDescend(k, p, ids, run[n - 1], run[n]);
    } else {
      WaveMeasureNonNegative(k, p, ids, run[0]);
    }
  }

  lemma WaveMeasureNonNegative(k: Pack, p: nat, ids: seq<ExpertId>, a: Progress)
    requires InWave(k, a.s, p, ids, a.got)
    ensures 0 <= Measure(ids, a)
  {
    hide Measure;
    hide PagerInv;
    MeasureNonNegative(k, p, ids, a);
  }

  lemma MeasureNonNegative(k: Pack, p: nat, ids: seq<ExpertId>, a: Progress)
    requires Requesting(k, a.s, p, ids, a.got)
    ensures 0 <= Measure(ids, a)
  {
    hide PagerInv;
    hide JobBound;
    hide Work;
    ProductStep(|ids| - a.got, JobBound(a.s.ram.span) + 1);
  }

  ghost predicate CanMove(k: Pack, ids: seq<ExpertId>, a: Progress) {
    exists b {:trigger Effective(k, ids, a, b)} :: Effective(k, ids, a, b)
  }

  /** The wave theorem. Whatever order workers and the requester run in, a run has at
      most `Measure` effective steps, and one that cannot be extended has granted every
      id: there is no deadlock, and the wedged error is never reported on the way. */
  lemma WaveAlwaysCompletes(k: Pack, p: nat, ids: seq<ExpertId>, run: seq<Progress>)
    requires IsWaveRun(k, ids, run) && InWave(k, run[0].s, p, ids, run[0].got)
    ensures |run| <= Measure(ids, run[0]) + 1
    ensures !CanMove(k, ids, run[|run| - 1]) ==> run[|run| - 1].got == |ids|
    ensures forall i :: 0 <= i < |run| ==> NeverWedged(k, p, ids, run[i])
  {
    var last := run[|run| - 1];
    hide Measure;
    hide Effective;
    WaveRunDescends(k, p, ids, run, |run| - 1);
    if last.got < |ids| {
      var b := WaveNeverStuck(k, p, ids, last);
      assert Effective(k, ids, last, b);
    }
    forall i | 0 <= i < |run|
      ensures NeverWedged(k, p, ids, run[i])
    {
      WaveRunDescends(k, p, ids, run, i);
      if run[i].got < |ids| {
        var b := WaveNeverStuck(k, p, ids, run[i]);
      }
    }
    assert last.got <= |ids|;
  }

  /** The stall check of `request` would not report a deadlock here. */
  ghost predicate NeverWedged(k: Pack, p: nat, ids: seq<ExpertId>, a: Progress) {
    InWave(k, a.s, p, ids, a.got) && (a.got < |ids| ==> !Wedged(a.s.cache, ids[a.got]))
  }
}
