/** Requests served one after the other by one engine
    (crates/llmpager-serve/src/main.rs:68-77, 930-1040). Whatever was served before, and
    however earlier generations ended, an answer is that of a cold run. */
module Engines {
  import opened Util
  import opened DecodeModel
  import opened Contexts
  import opened SessionModel
  import opened Sessions
  import opened Generation
  import D = Decoder

  datatype Request =
    | InSession(id: Id, ids: seq<nat>, sp: Sampling, maxTokens: nat, faults: Faults)
    | Anonymous(ids: seq<nat>, sp: Sampling, maxTokens: nat, faults: Faults)
    | Drop(id: Id)

  /** An answer, when there is one, is the prompt's own, which is the cold run's; there is one
      unless the prompt is empty or too long, the engine has no session slots, or a decode
      call fails. */
  ghost predicate Answers(g: Gen, ids: seq<nat>, faults: Faults, noSlots: bool, r: Result<seq<nat>>) {
    && NetOk(g.net)
    && match r
       case Ok(out) => IsAnswer(g, ids, out) && ColdRun(g, ids).Ok? && out == ColdRun(g, ids).value.0
       case Err => ids == [] || noSlots || faults.steps < |ids| + g.maxTokens || |ids| > g.maxSeq
  }

  class Engine {
    const dec: D.Device
    const store: SessionStore
    const eos: set<nat>

    constructor (dec: D.Device, store: SessionStore, eos: set<nat>)
      requires dec.Valid() && 0 < dec.chunkCap && HeadOk(dec.net)
      requires store.Valid(None) && store.sessions == map[] && |store.owner| + 1 == dec.cap
      ensures Valid() && this.dec == dec && this.store == store && this.eos == eos
    {
      this.dec, this.store, this.eos := dec, store, eos;
    }

    /** The structure of the store, and that every session's KV is that of its tokens. */
    ghost predicate Valid()
      reads this, dec, store
    {
      store.Valid(None) && store.Sound(dec) && 0 < dec.chunkCap && HeadOk(dec.net)
    }

    /** What a granted slot holds. */
    lemma Granted(id: Id, slot: nat, tokens: seq<nat>)
      requires Valid() && id in store.sessions && store.sessions[id].slot == Some(slot)
      requires store.sessions[id].tokens == tokens
      ensures 1 <= slot <= |store.owner| && slot < dec.cap && store.owner[slot - 1] == Some(id)
      ensures Holds(dec.net, dec.kv, slot, tokens) && |tokens| <= dec.maxSeq && store.sessions[id].parked.None?
    {
      assert SessionHolds(dec.net, dec.kv, dec.maxSeq, store.sessions[id]);
      hide Holds;
      hide BlobHolds;
    }

    /** Decode in the slot `id` was granted. The other sessions are not disturbed, and
        neither is the reused prefix, however the generation ends. */
    method Decode(id: Id, slot: nat, reuse: nat, ids: seq<nat>, sp: Sampling, maxTokens: nat, faults: Faults)
      returns (r: Result<(seq<nat>, seq<nat>)>)
      requires Valid() && reuse < |ids|
      requires id in store.sessions && store.sessions[id].slot == Some(slot)
      requires store.sessions[id].tokens == ids[..reuse]
      modifies dec
      ensures Valid() && Outcome(GenOf(dec, sp, eos, maxTokens), dec.kv, slot, ids, reuse, faults.steps, r)
    {
      Granted(id, slot, ids[..reuse]);
      ghost var kv := dec.kv;
      r := GenerateSession(dec, slot, reuse, ids, sp, eos, maxTokens, faults);
      if r.Ok? {
        ghost var cold := ColdRun(GenOf(dec, sp, eos, maxTokens), ids);
        ghost var out := r.value.1[|ids|..];
        assert r.value.1 == ids + out;
        ReusePrefix(dec.net, dec.kv, slot, ids, out, reuse);
      }
      SettleContent(dec.net, kv, dec.kv, dec.maxSeq, store.sessions, store.owner, None, id, slot, ids[..reuse]);
      assert Settle(store.sessions, id, slot, ids[..reuse]) == store.sessions;
      hide *;
    }

    /** A request in a session: acquire, generate, commit. */
    method Session(id: Id, ids: seq<nat>, sp: Sampling, maxTokens: nat, faults: Faults) returns (r: Result<seq<nat>>)
      requires Valid()
      modifies dec, store
      ensures Valid()
      ensures Answers(GenOf(dec, sp, eos, maxTokens), ids, faults, dec.cap == 1, r)
      ensures r.Ok? ==>
                && id in store.sessions && store.sessions[id].slot.Some?
                && store.sessions[id].tokens ==
                   ids + (if CacheFull(GenOf(dec, sp, eos, maxTokens), ids, r.value) then r.value[..|r.value| - 1]
                          else r.value)
    {
      if ids == [] {
        return Err;
      }
      var got, mid, victim, blob, dropped := store.Acquire(dec, id, ids);
      if got.Err? {
        return Err;
      }
      var (slot, reuse) := got.value;
      var answer := Decode(id, slot, reuse, ids, sp, maxTokens, faults);
      if answer.Err? {
        // Never committed: the session claims only the prefix `Acquire` left it.
        return Err;
      }
      store.Commit(dec, id, answer.value.1);
      return Ok(answer.value.0);
    }
  
    /** A request without a session runs on slot 0, which no session owns. */
    method Single(ids: seq<nat>, sp: Sampling, maxTokens: nat, faults: Faults) returns (r: Result<seq<nat>>)
      requires Valid()
      modifies dec
      ensures Valid()
      ensures Answers(GenOf(dec, sp, eos, maxTokens), ids, faults, false, r)
    {
      if ids == [] {
        return Err;
      }
      ghost var kv := dec.kv;
      r := Generate(dec, ids, sp, eos, maxTokens, faults);
      ContentAside(dec.net, kv, dec.kv, dec.maxSeq, store.sessions, store.owner);
      hide *;
    }

    /** Serve one request; a drop answers whether the session was known. */
    method Serve(q: Request) returns (r: Result<seq<nat>>)
      requires Valid()
      modifies dec, store
      ensures Valid() && Right(q, r)
      ensures q.Drop? ==>
                && (r.Ok? <==> q.id in old(store.sessions))
                && store.sessions == old(store.sessions) - {q.id} && dec.kv == old(dec.kv)
    {
      hide Answers;
      match q {
        case InSession(id, ids, sp, maxTokens, faults) =>
          r := Session(id, ids, sp, maxTokens, faults);
        case Anonymous(ids, sp, maxTokens, faults) =>
          r := Single(ids, sp, maxTokens, faults);
        case Drop(id) =>
          var known := store.Forget(dec, id);
          r := if known then Ok([]) else Err;
      }
    }

    /** The answer to a request, which nothing served before it can influence. */
    ghost predicate Right(q: Request, r: Result<seq<nat>>) {
      match q
      case InSession(id, ids, sp, maxTokens, faults) =>
        Answers(GenOf(dec, sp, eos, maxTokens), ids, faults, dec.cap == 1, r)
      case Anonymous(ids, sp, maxTokens, faults) => Answers(GenOf(dec, sp, eos, maxTokens), ids, faults, false, r)
      case Drop(id) => r.Ok? ==> r.value == []
    }

    /** Any run of requests. */
    method Run(qs: seq<Request>) returns (rs: seq<Result<seq<nat>>>)
      requires Valid()
      modifies dec, store
      ensures Valid() && |rs| == |qs|
      ensures forall i :: 0 <= i < |qs| ==> Right(qs[i], rs[i])
    {
      rs := [];
      hide Right;
      hide Valid;
      for i := 0 to |qs|
        invariant Valid() && |rs| == i
        invariant forall j :: 0 <= j < i ==> Right(qs[j], rs[j])
      {
        var r := Serve(qs[i]);
        rs := rs + [r];
      }
    }
  }

  lemma ContentAside(net: Net, kv: Kv, kv': Kv, maxSeq: nat, m: SessionMap, owner: seq<Option<Id>>)
    requires Owned(m, owner, None) && Content(net, kv, maxSeq, m) && OnlySlot(net, kv, kv', 0)
    ensures Content(net, kv', maxSeq, m)
  {
    forall x | x in m
      ensures SessionHolds(net, kv', maxSeq, m[x])
    {
      assert SessionHolds(net, kv, maxSeq, m[x]);
      if m[x].slot.Some? {
        OtherSlotHolds(net, kv, kv', 0, m[x].slot.value, m[x].tokens);
      }
    }
  }
}
