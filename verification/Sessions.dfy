/** The mutable session store (crates/llmpager-serve/src/main.rs:99-259). */
module Sessions {
  import opened Util
  import opened DecodeModel
  import opened Contexts
  import opened SessionModel
  import D = Decoder
  import K = KvCopy

  class SessionStore {
    var sessions: SessionMap
    /** owner[i] is the session using sequence slot i + 1. */
    var owner: seq<Option<Id>>
    const ramBudget: nat
    const perToken: nat
    var clock: nat

    ghost predicate Valid(busy: Option<Id>)
      reads this
    {
      Structure(sessions, owner, clock, busy)
    }

    constructor (batchCap: nat, ramBudget: nat, perToken: nat)
      ensures Valid(None) && sessions == map[] && |owner| == (if batchCap == 0 then 0 else batchCap - 1)
      ensures this.ramBudget == ramBudget && this.perToken == perToken
    {
      sessions := map[];
      owner := seq(if batchCap == 0 then 0 else batchCap - 1, _ => None);
      this.ramBudget, this.perToken := ramBudget, perToken;
      clock := 0;
    }

    method Tick() returns (now: nat)
      modifies this`clock
      ensures clock == old(clock) + 1 == now
    {
      clock := clock + 1;
      now := clock;
    }

    /** Host bytes currently parked, by walking the map in whatever order. */
    method CountParkedBytes() returns (n: nat)
      ensures n == ParkedBytes(sessions, perToken)
    {
      n := 0;
      var todo := sessions.Keys;
      while todo != {}
        invariant todo <= sessions.Keys
        invariant n + SumBytes(sessions, todo, perToken) == ParkedBytes(sessions, perToken)
        decreases |todo|
      {
        var id :| id in todo;
        SumWithout(sessions, todo, perToken, id);
        n := n + Bytes(sessions[id], perToken);
        todo := todo - {id};
      }
    }

    /** The least recently used parked session, by walking the map in whatever order. */
    method OldestParked() returns (best: Option<Id>)
      ensures best.None? <==> Parked(sessions) == {}
      ensures best.Some? ==>
                && best.value in Parked(sessions)
                && forall id :: id in Parked(sessions) ==> sessions[best.value].lastUsed <= sessions[id].lastUsed
    {
      best := None;
      var todo := Parked(sessions);
      while todo != {}
        invariant todo <= Parked(sessions)
        invariant best.None? ==> todo == Parked(sessions)
        invariant best.Some? ==> best.value in Parked(sessions)
        invariant best.Some? ==> forall id :: id in Parked(sessions) && id !in todo ==>
                                                sessions[best.value].lastUsed <= sessions[id].lastUsed
        decreases |todo|
      {
        var id :| id in todo;
        if best.None? || sessions[id].lastUsed < sessions[best.value].lastUsed {
          best := Some(id);
        }
        todo := todo - {id};
      }
    }

    /** Drop parked contexts, least recently used first, until the budget is met. */
    method EnforceBudget() returns (ghost dropped: set<Id>)
      requires DistinctTimes(sessions)
      modifies this`sessions
      ensures sessions == DropAll(old(sessions), dropped)
      ensures IsBudgetDrop(old(sessions), perToken, ramBudget, dropped)
      ensures ParkedBytes(sessions, perToken) <= ramBudget
      ensures sessions.Keys == old(sessions).Keys
      ensures forall x :: x in old(sessions) ==>
                            var was, now := old(sessions)[x], sessions[x];
                            now == if x in dropped then Session([], was.slot, None, was.lastUsed, was.turns) else was
    {
      dropped := {};
      ghost var m := sessions;
      assert sessions == DropAll(m, {});
      var used := CountParkedBytes();
      assert DropState(m, sessions, perToken, ramBudget, dropped);
      hide DropState;
      hide ParkedBytes;
      hide IsBudgetDrop;
      hide DropAll;
      while used > ramBudget
        invariant DropState(m, sessions, perToken, ramBudget, dropped)
        invariant used == ParkedBytes(sessions, perToken)
        decreases |Parked(sessions)|
      {
        var victim := OldestParked();
        if victim.None? {
          NothingParked(sessions, perToken);
          break;
        }
        var id := victim.value;
        DropOldest(m, sessions, perToken, ramBudget, dropped, id);
        OneFewerParked(sessions, id);
        sessions := Unpark(sessions, id);
        dropped := dropped + {id};
        used := CountParkedBytes();
      }
      assert sessions == DropAll(m, dropped) by {
        assert DropState(m, sessions, perToken, ramBudget, dropped);
      }
      DropEnds(m, sessions, perToken, ramBudget, dropped);
    }

    /** Every session's KV, in its slot or parked, is that of its tokens. */
    ghost predicate Sound(dec: D.Device)
      reads this, dec
    {
      dec.Valid() && |owner| + 1 == dec.cap && Content(dec.net, dec.kv, dec.maxSeq, sessions)
    }

    /** Copy a session's KV out of its slot into host RAM and free the slot. */
    method Park(dec: D.Device, id: Id, ghost busy: Option<Id>)
      returns (ghost blob: Option<D.Blob>, ghost dropped: set<Id>)
      requires Valid(busy) && Sound(dec) && Some(id) != busy
      modifies this`sessions, this`owner
      ensures Valid(busy) && Sound(dec)
      ensures if id !in old(sessions) || old(sessions)[id].slot.None?
              then sessions == old(sessions) && owner == old(owner)
              else
                && ParkOutcome(old(sessions), old(owner), sessions, owner, id, perToken, ramBudget, blob, dropped)
                && IsCopy(dec.net, dec.kv, old(sessions)[id].slot.value, |old(sessions)[id].tokens|, blob)
                && sessions.Keys == old(sessions).Keys
                && forall x :: x in sessions ==> Beside(old(sessions)[x], sessions[x], x == id, blob, x in dropped)
    {
      blob, dropped := None, {};
      if id in sessions && sessions[id].slot.Some? {
        blob, dropped := ParkResident(dec, id, busy);
        ParkedBeside(old(sessions), old(owner), sessions, owner, id, perToken, ramBudget, blob, dropped);
        hide ParkOutcome;
        hide Beside;
        hide IsCopy;
      }
    }

    method ParkResident(dec: D.Device, id: Id, ghost busy: Option<Id>)
      returns (ghost blob: Option<D.Blob>, ghost dropped: set<Id>)
      requires Valid(busy) && Sound(dec) && Some(id) != busy && id in sessions && sessions[id].slot.Some?
      modifies this`sessions, this`owner
      ensures Valid(busy) && Sound(dec)
      ensures ParkOutcome(old(sessions), old(owner), sessions, owner, id, perToken, ramBudget, blob, dropped)
      ensures IsCopy(dec.net, dec.kv, old(sessions)[id].slot.value, |old(sessions)[id].tokens|, blob)
    {
      hide IsCopy;
      hide Content;
      hide Structure;
      hide BlobHolds;
      hide Holds;
      hide KvShape;
      var slot, len := sessions[id].slot.value, |sessions[id].tokens|;
      ResidentFacts(dec.net, dec.kv, dec.maxSeq, sessions, owner, clock, busy, id);
      hide DropAll;
      hide IsBudgetDrop;
      hide ParkOne;
      var b := ExportOf(dec, slot, sessions[id].tokens, len);
      blob := b;
      ParkStructure(sessions, owner, clock, busy, id, b);
      ParkContent(dec.net, dec.kv, dec.maxSeq, sessions, id, b);
      sessions := ParkOne(sessions, id, b);
      owner := owner[slot - 1 := None];
      dropped := Budgeted(dec, busy);
    }

    /** The blob of a slot that holds `tokens`; none when there is nothing to keep. */
    method ExportOf(dec: D.Device, slot: nat, ghost tokens: seq<nat>, len: nat) returns (b: Option<D.Blob>)
      requires dec.Valid() && slot < dec.cap && len == |tokens| <= dec.maxSeq && Holds(dec.net, dec.kv, slot, tokens)
      ensures if tokens == [] then b == None else b.Some? && BlobHolds(dec.net, b.value, tokens)
      ensures IsCopy(dec.net, dec.kv, slot, len, b)
    {
      b := None;
      if len > 0 {
        var r := dec.KvExport(slot, len);
        b := Some(r.value);
        ExportedBlobHolds(dec.net, dec.kv, slot, tokens, r.value);
      }
    }

    /** `EnforceBudget`, with what it means for the invariants. */
    method Budgeted(dec: D.Device, ghost busy: Option<Id>) returns (ghost dropped: set<Id>)
      requires Valid(busy) && Sound(dec)
      modifies this`sessions
      ensures Valid(busy) && Sound(dec)
      ensures sessions == DropAll(old(sessions), dropped)
      ensures IsBudgetDrop(old(sessions), perToken, ramBudget, dropped)
    {
      ghost var m := sessions;
      dropped := EnforceBudget();
      DropStructure(m, owner, clock, busy, dropped);
      DropContent(dec.net, dec.kv, dec.maxSeq, m, dropped);
    }

    method FindFree() returns (i: Option<nat>)
      ensures i.None? ==> forall j :: 0 <= j < |owner| ==> owner[j].Some?
      ensures i.Some? ==> i.value < |owner| && owner[i.value].None? && forall j :: 0 <= j < i.value ==> owner[j].Some?
    {
      for j := 0 to |owner|
        invariant forall x :: 0 <= x < j ==> owner[x].Some?
      {
        if owner[j].None? {
          return Some(j);
        }
      }
      return None;
    }

    /** The least recently used of the sessions that own a slot. */
    method LeastRecentOwner() returns (best: Option<Id>)
      ensures best.None? <==> forall i :: 0 <= i < |owner| ==> owner[i].None?
      ensures best.Some? ==> best in owner
      ensures best.Some? ==> OldestOwner(sessions, owner, best.value)
    {
      best := None;
      for j := 0 to |owner|
        invariant best.None? <==> forall i :: 0 <= i < j ==> owner[i].None?
        invariant best.Some? ==> best in owner
        invariant best.Some? ==> forall i :: 0 <= i < j && owner[i].Some? ==>
                                               LastUsed(sessions, best.value) <= LastUsed(sessions, owner[i].value)
      {
        if owner[j].Some? {
          if best.None? || LastUsed(sessions, owner[j].value) < LastUsed(sessions, best.value) {
            best := owner[j];
          }
        }
      }
    }

    /** Every slot is taken: park the least recently used owner, which always frees one. */
    method EvictOne(dec: D.Device, ghost forId: Id)
      returns (free: nat, ghost victim: Id, ghost blob: Option<D.Blob>, ghost dropped: set<Id>)
      requires Valid(Some(forId)) && Sound(dec) && 0 < |owner|
      requires forall i :: 0 <= i < |owner| ==> owner[i].Some? && owner[i] != Some(forId)
      modifies this`sessions, this`owner
      ensures Valid(Some(forId)) && Sound(dec) && OldestOwner(old(sessions), old(owner), victim)
      ensures ParkOutcome(old(sessions), old(owner), sessions, owner, victim, perToken, ramBudget, blob, dropped)
      ensures old(sessions)[victim].slot == Some(free + 1) && Some(victim) != Some(forId)
      ensures IsCopy(dec.net, dec.kv, free + 1, |old(sessions)[victim].tokens|, blob)
      ensures Oldest(old(sessions), old(owner), victim)
    {
      hide IsCopy;
      hide Oldest;
      hide DropAll;
      hide IsBudgetDrop;
      hide ParkOne;
      hide OldestOwner;
      hide Content;
      hide Structure;
      var v := LeastRecentOwner();
      assert owner[0].Some?;
      victim := v.value;
      ghost var j :| 0 <= j < |owner| && owner[j] == v;
      OwnerIsResident(sessions, owner, clock, Some(forId), j);
      OldestOwnerIsOldest(sessions, owner, clock, Some(forId), v.value);
      blob, dropped := Park(dec, v.value, Some(forId));
      var i := FindFree();
      assert owner[j].None?;
      assert forall x :: 0 <= x < |owner| && x != j ==> owner[x].Some?;
      free := i.value;
    }

    /** A free sequence slot for `forId`, parking the least recently used session if every
        slot is taken. */
    method ClaimSlot(dec: D.Device, forId: Id)
      returns (slot: nat, ghost victim: Option<Id>, ghost blob: Option<D.Blob>, ghost dropped: set<Id>)
      requires Valid(Some(forId)) && Sound(dec) && 0 < |owner|
      requires forId in sessions && sessions[forId].slot.None? && sessions[forId].parked.None?
      requires forall i :: 0 <= i < |owner| ==> owner[i] != Some(forId)
      modifies this`sessions, this`owner
      ensures Valid(Some(forId)) && Sound(dec)
      ensures ClaimOutcome(old(sessions), old(owner), sessions, owner, perToken, ramBudget, forId, slot, victim, blob,
          dropped)
      ensures forId in sessions && sessions[forId] == old(sessions)[forId]
      ensures victim.Some? ==>
                && IsCopy(dec.net, dec.kv, slot, |old(sessions)[victim.value].tokens|, blob)
                && Oldest(old(sessions), old(owner), victim.value)
    {
      hide IsCopy;
      hide Oldest;
      hide DropAll;
      hide IsBudgetDrop;
      hide ParkOne;
      hide OldestOwner;
      hide Content;
      hide Structure;
      victim, blob, dropped := None, None, {};
      var free := FindFree();
      var i: nat;
      if free.Some? {
        i := free.value;
      } else {
        ghost var v;
        i, v, blob, dropped := EvictOne(dec, forId);
        victim := Some(v);
        BystanderStays(old(sessions), old(owner), sessions, owner, v, perToken, ramBudget, blob, dropped, forId);
      }
      ClaimStructure(sessions, owner, clock, forId, i);
      owner := owner[i := Some(forId)];
      slot := i + 1;
    }

    /** The entry step of `Acquire`: the session exists and is the latest used. */
    method BeginAcquire(dec: D.Device, id: Id)
      requires Valid(None) && Sound(dec)
      modifies this`sessions, this`clock
      ensures Valid(None) && Sound(dec) && clock == old(clock) + 1
      ensures sessions == Touch(old(sessions), id, clock)
    {
      hide Structure;
      hide Content;
      hide Touch;
      TouchStructure(sessions, owner, clock, id);
      TouchContent(dec.net, dec.kv, dec.maxSeq, sessions, id, clock + 1);
      var now := Tick();
      sessions := Touch(sessions, id, now);
    }

    /** The slot a resident session already has. */
    method Resume(dec: D.Device, id: Id, prompt: seq<nat>) returns (slot: nat, reuse: nat)
      requires Valid(None) && Sound(dec) && id in sessions && sessions[id].slot.Some?
      modifies this`sessions
      ensures Valid(None) && Sound(dec)
      ensures old(sessions)[id].slot == Some(slot) && 1 <= slot <= |owner|
      ensures reuse == Reusable(old(sessions)[id].tokens, prompt)
      ensures sessions == Settle(old(sessions), id, slot, prompt[..reuse]) && sessions[id].parked == None
      ensures owner[slot - 1] == Some(id)
    {
      var s := sessions[id];
      slot := s.slot.value;
      reuse := Reusable(s.tokens, prompt);
      assert SessionHolds(dec.net, dec.kv, dec.maxSeq, s);
      HoldsPrefix(dec.net, dec.kv, slot, s.tokens, reuse);
      ResumeStructure(sessions, owner, clock, id, s.tokens[..reuse]);
      SettleContent(dec.net, dec.kv, dec.kv, dec.maxSeq, sessions, owner, None, id, slot, s.tokens[..reuse]);
      sessions := Settle(sessions, id, slot, s.tokens[..reuse]);
      hide *;
    }

    /** Fill the claimed slot: import the parked context when some of it can be reused. */
    method Restore(dec: D.Device, id: Id, slot: nat, prompt: seq<nat>, blob: Option<D.Blob>, storedLen: nat,
                   wanted: nat)
      returns (reuse: nat)
      requires Valid(Some(id)) && Sound(dec) && id in sessions && sessions[id].slot.None? && sessions[id].parked.None?
      requires 1 <= slot <= |owner| && owner[slot - 1] == Some(id)
      requires forall i :: 0 <= i < |owner| && owner[i] == Some(id) ==> i == slot - 1
      requires storedLen == |sessions[id].tokens| <= dec.maxSeq && wanted == Reusable(sessions[id].tokens, prompt)
      requires if blob.Some? then BlobHolds(dec.net, blob.value, sessions[id].tokens) else sessions[id].tokens == []
      modifies this`sessions, dec`kv
      ensures Valid(None) && Sound(dec) && reuse == wanted && OnlySlot(dec.net, old(dec.kv), dec.kv, slot)
      ensures sessions == Settle(old(sessions), id, slot, prompt[..reuse])
    {
      var s := sessions[id];
      reuse := wanted;
      ghost var kv := dec.kv;
      if blob.Some? && reuse > 0 {
        var ok := dec.KvImport(slot, storedLen, blob.value);
        assert ok;
        ImportedBlobHolds(dec.net, kv, dec.kv, slot, s.tokens, blob.value);
        HoldsPrefix(dec.net, dec.kv, slot, s.tokens, reuse);
      } else {
        reuse := 0;
        HoldsNothing(dec.net, dec.kv, slot);
      }
      assert wanted == reuse;
      assert OnlySlot(dec.net, kv, dec.kv, slot);
      SettleStructure(sessions, owner, clock, id, slot, s.tokens[..reuse]);
      SettleContent(dec.net, kv, dec.kv, dec.maxSeq, sessions, owner, Some(id), id, slot, s.tokens[..reuse]);
      sessions := Settle(sessions, id, slot, s.tokens[..reuse]);
      hide *;
    }

    /** Record the context a finished generation leaves in the slot. */
    method Commit(dec: D.Device, id: Id, tokens: seq<nat>)
      requires Valid(None) && Sound(dec)
      requires id in sessions ==>
          sessions[id].slot.Some? && |tokens| <= dec.maxSeq && Holds(dec.net, dec.kv, sessions[id].slot.value, tokens)
      modifies this`sessions, this`clock
      ensures Valid(None) && Sound(dec) && clock == old(clock) + 1
      ensures sessions == if id in old(sessions)
                          then CommitOne(old(sessions), id, tokens, clock)
                          else old(sessions)
      ensures sessions.Keys == old(sessions).Keys
      ensures forall x :: x in old(sessions) ==>
                            var was, now := old(sessions)[x], sessions[x];
                            if x != id then now == was
                            else now == Session(tokens, was.slot, was.parked, clock, was.turns + 1)
    {
      hide Structure;
      hide Content;
      hide Holds;
      hide KvShape;
      var now := Tick();
      if id in sessions {
        ResidentFacts(dec.net, dec.kv, dec.maxSeq, sessions, owner, now - 1, None, id);
        CommitStructure(sessions, owner, now - 1, id, tokens);
        CommitContent(dec.net, dec.kv, dec.maxSeq, sessions, id, tokens, now);
        sessions := CommitOne(sessions, id, tokens, now);
      } else {
        LaterClock(sessions, owner, now - 1);
      }
    }

    /** Drop a session; its slot is free again. */
    method Forget(dec: D.Device, id: Id) returns (known: bool)
      requires Valid(None) && Sound(dec)
      modifies this`sessions, this`owner
      ensures Valid(None) && Sound(dec)
      ensures known == (id in old(sessions)) && sessions == old(sessions) - {id}
      ensures owner == if known && old(sessions)[id].slot.Some? && 1 <= old(sessions)[id].slot.value <= |old(owner)|
                       then old(owner)[old(sessions)[id].slot.value - 1 := None] else old(owner)
    {
      if id !in sessions {
        assert sessions - {id} == sessions;
        return false;
      }
      var s := sessions[id].slot;
      ForgetStructure(sessions, owner, clock, id);
      sessions := sessions - {id};
      if s.Some? {
        owner := owner[s.value - 1 := None];
      }
      return true;
    }

    /** Give `id` a slot and report how much of `prompt` its KV already covers. The answer
        is exactly the common prefix with the tokens the session had, short of the whole
        prompt, and from here on the session claims no more than that. */
    method Acquire(dec: D.Device, id: Id, prompt: seq<nat>)
      returns (r: Result<(nat, nat)>, ghost mid: SessionMap, ghost victim: Option<Id>, ghost blob: Option<D.Blob>,
               ghost dropped: set<Id>)
      requires Valid(None) && Sound(dec)
      modifies this`sessions, this`owner, this`clock, dec`kv
      ensures Valid(None) && Sound(dec)
      ensures r.Err? <==> old(owner) == []
      ensures r.Err? ==>
          sessions == old(sessions) && owner == old(owner) && clock == old(clock) && dec.kv == old(dec.kv)
      ensures r.Ok? ==>
          && clock == old(clock) + 1
          && AcquireOutcome(dec.net, old(dec.kv), dec.kv, old(sessions), old(owner), sessions, owner, perToken,
                            ramBudget, clock, id, prompt, r.value.0, r.value.1, mid, victim, blob, dropped)
    {
      mid, victim, blob, dropped := sessions, None, None, {};
      if |owner| == 0 {
        return Err, mid, victim, blob, dropped;
      }
      BeginAcquire(dec, id);
      hide *;
      var slot, reuse;
      if HasSlot(sessions, id) {
        mid := sessions;
        slot, reuse := AcquireResident(dec, id, prompt, old(sessions));
      } else {
        slot, reuse, mid, victim, blob, dropped := AcquireClaimed(dec, id, prompt, old(sessions));
      }
      r := Ok((slot, reuse));
    }

    /** `Acquire` for a session that has a slot. */
    method AcquireResident(dec: D.Device, id: Id, prompt: seq<nat>, ghost was: SessionMap)
      returns (slot: nat, reuse: nat)
      requires Valid(None) && Sound(dec) && sessions == Touch(was, id, clock) && HasSlot(sessions, id)
      modifies this`sessions
      ensures Valid(None) && Sound(dec)
      ensures AcquireOutcome(dec.net, dec.kv, dec.kv, was, owner, sessions, owner, perToken, ramBudget, clock, id,
                             prompt, slot, reuse, old(sessions), None, None, {})
    {
      ghost var m := sessions;
      hide Structure;
      hide Content;
      slot, reuse := Resume(dec, id, prompt);
      ResumedFields(was, sessions, id, slot, prompt[..reuse], clock);
      OnlySlotSame(dec.net, dec.kv, slot);
      hide Acquired;
      hide LongestReuse;
      hide Settle;
      hide OnlySlot;
      assert m[id].tokens == TokensOf(was, id);
      hide Touch;
    }

    /** `Acquire` for a session without a slot, from the sessions before it was touched. */
    method AcquireClaimed(dec: D.Device, id: Id, prompt: seq<nat>, ghost was: SessionMap)
      returns (slot: nat, reuse: nat, ghost mid: SessionMap, ghost victim: Option<Id>, ghost blob: Option<D.Blob>,
               ghost dropped: set<Id>)
      requires Valid(None) && Sound(dec) && 0 < |owner|
      requires sessions == Touch(was, id, clock) && id in sessions && !HasSlot(sessions, id)
      modifies this`sessions, this`owner, dec`kv
      ensures Valid(None) && Sound(dec)
      ensures AcquireOutcome(dec.net, old(dec.kv), dec.kv, was, old(owner), sessions, owner, perToken, ramBudget, clock,
                             id, prompt, slot, reuse, mid, victim, blob, dropped)
    {
      ghost var m := TakeBlob(sessions, id);
      assert sessions[id].tokens == TokensOf(was, id) && m[id].slot == None;
      slot, reuse, mid, victim, blob, dropped := AcquireSlot(dec, id, prompt);
      hide *;
      ClaimedOutcome(dec.net, old(dec.kv), dec.kv, was, old(owner), m, owner, perToken, ramBudget, clock, id, prompt,
                     slot, reuse, mid, victim, blob, dropped);
    }

    /** `Acquire` for a session without a slot. */
    method AcquireSlot(dec: D.Device, id: Id, prompt: seq<nat>)
      returns (slot: nat, reuse: nat, ghost mid: SessionMap, ghost victim: Option<Id>, ghost blob: Option<D.Blob>,
               ghost dropped: set<Id>)
      requires Valid(None) && Sound(dec) && 0 < |owner| && id in sessions && sessions[id].slot.None?
      modifies this`sessions, this`owner, dec`kv
      ensures Valid(None) && Sound(dec)
      ensures reuse == Reusable(old(sessions)[id].tokens, prompt) && slot != 0
      ensures OnlySlot(dec.net, old(dec.kv), dec.kv, slot)
      ensures id in mid && sessions == Settle(mid, id, slot, prompt[..reuse])
      ensures mid[id] == TakeBlob(old(sessions), id)[id] && forall i :: 0 <= i < |owner| ==> old(owner)[i] != Some(id)
      ensures victim.Some? ==>
                && Oldest(TakeBlob(old(sessions), id), old(owner), victim.value)
                && IsCopy(dec.net, old(dec.kv), slot, |TakeBlob(old(sessions), id)[victim.value].tokens|, blob)
      ensures ClaimOutcome(TakeBlob(old(sessions), id), old(owner), mid, owner, perToken, ramBudget, id, slot, victim,
          blob, dropped)
    {
      var tokens := sessions[id].tokens;
      var wanted := Reusable(tokens, prompt);
      var parked := sessions[id].parked;
      assert SessionHolds(dec.net, dec.kv, dec.maxSeq, sessions[id]);
      assert parked.None? ==> tokens == [];
      TakeStructure(sessions, owner, clock, id);
      TakeContent(dec.net, dec.kv, dec.maxSeq, sessions, id);
      sessions := TakeBlob(sessions, id);
      hide Structure;
      hide Content;
      hide Reusable;
      hide BlobHolds;
      hide IsBudgetDrop;
      hide DropAll;
      hide OldestOwner;
      hide Oldest;
      hide IsCopy;
      slot, victim, blob, dropped := ClaimSlot(dec, id);
      mid := sessions;
      reuse := Restore(dec, id, slot, prompt, parked, |tokens|, wanted);
    }
  }

  /** What the budget counts for a parked context, at the decoder's bytes per token, is the
      size of the blob an export of it wrote. */
  lemma ParkedBytesAreTheBlobs(s: Session, sh: K.Shape, kc: seq<K.Plane>, vc: seq<K.Plane>, slot: nat, blob: seq<Byte>)
    requires s.parked.Some? && K.IsBlob(sh, kc, vc, slot, s.parked.value.len, blob, sh.layers)
    ensures Bytes(s, sh.BytesPerToken()) == |blob| == sh.BytesPerToken() * s.parked.value.len
  {
    K.BlobSize(sh, s.parked.value.len);
  }

  /** The same of the compressed cache, of 4-byte elements. */
  lemma MlaParkedBytesAreTheBlobs(s: Session, sh: K.Shape, cache: seq<K.Plane>, slot: nat, blob: seq<Byte>)
    requires s.parked.Some? && K.IsMlaBlob(sh, cache, slot, s.parked.value.len, blob, sh.layers) && sh.elem == 4
    ensures Bytes(s, sh.layers * sh.dim * 4) == |blob|
  {
    var n := s.parked.value.len;
    var w := sh.dim * 4;
    assert sh.layers * (n * w) == n * (sh.layers * w);
    assert sh.layers * w == sh.layers * sh.dim * 4;
  }
}
