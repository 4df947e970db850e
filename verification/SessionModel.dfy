/** What the session store relies on (crates/llmpager-serve/src/main.rs:79-259): named contexts, an LRU
    over the decoder's sequence slots, and an LRU over a host-RAM budget for contexts
    parked out of a slot. Slot 0 is the anonymous lane; sessions use slots 1 and up. */
module SessionModel {
  import opened Util
  import opened DecodeModel
  import opened Contexts
  import D = Decoder

  type Id = string

  datatype Session = Session(
    tokens: seq<nat>,
    slot: Option<nat>,
    parked: Option<D.Blob>,
    lastUsed: nat,
    turns: nat)

  type SessionMap = map<Id, Session>

  /** Length of the longest common prefix. */
  function CommonPrefix(a: seq<nat>, b: seq<nat>): (n: nat)
    ensures n <= |a| && n <= |b| && a[..n] == b[..n]
    ensures n < |a| && n < |b| ==> a[n] != b[n]
  {
    if a == [] || b == [] || a[0] != b[0] then 0
    else
      var n := CommonPrefix(a[1..], b[1..]);
      assert a[..n + 1] == [a[0]] + a[1..][..n];
      assert b[..n + 1] == [b[0]] + b[1..][..n];
      n + 1
  }

  // ---------------------------------------------------------------- the budget

  function Bytes(s: Session, perToken: nat): nat {
    if s.parked.Some? then s.parked.value.len * perToken else 0
  }

  /** Host bytes of the parked contexts among `ids`. */
  ghost function SumBytes(m: SessionMap, ids: set<Id>, perToken: nat): nat
    requires ids <= m.Keys
    decreases |ids|
  {
    if ids == {} then 0
    else
      var id :| id in ids;
      Bytes(m[id], perToken) + SumBytes(m, ids - {id}, perToken)
  }

  /** The sum does not depend on the order it is taken in. */
  lemma {:induction false} SumWithout(m: SessionMap, ids: set<Id>, perToken: nat, x: Id)
    requires ids <= m.Keys && x in ids
    ensures SumBytes(m, ids, perToken) == Bytes(m[x], perToken) + SumBytes(m, ids - {x}, perToken)
    decreases |ids|
  {
    var id :| id in ids && SumBytes(m, ids, perToken) == Bytes(m[id], perToken) + SumBytes(m, ids - {id}, perToken);
    if id != x {
      SumWithout(m, ids - {id}, perToken, x);
      SumWithout(m, ids - {x}, perToken, id);
      assert ids - {id} - {x} == ids - {x} - {id};
    }
  }

  lemma {:induction false} SumSame(m: SessionMap, m': SessionMap, ids: set<Id>, perToken: nat)
    requires ids <= m.Keys && ids <= m'.Keys
    requires forall id :: id in ids ==> Bytes(m'[id], perToken) == Bytes(m[id], perToken)
    ensures SumBytes(m', ids, perToken) == SumBytes(m, ids, perToken)
    decreases |ids|
  {
    if ids != {} {
      var x :| x in ids;
      SumWithout(m, ids, perToken, x);
      SumWithout(m', ids, perToken, x);
      SumSame(m, m', ids - {x}, perToken);
    }
  }

  lemma {:induction false} SumIgnoresUnparked(m: SessionMap, ids: set<Id>, perToken: nat)
    requires ids <= m.Keys
    ensures SumBytes(m, ids, perToken) == SumBytes(m, (set id | id in ids && m[id].parked.Some?), perToken)
    decreases |ids|
  {
    var ps := set id | id in ids && m[id].parked.Some?;
    if ids != {} {
      var x :| x in ids;
      SumWithout(m, ids, perToken, x);
      SumIgnoresUnparked(m, ids - {x}, perToken);
      if x in ps {
        SumWithout(m, ps, perToken, x);
        assert ps - {x} == set id | id in ids - {x} && m[id].parked.Some?;
      } else {
        assert ps == set id | id in ids - {x} && m[id].parked.Some?;
      }
    }
  }

  function Parked(m: SessionMap): set<Id> {
    set id | id in m && m[id].parked.Some?
  }

  ghost function ParkedBytes(m: SessionMap, perToken: nat): nat {
    SumBytes(m, m.Keys, perToken)
  }

  /** `m` after the contexts in `dropped` lost their KV, and with it their tokens. */
  function DropAll(m: SessionMap, dropped: set<Id>): (m': SessionMap)
    ensures m'.Keys == m.Keys
  {
    map id | id in m :: if id in dropped then m[id].(parked := None, tokens := []) else m[id]
  }

  /** Sessions were touched at different times. */
  ghost predicate DistinctTimes(m: SessionMap) {
    forall a, b :: a in m && b in m && m[a].lastUsed == m[b].lastUsed ==> a == b
  }

  /** `a` is the most recently used of `ids`. */
  ghost predicate IsLatest(m: SessionMap, ids: set<Id>, a: Id)
    requires ids <= m.Keys
  {
    a in ids && forall b :: b in ids ==> m[b].lastUsed <= m[a].lastUsed
  }

  /** What the budget drops: the least recently used parked contexts, as few as will do. */
  ghost predicate IsBudgetDrop(m: SessionMap, perToken: nat, budget: nat, dropped: set<Id>) {
    && dropped <= Parked(m)
    && (forall a, b :: a in dropped && b in Parked(m) - dropped ==> m[a].lastUsed < m[b].lastUsed)
    && SumBytes(m, Parked(m) - dropped, perToken) <= budget
    && (forall a :: IsLatest(m, dropped, a) ==>
         SumBytes(m, Parked(m) - dropped, perToken) + Bytes(m[a], perToken) > budget)
  }

  /** The most recently used member of a set. */
  lemma {:induction false} Latest(m: SessionMap, ids: set<Id>) returns (a: Id)
    requires ids <= m.Keys && ids != {}
    ensures IsLatest(m, ids, a)
    decreases |ids|
  {
    var x :| x in ids;
    if ids == {x} {
      a := x;
    } else {
      var y := Latest(m, ids - {x});
      a := if m[x].lastUsed <= m[y].lastUsed then y else x;
      forall b | b in ids
        ensures m[b].lastUsed <= m[a].lastUsed
      {
        assert b == x || b in ids - {x};
      }
    }
  }

  lemma {:induction false} SumMonotone(m: SessionMap, small: set<Id>, big: set<Id>, perToken: nat)
    requires small <= big <= m.Keys
    ensures SumBytes(m, small, perToken) <= SumBytes(m, big, perToken)
    decreases |small|
  {
    if small != {} {
      var x :| x in small;
      SumWithout(m, small, perToken, x);
      SumWithout(m, big, perToken, x);
      SumMonotone(m, small - {x}, big - {x}, perToken);
    }
  }

  /** If one drop is contained in another they are the same: dropping more than needed
      would contradict the larger one's last victim. */
  lemma NestedDropsEqual(m: SessionMap, perToken: nat, budget: nat, d: set<Id>, e: set<Id>)
    requires IsBudgetDrop(m, perToken, budget, d) && IsBudgetDrop(m, perToken, budget, e) && d <= e
    ensures d == e
  {
    if !(e <= d) {
      var b :| b in e && b !in d;
      assert forall x :: x in d ==> m[x].lastUsed < m[b].lastUsed;
      var a := Latest(m, e);
      OneMoreFits(m, perToken, Parked(m) - e, a, Parked(m) - d);
      hide SumBytes;
    }
  }

  lemma OneMoreFits(m: SessionMap, perToken: nat, left: set<Id>, a: Id, big: set<Id>)
    requires left <= big <= m.Keys && a in big && a !in left
    ensures SumBytes(m, left, perToken) + Bytes(m[a], perToken) <= SumBytes(m, big, perToken)
  {
    SumWithout(m, left + {a}, perToken, a);
    assert left + {a} - {a} == left;
    SumMonotone(m, left + {a}, big, perToken);
  }

  /** Drops are cut off by age, so one of two always contains the other. */
  lemma DropsAreNested(m: SessionMap, perToken: nat, budget: nat, d: set<Id>, e: set<Id>)
    requires IsBudgetDrop(m, perToken, budget, d) && IsBudgetDrop(m, perToken, budget, e)
    ensures d <= e || e <= d
  {
    if !(d <= e) {
      var a :| a in d && a !in e;
      forall b | b in e
        ensures b in d
      {
        assert a in Parked(m) - e;
        assert m[b].lastUsed < m[a].lastUsed;
      }
    }
  }

  /** The budget's choice is determined: it cannot depend on the order a hash map happens
      to be iterated in. */
  lemma BudgetDropIsUnique(m: SessionMap, perToken: nat, budget: nat, d: set<Id>, e: set<Id>)
    requires IsBudgetDrop(m, perToken, budget, d) && IsBudgetDrop(m, perToken, budget, e)
    ensures d == e
  {
    DropsAreNested(m, perToken, budget, d, e);
    if d <= e {
      NestedDropsEqual(m, perToken, budget, d, e);
    } else {
      NestedDropsEqual(m, perToken, budget, e, d);
    }
  }

  // ------------------------------------------------------------------ invariants

  /** Slots and owners name each other. `busy` is a session in the middle of `acquire`,
      whose blob has been taken out and whose slot is not yet recorded. */
  ghost predicate Owned(m: SessionMap, owner: seq<Option<Id>>, busy: Option<Id>) {
    && (forall i :: 0 <= i < |owner| && owner[i].Some? && owner[i] != busy ==>
          owner[i].value in m && m[owner[i].value].slot == Some(i + 1))
    && (forall id :: id in m && m[id].slot.Some? ==>
          1 <= m[id].slot.value <= |owner| && owner[m[id].slot.value - 1] == Some(id))
  }

  /** Parked contexts have no slot, and their size is that of their tokens; a context
      without a slot that still claims tokens has them parked. */
  ghost predicate ParkedClean(m: SessionMap, busy: Option<Id>) {
    && (forall id :: id in m && m[id].parked.Some? ==>
          m[id].slot.None? && m[id].parked.value.len == |m[id].tokens| > 0)
    && (forall id :: id in m && m[id].slot.None? && m[id].tokens != [] && Some(id) != busy ==> m[id].parked.Some?)
  }

  ghost predicate Timed(m: SessionMap, clock: nat) {
    (forall id :: id in m ==> m[id].lastUsed <= clock) && DistinctTimes(m)
  }

  ghost predicate Structure(m: SessionMap, owner: seq<Option<Id>>, clock: nat, busy: Option<Id>) {
    Owned(m, owner, busy) && ParkedClean(m, busy) && Timed(m, clock)
  }

  ghost predicate BlobHolds(net: Net, b: D.Blob, toks: seq<nat>) {
    && NetOk(net) && D.BlobShape(net, b) && b.len == |toks|
    && forall l :: 0 <= l < net.layers ==> b.rows[l] == Context(net, toks, l)
  }

  ghost predicate SessionHolds(net: Net, kv: Kv, maxSeq: nat, s: Session) {
    && |s.tokens| <= maxSeq
    && (s.slot.Some? ==> Holds(net, kv, s.slot.value, s.tokens))
    && (s.parked.Some? ==> BlobHolds(net, s.parked.value, s.tokens))
  }

  /** Every session's KV, in its slot or parked, is that of its tokens. */
  ghost predicate Content(net: Net, kv: Kv, maxSeq: nat, m: SessionMap) {
    forall id :: id in m ==> SessionHolds(net, kv, maxSeq, m[id])
  }

  /** What a resident session has. */
  lemma ResidentFacts(net: Net, kv: Kv, maxSeq: nat, m: SessionMap, owner: seq<Option<Id>>, clock: nat,
                      busy: Option<Id>, id: Id)
    requires Structure(m, owner, clock, busy) && Content(net, kv, maxSeq, m) && id in m && m[id].slot.Some?
    ensures 1 <= m[id].slot.value <= |owner| && m[id].parked.None? && |m[id].tokens| <= maxSeq
    ensures Holds(net, kv, m[id].slot.value, m[id].tokens)
  {
    hide Holds;
    hide BlobHolds;
    hide Timed;
    assert SessionHolds(net, kv, maxSeq, m[id]);
  }

  lemma OwnerIsResident(m: SessionMap, owner: seq<Option<Id>>, clock: nat, busy: Option<Id>, j: nat)
    requires Structure(m, owner, clock, busy) && j < |owner| && owner[j].Some? && owner[j] != busy
    ensures owner[j].value in m && m[owner[j].value].slot == Some(j + 1)
  {
    hide Timed;
  }

  /** The owners are sessions, and none was used before `v`. */
  ghost predicate Oldest(m: SessionMap, owner: seq<Option<Id>>, v: Id) {
    && v in m
    && forall i :: 0 <= i < |owner| && owner[i].Some? ==>
                     owner[i].value in m && m[v].lastUsed <= m[owner[i].value].lastUsed
  }

  lemma OldestOwnerIsOldest(m: SessionMap, owner: seq<Option<Id>>, clock: nat, busy: Option<Id>, v: Id)
    requires Structure(m, owner, clock, busy) && OldestOwner(m, owner, v) && v in m
    requires forall i :: 0 <= i < |owner| ==> owner[i].Some? && owner[i] != busy
    ensures Oldest(m, owner, v)
  {
    hide Timed;
    hide ParkedClean;
  }

  // ------------------------------------------------------ the loop of the budget

  /** What the budget loop has done so far: dropped the oldest, and each while over budget. */
  ghost predicate DropState(m: SessionMap, now: SessionMap, perToken: nat, budget: nat, dropped: set<Id>) {
    && DistinctTimes(m) && now == DropAll(m, dropped) && dropped <= Parked(m)
    && (forall a, b :: a in dropped && b in Parked(m) - dropped ==> m[a].lastUsed < m[b].lastUsed)
    && (forall a :: IsLatest(m, dropped, a) ==>
         SumBytes(m, Parked(m) - dropped, perToken) + Bytes(m[a], perToken) > budget)
  }

  lemma ParkedAfterDrop(m: SessionMap, perToken: nat, dropped: set<Id>)
    requires dropped <= Parked(m)
    ensures Parked(DropAll(m, dropped)) == Parked(m) - dropped
    ensures ParkedBytes(DropAll(m, dropped), perToken) == SumBytes(m, Parked(m) - dropped, perToken)
  {
    var now := DropAll(m, dropped);
    SumIgnoresUnparked(now, now.Keys, perToken);
    assert Parked(now) == set id | id in now.Keys && now[id].parked.Some?;
    SumSame(m, now, Parked(m) - dropped, perToken);
  }

  lemma NothingParked(m: SessionMap, perToken: nat)
    requires Parked(m) == {}
    ensures ParkedBytes(m, perToken) == 0
  {
    SumIgnoresUnparked(m, m.Keys, perToken);
    assert Parked(m) == set id | id in m.Keys && m[id].parked.Some?;
  }

  /** A parked session loses its KV, and with it its tokens. */
  function Unpark(m: SessionMap, id: Id): SessionMap
    requires id in m
  {
    m[id := m[id].(parked := None, tokens := [])]
  }

  lemma OneFewerParked(m: SessionMap, id: Id)
    requires id in Parked(m)
    ensures |Parked(Unpark(m, id))| < |Parked(m)|
  {
    assert Parked(Unpark(m, id)) == Parked(m) - {id};
  }

  /** The oldest parked session is older than every other one left. */
  lemma OldestComesNext(m: SessionMap, dropped: set<Id>, id: Id)
    requires DistinctTimes(m) && dropped <= Parked(m) && id in Parked(m) - dropped
    requires forall x :: x in Parked(m) - dropped ==> m[id].lastUsed <= m[x].lastUsed
    requires forall a, b :: a in dropped && b in Parked(m) - dropped ==> m[a].lastUsed < m[b].lastUsed
    ensures forall a, b :: a in dropped + {id} && b in Parked(m) - (dropped + {id}) ==> m[a].lastUsed < m[b].lastUsed
    ensures forall a :: a in dropped ==> m[a].lastUsed < m[id].lastUsed
  {
    forall a, b | a in dropped + {id} && b in Parked(m) - (dropped + {id})
      ensures m[a].lastUsed < m[b].lastUsed
    {
      assert b in Parked(m) - dropped && b != id;
      if a == id {
        assert m[id].lastUsed <= m[b].lastUsed && m[id].lastUsed != m[b].lastUsed;
      }
    }
  }

  lemma DropOneMore(m: SessionMap, perToken: nat, dropped: set<Id>, id: Id)
    requires dropped <= Parked(m) && id in Parked(m) - dropped
    ensures Unpark(DropAll(m, dropped), id) == DropAll(m, dropped + {id})
    ensures SumBytes(m, Parked(m) - (dropped + {id}), perToken) + Bytes(m[id], perToken)
        == SumBytes(m, Parked(m) - dropped, perToken)
  {
    SumWithout(m, Parked(m) - dropped, perToken, id);
    assert Parked(m) - (dropped + {id}) == Parked(m) - dropped - {id};
  }

  lemma DropOldest(m: SessionMap, now: SessionMap, perToken: nat, budget: nat, dropped: set<Id>, id: Id)
    requires DropState(m, now, perToken, budget, dropped) && ParkedBytes(now, perToken) > budget
    requires id in Parked(now) && forall x :: x in Parked(now) ==> now[id].lastUsed <= now[x].lastUsed
    ensures DropState(m, Unpark(now, id), perToken, budget, dropped + {id})
  {
    ParkedAfterDrop(m, perToken, dropped);
    assert id in m;
    DropOneMore(m, perToken, dropped, id);
    assert forall x :: x in Parked(m) - dropped ==> now[x] == m[x];
    OldestComesNext(m, dropped, id);
    var sum := SumBytes(m, Parked(m) - (dropped + {id}), perToken) + Bytes(m[id], perToken);
    assert sum > budget;
    hide SumBytes;
    hide Bytes;
    hide DropAll;
    hide ParkedBytes;
    hide DistinctTimes;
    hide Unpark;
    hide IsLatest;
    forall a | IsLatest(m, dropped + {id}, a)
      ensures a == id
    {
      NewestVictim(m, dropped, id, a);
    }
  }

  lemma NewestVictim(m: SessionMap, dropped: set<Id>, id: Id, a: Id)
    requires dropped + {id} <= m.Keys && IsLatest(m, dropped + {id}, a)
    requires forall x :: x in dropped ==> m[x].lastUsed < m[id].lastUsed
    ensures a == id
  {
    assert m[id].lastUsed <= m[a].lastUsed;
  }

  lemma DropEnds(m: SessionMap, now: SessionMap, perToken: nat, budget: nat, dropped: set<Id>)
    requires DropState(m, now, perToken, budget, dropped) && ParkedBytes(now, perToken) <= budget
    ensures IsBudgetDrop(m, perToken, budget, dropped)
  {
    ParkedAfterDrop(m, perToken, dropped);
  }

  // ------------------------------------------------------- updates of the structure

  /** Session `id` gives up its slot; `blob` is its KV, if it has any tokens. */
  function ParkOne(m: SessionMap, id: Id, blob: Option<D.Blob>): SessionMap
    requires id in m
  {
    m[id := m[id].(parked := blob, slot := None)]
  }

  lemma TimedSame(m: SessionMap, m': SessionMap, clock: nat)
    requires Timed(m, clock) && m'.Keys == m.Keys
    requires forall id :: id in m ==> m'[id].lastUsed == m[id].lastUsed
    ensures Timed(m', clock)
  {
  }

  lemma OwnedSame(m: SessionMap, m': SessionMap, owner: seq<Option<Id>>, busy: Option<Id>, busy': Option<Id>)
    requires Owned(m, owner, busy) && (busy' == busy || busy == None)
    requires m'.Keys == m.Keys && forall id :: id in m ==> m'[id].slot == m[id].slot
    ensures Owned(m', owner, busy')
  {
  }

  lemma ParkStructure(m: SessionMap, owner: seq<Option<Id>>, clock: nat, busy: Option<Id>, id: Id, blob: Option<D.Blob>)
    requires Structure(m, owner, clock, busy) && id in m && m[id].slot.Some? && Some(id) != busy
    requires if m[id].tokens == [] then blob == None else blob.Some? && blob.value.len == |m[id].tokens|
    ensures 1 <= m[id].slot.value <= |owner|
    ensures Structure(ParkOne(m, id, blob), owner[m[id].slot.value - 1 := None], clock, busy)
  {
    TimedSame(m, ParkOne(m, id, blob), clock);
    hide Timed;
  }

  lemma DropStructure(m: SessionMap, owner: seq<Option<Id>>, clock: nat, busy: Option<Id>, dropped: set<Id>)
    requires Structure(m, owner, clock, busy) && dropped <= Parked(m)
    ensures Structure(DropAll(m, dropped), owner, clock, busy)
  {
    TimedSame(m, DropAll(m, dropped), clock);
    OwnedSame(m, DropAll(m, dropped), owner, busy, busy);
    hide Timed;
    hide Owned;
  }

  /** A free slot is given to the busy session. */
  lemma ClaimStructure(m: SessionMap, owner: seq<Option<Id>>, clock: nat, id: Id, i: nat)
    requires Structure(m, owner, clock, Some(id)) && i < |owner| && owner[i] == None
    ensures Structure(m, owner[i := Some(id)], clock, Some(id))
  {
  }

  /** `acquire` starts: the session exists, is the latest, and its blob is in hand. */
  function Touch(m: SessionMap, id: Id, now: nat): SessionMap {
    if id in m then m[id := m[id].(lastUsed := now)]
    else m[id := Session([], None, None, now, 0)]
  }

  lemma TouchStructure(m: SessionMap, owner: seq<Option<Id>>, clock: nat, id: Id)
    requires Structure(m, owner, clock, None)
    ensures Structure(Touch(m, id, clock + 1), owner, clock + 1, None)
  {
    hide Timed;
    hide Owned;
    TouchTimed(m, clock, id);
    TouchOwned(m, owner, id, clock + 1);
  }

  lemma TouchOwned(m: SessionMap, owner: seq<Option<Id>>, id: Id, now: nat)
    requires Owned(m, owner, None)
    ensures Owned(Touch(m, id, now), owner, None)
  {
  }

  lemma TouchTimed(m: SessionMap, clock: nat, id: Id)
    requires Timed(m, clock)
    ensures Timed(Touch(m, id, clock + 1), clock + 1)
  {
    var t := Touch(m, id, clock + 1);
    forall a, b | a in t && b in t && t[a].lastUsed == t[b].lastUsed
      ensures a == b
    {
      assert a != id ==> t[a].lastUsed <= clock;
      assert b != id ==> t[b].lastUsed <= clock;
    }
  }

  lemma TakeStructure(m: SessionMap, owner: seq<Option<Id>>, clock: nat, id: Id)
    requires Structure(m, owner, clock, None) && id in m && m[id].slot.None?
    ensures Structure(TakeBlob(m, id), owner, clock, Some(id))
    ensures forall i :: 0 <= i < |owner| ==> owner[i] != Some(id)
  {
    TimedSame(m, TakeBlob(m, id), clock);
    hide Timed;
    OwnedSame(m, TakeBlob(m, id), owner, None, Some(id));
  }

  /** `acquire` ends: the session has the slot and claims only what it may reuse. */
  lemma SettleStructure(m: SessionMap, owner: seq<Option<Id>>, clock: nat, id: Id, slot: nat, tokens: seq<nat>)
    requires Structure(m, owner, clock, Some(id)) && id in m && m[id].parked.None?
    requires 1 <= slot <= |owner| && owner[slot - 1] == Some(id)
    requires forall i :: 0 <= i < |owner| && owner[i] == Some(id) ==> i == slot - 1
    requires m[id].slot.None? || m[id].slot == Some(slot)
    ensures Structure(Settle(m, id, slot, tokens), owner, clock, None)
  {
    TimedSame(m, Settle(m, id, slot, tokens), clock);
    hide Timed;
    hide Owned;
    hide ParkedClean;
    SettleOwned(m, owner, id, slot, tokens);
    SettleParked(m, id, slot, tokens);
    hide Settle;
  }

  lemma SettleOwned(m: SessionMap, owner: seq<Option<Id>>, id: Id, slot: nat, tokens: seq<nat>)
    requires Owned(m, owner, Some(id)) && id in m && 1 <= slot <= |owner| && owner[slot - 1] == Some(id)
    requires forall i :: 0 <= i < |owner| && owner[i] == Some(id) ==> i == slot - 1
    ensures Owned(Settle(m, id, slot, tokens), owner, None)
  {
    var t := Settle(m, id, slot, tokens);
    assert forall x :: x in m && x != id ==> t[x] == m[x];
    forall i | 0 <= i < |owner| && owner[i].Some?
      ensures owner[i].value in t && t[owner[i].value].slot == Some(i + 1)
    {
      if owner[i] == Some(id) {
        assert i == slot - 1;
      }
    }
  }

  lemma SettleParked(m: SessionMap, id: Id, slot: nat, tokens: seq<nat>)
    requires ParkedClean(m, Some(id)) && id in m && m[id].parked.None?
    ensures ParkedClean(Settle(m, id, slot, tokens), None)
  {
  }

  // --------------------------------------------------------- updates of the content

  lemma ExportedBlobHolds(net: Net, kv: Kv, slot: nat, toks: seq<nat>, b: D.Blob)
    requires Holds(net, kv, slot, toks) && D.BlobShape(net, b) && b.len == |toks|
    requires forall l :: 0 <= l < net.layers ==> b.rows[l] == kv[l][slot][..|toks|]
    ensures BlobHolds(net, b, toks)
  {
  }

  /** Importing a parked context restores it, in any slot. */
  lemma ImportedBlobHolds(net: Net, kv: Kv, kv': Kv, slot: nat, toks: seq<nat>, b: D.Blob)
    requires BlobHolds(net, b, toks) && |kv| == |kv'| == net.layers
    requires forall l :: 0 <= l < net.layers ==>
                           slot < |kv[l]| && |toks| <= |kv[l][slot]|
                           && kv'[l] == kv[l][slot := b.rows[l] + kv[l][slot][|toks|..]]
    ensures Holds(net, kv', slot, toks)
  {
    hide Context;
    forall l | 0 <= l < net.layers
      ensures slot < |kv'[l]| && |toks| <= |kv'[l][slot]| && kv'[l][slot][..|toks|] == Context(net, toks, l)
    {
      assert kv'[l][slot] == b.rows[l] + kv[l][slot][|toks|..];
      assert |b.rows[l]| == |toks|;
    }
  }

  lemma DropContent(net: Net, kv: Kv, maxSeq: nat, m: SessionMap, dropped: set<Id>)
    requires Content(net, kv, maxSeq, m) && dropped <= Parked(m)
    requires forall id :: id in m && m[id].parked.Some? ==> m[id].slot.None?
    ensures Content(net, kv, maxSeq, DropAll(m, dropped))
  {
    hide Holds;
    hide BlobHolds;
    forall id | id in m
      ensures SessionHolds(net, kv, maxSeq, DropAll(m, dropped)[id])
    {
      assert SessionHolds(net, kv, maxSeq, m[id]);
    }
  }

  lemma ParkContent(net: Net, kv: Kv, maxSeq: nat, m: SessionMap, id: Id, blob: Option<D.Blob>)
    requires Content(net, kv, maxSeq, m) && id in m
    requires blob.Some? ==> BlobHolds(net, blob.value, m[id].tokens)
    ensures Content(net, kv, maxSeq, ParkOne(m, id, blob))
  {
    hide Holds;
    hide BlobHolds;
    forall x | x in m
      ensures SessionHolds(net, kv, maxSeq, ParkOne(m, id, blob)[x])
    {
      assert SessionHolds(net, kv, maxSeq, m[x]);
    }
  }

  /** A committed session: the tokens its slot now holds, and one more turn. */
  function CommitOne(m: SessionMap, id: Id, tokens: seq<nat>, now: nat): SessionMap
    requires id in m
  {
    m[id := m[id].(tokens := tokens, turns := m[id].turns + 1, lastUsed := now)]
  }

  lemma CommitTimed(m: SessionMap, clock: nat, id: Id, tokens: seq<nat>)
    requires Timed(m, clock) && id in m
    ensures Timed(CommitOne(m, id, tokens, clock + 1), clock + 1)
  {
    var t := CommitOne(m, id, tokens, clock + 1);
    forall a, b | a in t && b in t && t[a].lastUsed == t[b].lastUsed
      ensures a == b
    {
      assert a != id ==> t[a].lastUsed <= clock;
      assert b != id ==> t[b].lastUsed <= clock;
    }
  }

  lemma CommitStructure(m: SessionMap, owner: seq<Option<Id>>, clock: nat, id: Id, tokens: seq<nat>)
    requires Structure(m, owner, clock, None) && id in m && m[id].slot.Some?
    ensures Structure(CommitOne(m, id, tokens, clock + 1), owner, clock + 1, None)
  {
    hide Timed;
    CommitTimed(m, clock, id, tokens);
  }

  lemma CommitContent(net: Net, kv: Kv, maxSeq: nat, m: SessionMap, id: Id, tokens: seq<nat>, now: nat)
    requires Content(net, kv, maxSeq, m) && id in m && m[id].slot.Some? && m[id].parked.None?
    requires |tokens| <= maxSeq && Holds(net, kv, m[id].slot.value, tokens)
    ensures Content(net, kv, maxSeq, CommitOne(m, id, tokens, now))
  {
    hide Holds;
    hide BlobHolds;
    forall x | x in m
      ensures SessionHolds(net, kv, maxSeq, CommitOne(m, id, tokens, now)[x])
    {
      assert SessionHolds(net, kv, maxSeq, m[x]);
    }
  }

  lemma ForgetStructure(m: SessionMap, owner: seq<Option<Id>>, clock: nat, id: Id)
    requires Structure(m, owner, clock, None) && id in m
    ensures m[id].slot.Some? ==> 1 <= m[id].slot.value <= |owner|
    ensures Structure(m - {id}, if m[id].slot.Some? then owner[m[id].slot.value - 1 := None] else owner, clock, None)
  {
    ForgetTimed(m, clock, id);
    hide Timed;
  }

  lemma ForgetTimed(m: SessionMap, clock: nat, id: Id)
    requires Timed(m, clock)
    ensures Timed(m - {id}, clock)
  {
  }

  lemma LaterClock(m: SessionMap, owner: seq<Option<Id>>, clock: nat)
    requires Structure(m, owner, clock, None)
    ensures Structure(m, owner, clock + 1, None)
  {
  }

  function LastUsed(m: SessionMap, id: Id): nat {
    if id in m then m[id].lastUsed else 0
  }

  /** Parking session `id`, which has a slot: the slot is free, the blob is kept, and
      older parked contexts may go over the budget and be dropped. */
  ghost predicate ParkOutcome(m: SessionMap, owner: seq<Option<Id>>, m': SessionMap, owner': seq<Option<Id>>, id: Id,
                              perToken: nat, budget: nat, blob: Option<D.Blob>, dropped: set<Id>) {
    && id in m && m[id].slot.Some? && 1 <= m[id].slot.value <= |owner|
    && owner' == owner[m[id].slot.value - 1 := None]
    && m' == DropAll(ParkOne(m, id, blob), dropped)
    && IsBudgetDrop(ParkOne(m, id, blob), perToken, budget, dropped)
  }

  /** A session before and after others were given slots. One that had to make room has no
      slot now and `blob` instead; one the budget dropped has lost its KV and its tokens;
      all else is as it was. */
  ghost predicate Beside(was: Session, now: Session, madeRoom: bool, blob: Option<D.Blob>, dropped: bool) {
    && now.lastUsed == was.lastUsed && now.turns == was.turns
    && now.slot == (if madeRoom then None else was.slot)
    && now.tokens == (if dropped then [] else was.tokens)
    && now.parked == (if dropped then None else if madeRoom then blob else was.parked)
  }

  /** `blob` is slot `slot`'s rows for `len` tokens; there is none for no tokens. */
  ghost predicate IsCopy(net: Net, kv: Kv, slot: nat, len: nat, blob: Option<D.Blob>) {
    if len == 0 then blob == None
    else
      && blob.Some? && blob.value.len == len && |blob.value.rows| == net.layers == |kv|
      && forall l :: 0 <= l < net.layers ==>
                       slot < |kv[l]| && len <= |kv[l][slot]| && blob.value.rows[l] == kv[l][slot][..len]
  }

  lemma ParkedBeside(m: SessionMap, owner: seq<Option<Id>>, m': SessionMap, owner': seq<Option<Id>>, id: Id,
                     perToken: nat, budget: nat, blob: Option<D.Blob>, dropped: set<Id>)
    requires ParkOutcome(m, owner, m', owner', id, perToken, budget, blob, dropped)
    ensures m'.Keys == m.Keys && forall x :: x in m ==> Beside(m[x], m'[x], x == id, blob, x in dropped)
  {
  }

  lemma ClaimedBeside(m: SessionMap, owner: seq<Option<Id>>, m': SessionMap, owner': seq<Option<Id>>,
                      perToken: nat, budget: nat, forId: Id,
                      slot: nat, victim: Option<Id>, blob: Option<D.Blob>, dropped: set<Id>)
    requires ClaimOutcome(m, owner, m', owner', perToken, budget, forId, slot, victim, blob, dropped)
    ensures m'.Keys == m.Keys && forall x :: x in m ==> Beside(m[x], m'[x], Some(x) == victim, blob, x in dropped)
  {
    if victim.Some? {
      ParkedBeside(m, owner, m', owner[slot - 1 := None], victim.value, perToken, budget, blob, dropped);
    }
    hide ParkOutcome;
  }

  /** No owner was used less recently than `v`. */
  ghost predicate OldestOwner(m: SessionMap, owner: seq<Option<Id>>, v: Id) {
    forall i :: 0 <= i < |owner| && owner[i].Some? ==> LastUsed(m, v) <= LastUsed(m, owner[i].value)
  }

  /** How a slot was found: free, or taken from the least recently used owner when all
      were taken. */
  ghost predicate ClaimOutcome(m: SessionMap, owner: seq<Option<Id>>, m': SessionMap, owner': seq<Option<Id>>,
                               perToken: nat, budget: nat, forId: Id,
                               slot: nat, victim: Option<Id>, blob: Option<D.Blob>, dropped: set<Id>) {
    && 1 <= slot <= |owner| && owner' == owner[slot - 1 := Some(forId)]
    && match victim
       case None =>
         m' == m && dropped == {} && owner[slot - 1] == None && forall j :: 0 <= j < slot - 1 ==> owner[j].Some?
       case Some(v) =>
         && (forall i :: 0 <= i < |owner| ==> owner[i].Some?) && OldestOwner(m, owner, v)
         && v in m && m[v].slot == Some(slot)
         && ParkOutcome(m, owner, m', owner[slot - 1 := None], v, perToken, budget, blob, dropped)
  }

  /** A session with nothing parked is not affected by another one being parked. */
  lemma BystanderStays(m: SessionMap, owner: seq<Option<Id>>, m': SessionMap, owner': seq<Option<Id>>, v: Id,
                       perToken: nat, budget: nat, blob: Option<D.Blob>, dropped: set<Id>, id: Id)
    requires ParkOutcome(m, owner, m', owner', v, perToken, budget, blob, dropped)
    requires id in m && id != v && m[id].parked.None?
    ensures id in m' && m'[id] == m[id]
  {
    assert id !in dropped;
  }

  /** `acquire` ends: the session has the slot and claims exactly `tokens`. */
  function Settle(m: SessionMap, id: Id, slot: nat, tokens: seq<nat>): SessionMap
    requires id in m
  {
    m[id := m[id].(slot := Some(slot), tokens := tokens)]
  }

  function TakeBlob(m: SessionMap, id: Id): SessionMap
    requires id in m
  {
    m[id := m[id].(parked := None)]
  }

  /** Rows of every slot but `slot` are the same. */
  ghost predicate OnlySlot(net: Net, kv: Kv, kv': Kv, slot: nat) {
    && |kv| == |kv'| == net.layers
    && forall l :: 0 <= l < net.layers ==>
                     |kv'[l]| == |kv[l]| && forall u :: 0 <= u < |kv[l]| && u != slot ==> kv'[l][u] == kv[l][u]
  }

  lemma OtherSlotHolds(net: Net, kv: Kv, kv': Kv, slot: nat, u: nat, toks: seq<nat>)
    requires Holds(net, kv, u, toks) && OnlySlot(net, kv, kv', slot) && u != slot
    ensures Holds(net, kv', u, toks)
  {
    hide Context;
  }

  /** Writing into one slot leaves every session elsewhere sound. */
  lemma SettleContent(net: Net, kv: Kv, kv': Kv, maxSeq: nat, m: SessionMap, owner: seq<Option<Id>>, busy: Option<Id>,
                      id: Id, slot: nat, tokens: seq<nat>)
    requires Owned(m, owner, busy) && Content(net, kv, maxSeq, m) && id in m && m[id].parked.None?
    requires 1 <= slot <= |owner| && owner[slot - 1] == Some(id)
    requires OnlySlot(net, kv, kv', slot) && Holds(net, kv', slot, tokens) && |tokens| <= maxSeq
    ensures Content(net, kv', maxSeq, Settle(m, id, slot, tokens))
  {
    forall x | x in m
      ensures SessionHolds(net, kv', maxSeq, Settle(m, id, slot, tokens)[x])
    {
      assert SessionHolds(net, kv, maxSeq, m[x]);
      if x != id && m[x].slot.Some? {
        assert owner[m[x].slot.value - 1] == Some(x);
        OtherSlotHolds(net, kv, kv', slot, m[x].slot.value, m[x].tokens);
      }
    }
  }

  lemma TouchContent(net: Net, kv: Kv, maxSeq: nat, m: SessionMap, id: Id, now: nat)
    requires Content(net, kv, maxSeq, m)
    ensures Content(net, kv, maxSeq, Touch(m, id, now))
  {
    hide Holds;
    hide BlobHolds;
    forall x | x in Touch(m, id, now)
      ensures SessionHolds(net, kv, maxSeq, Touch(m, id, now)[x])
    {
      assert x in m ==> SessionHolds(net, kv, maxSeq, m[x]);
    }
  }

  lemma TakeContent(net: Net, kv: Kv, maxSeq: nat, m: SessionMap, id: Id)
    requires Content(net, kv, maxSeq, m) && id in m
    ensures Content(net, kv, maxSeq, TakeBlob(m, id))
  {
    hide Holds;
    hide BlobHolds;
    forall x | x in m
      ensures SessionHolds(net, kv, maxSeq, TakeBlob(m, id)[x])
    {
      assert SessionHolds(net, kv, maxSeq, m[x]);
    }
  }

  /** The longest prefix of `prompt` the stored tokens cover, leaving one token to run. */
  function Reusable(tokens: seq<nat>, prompt: seq<nat>): (n: nat)
    ensures LongestReuse(tokens, prompt, n)
  {
    var cp := CommonPrefix(tokens, prompt);
    var n := Min(cp, if prompt == [] then 0 else |prompt| - 1);
    assert tokens[..n] == tokens[..cp][..n] == prompt[..cp][..n] == prompt[..n];
    n
  }

  lemma ResumeStructure(m: SessionMap, owner: seq<Option<Id>>, clock: nat, id: Id, tokens: seq<nat>)
    requires Structure(m, owner, clock, None) && id in m && m[id].slot.Some?
    ensures Structure(Settle(m, id, m[id].slot.value, tokens), owner, clock, None)
  {
    TimedSame(m, Settle(m, id, m[id].slot.value, tokens), clock);
    OwnedSame(m, Settle(m, id, m[id].slot.value, tokens), owner, None, None);
    hide Timed;
    hide Owned;
  }

  /** `n` tokens of `prompt` are covered by `had`: as many as agree, short of the whole prompt. */
  ghost predicate LongestReuse(had: seq<nat>, prompt: seq<nat>, n: nat) {
    && n <= |had| && n <= |prompt| && had[..n] == prompt[..n]
    && if prompt == [] then n == 0
       else n < |prompt| && (n + 1 == |prompt| || n == |had| || had[n] != prompt[n])
  }

  function TokensOf(m: SessionMap, id: Id): seq<nat> {
    if id in m then m[id].tokens else []
  }

  /** What acquiring a slot does to the sessions: `id` has `slot`, the tokens it may reuse,
      and was used now; the others stand beside it. */
  ghost predicate Acquired(was: SessionMap, now: SessionMap, id: Id, slot: nat, tokens: seq<nat>, clock: nat,
                           victim: Option<Id>, blob: Option<D.Blob>, dropped: set<Id>) {
    && now.Keys == was.Keys + {id}
    && now[id] == Session(tokens, Some(slot), None, clock, if id in was then was[id].turns else 0)
    && forall x :: x in was && x != id ==> Beside(was[x], now[x], Some(x) == victim, blob, x in dropped)
  }

  /** Who had to make room for `id`, if anyone: the owner used least recently, when every
      slot had one, and `blob` is a copy of what was in its slot. */
  ghost predicate MadeRoom(net: Net, kv: Kv, was: SessionMap, owner: seq<Option<Id>>, slot: nat,
                           victim: Option<Id>, blob: Option<D.Blob>, dropped: set<Id>) {
    match victim
    case None => dropped == {}
    case Some(v) =>
      && (forall i :: 0 <= i < |owner| ==> owner[i].Some?) && Oldest(was, owner, v)
      && was[v].slot == Some(slot) && IsCopy(net, kv, slot, |was[v].tokens|, blob)
  }

  /** A touched session, its blob in hand. */
  lemma TakenFields(was: SessionMap, id: Id, clock: nat)
    ensures id in Touch(was, id, clock)
    ensures var m := TakeBlob(Touch(was, id, clock), id);
            && m.Keys == was.Keys + {id} && (forall x :: x in was && x != id ==> m[x] == was[x])
            && m[id].lastUsed == clock && m[id].parked == None && m[id].tokens == TokensOf(was, id)
            && m[id].turns == (if id in was then was[id].turns else 0)
  {
  }

  lemma ResumedFields(was: SessionMap, now: SessionMap, id: Id, slot: nat, tokens: seq<nat>, clock: nat)
    requires id in Touch(was, id, clock)
    requires now == Settle(Touch(was, id, clock), id, slot, tokens) && now[id].parked == None
    ensures Acquired(was, now, id, slot, tokens, clock, None, None, {})
  {
  }

  lemma ClaimedFields(was: SessionMap, owner: seq<Option<Id>>, m: SessionMap, mid: SessionMap,
                      owner': seq<Option<Id>>, id: Id, slot: nat, tokens: seq<nat>, clock: nat, perToken: nat,
                      budget: nat, victim: Option<Id>, blob: Option<D.Blob>, dropped: set<Id>)
    requires id in Touch(was, id, clock) && m == TakeBlob(Touch(was, id, clock), id)
    requires ClaimOutcome(m, owner, mid, owner', perToken, budget, id, slot, victim, blob, dropped)
    requires id in mid && mid[id] == m[id] && m[id].slot == None
    ensures Acquired(was, Settle(mid, id, slot, tokens), id, slot, tokens, clock, victim, blob, dropped)
  {
    TakenFields(was, id, clock);
    ClaimedBeside(m, owner, mid, owner', perToken, budget, id, slot, victim, blob, dropped);
    hide TakeBlob;
    hide Touch;
    hide ClaimOutcome;
    hide Beside;
  }

  lemma RoomFields(net: Net, kv: Kv, was: SessionMap, owner: seq<Option<Id>>, m: SessionMap, mid: SessionMap,
                   owner': seq<Option<Id>>, id: Id, slot: nat, clock: nat, perToken: nat, budget: nat,
                   victim: Option<Id>, blob: Option<D.Blob>, dropped: set<Id>)
    requires id in Touch(was, id, clock) && m == TakeBlob(Touch(was, id, clock), id) && m[id].slot == None
    requires ClaimOutcome(m, owner, mid, owner', perToken, budget, id, slot, victim, blob, dropped)
    requires forall i :: 0 <= i < |owner| ==> owner[i] != Some(id)
    requires victim.Some? ==> Oldest(m, owner, victim.value) && IsCopy(net, kv, slot, |m[victim.value].tokens|, blob)
    ensures MadeRoom(net, kv, was, owner, slot, victim, blob, dropped)
  {
    TakenFields(was, id, clock);
    hide TakeBlob;
    hide Touch;
    hide ParkOutcome;
    hide OldestOwner;
    hide IsCopy;
    if victim.Some? {
      assert victim.value != id;
    }
  }

  predicate HasSlot(m: SessionMap, id: Id) {
    id in m && m[id].slot.Some?
  }

  /** Everything `acquire` does when there are slots at all. */
  ghost predicate AcquireOutcome(net: Net, kv: Kv, kv': Kv, was: SessionMap, owner: seq<Option<Id>>, now: SessionMap,
                                 owner': seq<Option<Id>>, perToken: nat, budget: nat, clock: nat, id: Id,
                                 prompt: seq<nat>, slot: nat, reuse: nat, mid: SessionMap, victim: Option<Id>,
                                 blob: Option<D.Blob>, dropped: set<Id>) {
    && 1 <= slot <= |owner'| && owner'[slot - 1] == Some(id) && OnlySlot(net, kv, kv', slot)
    && LongestReuse(TokensOf(was, id), prompt, reuse) && reuse <= |prompt|
    && Acquired(was, now, id, slot, prompt[..reuse], clock, victim, blob, dropped)
    && MadeRoom(net, kv, was, owner, slot, victim, blob, dropped)
    && if HasSlot(was, id) then was[id].slot == Some(slot) && owner' == owner && kv' == kv
       else Claimed(was, owner, owner', perToken, budget, clock, id, slot, mid, victim, blob, dropped)
  }

  /** A session without a slot was given one. */
  ghost predicate Claimed(was: SessionMap, owner: seq<Option<Id>>, owner': seq<Option<Id>>, perToken: nat, budget: nat,
                          clock: nat, id: Id, slot: nat, mid: SessionMap, victim: Option<Id>, blob: Option<D.Blob>,
                          dropped: set<Id>) {
    && id in Touch(was, id, clock)
    && ClaimOutcome(TakeBlob(Touch(was, id, clock), id), owner, mid, owner', perToken, budget, id, slot, victim, blob,
                    dropped)
  }

  lemma OnlySlotSame(net: Net, kv: Kv, slot: nat)
    requires |kv| == net.layers
    ensures OnlySlot(net, kv, kv, slot)
  {
  }

  lemma ClaimedOutcome(net: Net, kv: Kv, kv': Kv, was: SessionMap, owner: seq<Option<Id>>, m: SessionMap,
                       owner': seq<Option<Id>>, perToken: nat, budget: nat, clock: nat, id: Id, prompt: seq<nat>,
                       slot: nat, reuse: nat, mid: SessionMap, victim: Option<Id>, blob: Option<D.Blob>,
                       dropped: set<Id>)
    requires id in Touch(was, id, clock) && m == TakeBlob(Touch(was, id, clock), id) && m[id].slot == None
    requires reuse == Reusable(TokensOf(was, id), prompt) && OnlySlot(net, kv, kv', slot)
    requires ClaimOutcome(m, owner, mid, owner', perToken, budget, id, slot, victim, blob, dropped)
    requires id in mid && mid[id] == m[id] && forall i :: 0 <= i < |owner| ==> owner[i] != Some(id)
    requires victim.Some? ==> Oldest(m, owner, victim.value) && IsCopy(net, kv, slot, |m[victim.value].tokens|, blob)
    ensures AcquireOutcome(net, kv, kv', was, owner, Settle(mid, id, slot, prompt[..reuse]), owner', perToken, budget,
                           clock, id, prompt, slot, reuse, mid, victim, blob, dropped)
  {
    ClaimedFields(was, owner, m, mid, owner', id, slot, prompt[..reuse], clock, perToken, budget, victim, blob,
                  dropped);
    RoomFields(net, kv, was, owner, m, mid, owner', id, slot, clock, perToken, budget, victim, blob, dropped);
    hide Acquired;
    hide MadeRoom;
    hide OnlySlot;
    hide LongestReuse;
    hide Settle;
    hide Oldest;
    hide IsCopy;
    hide ParkOutcome;
  }
}
