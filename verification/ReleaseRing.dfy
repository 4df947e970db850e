/** The deferred-release ring of the decoder (crates/llmpager-run/src/decode.rs:613-649,
    713-725): expert handles stay pinned until the compute stream has passed an event
    recorded after the kernels that read them. A small ring of events is reused.

    `step` synchronises the stream for its router before every request, so its ring never
    holds more than the batch of the layer before. */
module ReleaseRing {

  datatype Handle = Handle(layer: nat, slot: nat)

  /** Handles waiting for event `ev`. */
  datatype Batch = Batch(ev: nat, handles: seq<Handle>)

  datatype Ring = Ring(pending: seq<Batch>, next: nat, size: nat)

  function Succ(e: nat, size: nat): nat {
    if e + 1 == size then 0 else e + 1
  }

  /** The event of the oldest pending batch. */
  function First(r: Ring): int {
    if r.next >= |r.pending| then r.next - |r.pending| else r.next + r.size - |r.pending|
  }

  function Wrap(x: int, size: nat): int {
    if x >= size then x - size else x
  }

  /** Pending events are a window of the ring that ends just before `next`. */
  ghost predicate RingOk(r: Ring) {
    && 0 < r.size && r.next < r.size && |r.pending| <= r.size
    && forall i :: 0 <= i < |r.pending| ==> r.pending[i].ev == Wrap(First(r) + i, r.size)
  }

  /** The ring after `drained` finished batches left it and `handles` joined it. */
  function Defer(r: Ring, drained: nat, handles: seq<Handle>): Ring
    requires drained <= |r.pending|
  {
    var left := r.pending[drained..];
    var room := if |left| == r.size && |left| > 0 then left[1..] else left;
    Ring(room + [Batch(r.next, handles)], Succ(r.next, r.size), r.size)
  }

  function Flatten(bs: seq<Batch>): seq<Handle> {
    if bs == [] then [] else bs[0].handles + Flatten(bs[1..])
  }

  lemma {:induction false} FlattenAppend(bs: seq<Batch>, b: Batch)
    ensures Flatten(bs + [b]) == Flatten(bs) + b.handles
  {
    if bs == [] {
      assert [b][1..] == [];
      assert bs + [b] == [b];
      assert Flatten([b]) == b.handles + Flatten([b][1..]);
    } else {
      assert (bs + [b])[1..] == bs[1..] + [b];
      FlattenAppend(bs[1..], b);
    }
  }

  lemma DropFrontOk(r: Ring, n: nat)
    requires RingOk(r) && n <= |r.pending|
    ensures RingOk(r.(pending := r.pending[n..]))
  {
    var d := r.(pending := r.pending[n..]);
    forall i | 0 <= i < |d.pending|
      ensures d.pending[i].ev == Wrap(First(d) + i, d.size)
    {
      assert d.pending[i] == r.pending[n + i];
    }
  }

  lemma PushOk(r: Ring, handles: seq<Handle>)
    requires RingOk(r) && |r.pending| < r.size
    ensures RingOk(Ring(r.pending + [Batch(r.next, handles)], Succ(r.next, r.size), r.size))
    ensures forall i :: 0 <= i < |r.pending| ==> r.pending[i].ev != r.next
  {
  }

  /** The event a deferral records is never one a pending batch still waits on. */
  lemma DeferKeepsWindow(r: Ring, drained: nat, handles: seq<Handle>)
    requires RingOk(r) && drained <= |r.pending|
    ensures var d := Defer(r, drained, handles);
            && RingOk(d) && |d.pending| > 0 && d.pending[|d.pending| - 1] == Batch(r.next, handles)
            && (forall i :: 0 <= i < |d.pending| - 1 ==> d.pending[i].ev != r.next)
  {
    DropFrontOk(r, drained);
    var left := r.(pending := r.pending[drained..]);
    if |left.pending| == r.size {
      DropFrontOk(left, 1);
      PushOk(left.(pending := left.pending[1..]), handles);
    } else {
      PushOk(left, handles);
    }
  }

  // --------------------------------------------------------------- the decoder

  /** A CUDA stream: operations complete in the order they were enqueued, at any pace. */
  class Stream {
    var issued: nat
    var completed: nat

    ghost predicate Valid()
      reads this
    {
      completed <= issued
    }

    constructor ()
      ensures Valid() && issued == completed == 0
    {
      issued, completed := 0, 0;
    }

    /** Launch the kernels of one layer. */
    method Enqueue()
      requires Valid()
      modifies this
      ensures Valid() && issued == old(issued) + 1 && completed == old(completed)
    {
      issued := issued + 1;
    }

    /** Has the stream passed position `at`? Time may pass while asking. */
    method EventDone(at: nat) returns (done: bool)
      requires Valid() && at <= issued
      modifies this
      ensures Valid() && issued == old(issued) && old(completed) <= completed
      ensures done <==> at <= completed
    {
      var now :| completed <= now <= issued;
      completed := now;
      done := at <= completed;
    }

    /** Wait for everything enqueued so far. */
    method Sync()
      requires Valid()
      modifies this
      ensures Valid() && issued == old(issued) && completed == issued
    {
      completed := issued;
    }

    method SyncEvent(at: nat)
      requires Valid() && at <= issued
      modifies this
      ensures Valid() && issued == old(issued) && old(completed) <= completed && at <= completed
    {
      if completed < at {
        completed := at;
      }
    }
  }

  /** One release: the handle, where its kernels end in the stream, and how far the
      stream was when the pin was dropped. */
  datatype Released = Released(handle: Handle, kernelsEnd: nat, streamAt: nat)

  /** The stream has passed every one of these positions. */
  ghost predicate Passed(ends: seq<nat>, completed: nat) {
    forall i :: 0 <= i < |ends| ==> ends[i] <= completed
  }

  function HandlesOf(log: seq<Released>): seq<Handle> {
    seq(|log|, i requires 0 <= i < |log| => log[i].handle)
  }

  class Releaser {
    const stream: Stream
    const size: nat
    var pending: seq<Batch>
    var nextEvent: nat
    /** Stream position each event was last recorded at. */
    var recordedAt: seq<nat>
    /** Every handle ever deferred, in order. */
    ghost var deferred: seq<Handle>
    /** Where the kernels of each pending batch end. */
    ghost var ends: seq<nat>
    /** Every pin dropped, in order. */
    ghost var log: seq<Released>

    ghost function State(): Ring
      reads this
    {
      Ring(pending, nextEvent, size)
    }

    /** Pending batches know where their kernels end, and what is deferred is released
        or pending, in order, exactly once. */
    ghost predicate Valid()
      reads this, stream
    {
      && stream.Valid() && RingOk(State()) && |recordedAt| == size && |ends| == |pending|
      && (forall i :: 0 <= i < |pending| ==>
            pending[i].ev < size && recordedAt[pending[i].ev] == ends[i] <= stream.issued)
      && deferred == HandlesOf(log) + Flatten(pending)
      && (forall i :: 0 <= i < |log| ==> log[i].kernelsEnd <= log[i].streamAt <= stream.completed)
    }

    constructor (stream: Stream, size: nat)
      requires stream.Valid() && 0 < size
      ensures Valid() && this.stream == stream && this.size == size
      ensures pending == [] && deferred == [] && log == [] && nextEvent == 0
    {
      this.stream := stream;
      this.size := size;
      pending, nextEvent := [], 0;
      recordedAt := seq(size, _ => 0);
      deferred, ends, log := [], [], [];
    }

    /** Drop the pins of the oldest batch, whose event the stream has passed. */
    method ReleaseFront()
      requires Valid() && pending != [] && recordedAt[pending[0].ev] <= stream.completed
      modifies this
      ensures Valid() && pending == old(pending[1..]) && nextEvent == old(nextEvent)
      ensures deferred == old(deferred) && recordedAt == old(recordedAt) && ends == old(ends[1..])
      ensures HandlesOf(log) == old(HandlesOf(log) + pending[0].handles) && old(log) <= log
    {
      var b := pending[0];
      DropFrontOk(State(), 1);
      assert Flatten(pending) == b.handles + Flatten(pending[1..]);
      for i := 0 to |b.handles|
        invariant HandlesOf(log) == old(HandlesOf(log)) + b.handles[..i] && old(log) <= log
        invariant forall j :: 0 <= j < |log| ==> log[j].kernelsEnd <= log[j].streamAt <= stream.completed
        invariant pending == old(pending) && nextEvent == old(nextEvent) && deferred == old(deferred)
        invariant recordedAt == old(recordedAt) && ends == old(ends)
      {
        ghost var was := log;
        log := log + [Released(b.handles[i], ends[0], stream.completed)];
        assert HandlesOf(log) == HandlesOf(was) + [b.handles[i]];
        assert b.handles[..i + 1] == b.handles[..i] + [b.handles[i]];
      }
      assert b.handles[..|b.handles|] == b.handles;
      pending := pending[1..];
      ends := ends[1..];
    }

    /** Release every batch at the front whose event the stream has already passed. */
    method DrainDone() returns (ghost drained: nat)
      requires Valid()
      modifies this, stream
      ensures Valid() && drained <= |old(pending)| && pending == old(pending)[drained..]
      ensures drained < |old(pending)| ==> drained < |old(ends)| && old(stream.completed) < old(ends)[drained]
      ensures nextEvent == old(nextEvent) && deferred == old(deferred) && old(log) <= log
      ensures stream.issued == old(stream.issued) && old(stream.completed) <= stream.completed
    {
      drained := 0;
      while pending != []
        invariant Valid() && drained <= |old(pending)| && pending == old(pending)[drained..]
        invariant ends == old(ends)[drained..]
        invariant nextEvent == old(nextEvent) && deferred == old(deferred) && old(log) <= log
        invariant stream.issued == old(stream.issued) && old(stream.completed) <= stream.completed
        decreases |pending|
      {
        var done := stream.EventDone(recordedAt[pending[0].ev]);
        if !done {
          break;
        }
        ReleaseFront();
        drained := drained + 1;
      }
    }

    /** If the ring slot we want is still pending, wait it out. */
    method MakeRoom()
      requires Valid()
      modifies this, stream
      ensures Valid() && |pending| < size
      ensures pending == if |old(pending)| == size then old(pending)[1..] else old(pending)
      ensures nextEvent == old(nextEvent) && deferred == old(deferred) && old(log) <= log
      ensures stream.issued == old(stream.issued) && old(stream.completed) <= stream.completed
    {
      if |pending| == size {
        stream.SyncEvent(recordedAt[pending[0].ev]);
        ReleaseFront();
      }
    }

    /** Record the next event at the current end of the stream and queue the batch. */
    method Record(handles: seq<Handle>)
      requires Valid() && |pending| < size
      modifies this
      ensures Valid() && pending == old(pending) + [Batch(old(nextEvent), handles)]
      ensures nextEvent == Succ(old(nextEvent), size)
      ensures deferred == old(deferred) + handles && log == old(log)
      ensures ends == old(ends) + [stream.issued]
    {
      FlattenAppend(pending, Batch(nextEvent, handles));
      PushOk(State(), handles);
      var ev := nextEvent;
      nextEvent := Succ(nextEvent, size);
      recordedAt := recordedAt[ev := stream.issued];
      pending := pending + [Batch(ev, handles)];
      ends := ends + [stream.issued];
      deferred := deferred + handles;
    }

    /** Queue handles for release once the stream passes an event recorded now. */
    method DeferRelease(handles: seq<Handle>) returns (ghost drained: nat)
      requires Valid()
      modifies this, stream
      ensures Valid() && drained <= |old(pending)|
      ensures State() == Defer(old(State()), drained, handles)
      ensures var left := old(pending)[drained..];
              pending == (if |left| == size then left[1..] else left) + [Batch(old(nextEvent), handles)]
      ensures nextEvent == if old(nextEvent) + 1 == size then 0 else old(nextEvent) + 1
      ensures Passed(old(ends), old(stream.completed)) ==> drained == |old(pending)|
      ensures deferred == old(deferred) + handles && old(log) <= log
      ensures stream.issued == old(stream.issued) && old(stream.completed) <= stream.completed
      ensures |ends| > 0 && ends[|ends| - 1] == stream.issued
    {
      drained := DrainDone();
      MakeRoom();
      Record(handles);
    }

    /** The end of a layer: launch its kernels, then defer the release of its experts. A pin
        is not dropped before the stream has passed these kernels. */
    method FinishLayer(handles: seq<Handle>) returns (ghost drained: nat)
      requires Valid()
      modifies this, stream
      ensures Valid() && drained <= |old(pending)|
      ensures State() == Defer(old(State()), drained, handles)
      ensures var left := old(pending)[drained..];
              pending == (if |left| == size then left[1..] else left) + [Batch(old(nextEvent), handles)]
      ensures nextEvent == if old(nextEvent) + 1 == size then 0 else old(nextEvent) + 1
      ensures Passed(old(ends), old(stream.completed)) ==> drained == |old(pending)|
      ensures deferred == old(deferred) + handles && old(log) <= log
      ensures stream.issued == old(stream.issued) + 1 && |ends| > 0 && ends[|ends| - 1] == stream.issued
    {
      stream.Enqueue();
      drained := DeferRelease(handles);
    }

    /** One layer of `step`: launch attention and the router, wait for the router's logits,
        request the picked experts, launch their kernels, defer their release. By then
        every earlier batch is done, so only this layer's stays pinned. */
    method StepLayer(handles: seq<Handle>)
      requires Valid()
      modifies this, stream
      ensures Valid() && State() == Defer(old(State()), |old(pending)|, handles)
      ensures pending == [Batch(old(nextEvent), handles)]
      ensures nextEvent == if old(nextEvent) + 1 == size then 0 else old(nextEvent) + 1
      ensures deferred == old(deferred) + handles && old(log) <= log
    {
      stream.Enqueue();
      stream.Sync();
      var _ := FinishLayer(handles);
    }

    /** Release everything still queued, waiting on each event first. */
    method Flush()
      requires Valid()
      modifies this, stream
      ensures Valid() && pending == [] && nextEvent == old(nextEvent)
      ensures deferred == old(deferred) == HandlesOf(log) && old(log) <= log
      ensures stream.issued == old(stream.issued) && old(stream.completed) <= stream.completed
    {
      while pending != []
        invariant Valid() && nextEvent == old(nextEvent) && deferred == old(deferred) && old(log) <= log
        invariant stream.issued == old(stream.issued) && old(stream.completed) <= stream.completed
        decreases |pending|
      {
        stream.SyncEvent(recordedAt[pending[0].ev]);
        ReleaseFront();
      }
    }
  }

  // ------------------------------------------------------------------- runs

  /** The layer the `n`-th batch of consecutive `step` calls belongs to. */
  function LayerOf(n: nat, layers: nat): (l: nat)
    requires 0 < layers
    ensures l < layers
  {
    if n == 0 then 0 else Succ(LayerOf(n - 1, layers), layers)
  }

  /** Every handle of the `n`-th batch is in that layer's pool. */
  ghost predicate LayerBatch(layers: nat, n: nat, handles: seq<Handle>)
    requires 0 < layers
  {
    forall h :: h in handles ==> h.layer == LayerOf(n, layers)
  }

  /** A ring after `n` layers of a client that need not sync, from an empty ring wherever its
      next event is: a flush empties the ring and leaves the event. `drains[i]` says how many
      batches had finished when layer `i` deferred, `picks[i]` which handles it deferred. */
  ghost predicate RingAfter(size: nat, layers: nat, drains: seq<nat>, picks: seq<seq<Handle>>, n: nat, r: Ring)
    requires 0 < layers && n <= |drains| == |picks|
    decreases n, 1
  {
    if n == 0 then r.pending == [] && r.next < size && r.size == size
    else LayerBatch(layers, n - 1, picks[n - 1]) && ExtendsRing(size, layers, drains, picks, n, r)
  }

  ghost predicate ExtendsRing(size: nat, layers: nat, drains: seq<nat>, picks: seq<seq<Handle>>, n: nat, r: Ring)
    requires 0 < layers && 0 < n <= |drains| == |picks|
    decreases n, 0
  {
    exists q :: RingAfter(size, layers, drains, picks, n - 1, q)
                && drains[n - 1] <= |q.pending| && r == Defer(q, drains[n - 1], picks[n - 1])
  }

  /** The ring holds the batches of the latest layers, and no older ones. */
  lemma {:induction false} RingHoldsLatest(size: nat, layers: nat, drains: seq<nat>, picks: seq<seq<Handle>>, n: nat,
                                           r: Ring)
    requires 0 < layers && 0 < size && n <= |drains| == |picks| && RingAfter(size, layers, drains, picks, n, r)
    ensures RingOk(r) && r.size == size && |r.pending| <= n
    ensures forall i :: 0 <= i < |r.pending| ==> r.pending[i].handles == picks[n - |r.pending| + i]
  {
    if n > 0 {
      hide RingOk;
      hide LayerBatch;
      hide Defer;
      var q :| RingAfter(size, layers, drains, picks, n - 1, q)
               && drains[n - 1] <= |q.pending| && r == Defer(q, drains[n - 1], picks[n - 1]);
      RingHoldsLatest(size, layers, drains, picks, n - 1, q);
      hide RingAfter;
      hide ExtendsRing;
      LatestAfterDefer(q, drains[n - 1], picks, n, r);
    }
  }

  lemma LatestAfterDefer(q: Ring, drained: nat, picks: seq<seq<Handle>>, n: nat, r: Ring)
    requires RingOk(q) && drained <= |q.pending| < n <= |picks| && r == Defer(q, drained, picks[n - 1])
    requires forall i :: 0 <= i < |q.pending| ==> q.pending[i].handles == picks[n - 1 - |q.pending| + i]
    ensures RingOk(r) && r.size == q.size && |r.pending| <= n
    ensures forall i :: 0 <= i < |r.pending| ==> r.pending[i].handles == picks[n - |r.pending| + i]
  {
    hide *;
    DeferKeepsWindow(q, drained, picks[n - 1]);
    DeferHandles(q, drained, picks, n - 1);
  }

  lemma {:induction false} BatchesFollowLayers(size: nat, layers: nat, drains: seq<nat>, picks: seq<seq<Handle>>,
                                               n: nat, r: Ring, i: nat)
    requires 0 < layers && i < n <= |drains| == |picks| && RingAfter(size, layers, drains, picks, n, r)
    ensures LayerBatch(layers, i, picks[i])
    decreases n
  {
    hide LayerBatch;
    hide Defer;
    if i < n - 1 {
      var q :| RingAfter(size, layers, drains, picks, n - 1, q)
               && drains[n - 1] <= |q.pending| && r == Defer(q, drains[n - 1], picks[n - 1]);
      BatchesFollowLayers(size, layers, drains, picks, n - 1, q, i);
    }
  }

  lemma DeferHandles(q: Ring, drained: nat, picks: seq<seq<Handle>>, n: nat)
    requires drained <= |q.pending| <= n < |picks|
    requires forall i :: 0 <= i < |q.pending| ==> q.pending[i].handles == picks[n - |q.pending| + i]
    ensures var r := Defer(q, drained, picks[n]);
            && r.size == q.size && |r.pending| <= n + 1
            && forall i :: 0 <= i < |r.pending| ==> r.pending[i].handles == picks[n + 1 - |r.pending| + i]
  {
    var r := Defer(q, drained, picks[n]);
    var gone := |q.pending| + 1 - |r.pending|;
    forall i | 0 <= i < |r.pending|
      ensures r.pending[i].handles == picks[n + 1 - |r.pending| + i]
    {
      if i < |r.pending| - 1 {
        assert r.pending[i] == q.pending[gone + i];
      }
    }
  }

  lemma {:induction false} LayerAhead(a: nat, i: nat, layers: nat)
    requires i <= layers && 0 < layers
    ensures LayerOf(a + i, layers) == Wrap(LayerOf(a, layers) + i, layers)
  {
    if i > 0 {
      LayerAhead(a, i - 1, layers);
    }
  }

  /** Within one lap of the layers no two batches are for the same layer. */
  lemma LapIsInjective(a: nat, b: nat, layers: nat)
    requires 0 < layers && a < b < a + layers
    ensures LayerOf(a, layers) != LayerOf(b, layers)
  {
    LayerAhead(a, b - a, layers);
  }

  ghost predicate HoldsLayer(r: Ring, layer: nat) {
    exists i, j :: 0 <= i < |r.pending| && 0 <= j < |r.pending[i].handles| && r.pending[i].handles[j].layer == layer
  }

  /** For any client that works layer after layer, synced or not: with more layers than
      events, a layer never meets handles the client still pins there, however slow the
      stream is. */
  lemma LongLapMeetsNoPins(size: nat, layers: nat, drains: seq<nat>, picks: seq<seq<Handle>>, n: nat, r: Ring)
    requires 0 < size < layers && n <= |drains| == |picks| && RingAfter(size, layers, drains, picks, n, r)
    ensures !HoldsLayer(r, LayerOf(n, layers))
  {
    RingHoldsLatest(size, layers, drains, picks, n, r);
    forall i, j | 0 <= i < |r.pending| && 0 <= j < |r.pending[i].handles|
      ensures r.pending[i].handles[j].layer != LayerOf(n, layers)
    {
      var b := n - |r.pending| + i;
      BatchesFollowLayers(size, layers, drains, picks, n, r, b);
      assert r.pending[i].handles[j] in picks[b];
      LapIsInjective(b, n, layers);
    }
  }

  // ---------------------------------------------------------- runs of `step`

  /** A ring after `n` layers of error-free `step` calls from an empty one, wherever its
      next event is. Every layer finds the batch before it done. */
  ghost predicate StepRing(size: nat, layers: nat, picks: seq<seq<Handle>>, n: nat, r: Ring)
    requires 0 < layers && n <= |picks|
    decreases n
  {
    if n == 0 then r.pending == [] && r.next < size && r.size == size
    else
      && LayerBatch(layers, n - 1, picks[n - 1])
      && exists q :: StepRing(size, layers, picks, n - 1, q) && r == Defer(q, |q.pending|, picks[n - 1])
  }

  /** The ring holds the latest layer's batch, and nothing else. */
  lemma {:induction false} OnlyLastBatchPending(size: nat, layers: nat, picks: seq<seq<Handle>>, n: nat, r: Ring)
    requires 0 < layers && 0 < size && n <= |picks| && StepRing(size, layers, picks, n, r)
    ensures r.size == size && r.next < size
    ensures n == 0 ==> r.pending == []
    ensures n > 0 ==> |r.pending| == 1 && r.pending[0].handles == picks[n - 1]
    ensures n > 0 ==> LayerBatch(layers, n - 1, picks[n - 1])
  {
    hide LayerBatch;
    if n > 0 {
      var q :| StepRing(size, layers, picks, n - 1, q) && r == Defer(q, |q.pending|, picks[n - 1]);
      OnlyLastBatchPending(size, layers, picks, n - 1, q);
    }
  }

  /** In no run of `step` does a layer's `request` meet handles this decoder itself still
      pins in that layer. */
  ghost predicate NeverMeetsOwnPins(size: nat, layers: nat)
    requires 0 < layers
  {
    forall picks: seq<seq<Handle>>, n: nat, r: Ring ::
      n <= |picks| && StepRing(size, layers, picks, n, r) ==> !HoldsLayer(r, LayerOf(n, layers))
  }

  lemma StepMeetsNoOwnPins(size: nat, layers: nat, picks: seq<seq<Handle>>, n: nat, r: Ring)
    requires 0 < size && 1 < layers && n <= |picks| && StepRing(size, layers, picks, n, r)
    ensures !HoldsLayer(r, LayerOf(n, layers))
  {
    OnlyLastBatchPending(size, layers, picks, n, r);
    if n > 0 {
      LapIsInjective(n - 1, n, layers);
      forall i, j | 0 <= i < |r.pending| && 0 <= j < |r.pending[i].handles|
        ensures r.pending[i].handles[j].layer != LayerOf(n, layers)
      {
        assert r.pending[i].handles[j] in picks[n - 1];
      }
    }
  }

  /** A model of one layer meets the pins of the token before. */
  lemma OneLayerMeetsItself(size: nat) returns (picks: seq<seq<Handle>>, r: Ring)
    requires 0 < size
    ensures |picks| == 1 && StepRing(size, 1, picks, 1, r) && HoldsLayer(r, LayerOf(1, 1))
  {
    var q := Ring([], 0, size);
    picks := [[Handle(0, 0)]];
    r := Defer(q, 0, picks[0]);
    assert StepRing(size, 1, picks, 0, q) && r == Defer(q, |q.pending|, picks[0]);
    assert r.pending[0].handles[0].layer == 0;
  }

  /** The guarantee holds of every run of `step` if and only if the model has more than one
      layer, whatever the size of the ring. */
  lemma MeetsIsExact(size: nat, layers: nat)
    requires 0 < size && 0 < layers
    ensures NeverMeetsOwnPins(size, layers) <==> 1 < layers
  {
    if 1 < layers {
      forall picks: seq<seq<Handle>>, n: nat, r: Ring | n <= |picks| && StepRing(size, layers, picks, n, r)
        ensures !HoldsLayer(r, LayerOf(n, layers))
      {
        StepMeetsNoOwnPins(size, layers, picks, n, r);
      }
    } else {
      var picks, r := OneLayerMeetsItself(size);
    }
  }
}
