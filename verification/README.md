# llmpager verification

llmpager runs mixture-of-experts language models whose experts do not fit on the GPU.
Experts live in a pack file on disk and are paged into device slots on demand, through a
host-RAM tier; the decoder works on whatever slots it has pinned, several conversations
share the KV cache, and the weights are stored as 4-bit groups. All of that is schedule and
layout. What a user is promised is a function: the tokens the same prompt would give with
everything resident, nothing cached and nothing quantised twice.

This project models the schedules and layouts, and proves that they compute that function.
It has four parts.

- **The pager.** The pinned, aged cache is a class (`ExpertCache.dfy`) proved against a pure
  state (`CacheModel.dfy`). The pager around it is a state machine (`PagerModel.dfy`) in
  which any number of clients and I/O workers interleave; one step is one critical section,
  or one byte of a copy made outside the lock. `PagerSafety.dfy` proves that a handle which
  has been waited on always sees its own expert's bytes, `PagerProgress.dfy` that a wave of
  requests always completes, `HeldRequests.dfy` when a request by a client that still holds
  handles does, `RamTier.dfy` the tier's own lock discipline, `ReleaseRing.dfy` the deferred
  releases, `StepRequests.dfy` what those mean for the requests of a decode step,
  `CacheAging.dfy` and `CacheStarvation.dfy` how long a dead expert stays.
  `PagedExperts.dfy` joins the pager to the expert sums, `FiledPack.dfy` to the pack file.
- **Decoding.** `Decoder.dfy` has the token-by-token and the layer-by-layer schedule over
  uninterpreted layer functions, `DecodeModel.dfy` what both mean, and `Interpreter.dfy` the
  plain token-by-token interpreter that meaning is shown to be. `MoeWaves.dfy` has the expert
  waves, `ExpertLaunch.dfy` the kernels of one launch. `Contexts.dfy` says what it is for a
  KV slot to hold a token list.
  `Mla.dfy`, `MlaModel.dfy`, `MlaKernels.dfy` and `MlaBlock.dfy` are the absorbed form of
  multi-head latent attention, from the load-time split to the kernels' index arithmetic.
- **Sessions.** `Sessions.dfy` is the two-level store of contexts (slots, then host RAM),
  `Generation.dfy` the generation loops, `Engine.dfy` any sequence of requests, including
  ones that fail half-way. `KvCopy.dfy` is the byte layout behind parking and restoring.
- **Formats.** `Half.dfy` and `HalfValues.dfy` are the binary16 helpers bit for bit,
  `Q4Layout.dfy`, `Quant.dfy`, `Dequant.dfy` and `Repack.dfy` the 4-bit group format,
  `Gemv.dfy` the matrix-vector kernels that read it, `Pack.dfy` the pack file.

`Util.dfy`, `Indexing.dfy`, `Sums.dfy` and `Reduce.dfy` hold what several of them need.
Numbers are reals wherever rounding is not the point, and bit-vectors where it is.
`dafny verify dfyconfig.toml` checks the whole project.

## Findings

Four properties that the design suggests do not hold of the code as it stands. Each is
stated with an input that breaks it and with the exact condition under which it does hold.

- **A decay interval shorter than the pool starves aging** (`CacheStarvation.dfy`). Newcomers
  are halved back to zero before the scan runs out of them, so a dead expert behind them is
  never evicted. `AgingIsExact`: the eviction bound holds of every run of a pool of n slots if
  and only if the interval is at least n. The pager takes any interval; the decoders
  configure the larger of 64 and four times the pool (decode.rs:140, kimi.rs:478), which is
  on the safe side.
- **A one-layer model can wait for itself** (`ReleaseRing.dfy`, `StepRequests.dfy`).
  `MeetsIsExact`: a request of `step` never meets handles its own decoder still pins in that
  layer if and only if there is more than one layer. `StepRequestIsExact`: it then always
  completes; with one layer it completes if and only if the experts of two tokens in a row
  fit the pool together, and otherwise ends in the wedged error. `OneLayerWedges` is such a
  run. The comment at decode.rs:404-408 says that as many layers as the ring has events may
  stay pinned; the code synchronises the stream for the router in every layer
  (decode.rs:307), so the ring never holds more than one batch.
- **`f32_to_f16_bits` loses a rounding carry** (`Half.dfy`). The carry out of the fraction is
  OR-ed into the exponent, so it disappears when the exponent is odd: 1.9999999 encodes as
  1.0. `RoundsCorrectly`: the result is within half a unit in the last place if and only if
  no carry occurs, or it meets an even exponent below the largest.
- **A clamped or infinite group scale is not the one read back** (`Quant.dfy`). A group scale
  that rounds below 1e-7 is clamped up to 1e-7 and then encoded again, so the reader uses
  another scale than the one the error was measured with; `ClampExample` has reported error 0
  and a wrong value. From 65520 on (`InfiniteFrom`) the scale is infinite, every nibble
  stands for zero, the measured error is not a number and does not count, and the reader
  finds no number at all (`InfiniteGroupIsLost`). `ReadBackIsExact`: the reader reconstructs
  the measured value if and only if the rounded scale is finite, and it was not clamped or
  the value was quantised to zero.

## Model

| member | source | states |
|---|---|---|
| `ExpertCaches.ExpertCache.Partitioned` | crates/llmpager-core/src/cache.rs:78-103 | a new cache has `partitions * slotsPer` slots, all empty, unpinned and at frequency 0, pool p the slots from p * slotsPer on |
| `ExpertCaches.ExpertCache.Acquire` | crates/llmpager-core/src/cache.rs:132-178 | the imperative lookup, scan and aging loops take the state exactly where the pure `Acquire` does, with the same answer; `CacheRuns.AcquireRefines` says what that is |
| `ExpertCaches.ExpertCache.LookupReady` | crates/llmpager-core/src/cache.rs:184-194 | pins and returns the slot exactly when the expert is resident and published: one more pin, one more on its counter unless full, one more hit; otherwise the state is as it was |
| `ExpertCaches.ExpertCache.Publish` | crates/llmpager-core/src/cache.rs:198-200 | makes exactly that slot ready |
| `ExpertCaches.ExpertCache.Release` | crates/llmpager-core/src/cache.rs:207-212 | takes exactly one pin off that slot, and changes nothing else |
| `ExpertCaches.ExpertCache.DecayAll` | crates/llmpager-core/src/cache.rs:218-225 | halves every counter once, leaves occupants, pins and published weights, and restarts every pool's interval |
| `ExpertCaches.ExpertCache.IsWedged` | crates/llmpager-core/src/cache.rs:229-236 | true exactly when every slot of the expert's pool is pinned and ready |
| `CacheModel.VictimIsFirstLeast` | crates/llmpager-core/src/cache.rs:142-160 | the scan finds an unpinned slot of least frequency, an empty one before an occupied one and the first of equals, and nothing if and only if every slot is pinned |
| `CacheRuns.AcquireRefines` | crates/llmpager-core/src/cache.rs:132-178 | over the abstract pinned map: a hit pins the expert's slot and keeps all occupants; a miss replaces exactly the first least unpinned slot of the pool, not ready and with one pin; a stall changes nothing. Frequencies, hits, misses and the aging interval are counted as designed, and the invariant is kept |
| `CacheRuns.ResidencyIsInjective` | crates/llmpager-core/src/cache.rs:132-178 | no two experts share a slot, in one pool or across pools |
| `CacheRuns.StalledIff` | crates/llmpager-core/src/cache.rs:158-160 | acquire stalls if and only if the expert is absent and every slot of its pool is pinned, and then changes nothing |
| `CacheRuns.LookupFindsPublished` | crates/llmpager-core/src/cache.rs:184-194 | a lookup finds exactly the experts that are in a slot of their pool and published, and pins that slot; any other changes nothing |
| `CacheRuns.LayersHaveTheirPools` | crates/llmpager-core/src/cache.rs:120-125 | with a pool per layer the experts of layer l live in pool l, and ids past the last layer in the last pool; a single pool takes all |
| `CacheRuns.PinsAreTheLedger` | crates/llmpager-core/src/cache.rs:132-225 | after any run of operations, each slot's pins are its pins before plus the grants minus the releases, and the invariant holds |
| `CacheRuns.PinnedOccupantStays` | crates/llmpager-core/src/cache.rs:142-212 | over any run that releases a slot fewer times than it was pinned, its occupant stays, and published weights stay published |
| `CacheAging.DeadExpertsLeave` | crates/llmpager-core/src/cache.rs:142-178 | an unpinned expert with counter F that is never asked for again has left after (floor(log2 F) + 1) * D + len misses of its pool, whatever else happens, when D >= len |
| `CacheStarvation.ShortIntervalStarves` | crates/llmpager-core/src/cache.rs:142-178 | for every interval shorter than the pool, a run from an empty cache after which an expert outlives that bound |
| `CacheStarvation.AgingIsExact` | crates/llmpager-core/src/cache.rs:142-178 | the bound holds of every run from an empty pool of n slots if and only if the interval is at least n |
| `RamTier.StepKeepsInv` | crates/llmpager-cuda/src/pager.rs:122-157 | every step of any thread in `get` or `put`, one locked section or one byte copied, keeps the tier's invariant |
| `RamTier.SlabIsNotReassigned` | crates/llmpager-cuda/src/pager.rs:122-157 | while a thread copies into or out of a slab, no step of another thread changes its owner or any of its bytes |
| `RamTier.TrueGetDelivers` | crates/llmpager-cuda/src/pager.rs:122-157 | in every interleaving, a `get` that reports a hit has copied out, whole, bytes that some earlier `put` of the same expert passed in |
| `RamTier.GetFinds` | crates/llmpager-cuda/src/pager.rs:122-134 | a `get` copies from the slot its expert is stored in, and reports a miss exactly when it is stored nowhere |
| `RamTier.PutTakes` | crates/llmpager-cuda/src/pager.rs:137-150 | a `put` of an expert that lives nowhere takes a slot of the pool if one can be taken, and copies into it; any other stores nothing |
| `RamTier.PutThenGet` | crates/llmpager-cuda/src/pager.rs:122-157 | once a `put` is over, the next `get` of that expert copies from the slot it filled |
| `PagerSafety.StepKeepsInv` | crates/llmpager-cuda/src/pager.rs:402-510 | every client or worker step keeps the pager's invariant: a slot is filled if and only if the cache says it is ready, each slot in flight has exactly one job, for its own occupant, pins are handles plus prefetches, and a ready slot holds its expert's blob |
| `PagerSafety.PagingIsLossless` | crates/llmpager-cuda/src/pager.rs:402-510 | at every point of every interleaved run from a cold pager, the slot of each handle waited on and not yet released starts with exactly the pack's blob of its expert |
| `PagerSafety.RequestHands` | crates/llmpager-cuda/src/pager.rs:413-457 | a request gets a handle on the slot its expert lives in, with no fetch; else on a slot it takes, with a fetch of that expert into it; and nothing happens only if every slot of the pool is pinned |
| `PagerSafety.PrefetchFetches` | crates/llmpager-cuda/src/pager.rs:464-483 | a prefetch of an expert that lives nowhere starts a fetch into a slot it takes and pins; one that is there already changes nothing but counters; a pinned-out pool nothing at all |
| `PagerSafety.TierHitSkipsDisk` | crates/llmpager-cuda/src/pager.rs:670-682 | a hit in the RAM tier goes straight to the upload, with its expert's blob in the buffer; a miss goes to disk |
| `PagerSafety.FoldIsInjective` | crates/llmpager-cuda/src/pager.rs:224-226 | two experts of a pack never fold to the same id |
| `PagerSafety.FoldIsRowMajor` | crates/llmpager-cuda/src/pager.rs:224-226 | dividing the id of (layer, expert) by the experts per layer gives back the layer, the remainder the expert |
| `FiledPack.ReadJob` | crates/llmpager-cuda/src/pager.rs:677 | a worker's read of (layer, expert) from a written pack leaves in its buffer exactly the padded blob the pager's step has for that id |
| `FiledPack.FileReachesSlot` | crates/llmpager-cuda/src/pager.rs:402-510 | in every interleaved run from cold, the slot of a handle on (layer, expert) that has been waited on starts with the bytes the pack file holds at index entry layer * experts + expert |
| `PagedExperts.SlotsServeThePack` | crates/llmpager-run/src/decode.rs:489-531 | in every interleaved run, adding up the picked experts' outputs from what is in their slots when each is read gives exactly the sum over the pack's blobs, expert e of a layer being blob layer * experts + e |
| `PagedExperts.GrantedWaveIsHeld` | crates/llmpager-run/src/decode.rs:489-493 | a wave granted in full, and waited on, is held on each of its experts |
| `PagedExperts.WavesServeThePack` | crates/llmpager-run/src/decode.rs:483-531 | for waves that cover a chunk's picks, each held and waited on while it is read, every token's sum read from the slots is the sum over the pack's blobs |
| `PagedExperts.SlotsServeTheNet` | crates/llmpager-run/src/decode.rs:464-531 | when the network's expert e is computed from the pack's blob layer * experts + e, that sum is the expert stage of the decoder's meaning |
| `PagerProgress.EmptyPoolStartsAWave` | crates/llmpager-cuda/src/pager.rs:402-415 | a requester that holds no handle in a pool may start a wave of at most its size there |
| `PagerProgress.EmptyHandsStartAWave` | crates/llmpager-run/src/decode.rs:403-409 | a requester that holds no handle, as after the flush, may start a wave of at most a pool's size in any pool |
| `PagerProgress.WaveIsNotWedged` | crates/llmpager-cuda/src/pager.rs:438-452 | in whatever state a wave's requester looks, stalled or not, the pool is not wedged for the id it wants |
| `PagerProgress.StallAwaitsPrefetch` | crates/llmpager-cuda/src/pager.rs:425-459 | when a wave stalls, an unfinished prefetch in the same pool holds a slot |
| `PagerProgress.WaveNeverStuck` | crates/llmpager-cuda/src/pager.rs:413-459 | until the last id is granted some worker or requester step makes progress |
| `PagerProgress.EffectiveStepsDescend` | crates/llmpager-cuda/src/pager.rs:413-459 | each such step keeps the wave's state and strictly lowers a natural measure |
| `PagerProgress.WaveAlwaysCompletes` | crates/llmpager-cuda/src/pager.rs:402-462 | every run of a wave has at most `Measure` effective steps, one that cannot be extended has granted every id, and no state on the way is wedged |
| `HeldRequests.CompletesIffItFits` | crates/llmpager-cuda/src/pager.rs:402-462 | a request made while any handles of its pool are held: a run that cannot go on has granted every id if and only if the experts held and asked for together fit the pool, and otherwise the wedged check holds |
| `HeldRequests.CompletedHoldsAll` | crates/llmpager-cuda/src/pager.rs:457-459 | a request granted in full holds exactly what was held before and its own ids |
| `StepRequests.StepStartsAWave` | crates/llmpager-run/src/decode.rs:303-316 | with more than one layer every request of `step` finds its layer's pool free of this decoder's handles |
| `StepRequests.StepRequestIsExact` | crates/llmpager-run/src/decode.rs:303-342 | a request of `step` that cannot go on has completed if and only if there is more than one layer, or two tokens' experts fit the one pool; otherwise it is wedged |
| `StepRequests.RoomForTwoBatches` | crates/llmpager-run/src/decode.rs:303-342 | in a pool shared by all layers, room for two layers' picks is enough for every request of `step` |
| `StepRequests.OneLayerWedges` | crates/llmpager-run/src/decode.rs:303-342 | a run from cold, of a one-layer model with one slot, whose second token's request is wedged |
| `ReleaseRing.Releaser.DrainDone` | crates/llmpager-run/src/decode.rs:625-634 | releases a prefix of the queue, each batch only once the stream has passed its event |
| `ReleaseRing.Releaser.DeferRelease` | crates/llmpager-run/src/decode.rs:621-649 | queues the handles behind an event recorded now, after releasing what was done and, if the ring is full, the oldest batch; no handle is lost or released twice |
| `ReleaseRing.Releaser.FinishLayer` | crates/llmpager-run/src/decode.rs:325-343 | the handles of a layer are queued behind that layer's own kernels |
| `ReleaseRing.Releaser.StepLayer` | crates/llmpager-run/src/decode.rs:277-343 | after the router's sync every earlier batch is done, so a layer of `step` leaves exactly its own batch pending |
| `ReleaseRing.Releaser.Flush` | crates/llmpager-run/src/decode.rs:716-725 | empties the ring; everything ever deferred has then been released exactly once, in order |
| `ReleaseRing.DeferKeepsWindow` | crates/llmpager-run/src/decode.rs:644-647 | the event recorded is never one that a pending batch still waits on |
| `ReleaseRing.LongLapMeetsNoPins` | crates/llmpager-run/src/decode.rs:621-649 | for a client of the ring that need not sync: with more layers than events, no layer meets handles the client still pins there |
| `ReleaseRing.OnlyLastBatchPending` | crates/llmpager-run/src/decode.rs:303-342 | in every run of `step` the ring holds the batch of the latest layer, and nothing else |
| `ReleaseRing.StepMeetsNoOwnPins` | crates/llmpager-run/src/decode.rs:303-342 | with more than one layer, in every run of `step`, no request meets handles this decoder pins in that layer |
| `ReleaseRing.MeetsIsExact` | crates/llmpager-run/src/decode.rs:303-342 | that holds of every run if and only if there is more than one layer, whatever the size of the ring |
| `MoeWaves.Union` | crates/llmpager-run/src/decode.rs:483-485 | the picks' experts, sorted, each once, none missing and none added |
| `MoeWaves.RunWaves` | crates/llmpager-run/src/decode.rs:483-531 | each distinct expert is requested exactly once, in waves of exactly `wave` but for the last; every pick is launched exactly once, in launches no larger than its token's picks; and every element of a token's state ends as what it was plus the sum over its picks of weight times expert output |
| `MoeWaves.LaunchPicks` | crates/llmpager-run/src/decode.rs:508-522 | one launch: with the experts' outputs and the picks' weights laid out as `moe_reduce` reads them, the kernel leaves the state with the picks' weighted outputs added |
| `ExpertLaunch.LaunchExperts` | crates/llmpager-run/src/decode.rs:508-522 | the launches made for a token's picks, gate and up projections of all of them, activation, down projections and `moe_reduce`, leave its state with the weighted outputs of exactly those experts added: each is the down region of its own blob times (activation of gate times x) times (up times x) |
| `MoeWaves.WavesAdd` | crates/llmpager-run/src/decode.rs:504-524 | two disjoint groups of experts served in turn add up, for every element, to their union |
| `MoeWaves.AnyWavesServe` | crates/llmpager-run/src/kimi.rs:982-1021 | any disjoint waves that cover a token's picks, in any order, add to every element the sum over the picks of weight times expert output |
| `MoeWaves.StepWaves` | crates/llmpager-run/src/kimi.rs:739-779 | one token's picks in waves, in pick order, then the shared expert: every element ends as what it was plus the shared output plus the sum over the picks of weight times expert output |
| `MoeWaves.ChunkWaves` | crates/llmpager-run/src/kimi.rs:953-1021 | a chunk with the shared expert added first and the picks in union waves leaves every element of every token that same sum |
| `Decoder.Argmax` | crates/llmpager-run/src/decode.rs:557-564 | the first index of the greatest value, or 0 when none exceeds the least single-precision number |
| `Decoder.Device.Step` | crates/llmpager-run/src/decode.rs:263-363 | one token through all layers leaves the cache and logits of the interpreter run on that token, and their argmax; a position past the end changes nothing |
| `Decoder.Device.MixChunk` | crates/llmpager-run/src/decode.rs:464-532 | the expert stage gives every token of the chunk what routing it alone would give: its state plus the weighted outputs of the experts picked from its normed state |
| `Decoder.Device.StepMulti` | crates/llmpager-run/src/decode.rs:386-569 | layer by layer, a chunk leaves the cache, hidden states and logits of the interpreter run on its entries one after the other; logits and argmax exactly at the last entry of each slot; a bad entry list changes nothing |
| `Decoder.Device.StepOneByOne` | crates/llmpager-run/src/decode.rs:263-363 | feeding a chunk's tokens one by one leaves the cache `StepMulti` leaves, and the same final argmax |
| `Interpreter.MeaningIsInterpreted` | crates/llmpager-run/src/decode.rs:275-342 | what the layer-by-layer definition gives is what the interpreter computes: per entry, embed the token; per layer, append its row, attend over the rows up to its position, add the weighted outputs of the experts it is routed to |
| `DecodeModel.ChunkingIsInvisible` | crates/llmpager-run/src/decode.rs:431-532 | two chunks run in turn leave the cache and the hidden states of their concatenation, whatever the layer functions |
| `DecodeModel.HiddenAgrees` | crates/llmpager-run/src/decode.rs:434-463 | a hidden state depends on its slot's prefix and the fed tokens, and on no other slot, cache size or position beyond |
| `DecodeModel.OtherSlotsUntouched` | crates/llmpager-run/src/decode.rs:434-463 | a chunk leaves the rows of every slot it does not feed as they were |
| `Contexts.FeedExtends` | crates/llmpager-serve/src/main.rs:487-507 | feeding the rest of a prompt to a slot that holds a prefix of it makes the slot hold the prompt |
| `Contexts.FeedLogits` | crates/llmpager-serve/src/main.rs:487-507 | and gives the logits a cold run of the whole prompt gives |
| `Contexts.ContextIsInterpreted` | crates/llmpager-run/src/decode.rs:275-342 | the rows and logits of a token list are the interpreter's on those tokens at positions 0, 1, ..., in any slot of any cache, whatever it holds |
| `Decoder.Device.KvExport` | crates/llmpager-run/src/decode.rs:675-690 | the first `len` rows of every layer of the slot, refused past the slots or the positions |
| `Decoder.Device.KvImport` | crates/llmpager-run/src/decode.rs:693-711 | replaces exactly those rows of the target slot, refused for a blob of another length |
| `KvCopy.RowAddress` | crates/llmpager-cuda/kernels/decode.cu:68-76 | row (slot, head, position) lies exactly where the append kernel's address arithmetic puts it, at byte ((slot * heads + head) * maxSeq + position) * dim * elem |
| `KvCopy.KvAppend` | crates/llmpager-cuda/kernels/decode.cu:58-77 | appending a token writes exactly the rows of its slot and position, head by head, and no other byte of any row |
| `KvCopy.KvMemory.Export` | crates/llmpager-run/src/decode.rs:675-690 | the blob is keys then values of every layer, head by head, positions below `len`, with exactly the size the code allocates |
| `KvCopy.BlobAddress` | crates/llmpager-run/src/decode.rs:680-687 | in the blob, the key and value rows of (layer, head, position) lie at ((2 * layer * heads + head) * len + position) * dim * elem, and heads * len rows later |
| `KvCopy.KvMemory.Import` | crates/llmpager-run/src/decode.rs:693-711 | accepts exactly blobs of that size, and then changes exactly those runs of the target slot |
| `KvCopy.RoundTrip` | crates/llmpager-run/src/decode.rs:653-711 | export then import, into the same or another slot, restores positions below `len` of every head and layer and changes no other slot or later position |
| `KvCopy.ImportIsRowwise` | crates/llmpager-run/src/decode.rs:653-711 | read as rows, those byte copies are the row-level import the decoder and the sessions rely on |
| `KvCopy.MlaMemory.Export` | crates/llmpager-run/src/kimi.rs:1091-1103 | one contiguous run per layer, with exactly the size the code allocates |
| `KvCopy.MlaBlobAddress` | crates/llmpager-run/src/kimi.rs:1094-1100 | in the compressed blob, the row of (layer, position) is row layer * len + position |
| `KvCopy.MlaMemory.Import` | crates/llmpager-run/src/kimi.rs:1106-1121 | accepts exactly blobs of that size, and then changes exactly those runs of the target slot |
| `KvCopy.MlaRoundTrip` | crates/llmpager-run/src/kimi.rs:1073-1121 | export then import of the compressed cache restores exactly the positions below `len` |
| `SessionModel.CommonPrefix` | crates/llmpager-serve/src/main.rs:107-109 | the length of the longest common prefix |
| `SessionModel.BudgetDropIsUnique` | crates/llmpager-serve/src/main.rs:222-236 | the set of contexts the budget drops is determined by the sessions alone, so hash-map order cannot matter |
| `Sessions.ParkedBytesAreTheBlobs` | crates/llmpager-serve/src/main.rs:126-128 | what the budget counts for a parked context, at the decoder's bytes per token, is the size of the blob the byte-level export writes for it |
| `Sessions.MlaParkedBytesAreTheBlobs` | crates/llmpager-serve/src/main.rs:126-128 | the same of the compressed cache, at layers * (kv_lora + rope) * 4 bytes per token |
| `Sessions.SessionStore.EnforceBudget` | crates/llmpager-serve/src/main.rs:222-236 | ends within the budget, having dropped the least recently used parked contexts until the rest first fits: exactly those have lost blob and tokens, and nothing else of any session changed |
| `Sessions.SessionStore.Park` | crates/llmpager-serve/src/main.rs:207-217 | moves a resident session's context to a copy of its slot's rows, frees exactly its slot, then enforces the budget; the store stays sound, and other sessions lose nothing but what the budget drops |
| `Sessions.SessionStore.ClaimSlot` | crates/llmpager-serve/src/main.rs:188-204 | yields the first free slot, or, exactly when none is free, that of the least recently used session, whose rows are copied out; it always finds one |
| `Sessions.SessionStore.Acquire` | crates/llmpager-serve/src/main.rs:131-184 | grants a slot and the longest prefix of the prompt the session's tokens cover, short of the whole prompt; leaves the session with that slot, exactly those tokens and the latest time, the others as they were but for who had to make room and what the budget dropped, and no other slot's rows touched |
| `Sessions.SessionStore.Commit` | crates/llmpager-serve/src/main.rs:239-246 | for a session still known, records the context its slot holds, the turn and the time, and nothing else |
| `Sessions.SessionStore.Forget` | crates/llmpager-serve/src/main.rs:248-258 | removes the session and frees exactly its slot |
| `Generation.Prefill` | crates/llmpager-serve/src/main.rs:487-507 | leaves the slot holding the prompt and the logits of a cold run, for every reuse granted; a failure leaves the reused prefix intact |
| `Generation.ColdRunAnswers` | crates/llmpager-serve/src/main.rs:409-446 | the cold run's output is an answer: each token is the argmax of the logits after prompt and output so far or, when sampling, what the sampler draws from them with the generator going on from the seed; none ends the sequence; and it stops at the token limit, the cache limit or before an end-of-sequence token, whichever comes first |
| `Generation.AnswerIsUnique` | crates/llmpager-serve/src/main.rs:409-446 | a prompt has one answer |
| `Generation.GenerateSession` | crates/llmpager-serve/src/main.rs:472-553 | the output is the answer of the prompt (`ColdRunAnswers`), for every reuse granted; the committed context is prompt and output, less a last token the cache has no room for, and the slot holds it; a failure leaves the reused prefix intact, and happens only if a decode call fails or the prompt does not fit |
| `Generation.Generate` | crates/llmpager-serve/src/main.rs:389-453 | the output without a session, on slot 0 in any state, is the answer of the prompt |
| `Engines.Engine.Session` | crates/llmpager-serve/src/main.rs:1019-1030 | one session request, acquire then generate then commit, gives the prompt's answer and keeps the store sound, also when generation fails before the commit |
| `Engines.Engine.Single` | crates/llmpager-serve/src/main.rs:1031-1034 | a request without a session gives the prompt's answer and disturbs no session |
| `Engines.Engine.Serve` | crates/llmpager-serve/src/main.rs:930-1040 | one request; a drop answers whether the session was known and removes exactly it |
| `Engines.Engine.Run` | crates/llmpager-serve/src/main.rs:930-1040 | over any sequence of session requests, anonymous requests and drops, with any of them failing, every answer is the prompt's own |
| `Mla.SplitKvB` | crates/llmpager-run/src/kimi.rs:229-253 | the load-time loops put every weight of kv_b, rounded, at exactly its transposed key or value place; another shape is refused |
| `MlaModel.ScoresAgree` | crates/llmpager-run/src/kimi.rs:679-693 | the absorbed query against a compressed row scores as the full query against the materialised key |
| `MlaModel.OutputsAgree` | crates/llmpager-run/src/kimi.rs:689-698 | the absorbed output, with the softmax shifted by any maximum, is that of materialised keys and values |
| `MlaKernels.GemvBatch` | crates/llmpager-cuda/kernels/mla.cu:116-144 | for any strides, y_b holds W_b x_b in its rows and its other elements are as before |
| `MlaKernels.StridedCopy` | crates/llmpager-cuda/kernels/mla.cu:149-166 | copies exactly the given window of every vector |
| `MlaKernels.AttnHead` | crates/llmpager-cuda/kernels/mla.cu:50-108 | one head's context row is the softmax-weighted mean of the cache rows' first elements; other heads' rows are as before |
| `MlaBlock.AbsorbedAttention` | crates/llmpager-run/src/kimi.rs:675-699 | the four launches together compute attention over materialised per-head keys and values, for any head count, ranks and length; written out over the weight, query and cache buffers, each output is the softmax-weighted mean of the values |
| `Reduce.SharesAddUp` | crates/llmpager-cuda/kernels/mla.cu:138-140 | strided over any number of threads, every term is taken exactly once |
| `Reduce.ShuffleDown` | crates/llmpager-cuda/kernels/q4g64.cu:76-80 | lane 0 ends with the sum of all 32 lanes |
| `Reduce.FoldBlock` | crates/llmpager-cuda/kernels/mla.cu:92-97 | the first shared cell ends with the sum of all 256 |
| `Half.RoundTrip` | crates/llmpager-core/src/quant.rs:151-189 | encoding a decoded half gives its bits back if and only if it is not a NaN with a payload other than the canonical one |
| `Half.RoundsCorrectly` | crates/llmpager-core/src/quant.rs:151-171 | in the normal range the encoding is within half a unit in the last place if and only if no rounding carry is swallowed by an odd exponent or overflows |
| `Half.LostCarryExample` | crates/llmpager-core/src/quant.rs:170 | 1.9999999 encodes as 1.0 |
| `Half.SmallRoundsCorrectly` | crates/llmpager-core/src/quant.rs:163-169 | below the normal range the encoding is the nearest multiple of 2^-24 |
| `Half.OverflowsFrom` | crates/llmpager-core/src/quant.rs:151-171 | a finite number that is not negative encodes as infinity if and only if it is at least 65520, and as no other special |
| `Half.SpecialsConvert` | crates/llmpager-core/src/quant.rs:154-189 | infinities stay infinities, every NaN encodes as the quiet one, and a half NaN keeps its payload when decoded |
| `Half.TiesGoUp` | crates/llmpager-core/src/quant.rs:170 | half-way between two numbers of the normal range the encoding is the larger one |
| `Half.ShortIsExact` | crates/llmpager-core/src/quant.rs:151-189 | a number of the normal range with no more fraction bits than binary16 has is encoded exactly |
| `Half.SignIsKept` | crates/llmpager-core/src/quant.rs:151-189 | both directions commute with negation, so the bounds hold of negative numbers too |
| `HalfValues.DecodesValue` | crates/llmpager-core/src/quant.rs:173-189 | a finite half decodes to a single-precision number of the same value and sign |
| `Q4Layout.StoreGroup` | crates/llmpager-core/src/quant.rs:81-100 | writes exactly the scale and nibbles of one group, which read back as given; every other group is untouched |
| `Q4Layout.LittleEndian` | crates/llmpager-core/src/quant.rs:95 | a stored scale has its low byte first |
| `Quant.Q4Quantize` | crates/llmpager-core/src/quant.rs:37-76 | accepts exactly the good dimensions, stores each value's nearest clamped nibble under its group's scale, and returns the largest measured error, which is attained |
| `Quant.QuantisedIsNearest` | crates/llmpager-core/src/quant.rs:103 | a value's nibble stands for the multiple of the scale, from -8 to 7, that is nearest to it; of two, the one further from zero |
| `Quant.ScaleIsRounded` | crates/llmpager-core/src/quant.rs:61-63 | a group's scale is a seventh of its largest magnitude, or 1e-8 when all are zero, rounded to binary16 and at least 1e-7 |
| `Quant.ErrorIsBounded` | crates/llmpager-core/src/quant.rs:57-75 | when the rounded group scale is finite and at least 1e-7, every dequantised value is what was measured, and within the returned error of its source |
| `Quant.ReadBackIsExact` | crates/llmpager-core/src/quant.rs:61-72 | for every group, the reader finds the number that was measured if and only if the rounded scale is finite, and was not clamped or the value was quantised to zero |
| `Quant.InfiniteFrom` | crates/llmpager-core/src/quant.rs:61-63 | the group scale is infinite if and only if the raw scale's bits are those of 65520 or more |
| `Quant.InfiniteGroupIsLost` | crates/llmpager-core/src/quant.rs:63-72 | an infinite scale stores zero nibbles and a scale that is no number, and adds nothing to the reported error |
| `Quant.ClampExample` | crates/llmpager-core/src/quant.rs:61-65 | a group whose reported error is 0 and whose value does not come back |
| `Dequantize.Q4Dequantize` | crates/llmpager-core/src/quant.rs:117-147 | accepts exactly the good dimensions; every value visited is its nibble less eight times its group's decoded scale, which for even groups is every value; with odd groups, which it accepts, each group's last value is left as it was |
| `Gemv.MagicValue` | crates/llmpager-cuda/kernels/q4g64.cu:129-142 | the bits 0x6400 with a nibble OR-ed in, less 1032, are the nibble less eight |
| `Gemv.DifferenceIsExact` | crates/llmpager-cuda/kernels/q4g64.cu:137-142 | that difference is a binary16 number, so the subtraction does not round |
| `Gemv.Q4Gemv` | crates/llmpager-cuda/kernels/q4g64.cu:101-161 | words, lanes and shuffles together give each row the sum of its groups' scaled products |
| `Gemv.GemvIsDequantiseThenDot` | crates/llmpager-cuda/kernels/q4g64.cu:101-161 | which is the dot product of the dequantised row with x |
| `Gemv.Q4GemvBatch` | crates/llmpager-cuda/kernels/q4g64.cu:19-81 | one launch gives every expert that product with its own region and input |
| `Gemv.MoeReduce` | crates/llmpager-cuda/kernels/q4g64.cu:84-99 | adds to every element exactly the weighted sum over the experts |
| `Repack.RepackProjection` | crates/llmpager-convert/src/kimi.rs:185-217 | accepts exactly the checkpoint's shapes, of any width; scales are re-encoded in order, nibble words copied through, and whatever the rounded-down shape does not reach is zero; whole groups give the q4 layout |
| `Repack.ScaleIsExact` | crates/llmpager-convert/src/kimi.rs:197-203 | a positive bf16 scale in the normal range of binary16 keeps its value, bit for bit |
| `Repack.RepackedValue` | crates/llmpager-convert/src/kimi.rs:193-216 | at every row and column the result dequantises to the checkpoint's nibble less eight times its converted group scale |
| `Repack.RegionsAreFound` | crates/llmpager-convert/src/kimi.rs:219-231 | the three regions lie where the decoders' offsets look for them |
| `Pack.PackWriter.AddBlob` | crates/llmpager-core/src/pack.rs:94-108 | appends the blob, padded, while the pack is not full; the file so far stays as written |
| `Pack.PackWriter.Finish` | crates/llmpager-core/src/pack.rs:110-138 | succeeds exactly for a complete pack whose header fits, and leaves header, index, gap and blobs in place |
| `Pack.HeaderLayout` | crates/llmpager-core/src/pack.rs:118-124 | the header block is "LLMPK1" and two zeros, version 1, the metadata's length, the metadata, and zeros up to 4096 |
| `Pack.EntryLayout` | crates/llmpager-core/src/pack.rs:126-129 | index entry i is 16 bytes at 4096 + 16 * i, offset then length, low byte first |
| `Pack.OffsetsFollow` | crates/llmpager-core/src/pack.rs:94-108 | the first blob starts at the block after the index, each next one at the block after the blob before it |
| `Pack.SpansAgree` | crates/llmpager-core/src/pack.rs:166-196 | the span the reader reads the index from ends where the writer's data begins |
| `Pack.BlobsAreDisjoint` | crates/llmpager-core/src/pack.rs:77-138 | header, index and padded blobs do not overlap, and every blob starts aligned |
| `Pack.OpensWhatWasWritten` | crates/llmpager-core/src/pack.rs:166-196 | opening the file gives back the metadata and the index |
| `Pack.OpensIff` | crates/llmpager-core/src/pack.rs:166-194 | a file opens exactly when it has a whole first block with the magic and version 1, metadata that fits it and parses, and reaches to the end of the index |
| `Pack.ReadBlobInto` | crates/llmpager-core/src/pack.rs:223-250 | uncompressed: fills the buffer with the blob's padded span and returns its length, and refuses a buffer or file too short, leaving the buffer alone; compressed: delivers what the stored frame decompresses to, if it does and fits |
| `Pack.ReadsBack` | crates/llmpager-core/src/pack.rs:223-250 | reading (layer, expert) of a written pack gives the blob added at layer * experts + expert |
| `Pack.DecompressesBack` | crates/llmpager-core/src/pack.rs:239-249 | in a pack of compressed blobs, decompressing what is stored of (layer, expert) gives the raw blob |

## Left out

- Compressed packs behind the pager, and `prewarm`: on a tier hit the worker uses the stored length, so the lossless theorem is about uncompressed packs only; reading a compressed pack is modelled with the codec as a pair of functions.
- `generate_batch`: it writes sequence slots without telling the session store, so it is not among the requests of `Engines.Engine.Run`.
- HTTP, SSE, chat templates, tokenizer, metrics, registry warm-up and rebalance, reserve clamping, sampling arithmetic: I/O, or easy members; sampling is a parameter.
- JSON: serialising and parsing the pack's metadata are parameters assumed to be inverse.
- Floating-point rounding of the kernels, RMSNorm, RoPE, the experts' activation, softmax numerics and the router: layer functions are uninterpreted, and sums are over reals.
- Integer widths: pins, clocks, tokens and file offsets are unbounded; only the cache's saturating frequency counter is modelled as 32 bits.
- A request longer than its pool, which is refused before the loop: the request theorems are about the loop.
- Clocks: the ten-second grace of a stalled request is dropped, so the model checks for the wedged state whenever it likes.
- The order of the job channel: workers may take any job that was sent.
- Failing I/O inside the pager, and the error returns of `request` and of an import during `acquire`, which leave pins or owners behind: I/O and copies succeed, and only generations fail.
- `ExpertCache::new`: it passes the largest 32-bit number of ids per pool, so with several pools nearly every id falls in the first; the pager does not use it, and `Partitioned` is modelled.
- Kernel launches: the threads of a launch run one after the other, each on its own elements; the block maximum in attention is taken in position order.
- O_DIRECT, mapped memory, pointers and buffer alignment: device memory is byte sequences.
- Quant.Q4Quantize: computes the nibbles of a group and then stores them, where the code stores each pair as it goes; the bytes left in place are the same.
- Pack.OpensWhatWasWritten: is about files this writer wrote; a corrupt header length is an error in the model where the code's slice would panic.
- Gemv.Q4Gemv: asks for a buffer and input of the tensor's size, as the launch does; out-of-range reads are not modelled.
