/** The pager over a pack file (crates/llmpager-cuda/src/pager.rs:224-226, 402-510;
    crates/llmpager-core/src/pack.rs:194-251): the blob a worker reads for (layer, expert),
    and what arrives in the device slot, are the bytes the writer put at its index entry. */
module FiledPack {
  import opened Util
  import opened Indexing
  import P = Pack
  import M = PagerModel
  import S = PagerSafety

  /** `k` is the pack the writer was given blob by blob, in an uncompressed file. */
  ghost predicate IsFiled(k: M.Pack, j: P.Json, m: P.Meta, index: seq<P.Entry>) {
    && m.compression == None && |j.ser(m)| <= ALIGN - 16
    && |k.blobs| == P.Total(m) && P.IsIndex(m, k.blobs, index)
  }

  /** The file of such a pack, opened. */
  ghost function Opened(k: M.Pack, j: P.Json, m: P.Meta, index: seq<P.Entry>): P.Reader
    requires IsFiled(k, j, m, index)
  {
    P.Reader(P.FileOf(j.ser(m), m, index, k.blobs), m, index)
  }

  /** The id under which (layer, expert) is paged is its place in the file's index. */
  lemma IdIsPlace(k: M.Pack, j: P.Json, m: P.Meta, index: seq<P.Entry>, layer: nat, expert: nat)
    requires IsFiled(k, j, m, index) && layer < m.layers && expert < m.experts
    ensures M.IdOf(layer, expert, m.experts) == layer * m.experts + expert < |index| == |k.blobs|
    ensures index[layer * m.experts + expert] == P.EntryOf(Opened(k, j, m, index), layer, expert)
  {
    FlatFits(layer, expert, m.layers, m.experts);
  }

  /** The blob with that id, padded, is what the file holds where its entry points. */
  lemma BlobIsFiled(k: M.Pack, j: P.Json, m: P.Meta, index: seq<P.Entry>, layer: nat, expert: nat)
    requires IsFiled(k, j, m, index) && layer < m.layers && expert < m.experts
    ensures var r := Opened(k, j, m, index);
            var id, e := M.IdOf(layer, expert, m.experts), P.EntryOf(r, layer, expert);
            && id < |k.blobs| && e.nbytes == |k.blobs[id]| && e.offset + AlignUp(e.nbytes) <= |r.file|
            && r.file[e.offset..e.offset + AlignUp(e.nbytes)] == P.Padded(k.blobs[id])
  {
    IdIsPlace(k, j, m, index, layer, expert);
    var id := M.IdOf(layer, expert, m.experts);
    assert index[id] == P.Entry(P.IndexEnd(m) + |P.Data(k.blobs[..id])|, |k.blobs[id]|);
    P.BlobInFile(j.ser(m), m, index, k.blobs, id);
    hide P.Padded;
    hide P.Data;
    hide P.FileOf;
    hide AlignUp;
    hide P.IndexEnd;
  }

  /** A worker's disk read leaves the staging buffer as the pager's step has it. */
  method ReadJob(ghost k: M.Pack, ghost j: P.Json, r: P.Reader, layer: nat, expert: nat, buf: array<Byte>,
                 unzip: seq<Byte> -> Option<seq<Byte>>)
    returns (n: Result<nat>)
    requires IsFiled(k, j, r.meta, r.index) && r == Opened(k, j, r.meta, r.index)
    requires layer < r.meta.layers && expert < r.meta.experts
    requires forall id :: 0 <= id < |k.blobs| ==> AlignUp(|k.blobs[id]|) <= buf.Length
    modifies buf
    ensures var id := M.IdOf(layer, expert, r.meta.experts);
            id < |k.blobs| && n == Ok(|k.blobs[id]|) && buf[..] == M.Staged(k.blobs[id], old(buf[..]))
  {
    hide *;
    ReaderIs(k, j, r.meta, r.index);
    BlobIsFiled(k, j, r.meta, r.index, layer, expert);
    ghost var was := buf[..];
    ghost var blob, e := k.blobs[M.IdOf(layer, expert, r.meta.experts)], P.EntryOf(r, layer, expert);
    n := P.ReadBlobInto(r, layer, expert, buf, unzip);
    StagedIs(blob, was);
  }

  lemma ReaderIs(k: M.Pack, j: P.Json, m: P.Meta, index: seq<P.Entry>)
    requires IsFiled(k, j, m, index)
    ensures m.compression == None && |index| == P.Total(m)
    ensures Opened(k, j, m, index).meta == m && Opened(k, j, m, index).index == index
  {
    hide P.FileOf;
    hide P.Total;
  }

  lemma StagedIs(blob: seq<Byte>, was: seq<Byte>)
    requires AlignUp(|blob|) <= |was|
    ensures P.Padded(blob) + was[AlignUp(|blob|)..] == M.Staged(blob, was)
  {
    hide AlignUp;
  }

  /** From the file to the device: in every interleaved run from cold, the slot of a handle on
      (layer, expert) that has been waited on starts with the bytes the file holds at the
      entry of row layer * experts + expert. */
  lemma FileReachesSlot(k: M.Pack, j: P.Json, m: P.Meta, index: seq<P.Entry>, run: seq<M.Pager>, acts: seq<M.Action>,
                        n: nat, h: nat, layer: nat, expert: nat)
    requires IsFiled(k, j, m, index) && layer < m.layers && expert < m.experts
    requires S.IsRun(k, run, acts) && S.Start(k, run[0]) && n < |run|
    requires h in run[n].handles && run[n].handles[h].waited
    requires run[n].handles[h].id == M.IdOf(layer, expert, m.experts)
    ensures layer * m.experts + expert < |index|
    ensures var f, e := P.FileOf(j.ser(m), m, index, k.blobs), index[layer * m.experts + expert];
            var s := run[n];
            var slot := s.handles[h].slot;
            && slot < |s.dev| && e.nbytes <= |s.dev[slot]| && e.offset + e.nbytes <= |f|
            && s.dev[slot][..e.nbytes] == f[e.offset..e.offset + e.nbytes]
  {
    hide *;
    S.PagingIsLossless(k, run, acts, n, h);
    ReaderIs(k, j, m, index);
    IdIsPlace(k, j, m, index, layer, expert);
    BlobIsFiled(k, j, m, index, layer, expert);
    FileIs(k, j, m, index);
    var e := P.EntryOf(Opened(k, j, m, index), layer, expert);
    PaddedStart(P.FileOf(j.ser(m), m, index, k.blobs), e.offset, k.blobs[M.IdOf(layer, expert, m.experts)]);
  }

  lemma FileIs(k: M.Pack, j: P.Json, m: P.Meta, index: seq<P.Entry>)
    requires IsFiled(k, j, m, index)
    ensures |j.ser(m)| <= ALIGN - 16 && |index| == P.Total(m)
    ensures Opened(k, j, m, index).file == P.FileOf(j.ser(m), m, index, k.blobs)
  {
    hide P.FileOf;
    hide P.Total;
  }

  lemma PaddedStart(f: seq<Byte>, at: nat, blob: seq<Byte>)
    requires at + AlignUp(|blob|) <= |f| && f[at..at + AlignUp(|blob|)] == P.Padded(blob)
    ensures at + |blob| <= |f| && f[at..at + |blob|] == blob
  {
    assert |blob| <= AlignUp(|blob|);
    hide AlignUp;
    assert f[at..at + AlignUp(|blob|)][..|blob|] == f[at..at + |blob|];
  }
}
