/** The `.llmpk` expert pack (crates/llmpager-core/src/pack.rs:1-251): a streaming writer
    that back-fills header and index, and a reader that finds every blob again. A file is
    its bytes; JSON is a pair of functions. */
module Pack {
  import opened Util
  import opened Indexing

  const ENTRY_BYTES: nat := 16
  const FORMAT_VERSION: nat := 1
  /** "LLMPK1" and two zero bytes. */
  const MAGIC: seq<Byte> := [76, 76, 77, 80, 75, 49, 0, 0]

  datatype Meta = Meta(layers: nat, experts: nat, compression: Option<string>, maxRaw: nat, rest: string)

  function Total(m: Meta): nat {
    At(m.layers, m.experts)
  }

  datatype Entry = Entry(offset: nat, nbytes: nat)

  datatype Json = Json(ser: Meta -> seq<Byte>, de: seq<Byte> -> Option<Meta>)

  /** Parsing undoes serialising. */
  ghost predicate JsonOk(j: Json) {
    forall m: Meta :: j.de(j.ser(m)) == Some(m)
  }

  // ------------------------------------------------------------- little-endian integers

  function Le(v: nat, k: nat): (r: seq<Byte>)
    ensures |r| == k
  {
    if k == 0 then [] else [v % 256] + Le(v / 256, k - 1)
  }

  function FromLe(s: seq<Byte>): nat {
    if s == [] then 0 else s[0] + 256 * FromLe(s[1..])
  }

  function Pow256(k: nat): (r: nat)
    ensures r > 0
  {
    if k == 0 then 1 else 256 * Pow256(k - 1)
  }

  lemma {:induction false} LeRoundTrip(v: nat, k: nat)
    requires v < Pow256(k)
    ensures FromLe(Le(v, k)) == v
  {
    if k > 0 {
      LeRoundTrip(v / 256, k - 1);
      assert Le(v, k)[1..] == Le(v / 256, k - 1);
    }
  }

  // ------------------------------------------------------------------- the layout

  function Zeros(n: nat): (r: seq<Byte>)
    ensures |r| == n
  {
    seq(n, _ => 0)
  }

  function IndexEnd(m: Meta): nat {
    AlignUp(ALIGN + Total(m) * ENTRY_BYTES)
  }

  /** A blob and the zeros that fill its last block. */
  function Padded(b: seq<Byte>): (r: seq<Byte>)
    ensures |r| == AlignUp(|b|) && b <= r
  {
    b + Zeros(AlignUp(|b|) - |b|)
  }

  function Data(blobs: seq<seq<Byte>>): (r: seq<Byte>)
    ensures |r| % ALIGN == 0
  {
    if blobs == [] then [] else Data(blobs[..|blobs| - 1]) + Padded(blobs[|blobs| - 1])
  }

  /** The index a writer builds: each blob where the data before it ends. */
  ghost predicate IsIndex(m: Meta, blobs: seq<seq<Byte>>, index: seq<Entry>) {
    && |index| == |blobs|
    && forall i :: 0 <= i < |blobs| ==> index[i] == Entry(IndexEnd(m) + |Data(blobs[..i])|, |blobs[i]|)
  }

  function Header(json: seq<Byte>): (r: seq<Byte>)
    requires |json| <= ALIGN - 16
    ensures |r| == ALIGN
  {
    MAGIC + Le(FORMAT_VERSION, 4) + Le(|json|, 4) + json + Zeros(ALIGN - 16 - |json|)
  }

  function EntryBytes(e: Entry): (r: seq<Byte>)
    ensures |r| == ENTRY_BYTES
  {
    Le(e.offset, 8) + Le(e.nbytes, 8)
  }

  function IndexBytes(index: seq<Entry>): (r: seq<Byte>)
    ensures |r| == |index| * ENTRY_BYTES
  {
    if index == [] then [] else IndexBytes(index[..|index| - 1]) + EntryBytes(index[|index| - 1])
  }

  /** The whole file. */
  function FileOf(json: seq<Byte>, m: Meta, index: seq<Entry>, blobs: seq<seq<Byte>>): seq<Byte>
    requires |json| <= ALIGN - 16 && |index| == Total(m)
  {
    Header(json) + IndexBytes(index) + Zeros(IndexEnd(m) - ALIGN - Total(m) * ENTRY_BYTES) + Data(blobs)
  }

  /** Reader and writer agree on where the index ends. */
  lemma SpansAgree(m: Meta)
    ensures IndexEnd(m) == ALIGN + AlignUp(Total(m) * ENTRY_BYTES)
  {
  }

  // ------------------------------------------------------ the layout, byte by byte

  lemma {:induction false} LeAt(v: nat, k: nat, i: nat)
    requires i < k
    ensures Le(v, k)[i] == v / Pow256(i) % 256
  {
    if i > 0 {
      LeAt(v / 256, k - 1, i - 1);
      DivTwice(v, Pow256(i - 1));
    }
  }

  lemma DivTwice(v: nat, b: nat)
    requires 0 < b
    ensures v / 256 / b == v / (256 * b)
  {
    var p, t, r := v / 256 / b, v / 256 % b, v % 256;
    AtOrder(t, b, 256);
    assert p * (256 * b) == 256 * (p * b);
    DivMod(v, 256 * b, p, t * 256 + r);
  }

  /** The header block: "LLMPK1" and two zeros, version 1, the length of the metadata, the
      metadata, zeros up to 4096. */
  lemma HeaderLayout(json: seq<Byte>)
    requires |json| <= ALIGN - 16
    ensures |Header(json)| == 4096 && Header(json)[..8] == [76, 76, 77, 80, 75, 49, 0, 0]
    ensures Header(json)[8..12] == [1, 0, 0, 0]
    ensures Header(json)[12..16] == [|json| % 256, |json| / 256, 0, 0]
    ensures Header(json)[16..16 + |json|] == json
    ensures forall k :: 16 + |json| <= k < 4096 ==> Header(json)[k] == 0
  {
    assert Header(json)[8..12] == Le(FORMAT_VERSION, 4);
    assert Header(json)[12..16] == Le(|json|, 4);
    ShortLe(FORMAT_VERSION);
    ShortLe(|json|);
    hide Le;
  }

  lemma ShortLe(n: nat)
    requires n < 4096
    ensures Le(n, 4) == [n % 256, n / 256, 0, 0]
  {
    assert Le(n, 4) == [n % 256] + Le(n / 256, 3);
    assert Le(n / 256, 3) == [n / 256 % 256] + Le(n / 256 / 256, 2);
    assert n / 256 / 256 == 0;
    assert Le(0, 2) == [0, 0];
  }

  /** Entry `i` of the index: 16 bytes at 4096 + 16 * i, offset then length, low byte first. */
  lemma EntryLayout(json: seq<Byte>, m: Meta, index: seq<Entry>, blobs: seq<seq<Byte>>, i: nat, k: nat)
    requires |json| <= ALIGN - 16 && |index| == Total(m) && i < |index| && k < 8
    ensures var f := FileOf(json, m, index, blobs);
            && 4096 + 16 * i + 16 <= |f|
            && f[4096 + 16 * i + k] == index[i].offset / Pow256(k) % 256
            && f[4096 + 16 * i + 8 + k] == index[i].nbytes / Pow256(k) % 256
  {
    IndexBytesAt(index, i);
    LeAt(index[i].offset, 8, k);
    LeAt(index[i].nbytes, 8, k);
    hide Header;
    hide Data;
    hide Le;
    hide AlignUp;
    hide IndexBytes;
    var f, x := FileOf(json, m, index, blobs), IndexBytes(index);
    assert f[4096 + 16 * i + k] == x[i * 16..i * 16 + 16][k];
    assert f[4096 + 16 * i + 8 + k] == x[i * 16..i * 16 + 16][8 + k];
  }

  /** The first blob starts at the block after the index, each next one at the block after
      the blob before it. */
  lemma OffsetsFollow(m: Meta, blobs: seq<seq<Byte>>, index: seq<Entry>, i: nat)
    requires IsIndex(m, blobs, index) && i < |blobs|
    ensures index[i].nbytes == |blobs[i]|
    ensures index[i].offset ==
            if i == 0 then 4096 + AlignUp(16 * (m.layers * m.experts))
            else index[i - 1].offset + AlignUp(|blobs[i - 1]|)
  {
    if i > 0 {
      assert blobs[..i][..i - 1] == blobs[..i - 1];
      hide AlignUp;
      hide Padded;
    } else {
      SpansAgree(m);
    }
  }

  // ------------------------------------------------------------------- the writer

  /** A write at `pos`: a gap before it reads as zeros. */
  function Overwrite(file: seq<Byte>, pos: nat, bytes: seq<Byte>): seq<Byte> {
    if bytes == [] then file
    else
      var f := if |file| < pos then file + Zeros(pos - |file|) else file;
      f[..pos] + bytes + (if |f| <= pos + |bytes| then [] else f[pos + |bytes|..])
  }

  class PackWriter {
    var file: seq<Byte>
    var pos: nat
    var meta: Meta
    var index: seq<Entry>
    const indexEnd: nat
    var cursor: nat
    /** The blobs added so far. */
    ghost var blobs: seq<seq<Byte>>

    ghost predicate Valid()
      reads this
    {
      && indexEnd == IndexEnd(meta) && |blobs| <= Total(meta) && IsIndex(meta, blobs, index)
      && cursor == pos == indexEnd + |Data(blobs)|
      && file == if Data(blobs) == [] then [] else Zeros(indexEnd) + Data(blobs)
    }

    constructor (m: Meta)
      ensures Valid() && meta == m && blobs == []
    {
      file, meta, index := [], m, [];
      indexEnd := IndexEnd(m);
      pos, cursor := IndexEnd(m), IndexEnd(m);
      blobs := [];
    }

    /** Record the raw length of a blob stored compressed. */
    method NoteRawLen(rawLen: nat)
      requires Valid()
      modifies this`meta
      ensures Valid() && meta == old(meta).(maxRaw := Max(old(meta).maxRaw, rawLen))
    {
      var m := if meta.maxRaw >= rawLen then meta.maxRaw else rawLen;
      assert IndexEnd(meta.(maxRaw := m)) == IndexEnd(meta);
      meta := meta.(maxRaw := m);
    }

    method WriteAll(bytes: seq<Byte>)
      modifies this`file, this`pos
      ensures file == Overwrite(old(file), old(pos), bytes) && pos == old(pos) + |bytes|
    {
      file := Overwrite(file, pos, bytes);
      pos := pos + |bytes|;
    }

    /** Append the next blob, in row-major (layer, expert) order. */
    method AddBlob(blob: seq<Byte>) returns (ok: bool)
      requires Valid()
      modifies this
      ensures Valid() && meta == old(meta)
      ensures ok <==> |old(blobs)| < Total(meta)
      ensures blobs == if ok then old(blobs) + [blob] else old(blobs)
    {
      hide AlignUp;
      hide Data;
      hide Overwrite;
      hide Total;
      hide IndexEnd;
      if |index| == Total(meta) {
        return false;
      }
      assert |blobs| == |index|;
      index := index + [Entry(cursor, |blob|)];
      ghost var was := file;
      IndexGrows(meta, blobs, blob, old(index));
      Appended(blobs, blob, was, indexEnd);
      hide IsIndex;
      var padded := AlignUp(|blob|);
      WriteAll(blob);
      if padded - |blob| > 0 {
        WriteAll(Zeros(padded - |blob|));
      }
      cursor := cursor + padded;
      blobs := blobs + [blob];
      return true;
    }

    /** Write on after `w`. */
    method WriteOn(ghost w: seq<Byte>, ghost was: seq<Byte>, bytes: seq<Byte>) returns (ghost w': seq<Byte>)
      requires file == w + Tail(was, |w|) && pos == |w|
      modifies this`file, this`pos
      ensures w' == w + bytes && file == w' + Tail(was, |w'|) && pos == |w'|
    {
      FrontWrite(w, was, bytes);
      hide Overwrite;
      hide Tail;
      WriteAll(bytes);
      w' := w + bytes;
    }

    /** Back-fill header and index. */
    method Finish(j: Json) returns (ok: bool)
      requires Valid()
      modifies this`file, this`pos
      ensures ok <==> |blobs| == Total(meta) && |j.ser(meta)| <= ALIGN - 16
      ensures ok ==> file == FileOf(j.ser(meta), meta, index, blobs)
    {
      hide AlignUp;
      hide Total;
      hide Overwrite;
      hide Data;
      hide Le;
      if |index| != Total(meta) {
        return false;
      }
      ghost var was := file;
      pos := 0;
      var json := j.ser(meta);
      if |json| > ALIGN - 16 {
        return false;
      }
      ghost var w := [];
      assert file == w + Tail(was, 0);
      assert Tail(was, indexEnd) == Data(blobs);
      hide Tail;
      w := WriteHeader(json, was);
      w := WriteIndex(w, was);
      var pad := indexEnd - ALIGN - Total(meta) * ENTRY_BYTES;
      w := WriteOn(w, was, Zeros(pad));
      return true;
    }

    method WriteHeader(json: seq<Byte>, ghost was: seq<Byte>) returns (ghost w: seq<Byte>)
      requires |json| <= ALIGN - 16 && file == Tail(was, 0) && pos == 0
      modifies this`file, this`pos
      ensures w == Header(json) && file == w + Tail(was, |w|) && pos == |w|
    {
      hide Tail;
      hide Le;
      w := [];
      assert file == w + Tail(was, |w|);
      w := WriteOn(w, was, MAGIC);
      w := WriteOn(w, was, Le(FORMAT_VERSION, 4));
      w := WriteOn(w, was, Le(|json|, 4));
      w := WriteOn(w, was, json);
      w := WriteOn(w, was, Zeros(ALIGN - 16 - |json|));
      assert [] + MAGIC == MAGIC;
    }

    method WriteIndex(ghost w0: seq<Byte>, ghost was: seq<Byte>) returns (ghost w: seq<Byte>)
      requires file == w0 + Tail(was, |w0|) && pos == |w0|
      modifies this`file, this`pos
      ensures w == w0 + IndexBytes(index) && file == w + Tail(was, |w|) && pos == |w|
    {
      hide Tail;
      hide Le;
      w := w0;
      assert w0 + [] == w0;
      for i := 0 to |index|
        invariant w == w0 + IndexBytes(index[..i]) && file == w + Tail(was, |w|) && pos == |w|
      {
        var e := index[i];
        w := WriteOn(w, was, Le(e.offset, 8));
        w := WriteOn(w, was, Le(e.nbytes, 8));
        assert index[..i + 1][..i] == index[..i];
        assert w == w0 + (IndexBytes(index[..i]) + (Le(e.offset, 8) + Le(e.nbytes, 8)));
      }
      assert index[..|index|] == index;
    }
  }

  /** What a write at the end of `w` leaves behind it. */
  function Tail(s: seq<Byte>, n: nat): seq<Byte> {
    if |s| > n then s[n..] else []
  }

  /** Writing on over an existing file, after `w`. */
  lemma FrontWrite(w: seq<Byte>, was: seq<Byte>, bytes: seq<Byte>)
    ensures Overwrite(w + Tail(was, |w|), |w|, bytes) == w + bytes + Tail(was, |w| + |bytes|)
  {
    var f := w + Tail(was, |w|);
    assert f[..|w|] == w;
    if bytes == [] {
      assert w + [] == w;
    } else if |f| > |w| + |bytes| {
      assert f[|w| + |bytes|..] == was[|w| + |bytes|..];
    }
  }

  lemma IndexGrows(m: Meta, blobs: seq<seq<Byte>>, blob: seq<Byte>, index: seq<Entry>)
    requires IsIndex(m, blobs, index)
    ensures IsIndex(m, blobs + [blob], index + [Entry(IndexEnd(m) + |Data(blobs)|, |blob|)])
  {
    hide Data;
    var all := blobs + [blob];
    forall i | 0 <= i < |all|
      ensures all[..i] == if i < |blobs| then blobs[..i] else blobs
    {
    }
  }

  /** A blob and its padding, written at the end. */
  lemma Appended(blobs: seq<seq<Byte>>, blob: seq<Byte>, was: seq<Byte>, indexEnd: nat)
    requires was == if Data(blobs) == [] then [] else Zeros(indexEnd) + Data(blobs)
    ensures |Data(blobs + [blob])| == |Data(blobs)| + AlignUp(|blob|)
    ensures
      var mid := Overwrite(was, indexEnd + |Data(blobs)|, blob);
      var end := if AlignUp(|blob|) > |blob|
          then Overwrite(mid, indexEnd + |Data(blobs)| + |blob|, Zeros(AlignUp(|blob|) - |blob|)) else mid;
      end == if Data(blobs + [blob]) == [] then [] else Zeros(indexEnd) + Data(blobs + [blob])
  {
    hide Data;
    hide AlignUp;
    hide Overwrite;
    DataGrows(blobs, blob);
    var data := Data(blobs);
    if blob != [] {
      AppendWrite(was, indexEnd, data, blob);
      if AlignUp(|blob|) > |blob| {
        AppendWrite(Zeros(indexEnd) + (data + blob), indexEnd, data + blob, Zeros(AlignUp(|blob|) - |blob|));
        assert data + blob + Zeros(AlignUp(|blob|) - |blob|) == data + Padded(blob);
      } else {
        assert Padded(blob) == blob;
      }
    } else {
      NoPadding();
      OverwriteNothing(was, indexEnd + |data|);
      assert Padded(blob) == [];
      assert data + [] == data;
    }
  }

  lemma DataGrows(blobs: seq<seq<Byte>>, blob: seq<Byte>)
    ensures Data(blobs + [blob]) == Data(blobs) + Padded(blob)
  {
    var all := blobs + [blob];
    assert all[..|all| - 1] == blobs;
    hide Padded;
  }

  lemma OverwriteNothing(file: seq<Byte>, pos: nat)
    ensures Overwrite(file, pos, []) == file
  {
  }

  lemma NoPadding()
    ensures AlignUp(0) == 0
  {
  }

  lemma AppendWrite(was: seq<Byte>, indexEnd: nat, data: seq<Byte>, bytes: seq<Byte>)
    requires (data == [] && was == []) || was == Zeros(indexEnd) + data
    requires bytes != []
    ensures Overwrite(was, indexEnd + |data|, bytes) == Zeros(indexEnd) + (data + bytes)
  {
    if was == [] {
      assert [] + Zeros(indexEnd + |data|) == Zeros(indexEnd) + data;
    }
    assert (Zeros(indexEnd) + data)[..indexEnd + |data|] == Zeros(indexEnd) + data;
    assert Zeros(indexEnd) + data + bytes == Zeros(indexEnd) + (data + bytes);
  }

  // ------------------------------------------------------------------- the reader

  datatype Reader = Reader(file: seq<Byte>, meta: Meta, index: seq<Entry>)

  function IndexOf(raw: seq<Byte>, total: nat): (index: seq<Entry>)
    requires total * ENTRY_BYTES <= |raw|
    ensures |index| == total
  {
    seq(total, i requires 0 <= i < total =>
      Entry(FromLe(raw[i * 16..i * 16 + 8]), FromLe(raw[i * 16 + 8..i * 16 + 16])))
  }

  /** Open a file: check the header, parse the metadata, read the index. */
  function Open(file: seq<Byte>, j: Json): Result<Reader> {
    if |file| < ALIGN then Err
    else if file[..8] != MAGIC || FromLe(file[8..12]) != FORMAT_VERSION then Err
    else
      var n := FromLe(file[12..16]);
      if n > ALIGN - 16 then Err
      else
        var meta := j.de(file[16..16 + n]);
        if meta.None? then Err
        else
          var total := Total(meta.value);
          var span := AlignUp(total * ENTRY_BYTES);
          if |file| < ALIGN + span then Err
          else Ok(Reader(file, meta.value, IndexOf(file[ALIGN..ALIGN + span], total)))
  }

  /** A file opens exactly when it has a whole first block with the magic and version 1, its
      metadata fits that block and parses, and it reaches to the end of the index. */
  lemma OpensIff(file: seq<Byte>, j: Json)
    ensures Open(file, j).Ok? <==>
            && |file| >= 4096
            && file[..8] == [76, 76, 77, 80, 75, 49, 0, 0] && file[8..12] == [1, 0, 0, 0]
            && var n := Four(file[12..16]);
               && n <= 4080 && j.de(file[16..16 + n]).Some?
               && var m := j.de(file[16..16 + n]).value;
                  |file| >= 4096 + AlignUp(16 * (m.layers * m.experts))
    ensures Open(file, j).Ok? ==> Open(file, j).value.file == file
  {
    if |file| >= 4096 {
      FourBytes(file[8..12]);
      FourBytes(file[12..16]);
      hide FromLe;
      hide AlignUp;
      hide IndexOf;
    }
  }

  /** A little-endian 32-bit integer. */
  function Four(s: seq<Byte>): nat
    requires |s| == 4
  {
    s[0] as nat + 256 * (s[1] as nat) + 65536 * (s[2] as nat) + 16777216 * (s[3] as nat)
  }

  lemma FourBytes(s: seq<Byte>)
    requires |s| == 4
    ensures FromLe(s) == Four(s)
    ensures FromLe(s) == 1 <==> s == [1, 0, 0, 0]
  {
    assert s[1..][1..] == s[2..] && s[2..][1..] == s[3..] && s[3..][1..] == [];
    assert FromLe(s[3..]) == s[3] as nat;
    assert FromLe(s[2..]) == s[2] as nat + 256 * (s[3] as nat);
  }

  /** Entry of a (layer, expert). */
  function EntryOf(r: Reader, layer: nat, expert: nat): Entry
    requires |r.index| == Total(r.meta) && layer < r.meta.layers && expert < r.meta.experts
  {
    FlatFits(layer, expert, r.meta.layers, r.meta.experts);
    r.index[Flat(layer, expert, r.meta.experts)]
  }

  /** What is stored of a (layer, expert), if the file reaches that far. */
  function Stored(r: Reader, e: Entry): (frame: Option<seq<Byte>>) {
    if e.offset + AlignUp(e.nbytes) <= |r.file| then Some(r.file[e.offset..e.offset + e.nbytes]) else None
  }

  /** Copy `bytes` to the front of `buf`. */
  method Fill(buf: array<Byte>, bytes: seq<Byte>)
    requires |bytes| <= buf.Length
    modifies buf
    ensures buf[..] == bytes + old(buf[|bytes|..])
  {
    for i := 0 to |bytes|
      invariant forall k :: 0 <= k < i ==> buf[k] == bytes[k]
      invariant forall k :: i <= k < buf.Length ==> buf[k] == old(buf[k])
    {
      buf[i] := bytes[i];
    }
  }

  /** Read one blob into `buf`. An uncompressed one arrives with its padding; a compressed
      one is decompressed, by `unzip`, straight into `buf`. */
  method ReadBlobInto(r: Reader, layer: nat, expert: nat, buf: array<Byte>, unzip: seq<Byte> -> Option<seq<Byte>>)
    returns (n: Result<nat>)
    requires |r.index| == Total(r.meta) && layer < r.meta.layers && expert < r.meta.experts
    modifies buf
    ensures
      var e := EntryOf(r, layer, expert);
      var span := AlignUp(e.nbytes);
      if r.meta.compression.None? then
        && (n.Ok? <==> span <= buf.Length && e.offset + span <= |r.file|)
        && (n.Err? ==> buf[..] == old(buf[..]))
        && (n.Ok? ==> n.value == e.nbytes && buf[..] == r.file[e.offset..e.offset + span] + old(buf[span..]))
      else
        var raw := if Stored(r, e).Some? then unzip(Stored(r, e).value) else None;
        && (n.Ok? <==> raw.Some? && |raw.value| <= buf.Length)
        && (n.Ok? ==> n.value == |raw.value| && buf[..] == raw.value + old(buf[|raw.value|..]))
  {
    var e := EntryOf(r, layer, expert);
    var span := AlignUp(e.nbytes);
    assert e.nbytes <= span;
    hide AlignUp;
    if r.meta.compression.None? {
      if buf.Length < span || |r.file| < e.offset + span {
        return Err;
      }
      Fill(buf, r.file[e.offset..e.offset + span]);
      return Ok(e.nbytes);
    }
    if |r.file| < e.offset + span {
      return Err;
    }
    var scratch := r.file[e.offset..e.offset + span];
    assert scratch[..e.nbytes] == r.file[e.offset..e.offset + e.nbytes];
    var raw := unzip(scratch[..e.nbytes]);
    if raw.None? || buf.Length < |raw.value| {
      return Err;
    }
    Fill(buf, raw.value);
    return Ok(|raw.value|);
  }

  // ------------------------------------------------------------------- the round trip

  lemma {:induction false} IndexBytesAt(index: seq<Entry>, i: nat)
    requires i < |index|
    ensures i * 16 + 16 <= |IndexBytes(index)|
    ensures IndexBytes(index)[i * 16..i * 16 + 16] == EntryBytes(index[i])
    decreases |index|
  {
    var n := |index| - 1;
    if i < n {
      IndexBytesAt(index[..n], i);
      assert IndexBytes(index) == IndexBytes(index[..n]) + EntryBytes(index[n]);
      assert IndexBytes(index)[i * 16..i * 16 + 16] == IndexBytes(index[..n])[i * 16..i * 16 + 16];
    }
  }

  lemma EntryRoundTrip(e: Entry, s: seq<Byte>)
    requires s == EntryBytes(e) && e.offset < Pow256(8) && e.nbytes < Pow256(8)
    ensures |s| == 16 && FromLe(s[0..8]) == e.offset && FromLe(s[8..16]) == e.nbytes
  {
    assert s[0..8] == Le(e.offset, 8);
    assert s[8..16] == Le(e.nbytes, 8);
    hide Le;
    hide FromLe;
    hide Pow256;
    LeRoundTrip(e.offset, 8);
    LeRoundTrip(e.nbytes, 8);
  }

  /** Offsets and lengths fit the 64-bit fields they are stored in. */
  ghost predicate Fits(index: seq<Entry>) {
    forall i :: 0 <= i < |index| ==> index[i].offset < Pow256(8) && index[i].nbytes < Pow256(8)
  }

  lemma IndexIsRead(raw: seq<Byte>, index: seq<Entry>)
    requires IndexBytes(index) <= raw && Fits(index)
    ensures IndexOf(raw, |index|) == index
  {
    hide FromLe;
    hide Pow256;
    hide Fits;
    hide IndexBytes;
    forall i | 0 <= i < |index|
      ensures IndexOf(raw, |index|)[i] == index[i]
    {
      EntryIsRead(raw, index, i);
    }
  }

  lemma EntryIsRead(raw: seq<Byte>, index: seq<Entry>, i: nat)
    requires IndexBytes(index) <= raw && Fits(index) && i < |index|
    ensures Entry(FromLe(raw[i * 16..i * 16 + 8]), FromLe(raw[i * 16 + 8..i * 16 + 16])) == index[i]
  {
    hide *;
    IndexBytesAt(index, i);
    PrefixSlice(IndexBytes(index), raw, i * 16, i * 16 + 16);
    EntryFits(index, i);
    EntryAt(raw, i * 16, index[i]);
  }

  lemma EntryAt(raw: seq<Byte>, a: nat, e: Entry)
    requires a + 16 <= |raw| && raw[a..a + 16] == EntryBytes(e) && e.offset < Pow256(8) && e.nbytes < Pow256(8)
    ensures Entry(FromLe(raw[a..a + 8]), FromLe(raw[a + 8..a + 16])) == e
  {
    hide *;
    Halves(raw, a);
    EntryRoundTrip(e, raw[a..a + 16]);
  }

  lemma EntryFits(index: seq<Entry>, i: nat)
    requires Fits(index) && i < |index|
    ensures index[i].offset < Pow256(8) && index[i].nbytes < Pow256(8)
  {
    hide Pow256;
  }

  lemma PrefixSlice(p: seq<Byte>, s: seq<Byte>, a: nat, b: nat)
    requires p <= s && a <= b <= |p|
    ensures p[a..b] == s[a..b]
  {
  }

  lemma Halves(s: seq<Byte>, a: nat)
    requires a + 16 <= |s|
    ensures s[a..a + 16][0..8] == s[a..a + 8] && s[a..a + 16][8..16] == s[a + 8..a + 16]
  {
  }

  lemma HeaderIsRead(json: seq<Byte>, rest: seq<Byte>)
    requires |json| <= ALIGN - 16
    ensures
      var f := Header(json) + rest;
      f[..8] == MAGIC && FromLe(f[8..12]) == FORMAT_VERSION && FromLe(f[12..16]) == |json| && f[16..16 + |json|] == json
  {
    var f := Header(json) + rest;
    assert f[8..12] == Le(FORMAT_VERSION, 4);
    assert f[12..16] == Le(|json|, 4);
    assert f[16..16 + |json|] == json;
    hide Le;
    hide FromLe;
    assert Pow256(4) == 4294967296;
    LeRoundTrip(FORMAT_VERSION, 4);
    LeRoundTrip(|json|, 4);
  }

  /** The reader finds the metadata and the index that were written. */
  lemma OpensWhatWasWritten(j: Json, m: Meta, index: seq<Entry>, blobs: seq<seq<Byte>>)
    requires JsonOk(j) && |j.ser(m)| <= ALIGN - 16 && |index| == Total(m) && Fits(index)
    ensures
      var f := FileOf(j.ser(m), m, index, blobs);
      Open(f, j) == Ok(Reader(f, m, index))
  {
    hide AlignUp;
    hide Data;
    hide Le;
    hide FromLe;
    hide IndexBytes;
    hide Fits;
    var json := j.ser(m);
    var f := FileOf(json, m, index, blobs);
    var rest := IndexBytes(index) + Zeros(IndexEnd(m) - ALIGN - Total(m) * ENTRY_BYTES) + Data(blobs);
    assert f == Header(json) + rest by {
      hide Header;
    }
    HeaderIsRead(json, rest);
    var span := AlignUp(Total(m) * ENTRY_BYTES);
    IndexIsInSpan(json, m, index, blobs);
    hide Header;
    IndexIsRead(f[ALIGN..ALIGN + span], index);
    hide IndexOf;
    hide Total;
    hide FileOf;
    assert j.de(json) == Some(m);
  }

  lemma IndexIsInSpan(json: seq<Byte>, m: Meta, index: seq<Entry>, blobs: seq<seq<Byte>>)
    requires |json| <= ALIGN - 16 && |index| == Total(m)
    ensures
      var f, span := FileOf(json, m, index, blobs), AlignUp(Total(m) * ENTRY_BYTES);
      ALIGN + span <= |f| && IndexBytes(index) <= f[ALIGN..ALIGN + span]
  {
    SpansAgree(m);
    hide AlignUp;
    hide Data;
    hide Header;
    hide IndexBytes;
    hide Total;
  }

  /** Every blob sits in the data where its index entry points. */
  lemma {:induction false} BlobInData(blobs: seq<seq<Byte>>, i: nat)
    requires i < |blobs|
    ensures |Data(blobs[..i])| + AlignUp(|blobs[i]|) <= |Data(blobs)|
    ensures Data(blobs)[|Data(blobs[..i])|..|Data(blobs[..i])| + AlignUp(|blobs[i]|)] == Padded(blobs[i])
    decreases |blobs|
  {
    hide AlignUp;
    hide Padded;
    var n := |blobs| - 1;
    var w := blobs[..n];
    var at, end := |Data(blobs[..i])|, |Data(blobs[..i])| + AlignUp(|blobs[i]|);
    assert Data(blobs) == Data(w) + Padded(blobs[n]);
    if i < n {
      BlobInData(w, i);
      assert w[..i] == blobs[..i] && w[i] == blobs[i];
      assert Data(blobs)[at..end] == Data(w)[at..end];
    } else {
      assert Data(blobs)[at..end] == Padded(blobs[i]);
    }
  }

  /** Header, index and padded blobs do not overlap, and every blob is aligned. */
  lemma BlobsAreDisjoint(m: Meta, blobs: seq<seq<Byte>>, index: seq<Entry>, i: nat, k: nat)
    requires IsIndex(m, blobs, index) && i < k < |blobs|
    ensures index[i].offset % ALIGN == 0 && ALIGN + Total(m) * ENTRY_BYTES <= IndexEnd(m) <= index[i].offset
    ensures index[i].offset + AlignUp(index[i].nbytes) <= index[k].offset
  {
    hide Data;
    hide AlignUp;
    hide Total;
    hide Padded;
    EntryAligned(m, blobs[..i]);
    var w := blobs[..k];
    BlobInData(w, i);
    assert w[..i] == blobs[..i] && w[i] == blobs[i];
  }

  lemma EntryAligned(m: Meta, before: seq<seq<Byte>>)
    ensures (IndexEnd(m) + |Data(before)|) % ALIGN == 0 && ALIGN + Total(m) * ENTRY_BYTES <= IndexEnd(m)
  {
    hide Total;
    hide Data;
    SumAligned(IndexEnd(m), |Data(before)|);
  }

  lemma SumAligned(a: nat, b: nat)
    requires a % ALIGN == 0 && b % ALIGN == 0
    ensures (a + b) % ALIGN == 0
  {
  }

  /** Reading (layer, expert) of a written pack delivers the blob added at
      layer * experts + expert, at the start of the buffer. */
  lemma ReadsBack(j: Json, m: Meta, index: seq<Entry>, blobs: seq<seq<Byte>>, layer: nat, expert: nat)
    requires |j.ser(m)| <= ALIGN - 16 && |blobs| == Total(m) && IsIndex(m, blobs, index)
    requires layer < m.layers && expert < m.experts
    ensures
      var f := FileOf(j.ser(m), m, index, blobs);
      var e := EntryOf(Reader(f, m, index), layer, expert);
      var i := Flat(layer, expert, m.experts);
      && i < |blobs| && e.nbytes == |blobs[i]| && e.offset + AlignUp(e.nbytes) <= |f|
      && f[e.offset..e.offset + AlignUp(e.nbytes)][..e.nbytes] == blobs[i]
  {
    hide At;
    FlatFits(layer, expert, m.layers, m.experts);
    var i := Flat(layer, expert, m.experts);
    var f := FileOf(j.ser(m), m, index, blobs);
    hide AlignUp;
    hide Data;
    hide FileOf;
    BlobInFile(j.ser(m), m, index, blobs, i);
    assert index[i] == Entry(IndexEnd(m) + |Data(blobs[..i])|, |blobs[i]|);
  }

  lemma StoredIsBlob(j: Json, m: Meta, index: seq<Entry>, blobs: seq<seq<Byte>>, layer: nat, expert: nat)
    requires |j.ser(m)| <= ALIGN - 16 && |blobs| == Total(m) && IsIndex(m, blobs, index)
    requires layer < m.layers && expert < m.experts
    ensures
      var r := Reader(FileOf(j.ser(m), m, index, blobs), m, index);
      var i := Flat(layer, expert, m.experts);
      i < |blobs| && Stored(r, EntryOf(r, layer, expert)) == Some(blobs[i])
  {
    ReadsBack(j, m, index, blobs, layer, expert);
    var r := Reader(FileOf(j.ser(m), m, index, blobs), m, index);
    var e := EntryOf(r, layer, expert);
    assert e.nbytes <= AlignUp(e.nbytes);
    hide AlignUp;
    hide FileOf;
    hide IsIndex;
    assert r.file[e.offset..e.offset + AlignUp(e.nbytes)][..e.nbytes] == r.file[e.offset..e.offset + e.nbytes];
  }

  /** In a compressed pack, decompressing what is stored of (layer, expert) delivers the raw
      blob whose compressed form was added there. */
  lemma DecompressesBack(j: Json, m: Meta, index: seq<Entry>, raws: seq<seq<Byte>>, blobs: seq<seq<Byte>>,
                         zip: seq<Byte> -> seq<Byte>, unzip: seq<Byte> -> Option<seq<Byte>>, layer: nat, expert: nat)
    requires forall raw: seq<Byte> :: unzip(zip(raw)) == Some(raw)
    requires |blobs| == |raws| && forall i :: 0 <= i < |raws| ==> blobs[i] == zip(raws[i])
    requires |j.ser(m)| <= ALIGN - 16 && |raws| == Total(m) && IsIndex(m, blobs, index)
    requires layer < m.layers && expert < m.experts
    ensures
      var r := Reader(FileOf(j.ser(m), m, index, blobs), m, index);
      var e, i := EntryOf(r, layer, expert), Flat(layer, expert, m.experts);
      i < |raws| && Stored(r, e).Some? && unzip(Stored(r, e).value) == Some(raws[i])
  {
    hide IsIndex;
    hide FileOf;
    hide Stored;
    hide EntryOf;
    StoredIsBlob(j, m, index, blobs, layer, expert);
  }

  lemma BlobInFile(json: seq<Byte>, m: Meta, index: seq<Entry>, blobs: seq<seq<Byte>>, i: nat)
    requires |json| <= ALIGN - 16 && |index| == Total(m) && i < |blobs|
    ensures
      var f, o, span := FileOf(json, m, index, blobs), IndexEnd(m) + |Data(blobs[..i])|, AlignUp(|blobs[i]|);
      o + span <= |f| && f[o..o + span] == Padded(blobs[i])
  {
    hide Data;
    hide AlignUp;
    hide Padded;
    hide Total;
    hide Header;
    BlobInData(blobs, i);
    var front := Header(json) + IndexBytes(index) + Zeros(IndexEnd(m) - ALIGN - Total(m) * ENTRY_BYTES);
    assert |front| == IndexEnd(m);
    var f, o, span := FileOf(json, m, index, blobs), IndexEnd(m) + |Data(blobs[..i])|, AlignUp(|blobs[i]|);
    assert f == front + Data(blobs);
    assert f[o..o + span] == Data(blobs)[|Data(blobs[..i])|..|Data(blobs[..i])| + span];
  }
}
