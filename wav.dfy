/** The RIFF/WAVE PCM container as `audio_manager.c` reads and writes it: the
    44-byte `wav_header_t` image, the chunk scan that locates the `data`
    chunk, and the splitting of the payload into transport writes. */
module Wav {
  import opened Wrappers
  import opened Bytes

  /** sizeof(wav_header_t): the struct has no padding. */
  const HeaderSize: nat := 44
  /** The chunk scan starts after "RIFF", the container size and "WAVE". */
  const ScanStart: nat := 12
  /** Size of the playback and capture buffers. */
  const StreamChunk: nat := 1024
  /** Largest declared sample rate the player switches to. */
  const MaxSupportedRate: nat := 48000

  const RiffId: seq<Byte> := [0x52, 0x49, 0x46, 0x46]  // "RIFF"
  const WaveId: seq<Byte> := [0x57, 0x41, 0x56, 0x45]  // "WAVE"
  const FmtId: seq<Byte> := [0x66, 0x6d, 0x74, 0x20]   // "fmt "
  const DataId: seq<Byte> := [0x64, 0x61, 0x74, 0x61]  // "data"
  /** The constant the source compares a chunk id read as `uint32_t` with. */
  const DataIdWord: U32 := 0x61746164

  /** `wav_header_t`, field by field. */
  datatype Header = Header(
    riff: seq<Byte>, wavSize: U32, wave: seq<Byte>,
    fmt: seq<Byte>, fmtChunkSize: U32, audioFormat: U16, numChannels: U16,
    sampleRate: U32, byteRate: U32, sampleAlignment: U16, bitDepth: U16,
    dataHeader: seq<Byte>, dataBytes: U32)
  {
    /** The four `char[4]` members really hold four bytes. */
    predicate IdsSized()
    {
      |riff| == 4 && |wave| == 4 && |fmt| == 4 && |dataHeader| == 4
    }
  }

  /** The memory image of a header, as `fwrite(&header, 1, 44, f)` emits it. */
  function EncodeHeader(h: Header): (r: seq<Byte>)
    requires h.IdsSized()
    ensures |r| == HeaderSize
    ensures r[0..4] == h.riff && r[8..12] == h.wave && r[36..40] == h.dataHeader
  {
    h.riff + Le32(h.wavSize) + h.wave + h.fmt + Le32(h.fmtChunkSize)
    + Le16(h.audioFormat) + Le16(h.numChannels) + Le32(h.sampleRate)
    + Le32(h.byteRate) + Le16(h.sampleAlignment) + Le16(h.bitDepth)
    + h.dataHeader + Le32(h.dataBytes)
  }

  /** The header `fread(&header, 1, 44, f)` fills in from the first 44 bytes. */
  function DecodeHeader(b: seq<Byte>): (h: Header)
    requires |b| == HeaderSize
    ensures h.IdsSized()
    ensures h.riff == b[0..4] && h.wave == b[8..12]
  {
    Header(b[0..4], ReadLe32(b[4..8]), b[8..12], b[12..16], ReadLe32(b[16..20]),
           ReadLe16(b[20..22]), ReadLe16(b[22..24]), ReadLe32(b[24..28]),
           ReadLe32(b[28..32]), ReadLe16(b[32..34]), ReadLe16(b[34..36]),
           b[36..40], ReadLe32(b[40..44]))
  }

  lemma {:induction false} DecodeEncode(h: Header)
    requires h.IdsSized()
    ensures DecodeHeader(EncodeHeader(h)) == h
  {
    var b := EncodeHeader(h);
    assert b[4..8] == Le32(h.wavSize);
    assert b[16..20] == Le32(h.fmtChunkSize);
    assert b[20..22] == Le16(h.audioFormat);
    assert b[22..24] == Le16(h.numChannels);
    assert b[24..28] == Le32(h.sampleRate);
    assert b[28..32] == Le32(h.byteRate);
    assert b[32..34] == Le16(h.sampleAlignment);
    assert b[34..36] == Le16(h.bitDepth);
    assert b[40..44] == Le32(h.dataBytes);
    Le32RoundTrip(h.wavSize);
    Le32RoundTrip(h.fmtChunkSize);
    Le16RoundTrip(h.audioFormat);
    Le16RoundTrip(h.numChannels);
    Le32RoundTrip(h.sampleRate);
    Le32RoundTrip(h.byteRate);
    Le16RoundTrip(h.sampleAlignment);
    Le16RoundTrip(h.bitDepth);
    Le32RoundTrip(h.dataBytes);
  }

  /** The header `memset(&header, 0, 44)` leaves as the placeholder. */
  function ZeroHeader(): (h: Header)
    ensures h.IdsSized()
  {
    Header([0, 0, 0, 0], 0, [0, 0, 0, 0], [0, 0, 0, 0], 0, 0, 0, 0, 0, 0, 0,
           [0, 0, 0, 0], 0)
  }

  /** The placeholder is 44 zero bytes. */
  lemma ZeroHeaderIsZeroBytes()
    ensures EncodeHeader(ZeroHeader()) == seq(HeaderSize, _ => 0)
  {
    assert Le32(0) == [0, 0, 0, 0];
    assert Le16(0) == [0, 0];
  }

  /** The header the recorder back-fills after capturing `total` bytes at the
      rate active when capture ends. Arithmetic is `uint32_t`. */
  function RecordedHeader(rate: U32, total: nat): (h: Header)
    ensures h.IdsSized()
    ensures h.riff == RiffId && h.wave == WaveId && h.fmt == FmtId && h.dataHeader == DataId
    ensures h.fmtChunkSize == 16 && h.audioFormat == 1 && h.numChannels == 2
    ensures h.sampleRate == rate && h.sampleAlignment == 4 && h.bitDepth == 16
    ensures rate * 4 < TwoTo32 ==> h.byteRate == rate * h.numChannels * (h.bitDepth / 8)
    ensures total + 36 < TwoTo32 ==> h.wavSize == total + 36 && h.dataBytes == total
  {
    Header(RiffId, Wrap32(36 + total), WaveId, FmtId, 16, 1, 2, rate,
           Wrap32(rate * 2 * 2), 4, 16, DataId, Wrap32(total))
  }

  /** The two magic checks of the player, on the header it read. */
  predicate MagicOk(h: Header)
  {
    h.riff == RiffId && h.wave == WaveId
  }

  /** Declared rates the player switches the transport to. */
  predicate RateSupported(rate: U32)
  {
    0 < rate <= MaxSupportedRate
  }

  /** A located `data` chunk: where its payload starts and its size field. */
  datatype DataChunk = DataChunk(start: nat, size: U32)

  /** The chunk scan from `cursor`: read a 4-byte id and a 4-byte little-endian
      size; stop at the first id "data"; otherwise skip exactly `size` bytes
      (no pad byte for odd sizes). The skip is unsigned; the source's differs
      from 2^31 up, see `NextCursorAsWritten`. Running out of bytes for the 8-byte record
      ends the scan without a result. */
  function FindData(file: seq<Byte>, cursor: nat): Option<DataChunk>
    decreases |file| - cursor
  {
    if cursor + 8 > |file| then None
    else if file[cursor..cursor + 4] == DataId then
      Some(DataChunk(cursor + 8, ReadLe32(file[cursor + 4..cursor + 8])))
    else FindData(file, cursor + 8 + ReadLe32(file[cursor + 4..cursor + 8]))
  }

  /** What the scan reports is a real `data` record of the file, and its
      payload starts inside the file. */
  lemma {:induction false} FindDataSound(file: seq<Byte>, cursor: nat)
    ensures var r := FindData(file, cursor);
            r.Some? ==>
              && cursor + 8 <= r.value.start <= |file|
              && file[r.value.start - 8..r.value.start - 4] == DataId
              && r.value.size == ReadLe32(file[r.value.start - 4..r.value.start])
    decreases |file| - cursor
  {
    if cursor + 8 <= |file| && file[cursor..cursor + 4] != DataId {
      FindDataSound(file, cursor + 8 + ReadLe32(file[cursor + 4..cursor + 8]));
    }
  }

  /** Comparing the id read as a little-endian `uint32_t` with 0x61746164 is
      exactly comparing its bytes with "data". */
  lemma DataWordIsDataId(id: seq<Byte>)
    requires |id| == 4
    ensures ReadLe32(id) == DataIdWord <==> id == DataId
  {
    assert ReadLe32(DataId) == DataIdWord;
    ReadLe32Injective(id, DataId);
  }

  /** Bytes the streaming loop can deliver: the chunk's size, cut short by the
      end of the file. */
  function Playable(file: seq<Byte>, d: DataChunk): (n: nat)
    requires d.start <= |file|
    ensures n <= d.size && d.start + n <= |file|
    ensures n == d.size || d.start + n == |file|
  {
    if d.size <= |file| - d.start then d.size else |file| - d.start
  }

  /** A byte string split into the successive transport writes of the
      streaming loop: pieces of `StreamChunk` bytes, the last one clipped. */
  function Chunks(s: seq<Byte>): seq<seq<Byte>>
  {
    if |s| <= StreamChunk then (if s == [] then [] else [s])
    else [s[..StreamChunk]] + Chunks(s[StreamChunk..])
  }

  lemma {:induction false} ChunksFlatten(s: seq<Byte>)
    ensures Flatten(Chunks(s)) == s
  {
    if |s| > StreamChunk {
      ChunksFlatten(s[StreamChunk..]);
      assert s == s[..StreamChunk] + s[StreamChunk..];
    } else if s != [] {
      assert Flatten([s]) == s + Flatten([]);
    }
  }

  lemma {:induction false} ChunksShape(s: seq<Byte>)
    ensures |Chunks(s)| == (|s| + StreamChunk - 1) / StreamChunk
    ensures forall i :: 0 <= i < |Chunks(s)| ==> 0 < |Chunks(s)[i]| <= StreamChunk
    ensures forall i :: 0 <= i < |Chunks(s)| - 1 ==> |Chunks(s)[i]| == StreamChunk
  {
    if |s| > StreamChunk {
      ChunksShape(s[StreamChunk..]);
    }
  }

  /** One step of `Chunks`: the first write takes at most `StreamChunk` bytes. */
  lemma ChunksStep(s: seq<Byte>, k: nat)
    requires s != [] && k == if |s| < StreamChunk then |s| else StreamChunk
    ensures Chunks(s) == [s[..k]] + Chunks(s[k..])
  {
    if |s| <= StreamChunk {
      assert s[..k] == s && s[k..] == [];
    }
  }

  /** A chunk as it is laid out in the file: id, little-endian size, body. */
  datatype Chunk = Chunk(id: seq<Byte>, body: seq<Byte>)
  {
    predicate Wellformed()
    {
      |id| == 4 && |body| < TwoTo32
    }
  }

  predicate AllWellformed(cs: seq<Chunk>)
  {
    forall i :: 0 <= i < |cs| ==> cs[i].Wellformed()
  }

  /** No chunk of the list is a `data` chunk. */
  predicate NoDataChunk(cs: seq<Chunk>)
  {
    forall i :: 0 <= i < |cs| ==> cs[i].id != DataId
  }

  function SerializeChunks(cs: seq<Chunk>): (r: seq<Byte>)
    requires AllWellformed(cs)
  {
    if cs == [] then []
    else
      assert cs[0].Wellformed();
      cs[0].id + Le32(|cs[0].body|) + cs[0].body + SerializeChunks(cs[1..])
  }

  /** A non-`data` record at the cursor sends the scan exactly `size` bytes
      past the end of the record. */
  lemma {:induction false} ScanSkip(f: seq<Byte>, c: nat, size: nat)
    requires c + 8 <= |f| && f[c..c + 4] != DataId
    requires ReadLe32(f[c + 4..c + 8]) == size
    ensures FindData(f, c) == FindData(f, c + 8 + size)
  {
  }

  /** A slice of a region of the file that holds `s` is the same slice of `s`. */
  lemma {:induction false} SliceOfRegion(file: seq<Byte>, c: nat, s: seq<Byte>, i: nat, j: nat)
    requires c + |s| <= |file| && file[c..c + |s|] == s
    requires i <= j <= |s|
    ensures file[c + i..c + j] == s[i..j]
  {
    forall k | 0 <= k < j - i
      ensures file[c + i..c + j][k] == s[i..j][k]
    {
      assert file[c..c + |s|][i + k] == file[c + i + k];
    }
  }

  /** The serialisation of a non-empty list: its first record, then the rest. */
  lemma {:induction false} SerializeCons(cs: seq<Chunk>)
    requires AllWellformed(cs) && cs != []
    ensures cs[0].Wellformed() && AllWellformed(cs[1..])
    ensures var s := SerializeChunks(cs);
            var n := |cs[0].body|;
            && |s| == 8 + n + |SerializeChunks(cs[1..])|
            && s[0..4] == cs[0].id
            && s[4..8] == Le32(n)
            && s[8 + n..] == SerializeChunks(cs[1..])
  {
    assert cs[0].Wellformed();
    var s := SerializeChunks(cs);
    var n := |cs[0].body|;
    var rest := SerializeChunks(cs[1..]);
    assert s == cs[0].id + (Le32(n) + (cs[0].body + rest));
  }

  /** A region of the file holding a serialised list of non-`data` chunks is
      skipped by the scan, chunk by chunk, whatever the ids and sizes. */
  lemma {:induction false} ScanSkipsChunks(file: seq<Byte>, c: nat, cs: seq<Chunk>, end: nat)
    requires AllWellformed(cs) && NoDataChunk(cs)
    requires end == c + |SerializeChunks(cs)| <= |file|
    requires file[c..end] == SerializeChunks(cs)
    ensures FindData(file, c) == FindData(file, end)
    decreases |cs|
  {
    if cs != [] {
      var s := SerializeChunks(cs);
      SerializeCons(cs);
      var n := |cs[0].body|;
      var rest := SerializeChunks(cs[1..]);
      SliceOfRegion(file, c, s, 0, 4);
      SliceOfRegion(file, c, s, 4, 8);
      Le32RoundTrip(n);
      assert cs[0].id != DataId;
      ScanSkip(file, c, n);
      SliceOfRegion(file, c, s, 8 + n, |s|);
      assert s[8 + n..|s|] == rest;
      ScanSkipsChunks(file, c + 8 + n, cs[1..], end);
    }
  }

  /** A `data` record at the cursor ends the scan: its size field becomes the
      authoritative length and the payload starts right after it. */
  lemma {:induction false} ScanStopsAtData(file: seq<Byte>, c: nat, n: U32)
    requires c + 8 <= |file| && file[c..c + 4] == DataId && file[c + 4..c + 8] == Le32(n)
    ensures FindData(file, c) == Some(DataChunk(c + 8, n))
  {
    Le32RoundTrip(n);
  }

  /** Without a `data` chunk before the end of the file, the scan fails. */
  lemma {:induction false} ScanWithoutData(file: seq<Byte>, c: nat, cs: seq<Chunk>)
    requires AllWellformed(cs) && NoDataChunk(cs)
    requires c <= |file| && file[c..] == SerializeChunks(cs)
    ensures FindData(file, c) == None
  {
    assert file[c..|file|] == file[c..];
    ScanSkipsChunks(file, c, cs, |file|);
  }

  /** The tolerant reader: any non-`data` chunks between the cursor and a
      `data` record are skipped, and the chunk located is that record's, with
      the size it declares. */
  lemma {:induction false} ScanFindsDataAfterChunks(file: seq<Byte>, c: nat, cs: seq<Chunk>, size: U32)
    requires AllWellformed(cs) && NoDataChunk(cs)
    requires c + |SerializeChunks(cs)| + 8 <= |file|
    requires file[c..c + |SerializeChunks(cs)|] == SerializeChunks(cs)
    requires file[c + |SerializeChunks(cs)|..c + |SerializeChunks(cs)| + 4] == DataId
    requires file[c + |SerializeChunks(cs)| + 4..c + |SerializeChunks(cs)| + 8] == Le32(size)
    ensures FindData(file, c) == Some(DataChunk(c + |SerializeChunks(cs)| + 8, size))
  {
    var e := c + |SerializeChunks(cs)|;
    ScanSkipsChunks(file, c, cs, e);
    ScanStopsAtData(file, e, size);
  }

  /** On a file that starts with a canonical 44-byte header (a 16-byte
      "fmt " chunk followed by the "data" record), the scan skips the fmt
      chunk and takes the header's own `data_bytes` as the payload length. */
  lemma {:induction false} ScanOfCanonicalHeader(file: seq<Byte>)
    requires |file| >= HeaderSize
    requires var h := DecodeHeader(file[..HeaderSize]);
             h.fmt == FmtId && h.fmtChunkSize == 16 && h.dataHeader == DataId
    ensures FindData(file, ScanStart) == Some(DataChunk(HeaderSize, DecodeHeader(file[..HeaderSize]).dataBytes))
  {
    var b := file[..HeaderSize];
    var h := DecodeHeader(b);
    assert file[12..16] == b[12..16] == FmtId;
    assert file[16..20] == b[16..20];
    assert FmtId != DataId by { assert FmtId[0] != DataId[0]; }
    ScanSkip(file, 12, 16);
    assert file[36..40] == b[36..40];
    assert file[40..44] == b[40..44];
  }

  /** The file the recorder leaves behind is read back by the player: the
      magic passes, the declared rate is the recording rate, the scan skips the
      16-byte "fmt " chunk, finds "data" at offset 36 with the captured length,
      and the payload that would be streamed is exactly the captured bytes. */
  lemma {:induction false} RecordedFileParses(rate: U32, payload: seq<Byte>)
    requires |payload| + 36 < TwoTo32
    ensures var file := EncodeHeader(RecordedHeader(rate, |payload|)) + payload;
            && |file| >= HeaderSize
            && MagicOk(DecodeHeader(file[..HeaderSize]))
            && DecodeHeader(file[..HeaderSize]).sampleRate == rate
            && FindData(file, ScanStart) == Some(DataChunk(HeaderSize, |payload|))
            && Playable(file, DataChunk(HeaderSize, |payload|)) == |payload|
            && file[HeaderSize..HeaderSize + |payload|] == payload
  {
    var h := RecordedHeader(rate, |payload|);
    var file := EncodeHeader(h) + payload;
    assert file[..HeaderSize] == EncodeHeader(h);
    DecodeEncode(h);
    ScanOfCanonicalHeader(file);
    assert file[HeaderSize..HeaderSize + |payload|] == payload;
  }

  /** The offset `fseek(f, wav_chunk_size, SEEK_CUR)` really receives: its
      `long` parameter is 32 bits wide on the target, so a size from 2^31 up
      arrives as a negative offset. */
  function SeekOffsetAsWritten(size: U32): (off: int)
    ensures size < 0x8000_0000 ==> off == size
    ensures size >= 0x8000_0000 ==> off < 0 && off == size - TwoTo32
  {
    if size < 0x8000_0000 then size else size - TwoTo32
  }

  /** The cursor after one non-`data` record as the source runs it. A seek to
      a negative position fails and leaves the cursor after the record. */
  function NextCursorAsWritten(cursor: nat, size: U32): (next: nat)
    ensures size < 0x8000_0000 ==> next == cursor + 8 + size
  {
    var target := cursor + 8 + SeekOffsetAsWritten(size);
    if target < 0 then cursor + 8 else target
  }

  /** A size field of 0xFFFFFFF8 sends the as-written scan back to the start
      of the very record it just read: the loop reads it again, forever. */
  lemma {:induction false} NegativeSkipLoops(cursor: nat)
    ensures NextCursorAsWritten(cursor, 0xFFFF_FFF8) == cursor
  {
  }

  /** A 44-byte file that passes the header checks and whose first chunk is
      "JUNK" with size 0xFFFFFFF8: the as-written scan never leaves offset 12,
      while `FindData`, which skips by the unsigned size, reports no `data`
      chunk. */
  lemma JunkChunkFile()
    ensures var file := RiffId + Le32(36) + WaveId + [0x4a, 0x55, 0x4e, 0x4b]
                        + Le32(0xFFFF_FFF8) + seq(24, _ => 0);
            && |file| == HeaderSize
            && MagicOk(DecodeHeader(file))
            && file[ScanStart..ScanStart + 4] != DataId
            && NextCursorAsWritten(ScanStart, ReadLe32(file[ScanStart + 4..ScanStart + 8])) == ScanStart
            && FindData(file, ScanStart) == None
  {
    var file := RiffId + Le32(36) + WaveId + [0x4a, 0x55, 0x4e, 0x4b]
                + Le32(0xFFFF_FFF8) + seq(24, _ => 0);
    assert file[ScanStart..ScanStart + 4] == [0x4a, 0x55, 0x4e, 0x4b];
    assert file[ScanStart + 4..ScanStart + 8] == Le32(0xFFFF_FFF8);
    Le32RoundTrip(0xFFFF_FFF8);
    NegativeSkipLoops(ScanStart);
  }
}
