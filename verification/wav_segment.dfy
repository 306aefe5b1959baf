/**
 * The self-contained WAV recording segment: a RIFF/WAVE header, one fixed PCM format chunk and one
 * non-empty data chunk of whole samples, in either order, and nothing else.
 */
module WavSegment {
  import opened Wrappers
  import opened ByteCodec

  const RIFF: Bytes := [0x52, 0x49, 0x46, 0x46]
  const WAVE: Bytes := [0x57, 0x41, 0x56, 0x45]
  const FMT: Bytes := [0x66, 0x6d, 0x74, 0x20]
  const DATA: Bytes := [0x64, 0x61, 0x74, 0x61]
  const RIFF_HEADER_BYTES := 12
  const CHUNK_HEADER_BYTES := 8
  const FORMAT_BYTES := 16
  const BLOCK_ALIGNMENT := 2

  datatype WavError = Corrupt

  /* ---------- the fixed format ---------- */

  // PCM, mono, 16,000 Hz, 32,000 bytes a second, two-byte blocks, 16 bits.
  function Format(): (f: Bytes)
    ensures |f| == FORMAT_BYTES
  {
    LittleEndian(1, 2) + LittleEndian(1, 2) + LittleEndian(16_000, 4) + LittleEndian(32_000, 4) +
    LittleEndian(BLOCK_ALIGNMENT, 2) + LittleEndian(16, 2)
  }

  // The test of the unpacked fields.
  predicate IsFixedFormat(f: Bytes) {
    |f| == FORMAT_BYTES &&
    FromLittleEndian(f[0..2]) == 1 && FromLittleEndian(f[2..4]) == 1 && FromLittleEndian(f[4..8]) == 16_000 &&
    FromLittleEndian(f[8..12]) == 32_000 && FromLittleEndian(f[12..14]) == BLOCK_ALIGNMENT &&
    FromLittleEndian(f[14..16]) == 16
  }

  lemma {:induction false} SixPieces(a: Bytes, b: Bytes, c: Bytes, d: Bytes, e: Bytes, f: Bytes)
    requires |a| == |b| == |e| == |f| == 2 && |c| == |d| == 4
    ensures var all := a + b + c + d + e + f;
            all[0..2] == a && all[2..4] == b && all[4..8] == c && all[8..12] == d && all[12..14] == e &&
              all[14..16] == f
  {
  }

  lemma {:induction false} SixSlices(f: Bytes)
    requires |f| == FORMAT_BYTES
    ensures f[0..2] + f[2..4] + f[4..8] + f[8..12] + f[12..14] + f[14..16] == f
  {
  }

  // The fields are as required by exactly one format chunk.
  lemma {:induction false} FormatIsFixed(f: Bytes)
    ensures IsFixedFormat(f) <==> f == Format()
  {
    Powers();
    SixPieces(LittleEndian(1, 2), LittleEndian(1, 2), LittleEndian(16_000, 4), LittleEndian(32_000, 4),
      LittleEndian(BLOCK_ALIGNMENT, 2), LittleEndian(16, 2));
    LittleEndianRoundTrip(1, 2);
    LittleEndianRoundTrip(16_000, 4);
    LittleEndianRoundTrip(32_000, 4);
    LittleEndianRoundTrip(BLOCK_ALIGNMENT, 2);
    LittleEndianRoundTrip(16, 2);
    if IsFixedFormat(f) {
      LittleEndianIsExact(f[0..2]);
      LittleEndianIsExact(f[2..4]);
      LittleEndianIsExact(f[4..8]);
      LittleEndianIsExact(f[8..12]);
      LittleEndianIsExact(f[12..14]);
      LittleEndianIsExact(f[14..16]);
      SixSlices(f);
    }
  }

  lemma {:induction false} TagsInAscii()
    ensures RIFF == Ascii("RIFF") && WAVE == Ascii("WAVE") && FMT == Ascii("fmt ") && DATA == Ascii("data")
  {
  }

  // Byte for byte.
  lemma {:induction false} FormatBytes()
    ensures Format() == [1, 0, 1, 0, 0x80, 0x3e, 0, 0, 0, 0x7d, 0, 0, 2, 0, 16, 0]
  {
    assert LittleEndian(1, 2) == [1, 0] && LittleEndian(BLOCK_ALIGNMENT, 2) == [2, 0] && LittleEndian(16, 2) == [16, 0];
    FourBytes(16_000);
    FourBytes(32_000);
  }

  lemma {:induction false} FourBytes(n: nat)
    ensures LittleEndian(n, 4) == [n % 256, n / 256 % 256, n / 256 / 256 % 256, n / 256 / 256 / 256 % 256]
  {
    assert LittleEndian(n / 256 / 256, 2) == [n / 256 / 256 % 256, n / 256 / 256 / 256 % 256];
  }

  /* ---------- chunks ---------- */

  function Chunk(kind: Bytes, body: Bytes): Bytes {
    kind + LittleEndian(|body|, 4) + body
  }

  // A chunk header at a position, with a body that the data still holds.
  predicate HeaderAt(data: Bytes, p: nat) {
    p + CHUNK_HEADER_BYTES <= |data| &&
    p + CHUNK_HEADER_BYTES + FromLittleEndian(data[p + 4..p + 8]) <= |data|
  }

  function KindAt(data: Bytes, p: nat): Bytes
    requires HeaderAt(data, p)
  {
    data[p..p + 4]
  }

  function BodyAt(data: Bytes, p: nat): Bytes
    requires HeaderAt(data, p)
  {
    data[p + CHUNK_HEADER_BYTES..p + CHUNK_HEADER_BYTES + FromLittleEndian(data[p + 4..p + 8])]
  }

  // Chunks start at even distances: an odd body is followed by one padding byte.
  function NextAt(data: Bytes, p: nat): nat
    requires HeaderAt(data, p)
  {
    p + CHUNK_HEADER_BYTES + |BodyAt(data, p)| + |BodyAt(data, p)| % 2
  }

  lemma {:induction false} ThreePieces(data: Bytes, p: nat, n: nat)
    requires p + CHUNK_HEADER_BYTES + n <= |data|
    ensures data[p..p + CHUNK_HEADER_BYTES + n] == data[p..p + 4] + data[p + 4..p + 8] + data[p + 8..p + 8 + n]
  {
  }

  // Reading a chunk and writing it give the same bytes.
  lemma {:induction false} ReadChunkIsWritten(data: Bytes, p: nat)
    requires HeaderAt(data, p)
    ensures data[p..p + CHUNK_HEADER_BYTES + |BodyAt(data, p)|] == Chunk(KindAt(data, p), BodyAt(data, p))
  {
    LittleEndianIsExact(data[p + 4..p + 8]);
    ThreePieces(data, p, |BodyAt(data, p)|);
  }

  lemma {:induction false} WrittenChunkIsRead(data: Bytes, p: nat, kind: Bytes, body: Bytes)
    requires |kind| == 4 && |body| < Power(4) && p + CHUNK_HEADER_BYTES + |body| <= |data|
    requires data[p..p + CHUNK_HEADER_BYTES + |body|] == Chunk(kind, body)
    ensures HeaderAt(data, p) && KindAt(data, p) == kind && BodyAt(data, p) == body
  {
    LittleEndianRoundTrip(|body|, 4);
    ChunkPieces(kind, LittleEndian(|body|, 4), body);
    SlicesOfSlice(data, p, |body|);
  }

  lemma {:induction false} SlicesOfSlice(data: Bytes, p: nat, n: nat)
    requires p + CHUNK_HEADER_BYTES + n <= |data|
    ensures var x := data[p..p + CHUNK_HEADER_BYTES + n];
            x[..4] == data[p..p + 4] && x[4..8] == data[p + 4..p + 8] && x[8..] == data[p + 8..p + 8 + n]
  {
    var x := data[p..p + CHUNK_HEADER_BYTES + n];
    SliceOfSlice(data, p, p + CHUNK_HEADER_BYTES + n, 0, 4);
    SliceOfSlice(data, p, p + CHUNK_HEADER_BYTES + n, 4, 8);
    SliceOfSlice(data, p, p + CHUNK_HEADER_BYTES + n, 8, 8 + n);
    assert x[8..8 + n] == x[8..];
  }

  lemma {:induction false} SliceOfSlice(data: Bytes, low: nat, high: nat, a: nat, b: nat)
    requires low <= high <= |data| && a <= b <= high - low
    ensures data[low..high][a..b] == data[low + a..low + b]
  {
    var x, y := data[low..high][a..b], data[low + a..low + b];
    forall i | 0 <= i < b - a ensures x[i] == y[i] {
      assert data[low..high][a + i] == data[low + a + i];
    }
  }

  lemma {:induction false} ChunkPieces(kind: Bytes, size: Bytes, body: Bytes)
    requires |kind| == |size| == 4
    ensures (kind + size + body)[..4] == kind && (kind + size + body)[4..8] == size && (kind + size + body)[8..] == body
  {
  }

  /* ---------- the validator ---------- */

  // The loop over the remaining chunks, as a function; then the checks after it.
  function Scan(data: Bytes, p: nat, format: Option<Bytes>, samples: Option<Bytes>): Result<nat, WavError>
    decreases |data| - p
  {
    if p < |data| then
      if !HeaderAt(data, p) || (KindAt(data, p) != FMT && KindAt(data, p) != DATA) then Err(Corrupt)
      else if KindAt(data, p) == FMT && format.None? then
        Scan(data, NextAt(data, p), Some(BodyAt(data, p)), samples)
      else if KindAt(data, p) == DATA && samples.None? then
        Scan(data, NextAt(data, p), format, Some(BodyAt(data, p)))
      else Err(Corrupt)
    else Checked(data, p, format, samples)
  }

  function Checked(data: Bytes, p: nat, format: Option<Bytes>, samples: Option<Bytes>): Result<nat, WavError> {
    if p != |data| || format.None? || samples.None? then Err(Corrupt)
    else if !IsFixedFormat(format.value) || samples.value == [] ||
      |samples.value| % BLOCK_ALIGNMENT != 0 then Err(Corrupt)
    else Ok(|samples.value| / BLOCK_ALIGNMENT)
  }

  predicate HasRiffHeader(data: Bytes) {
    |data| >= RIFF_HEADER_BYTES && data[..4] == RIFF && data[8..12] == WAVE &&
      FromLittleEndian(data[4..8]) == |data| - 8
  }

  function Validated(data: Bytes): Result<nat, WavError> {
    if HasRiffHeader(data) then Scan(data, RIFF_HEADER_BYTES, None, None) else Err(Corrupt)
  }

  /* ---------- the accepted files ---------- */

  predicate WholeSamples(samples: Bytes) {
    samples != [] && |samples| % BLOCK_ALIGNMENT == 0 && |samples| + 36 < Power(4)
  }

  function Chunks(formatFirst: bool, samples: Bytes): Bytes {
    if formatFirst then Chunk(FMT, Format()) + Chunk(DATA, samples) else Chunk(DATA, samples) + Chunk(FMT, Format())
  }

  function Segment(formatFirst: bool, samples: Bytes): Bytes {
    RIFF + LittleEndian(|samples| + 36, 4) + WAVE + Chunks(formatFirst, samples)
  }

  lemma {:induction false} HeaderPieces(size: Bytes, chunks: Bytes)
    requires |size| == 4
    ensures var data := RIFF + size + WAVE + chunks;
            data[..4] == RIFF && data[4..8] == size && data[8..12] == WAVE && data[RIFF_HEADER_BYTES..] == chunks
  {
  }

  lemma {:induction false} TwoPieces(data: Bytes, a: Bytes, b: Bytes, p: nat)
    requires p <= |data| && data[p..] == a + b
    ensures |data| == p + |a| + |b| && data[p..p + |a|] == a && data[p + |a|..] == b
    ensures data[p + |a|..p + |a| + |b|] == b
  {
    assert data[p..][..|a|] == a;
    assert data[p..][|a|..] == b;
  }

  // Two even chunks in a row are read one after the other.
  lemma {:induction false} TwoChunksAreRead(
      data: Bytes, firstKind: Bytes, first: Bytes, secondKind: Bytes, second: Bytes)
    requires |firstKind| == |secondKind| == 4 && |first| < Power(4) && |second| < Power(4)
    requires |first| % 2 == 0 && |second| % 2 == 0 && |data| >= RIFF_HEADER_BYTES
    requires data[RIFF_HEADER_BYTES..] == Chunk(firstKind, first) + Chunk(secondKind, second)
    ensures HeaderAt(data, RIFF_HEADER_BYTES) && KindAt(data, RIFF_HEADER_BYTES) == firstKind
    ensures BodyAt(data, RIFF_HEADER_BYTES) == first
    ensures var next := NextAt(data, RIFF_HEADER_BYTES);
            next < |data| && HeaderAt(data, next) && KindAt(data, next) == secondKind && BodyAt(data, next) == second &&
            NextAt(data, next) == |data|
  {
    TwoPieces(data, Chunk(firstKind, first), Chunk(secondKind, second), RIFF_HEADER_BYTES);
    WrittenChunkIsRead(data, RIFF_HEADER_BYTES, firstKind, first);
    WrittenChunkIsRead(data, RIFF_HEADER_BYTES + CHUNK_HEADER_BYTES + |first|, secondKind, second);
  }

  lemma {:induction false} ScanTwoChunks(data: Bytes, formatFirst: bool)
    requires RIFF_HEADER_BYTES < |data| && HeaderAt(data, RIFF_HEADER_BYTES)
    requires var next := NextAt(data, RIFF_HEADER_BYTES);
      next < |data| && HeaderAt(data, next) && NextAt(data, next) == |data| &&
      KindAt(data, RIFF_HEADER_BYTES) == (if formatFirst then FMT else DATA) &&
      KindAt(data, next) == (if formatFirst then DATA else FMT)
    ensures var first, second := BodyAt(data, RIFF_HEADER_BYTES), BodyAt(data, NextAt(data, RIFF_HEADER_BYTES));
            Scan(data, RIFF_HEADER_BYTES, None, None) ==
              if formatFirst then Checked(data, |data|, Some(first), Some(second))
              else Checked(data, |data|, Some(second), Some(first))
  {
    assert FMT[0] != DATA[0];
    var next := NextAt(data, RIFF_HEADER_BYTES);
    var first, second := BodyAt(data, RIFF_HEADER_BYTES), BodyAt(data, next);
    if formatFirst {
      assert Scan(data, RIFF_HEADER_BYTES, None, None) == Scan(data, next, Some(first), None);
      assert Scan(data, next, Some(first), None) == Scan(data, |data|, Some(first), Some(second));
    } else {
      assert Scan(data, RIFF_HEADER_BYTES, None, None) == Scan(data, next, None, Some(first));
      assert Scan(data, next, None, Some(first)) == Scan(data, |data|, Some(second), Some(first));
    }
  }

  lemma {:induction false} SegmentHasHeader(formatFirst: bool, samples: Bytes)
    requires |samples| + 36 < Power(4)
    ensures var data := Segment(formatFirst, samples);
            HasRiffHeader(data) && data[RIFF_HEADER_BYTES..] == Chunks(formatFirst, samples)
  {
    HeaderPieces(LittleEndian(|samples| + 36, 4), Chunks(formatFirst, samples));
    LittleEndianRoundTrip(|samples| + 36, 4);
  }

  lemma {:induction false} SegmentHasChunks(formatFirst: bool, samples: Bytes, data: Bytes)
    requires WholeSamples(samples) && |data| >= RIFF_HEADER_BYTES
    requires data[RIFF_HEADER_BYTES..] == Chunks(formatFirst, samples)
    ensures Scan(data, RIFF_HEADER_BYTES, None, None) == Ok(|samples| / BLOCK_ALIGNMENT)
  {
    Powers();
    FormatIsFixed(Format());
    if formatFirst {
      TwoChunksAreRead(data, FMT, Format(), DATA, samples);
    } else {
      TwoChunksAreRead(data, DATA, samples, FMT, Format());
    }
    ScanTwoChunks(data, formatFirst);
  }

  // Every segment of whole samples is accepted, with its sample count.
  lemma {:induction false} SegmentsAreAccepted(formatFirst: bool, samples: Bytes)
    requires WholeSamples(samples)
    ensures Validated(Segment(formatFirst, samples)) == Ok(|samples| / BLOCK_ALIGNMENT)
  {
    SegmentHasHeader(formatFirst, samples);
    SegmentHasChunks(formatFirst, samples, Segment(formatFirst, samples));
  }

  // Scanning ends well only with a format chunk, a data chunk, and nothing else.
  lemma {:induction false} AcceptedHasTwoChunks(data: Bytes) returns (formatFirst: bool)
    requires HasRiffHeader(data) && Scan(data, RIFF_HEADER_BYTES, None, None).Ok?
    ensures RIFF_HEADER_BYTES < |data| && HeaderAt(data, RIFF_HEADER_BYTES)
    ensures var next := NextAt(data, RIFF_HEADER_BYTES);
      next < |data| && HeaderAt(data, next) && NextAt(data, next) == |data| &&
      KindAt(data, RIFF_HEADER_BYTES) == (if formatFirst then FMT else DATA) &&
      KindAt(data, next) == (if formatFirst then DATA else FMT)
  {
    formatFirst := KindAt(data, RIFF_HEADER_BYTES) == FMT;
    var next := NextAt(data, RIFF_HEADER_BYTES);
    var first := BodyAt(data, RIFF_HEADER_BYTES);
    if formatFirst {
      assert Scan(data, next, Some(first), None).Ok?;
      assert Scan(data, NextAt(data, next), Some(first), Some(BodyAt(data, next))).Ok?;
    } else {
      assert Scan(data, next, None, Some(first)).Ok?;
      assert Scan(data, NextAt(data, next), Some(BodyAt(data, next)), Some(first)).Ok?;
    }
  }

  lemma {:induction false} ThreeHeaders(data: Bytes)
    requires |data| >= RIFF_HEADER_BYTES
    ensures data == data[..4] + data[4..8] + data[8..12] + data[RIFF_HEADER_BYTES..]
  {
  }

  // What the loop read, written again.
  lemma {:induction false} TwoChunksAreWritten(data: Bytes)
    requires RIFF_HEADER_BYTES < |data| && HeaderAt(data, RIFF_HEADER_BYTES)
    requires |BodyAt(data, RIFF_HEADER_BYTES)| % 2 == 0
    requires var next := NextAt(data, RIFF_HEADER_BYTES);
      next < |data| && HeaderAt(data, next) && NextAt(data, next) == |data| && |BodyAt(data, next)| % 2 == 0
    ensures var next := NextAt(data, RIFF_HEADER_BYTES);
      data[RIFF_HEADER_BYTES..] ==
        Chunk(KindAt(data, RIFF_HEADER_BYTES), BodyAt(data, RIFF_HEADER_BYTES)) +
        Chunk(KindAt(data, next), BodyAt(data, next))
  {
    var next := NextAt(data, RIFF_HEADER_BYTES);
    ReadChunkIsWritten(data, RIFF_HEADER_BYTES);
    ReadChunkIsWritten(data, next);
    TwoSlices(data, RIFF_HEADER_BYTES, next);
  }

  lemma {:induction false} TwoSlices(data: Bytes, a: nat, b: nat)
    requires a <= b <= |data|
    ensures data[a..] == data[a..b] + data[b..|data|]
  {
  }

  lemma {:induction false} HeaderIsForced(data: Bytes, formatFirst: bool, samples: Bytes)
    requires HasRiffHeader(data) && data[RIFF_HEADER_BYTES..] == Chunks(formatFirst, samples)
    ensures data == Segment(formatFirst, samples) && |samples| + 36 < Power(4)
  {
    LittleEndianIsExact(data[4..8]);
    ThreeHeaders(data);
  }

  // Nothing else is accepted: an accepted file is one of the two layouts of its samples.
  lemma {:induction false} AcceptedIsASegment(data: Bytes) returns (formatFirst: bool, samples: Bytes)
    requires Validated(data).Ok?
    ensures WholeSamples(samples) && data == Segment(formatFirst, samples)
  {
    formatFirst := AcceptedHasTwoChunks(data);
    ScanTwoChunks(data, formatFirst);
    var next := NextAt(data, RIFF_HEADER_BYTES);
    var first, second := BodyAt(data, RIFF_HEADER_BYTES), BodyAt(data, next);
    samples := if formatFirst then second else first;
    FormatIsFixed(if formatFirst then first else second);
    TwoChunksAreWritten(data);
    HeaderIsForced(data, formatFirst, samples);
  }

  /* ---------- the validator itself ---------- */

  // Accepts exactly the two layouts, and returns the number of samples.
  method ValidateWavRecordingSegment(data: Bytes) returns (r: Result<nat, WavError>)
    ensures r.Ok? <==> exists formatFirst, samples :: WholeSamples(samples) && data == Segment(formatFirst, samples)
    ensures forall formatFirst, samples :: WholeSamples(samples) && data == Segment(formatFirst, samples) ==>
      r == Ok(|samples| / BLOCK_ALIGNMENT)
  {
    r := ScanSegment(data);
    if r.Ok? {
      var formatFirst, samples := AcceptedIsASegment(data);
    }
    forall formatFirst, samples | WholeSamples(samples) && data == Segment(formatFirst, samples)
      ensures r == Ok(|samples| / BLOCK_ALIGNMENT)
    {
      SegmentsAreAccepted(formatFirst, samples);
    }
  }

  method ScanSegment(data: Bytes) returns (r: Result<nat, WavError>)
    ensures r == Validated(data)
  {
    if |data| < RIFF_HEADER_BYTES || data[..4] != RIFF || data[8..12] != WAVE ||
        FromLittleEndian(data[4..8]) != |data| - 8 {
      return Err(Corrupt);
    }
    var position := RIFF_HEADER_BYTES;
    var format: Option<Bytes>, samples: Option<Bytes> := None, None;
    while position < |data|
      invariant position >= 0
      invariant Scan(data, position, format, samples) == Validated(data)
    {
      if position + CHUNK_HEADER_BYTES > |data| {
        return Err(Corrupt);
      }
      var kind := data[position..position + 4];
      var length := FromLittleEndian(data[position + 4..position + 8]);
      var start := position + CHUNK_HEADER_BYTES;
      var end := start + length;
      if end > |data| || (kind != FMT && kind != DATA) {
        return Err(Corrupt);
      }
      var chunk := data[start..end];
      assert HeaderAt(data, position) && KindAt(data, position) == kind && BodyAt(data, position) == chunk;
      if kind == FMT && format.None? {
        format := Some(chunk);
      } else if kind == DATA && samples.None? {
        samples := Some(chunk);
      } else {
        return Err(Corrupt);
      }
      position := end + length % 2;
    }
    if position != |data| || format.None? || samples.None? {
      return Err(Corrupt);
    }
    if !IsFixedFormat(format.value) || samples.value == [] || |samples.value| % BLOCK_ALIGNMENT != 0 {
      return Err(Corrupt);
    }
    return Ok(|samples.value| / BLOCK_ALIGNMENT);
  }
}
