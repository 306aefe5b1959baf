/**
 * The stored form of one encrypted recording segment: its printer, its parser, and the bounded writer.
 */
module SegmentContainer {
  import opened Wrappers
  import opened ByteCodec

  // "AMCR".
  const MAGIC: Bytes := [0x41, 0x4d, 0x43, 0x52]
  const VERSION: Byte := 1
  const ALGORITHM_AES_256_GCM: Byte := 1
  const NONCE_BYTES := 12
  const TAG_BYTES := 16
  const PREFIX_BYTES := 11
  const LENGTH_BYTES := 8

  datatype Container = Container(index: nat, nonce: Bytes, ciphertext: Bytes)

  datatype SegmentError = Corrupt | Lifecycle | TooLarge | NotFound

  predicate Storable(c: Container) {
    c.index < 0x1_0000_0000 && |c.nonce| == 12 && 16 <= |c.ciphertext| < 0x1_0000_0000_0000_0000
  }

  /* ---------- printing and parsing ---------- */

  // magic, version, algorithm, index and nonce length; then nonce, ciphertext length and ciphertext.
  function Prefix(index: nat, nonceLength: Byte): (p: Bytes)
    ensures |p| == PREFIX_BYTES
  {
    MAGIC + [VERSION, ALGORITHM_AES_256_GCM] + BigEndian(index, 4) + [nonceLength]
  }

  function Print(c: Container): Bytes
    requires |c.nonce| == NONCE_BYTES
  {
    Prefix(c.index, |c.nonce|) + c.nonce + BigEndian(|c.ciphertext|, LENGTH_BYTES) + c.ciphertext
  }

  function Decode(data: Bytes): Result<Container, SegmentError> {
    if |data| < PREFIX_BYTES + LENGTH_BYTES then Err(Corrupt)
    else if data[..4] != MAGIC || data[4] != VERSION || data[5] != ALGORITHM_AES_256_GCM || data[10] != NONCE_BYTES then
      Err(Corrupt)
    else if |data| < PREFIX_BYTES + NONCE_BYTES + LENGTH_BYTES then Err(Corrupt)
    else
      var nonce := data[PREFIX_BYTES..PREFIX_BYTES + NONCE_BYTES];
      var length := FromBigEndian(data[PREFIX_BYTES + NONCE_BYTES..PREFIX_BYTES + NONCE_BYTES + LENGTH_BYTES]);
      var ciphertext := data[PREFIX_BYTES + NONCE_BYTES + LENGTH_BYTES..];
      if |ciphertext| != length || length < TAG_BYTES then Err(Corrupt)
      else Ok(Container(FromBigEndian(data[6..10]), nonce, ciphertext))
  }

  lemma {:induction false} PrefixFields(index: nat)
    ensures var p := Prefix(index, NONCE_BYTES);
            p[..4] == MAGIC && p[4] == VERSION && p[5] == ALGORITHM_AES_256_GCM && p[6..10] == BigEndian(index, 4) &&
            p[10] == NONCE_BYTES
  {
  }

  lemma {:induction false} PrintedPieces(prefix: Bytes, nonce: Bytes, length: Bytes, ciphertext: Bytes)
    requires |prefix| == PREFIX_BYTES && |nonce| == NONCE_BYTES && |length| == LENGTH_BYTES
    ensures var data := prefix + nonce + length + ciphertext;
            data[..4] == prefix[..4] && data[4] == prefix[4] && data[5] == prefix[5] && data[6..10] == prefix[6..10] &&
            data[10] == prefix[10] && data[PREFIX_BYTES..PREFIX_BYTES + NONCE_BYTES] == nonce &&
            data[PREFIX_BYTES + NONCE_BYTES..PREFIX_BYTES + NONCE_BYTES + LENGTH_BYTES] == length &&
            data[PREFIX_BYTES + NONCE_BYTES + LENGTH_BYTES..] == ciphertext
  {
  }

  // Whatever is stored is read back: for every 32-bit index, 12-byte nonce and ciphertext with a tag.
  lemma {:induction false} DecodeInvertsPrint(c: Container)
    requires Storable(c)
    ensures Decode(Print(c)) == Ok(c)
  {
    Powers();
    PrefixFields(c.index);
    PrintedPieces(Prefix(c.index, NONCE_BYTES), c.nonce, BigEndian(|c.ciphertext|, LENGTH_BYTES), c.ciphertext);
    BigEndianRoundTrip(c.index, 4);
    BigEndianRoundTrip(|c.ciphertext|, LENGTH_BYTES);
  }

  lemma {:induction false} PrefixIsForced(p: Bytes)
    requires |p| == PREFIX_BYTES
    requires p[..4] == MAGIC && p[4] == VERSION && p[5] == ALGORITHM_AES_256_GCM && p[10] == NONCE_BYTES
    ensures p == Prefix(FromBigEndian(p[6..10]), NONCE_BYTES)
  {
    BigEndianIsExact(p[6..10]);
    var q := Prefix(FromBigEndian(p[6..10]), NONCE_BYTES);
    PrefixFields(FromBigEndian(p[6..10]));
    assert p[6..10] == q[6..10] && p[..4] == q[..4];
    forall i | 0 <= i < PREFIX_BYTES ensures p[i] == q[i] {
      if i < 4 {
        assert p[i] == p[..4][i] && q[i] == q[..4][i];
      } else if 6 <= i < 10 {
        assert p[i] == p[6..10][i - 6] && q[i] == q[6..10][i - 6];
      }
    }
  }

  // Every accepted file is exactly what printing its contents gives: no byte is ignored.
  lemma {:induction false} AcceptedContainersReprint(data: Bytes)
    requires Decode(data).Ok?
    ensures Storable(Decode(data).value) && Print(Decode(data).value) == data
  {
    Powers();
    var c := Decode(data).value;
    var low, high := PREFIX_BYTES + NONCE_BYTES, PREFIX_BYTES + NONCE_BYTES + LENGTH_BYTES;
    assert data[..PREFIX_BYTES][..4] == data[..4] && data[..PREFIX_BYTES][6..10] == data[6..10];
    PrefixIsForced(data[..PREFIX_BYTES]);
    BigEndianIsExact(data[6..10]);
    BigEndianIsExact(data[low..high]);
    Pieces(data, PREFIX_BYTES, low, high);
  }

  lemma {:induction false} Pieces(data: Bytes, a: nat, b: nat, c: nat)
    requires a <= b <= c <= |data|
    ensures data[..a] + data[a..b] + data[b..c] + data[c..] == data
  {
  }

  // Byte for byte: the tag AMCR, version 1, algorithm 1, the index with its highest byte first, the nonce's length and
  // the nonce, the ciphertext's length with its highest byte first, and the ciphertext.
  lemma {:induction false} StoredLayout(c: Container)
    requires Storable(c)
    ensures var data := Print(c);
            |data| == 31 + |c.ciphertext| && data[..4] == Ascii("AMCR") && data[4] == 1 && data[5] == 1 &&
            FromBigEndian(data[6..10]) == c.index && data[9] == c.index % 256 &&
            data[10] == 12 && data[11..23] == c.nonce &&
            FromBigEndian(data[23..31]) == |c.ciphertext| && data[30] == |c.ciphertext| % 256 &&
            data[31..] == c.ciphertext
  {
    Powers();
    PrefixFields(c.index);
    PrintedPieces(Prefix(c.index, NONCE_BYTES), c.nonce, BigEndian(|c.ciphertext|, LENGTH_BYTES), c.ciphertext);
    BigEndianRoundTrip(c.index, 4);
    BigEndianRoundTrip(|c.ciphertext|, LENGTH_BYTES);
    LowestByte(c.index, 4);
    LowestByte(|c.ciphertext|, LENGTH_BYTES);
    var data := Print(c);
    assert data[9] == data[6..10][3] && data[30] == data[23..31][7];
    assert Ascii("AMCR") == [0x41, 0x4d, 0x43, 0x52];
  }

  // Two accepted files with the same contents are the same file, and two containers never share a file.
  lemma {:induction false} PrintIsInjective(a: Container, b: Container)
    requires Storable(a) && Storable(b) && Print(a) == Print(b)
    ensures a == b
  {
    DecodeInvertsPrint(a);
    DecodeInvertsPrint(b);
  }

  /* ---------- the bounded writer ---------- */

  function Flat(parts: seq<Bytes>): Bytes {
    if parts == [] then [] else Flat(parts[..|parts| - 1]) + parts[|parts| - 1]
  }

  lemma {:induction false} FlatSnoc(parts: seq<Bytes>, part: Bytes)
    ensures Flat(parts + [part]) == Flat(parts) + part
  {
    assert (parts + [part])[..|parts|] == parts;
  }

  // encrypt stands for AES-256-GCM with the segment's key and associated data: nonce and plaintext in,
  // ciphertext with its tag out.
  class EncryptedRecordingSegmentWriter {
    const segmentIndex: nat
    const maximumPlaintextBytes: nat
    var parts: seq<Bytes>
    var length: nat
    var finished: bool

    ghost var plaintext: Bytes      // everything written successfully

    ghost predicate Valid()
      reads this
    {
      length == |plaintext| <= maximumPlaintextBytes && if finished then parts == [] else Flat(parts) == plaintext
    }

    constructor (segmentIndex: nat, maximumPlaintextBytes: nat)
      ensures Valid() && plaintext == [] && !finished
      ensures this.segmentIndex == segmentIndex && this.maximumPlaintextBytes == maximumPlaintextBytes
    {
      this.segmentIndex, this.maximumPlaintextBytes := segmentIndex, maximumPlaintextBytes;
      parts, length, finished, plaintext := [], 0, false, [];
    }

    // Appends all of the data or, when it would pass the bound or the writer is finished, nothing.
    method Write(data: Bytes) returns (r: Result<(), SegmentError>)
      requires Valid()
      modifies this
      ensures Valid() && finished == old(finished)
      ensures r == (
        if finished then Err(Lifecycle)
        else if |old(plaintext)| + |data| > maximumPlaintextBytes then Err(TooLarge)
        else Ok(()))
      ensures plaintext == if r.Ok? then old(plaintext) + data else old(plaintext)
    {
      if finished {
        return Err(Lifecycle);
      }
      if data == [] {
        return Ok(());
      }
      if length + |data| > maximumPlaintextBytes {
        return Err(TooLarge);
      }
      FlatSnoc(parts, data);
      parts := parts + [data];
      length := length + |data|;
      plaintext := plaintext + data;
      return Ok(());
    }

    // Publishes one container that decodes to this index, this nonce and the encrypted plaintext. When the file
    // cannot be written nothing is published, and the writer stays open with all it holds.
    method Finalize(nonce: Bytes, encrypt: (Bytes, Bytes) -> Bytes, fileWrites: bool)
      returns (r: Result<Bytes, SegmentError>)
      requires Valid() && |nonce| == NONCE_BYTES && segmentIndex < 0x1_0000_0000
      requires forall p: Bytes :: |encrypt(nonce, p)| == |p| + TAG_BYTES
      requires maximumPlaintextBytes + TAG_BYTES < 0x1_0000_0000_0000_0000
      modifies this
      ensures Valid() && plaintext == old(plaintext)
      ensures r.Ok? <==> !old(finished) && fileWrites
      ensures r.Err? ==> r.error == if old(finished) then Lifecycle else Corrupt
      ensures r.Err? ==> finished == old(finished) && parts == old(parts)
      ensures r.Ok? ==> finished
      ensures r.Ok? ==> Decode(r.value) == Ok(Container(segmentIndex, nonce, encrypt(nonce, plaintext)))
    {
      if finished {
        return Err(Lifecycle);
      }
      var ciphertext := encrypt(nonce, Flat(parts));
      var container := Container(segmentIndex, nonce, ciphertext);
      DecodeInvertsPrint(container);
      if !fileWrites {
        return Err(Corrupt);
      }
      parts := [];
      finished := true;
      return Ok(Print(container));
    }

    method Abort()
      requires Valid()
      modifies this
      ensures Valid() && finished && plaintext == old(plaintext)
    {
      if !finished {
        parts := [];
        finished := true;
      }
    }
  }
}
