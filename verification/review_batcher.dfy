/**
 * Overlapping review batches over whole transcript entries.
 */
module ReviewBatching {
  // An entry is never blank.
  type EntryText = text: string | text != "" witness "."

  datatype ReviewBatch = ReviewBatch(
    batchIndex: nat, startTranscriptIndex: nat, endTranscriptIndex: nat, texts: seq<EntryText>, totalCharacters: nat)

  // Characters of the first n entries.
  function Characters(transcript: seq<EntryText>, n: nat): nat
    requires n <= |transcript|
  {
    if n == 0 then 0 else Characters(transcript, n - 1) + |transcript[n - 1]|
  }

  function Between(transcript: seq<EntryText>, a: nat, b: nat): int
    requires a <= |transcript| && b <= |transcript|
  {
    Characters(transcript, b) - Characters(transcript, a)
  }

  lemma {:induction false} CharactersGrow(transcript: seq<EntryText>, a: nat, b: nat)
    requires a <= b <= |transcript|
    ensures Between(transcript, a, b) >= b - a
    decreases b
  {
    if a < b {
      CharactersGrow(transcript, a, b - 1);
    }
  }

  lemma {:induction false} BetweenNext(transcript: seq<EntryText>, start: nat, end: nat)
    requires start <= end < |transcript|
    ensures Between(transcript, start, end + 1) == Between(transcript, start, end) + |transcript[end]|
    ensures |transcript[end]| > 0
  {
  }

  lemma {:induction false} SliceCharacters(transcript: seq<EntryText>, a: nat, b: nat, n: nat)
    requires a <= b <= |transcript| && n <= b - a
    ensures Characters(transcript[a..b], n) == Between(transcript, a, a + n)
  {
    if n > 0 {
      SliceCharacters(transcript, a, b, n - 1);
    }
  }

  /* ---------- one batch ---------- */

  // A batch from start to end is within the limit or one oversized entry, and cannot take the next entry.
  ghost predicate EndsAt(transcript: seq<EntryText>, limit: nat, start: nat, end: nat) {
    start < end <= |transcript| &&
    (end == start + 1 || Between(transcript, start, end) <= limit) &&
    (end < |transcript| ==> Between(transcript, start, end + 1) > limit)
  }

  lemma {:induction false} EndIsUnique(transcript: seq<EntryText>, limit: nat, start: nat, a: nat, b: nat)
    requires EndsAt(transcript, limit, start, a) && EndsAt(transcript, limit, start, b)
    ensures a == b
  {
    if a < b {
      CharactersGrow(transcript, a + 1, b);
      assert false;
    } else if b < a {
      CharactersGrow(transcript, b + 1, a);
      assert false;
    }
  }

  // Starting later never means ending earlier.
  lemma {:induction false} LaterStartEndsNoEarlier(
      transcript: seq<EntryText>, limit: nat, a: nat, aEnd: nat, b: nat, bEnd: nat)
    requires EndsAt(transcript, limit, a, aEnd) && EndsAt(transcript, limit, b, bEnd) && a < b <= aEnd
    ensures aEnd <= bEnd
  {
    if bEnd < aEnd {
      CharactersGrow(transcript, a, b);
      CharactersGrow(transcript, bEnd + 1, aEnd);
      assert false;
    }
  }

  method NextEndIndex(transcript: seq<EntryText>, limit: nat, start: nat) returns (end: nat)
    requires limit > 0 && start < |transcript|
    ensures EndsAt(transcript, limit, start, end)
  {
    var totalCharacters := 0;
    end := start;
    while end < |transcript|
      invariant start <= end <= |transcript| && totalCharacters == Between(transcript, start, end)
      invariant end == start || end == start + 1 || totalCharacters <= limit
      invariant end > start ==> totalCharacters < limit
    {
      var textLength := |transcript[end]|;
      BetweenNext(transcript, start, end);
      if end > start && totalCharacters + textLength > limit {
        break;
      }
      totalCharacters := totalCharacters + textLength;
      end := end + 1;
      if totalCharacters >= limit {
        break;
      }
    }
    if end < |transcript| {
      BetweenNext(transcript, start, end);
    }
  }

  /* ---------- all batches ---------- */

  function Min(a: int, b: int): int {
    if a <= b then a else b
  }

  // How many entries the next batch shares with one that has size entries.
  function Shared(overlap: nat, size: int): int {
    Min(overlap, size - 1)
  }

  function Size(batch: ReviewBatch): int {
    batch.endTranscriptIndex + 1 - batch.startTranscriptIndex
  }

  ghost predicate BatchAt(transcript: seq<EntryText>, limit: nat, batches: seq<ReviewBatch>, k: nat)
    requires k < |batches|
  {
    var b := batches[k];
    b.batchIndex == k && EndsAt(transcript, limit, b.startTranscriptIndex, b.endTranscriptIndex + 1) &&
    b.texts == transcript[b.startTranscriptIndex..b.endTranscriptIndex + 1] &&
    b.totalCharacters == Between(transcript, b.startTranscriptIndex, b.endTranscriptIndex + 1)
  }

  // Batch k starts so that it shares exactly the overlap, or all but the first entry, with the one before.
  ghost predicate Continues(transcript: seq<EntryText>, overlap: nat, batches: seq<ReviewBatch>, k: nat)
    requires 0 < k < |batches|
  {
    var before, b := batches[k - 1], batches[k];
    before.endTranscriptIndex + 1 < |transcript| && Size(before) > 0 &&
    b.startTranscriptIndex == before.endTranscriptIndex + 1 - Shared(overlap, Size(before))
  }

  ghost predicate Chained(transcript: seq<EntryText>, limit: nat, overlap: nat, batches: seq<ReviewBatch>) {
    (batches != [] ==> batches[0].startTranscriptIndex == 0) &&
    (forall k {:trigger BatchAt(transcript, limit, batches, k)} :: 0 <= k < |batches| ==>
      BatchAt(transcript, limit, batches, k)) &&
    (forall k {:trigger Continues(transcript, overlap, batches, k)} :: 0 < k < |batches| ==>
      Continues(transcript, overlap, batches, k))
  }

  ghost predicate Batching(transcript: seq<EntryText>, limit: nat, overlap: nat, batches: seq<ReviewBatch>) {
    Chained(transcript, limit, overlap, batches) && (transcript == [] <==> batches == []) &&
    (batches != [] ==> batches[|batches| - 1].endTranscriptIndex == |transcript| - 1)
  }

  lemma {:induction false} ChainGrows(
      transcript: seq<EntryText>, limit: nat, overlap: nat, batches: seq<ReviewBatch>, start: nat, end: nat, total: nat)
    requires Chained(transcript, limit, overlap, batches)
    requires EndsAt(transcript, limit, start, end) && total == Between(transcript, start, end)
    requires batches == [] ==> start == 0
    requires batches != [] ==>
      var last := batches[|batches| - 1];
      last.endTranscriptIndex + 1 < |transcript| && Size(last) > 0 &&
      start == last.endTranscriptIndex + 1 - Shared(overlap, Size(last))
    ensures Chained(transcript, limit, overlap,
      batches + [ReviewBatch(|batches|, start, end - 1, transcript[start..end], total)])
  {
    var all := batches + [ReviewBatch(|batches|, start, end - 1, transcript[start..end], total)];
    forall k | 0 <= k < |all| ensures BatchAt(transcript, limit, all, k) {
      assert k < |batches| ==> BatchAt(transcript, limit, batches, k);
    }
    forall k | 0 < k < |all| ensures Continues(transcript, overlap, all, k) {
      assert k < |batches| ==> Continues(transcript, overlap, batches, k);
    }
  }

  // Terminates for every overlap: a batch always starts later than the one before.
  method BuildBatches(transcript: seq<EntryText>, limit: nat, overlap: nat) returns (batches: seq<ReviewBatch>)
    requires limit > 0
    ensures Batching(transcript, limit, overlap, batches)
  {
    if transcript == [] {
      return [];
    }
    batches := [];
    var start := 0;
    while start < |transcript|
      invariant 0 <= start < |transcript| && Chained(transcript, limit, overlap, batches)
      invariant batches == [] ==> start == 0
      invariant batches != [] ==>
        var last := batches[|batches| - 1];
        last.endTranscriptIndex + 1 < |transcript| && Size(last) > 0 &&
        start == last.endTranscriptIndex + 1 - Shared(overlap, Size(last))
      decreases |transcript| - start
    {
      var end := NextEndIndex(transcript, limit, start);
      var entries := transcript[start..end];
      SliceCharacters(transcript, start, end, |entries|);
      ChainGrows(transcript, limit, overlap, batches, start, end, Characters(entries, |entries|));
      batches := batches + [ReviewBatch(|batches|, start, end - 1, entries, Characters(entries, |entries|))];
      if end == |transcript| {
        break;
      }
      start := if start + 1 > end - overlap then start + 1 else end - overlap;
    }
  }

  /* ---------- what any batching satisfies ---------- */

  // Starts strictly increase, ends never decrease, and neighbours share exactly the overlap or, when the
  // earlier batch is not larger than that, all of it but its first entry.
  lemma {:induction false} NeighboursOverlap(
      transcript: seq<EntryText>, limit: nat, overlap: nat, batches: seq<ReviewBatch>, k: nat)
    requires Batching(transcript, limit, overlap, batches) && 0 < k < |batches|
    ensures var before, b := batches[k - 1], batches[k];
            before.startTranscriptIndex < b.startTranscriptIndex <= before.endTranscriptIndex + 1 &&
            before.endTranscriptIndex <= b.endTranscriptIndex &&
            |before.texts| == Size(before) && |b.texts| == Size(b) &&
            before.endTranscriptIndex + 1 - b.startTranscriptIndex == Min(overlap, |before.texts| - 1) <= |b.texts| &&
            before.texts[b.startTranscriptIndex - before.startTranscriptIndex..] ==
              b.texts[..Min(overlap, |before.texts| - 1)]
  {
    var before, b := batches[k - 1], batches[k];
    assert BatchAt(transcript, limit, batches, k - 1) && BatchAt(transcript, limit, batches, k);
    assert Continues(transcript, overlap, batches, k);
    if b.startTranscriptIndex <= before.endTranscriptIndex {
      LaterStartEndsNoEarlier(transcript, limit, before.startTranscriptIndex, before.endTranscriptIndex + 1,
        b.startTranscriptIndex, b.endTranscriptIndex + 1);
    }
    SameSlice(transcript, before.startTranscriptIndex, before.endTranscriptIndex + 1,
      b.startTranscriptIndex, b.endTranscriptIndex + 1);
  }

  lemma {:induction false} SameSlice<T>(t: seq<T>, a: nat, aEnd: nat, b: nat, bEnd: nat)
    requires a <= b <= aEnd <= bEnd <= |t|
    ensures t[a..aEnd][b - a..] == t[b..bEnd][..aEnd - b]
  {
  }

  // The first batch, then every other batch without the entries it shares with the one before.
  function Stitched(overlap: nat, batches: seq<ReviewBatch>): seq<EntryText> {
    if batches == [] then []
    else if |batches| == 1 then batches[0].texts
    else
      var before, last := batches[|batches| - 2], batches[|batches| - 1];
      var shared := Shared(overlap, Size(before));
      Stitched(overlap, batches[..|batches| - 1]) + if 0 <= shared <= |last.texts| then last.texts[shared..] else []
  }

  lemma {:induction false} StitchedPrefix(
      transcript: seq<EntryText>, limit: nat, overlap: nat, batches: seq<ReviewBatch>, k: nat)
    requires Batching(transcript, limit, overlap, batches) && k < |batches|
    ensures batches[k].endTranscriptIndex < |transcript|
    ensures Stitched(overlap, batches[..k + 1]) == transcript[..batches[k].endTranscriptIndex + 1]
  {
    assert BatchAt(transcript, limit, batches, k);
    if k > 0 {
      StitchedPrefix(transcript, limit, overlap, batches, k - 1);
      NeighboursOverlap(transcript, limit, overlap, batches, k);
      StitchNext(transcript, limit, overlap, batches, k);
    }
  }

  lemma {:induction false} StitchNext(
      transcript: seq<EntryText>, limit: nat, overlap: nat, batches: seq<ReviewBatch>, k: nat)
    requires 0 < k < |batches| && BatchAt(transcript, limit, batches, k) && BatchAt(transcript, limit, batches, k - 1)
    requires Continues(transcript, overlap, batches, k) && Shared(overlap, Size(batches[k - 1])) <= |batches[k].texts|
    requires Stitched(overlap, batches[..k]) == transcript[..batches[k - 1].endTranscriptIndex + 1]
    ensures Stitched(overlap, batches[..k + 1]) == transcript[..batches[k].endTranscriptIndex + 1]
  {
    var before, b := batches[k - 1], batches[k];
    StitchUnfolds(overlap, batches, k);
    JoinSlices(transcript, Stitched(overlap, batches[..k]), b.texts, Shared(overlap, Size(before)),
      before.endTranscriptIndex + 1, b.startTranscriptIndex, b.endTranscriptIndex + 1);
  }

  lemma {:induction false} StitchUnfolds(overlap: nat, batches: seq<ReviewBatch>, k: nat)
    requires 0 < k < |batches|
    ensures var shared := Shared(overlap, Size(batches[k - 1]));
            Stitched(overlap, batches[..k + 1]) ==
              Stitched(overlap, batches[..k]) +
              if 0 <= shared <= |batches[k].texts| then batches[k].texts[shared..] else []
  {
    assert batches[..k + 1][..k] == batches[..k];
  }

  lemma {:induction false} JoinSlices<T>(
      t: seq<T>, front: seq<T>, next: seq<T>, shared: nat, middle: nat, start: nat, end: nat)
    requires start <= middle <= end <= |t| && shared == middle - start
    requires front == t[..middle] && next == t[start..end]
    ensures front + next[shared..] == t[..end]
  {
    assert next[shared..] == t[middle..end];
  }

  // Nothing is lost, split or repeated: without the shared entries the batches are the transcript.
  lemma {:induction false} BatchesReproduceTheTranscript(
      transcript: seq<EntryText>, limit: nat, overlap: nat, batches: seq<ReviewBatch>)
    requires Batching(transcript, limit, overlap, batches)
    ensures Stitched(overlap, batches) == transcript
  {
    if batches != [] {
      StitchedPrefix(transcript, limit, overlap, batches, |batches| - 1);
      assert batches[..|batches|] == batches && transcript[..|transcript|] == transcript;
    }
  }

  // A transcript has only one batching, so the loop's result is determined.
  lemma {:induction false} BatchingIsDetermined(
      transcript: seq<EntryText>, limit: nat, overlap: nat, a: seq<ReviewBatch>, b: seq<ReviewBatch>, k: nat)
    requires Batching(transcript, limit, overlap, a) && Batching(transcript, limit, overlap, b)
    requires k < |a| && k < |b|
    ensures a[k] == b[k]
  {
    assert BatchAt(transcript, limit, a, k) && BatchAt(transcript, limit, b, k);
    if k > 0 {
      BatchingIsDetermined(transcript, limit, overlap, a, b, k - 1);
      assert Continues(transcript, overlap, a, k) && Continues(transcript, overlap, b, k);
    }
    EndIsUnique(transcript, limit, a[k].startTranscriptIndex, a[k].endTranscriptIndex + 1, b[k].endTranscriptIndex + 1);
  }
}
