/**
 * Live chunk construction: rolling four-second windows with one second of overlap, and a final tail.
 *
 * The epoch is what the chunker has been given since its timeline last (re)started. Every promise is
 * stated on the epoch, so it does not matter how its samples were cut into frames.
 */
module LiveChunking {
  import opened Wrappers
  import opened AudioMixing

  const CHUNK_SAMPLES := 64_000
  const OVERLAP_SAMPLES := 16_000
  const HOP_SAMPLES := CHUNK_SAMPLES - OVERLAP_SAMPLES
  const OVERLAP_SECONDS := 1.0
  const GAP_TOLERANCE_SECONDS := 0.1

  datatype AudioChunk = AudioChunk(
    sequence: nat, captureStartedAt: real, samples: seq<real>, overlapSeconds: real)

  datatype ChunkingResult = ChunkingResult(chunks: seq<AudioChunk>, gapDetected: bool)

  datatype AudioChunkerError = InvalidFrame | TimelineRegression

  function Seconds(samples: int): real {
    samples as real / SAMPLE_RATE_HZ as real
  }

  /* ---------- windows ---------- */

  // How many full windows fit into n samples.
  function FullCount(n: nat): nat {
    if n < CHUNK_SAMPLES then 0 else (n - CHUNK_SAMPLES) / HOP_SAMPLES + 1
  }

  // Window k is counted exactly when all its samples are there.
  lemma {:induction false} FullCountIsExact(n: nat, k: nat)
    ensures k < FullCount(n) <==> HOP_SAMPLES * k + CHUNK_SAMPLES <= n
  {
  }

  function WindowSamples(epoch: seq<real>, k: nat): seq<real>
    requires k < FullCount(|epoch|)
  {
    epoch[HOP_SAMPLES * k..HOP_SAMPLES * k + CHUNK_SAMPLES]
  }

  function Window(epoch: seq<real>, startedAt: real, firstSequence: nat, k: nat): AudioChunk
    requires k < FullCount(|epoch|)
  {
    AudioChunk(firstSequence + k, startedAt + Seconds(HOP_SAMPLES * k), WindowSamples(epoch, k), OVERLAP_SECONDS)
  }

  // Windows low, ..., high - 1 of an epoch.
  function Windows(epoch: seq<real>, startedAt: real, firstSequence: nat, low: nat, high: nat): seq<AudioChunk>
    requires low <= high <= FullCount(|epoch|)
  {
    seq(high - low, i requires 0 <= i < high - low => Window(epoch, startedAt, firstSequence, low + i))
  }

  // How much of an epoch its full windows cover, and where the last kept sample starts.
  function Covered(n: nat): nat {
    CoveredBy(FullCount(n))
  }

  function CoveredBy(windows: nat): nat {
    if windows == 0 then 0 else HOP_SAMPLES * windows + OVERLAP_SAMPLES
  }

  lemma {:induction false} SuffixGrows(a: seq<real>, b: seq<real>, start: nat)
    requires start <= |a|
    ensures (a + b)[start..] == a[start..] + b
  {
  }

  lemma {:induction false} SecondsAdd(a: int, b: int)
    ensures Seconds(a) + Seconds(b) == Seconds(a + b)
  {
  }

  lemma {:induction false} WindowsSnoc(epoch: seq<real>, startedAt: real, firstSequence: nat, low: nat, k: nat)
    requires low <= k < FullCount(|epoch|)
    ensures Windows(epoch, startedAt, firstSequence, low, k + 1) ==
      Windows(epoch, startedAt, firstSequence, low, k) + [Window(epoch, startedAt, firstSequence, k)]
  {
  }

  ghost predicate NumberedFrom(chunks: seq<AudioChunk>, first: nat) {
    forall i :: 0 <= i < |chunks| ==> chunks[i].sequence == first + i
  }

  lemma {:induction false} WindowsAreNumbered(
      epoch: seq<real>, startedAt: real, firstSequence: nat, low: nat, high: nat)
    requires low <= high <= FullCount(|epoch|)
    ensures NumberedFrom(Windows(epoch, startedAt, firstSequence, low, high), firstSequence + low)
  {
    var windows := Windows(epoch, startedAt, firstSequence, low, high);
    forall i | 0 <= i < |windows| ensures windows[i].sequence == firstSequence + low + i {
      assert windows[i] == Window(epoch, startedAt, firstSequence, low + i);
    }
  }

  // A chunk holds four seconds of the epoch from a position on, is stamped with the capture time of its own first
  // sample, and declares that its first second repeats the chunk before.
  ghost predicate CutAt(chunk: AudioChunk, epoch: seq<real>, startedAt: real, position: int) {
    0 <= position <= position + 64_000 <= |epoch| && chunk.samples == epoch[position..position + 64_000] &&
    chunk.captureStartedAt == startedAt + position as real / 16_000.0 && chunk.overlapSeconds == 1.0
  }

  // Chunk k of a list is cut 48,000 samples, that is three seconds, after chunk k - 1.
  ghost predicate CutInTurn(chunks: seq<AudioChunk>, epoch: seq<real>, startedAt: real, first: nat) {
    forall k {:trigger InTurn(chunks, epoch, startedAt, first, k)} :: 0 <= k < |chunks| ==>
      InTurn(chunks, epoch, startedAt, first, k)
  }

  ghost predicate InTurn(chunks: seq<AudioChunk>, epoch: seq<real>, startedAt: real, first: nat, k: nat)
    requires k < |chunks|
  {
    CutAt(chunks[k], epoch, startedAt, 48_000 * (first + k))
  }

  lemma {:induction false} WindowsAreCut(epoch: seq<real>, startedAt: real, firstSequence: nat, low: nat, high: nat)
    requires low <= high <= FullCount(|epoch|)
    ensures CutInTurn(Windows(epoch, startedAt, firstSequence, low, high), epoch, startedAt, low)
  {
    var chunks := Windows(epoch, startedAt, firstSequence, low, high);
    forall k | 0 <= k < |chunks| ensures InTurn(chunks, epoch, startedAt, low, k) {
      FullCountIsExact(|epoch|, low + k);
      assert chunks[k] == Window(epoch, startedAt, firstSequence, low + k);
    }
  }

  // The last chunks of all that an epoch gives.
  lemma {:induction false} EmittedAreCut(
      epoch: seq<real>, startedAt: real, firstSequence: nat, handed: seq<AudioChunk>, chunks: seq<AudioChunk>)
    requires |chunks| <= |handed| <= FullCount(|epoch|)
    requires handed == Windows(epoch, startedAt, firstSequence, 0, |handed|)
    requires chunks == Windows(epoch, startedAt, firstSequence, |handed| - |chunks|, |handed|)
    ensures CutInTurn(handed, epoch, startedAt, 0)
    ensures CutInTurn(chunks, epoch, startedAt, |handed| - |chunks|)
  {
    WindowsAreCut(epoch, startedAt, firstSequence, 0, |handed|);
    WindowsAreCut(epoch, startedAt, firstSequence, |handed| - |chunks|, |handed|);
  }

  lemma {:induction false} ThreeSecondsApart(
      chunks: seq<AudioChunk>, epoch: seq<real>, startedAt: real, first: nat, k: nat)
    requires CutInTurn(chunks, epoch, startedAt, first) && k + 1 < |chunks|
    ensures chunks[k + 1].captureStartedAt == chunks[k].captureStartedAt + 3.0
    ensures |chunks[k].samples| == |chunks[k + 1].samples| == 64_000
    ensures chunks[k + 1].samples[..16_000] == chunks[k].samples[48_000..]
  {
    var position := 48_000 * (first + k);
    assert InTurn(chunks, epoch, startedAt, first, k) && InTurn(chunks, epoch, startedAt, first, k + 1);
    SharedSecond(epoch, position);
  }

  lemma {:induction false} SharedSecond(epoch: seq<real>, position: nat)
    requires position + 112_000 <= |epoch|
    ensures epoch[position + 48_000..position + 112_000][..16_000] == epoch[position..position + 64_000][48_000..]
  {
  }

  /* ---------- the chunker ---------- */

  class AudioChunker {
    var samples: seq<real>
    var startTime: Option<real>
    var expectedNextTime: Option<real>
    var sequence: nat
    var pendingStartSample: nat
    var nextSample: nat
    var coveredUntilSample: nat
    var hasEmittedFullChunk: bool

    ghost var epoch: seq<real>      // all samples of the current timeline epoch
    ghost var startedAt: real       // capture time of its first sample
    ghost var firstSequence: nat    // sequence number of its first chunk
    ghost var handed: seq<AudioChunk>   // the chunks handed out for it

    // The state after k windows of the epoch were emitted.
    ghost predicate At(k: nat)
      reads this
    {
      k <= FullCount(|epoch|) && handed == Windows(epoch, startedAt, firstSequence, 0, k) &&
      HOP_SAMPLES * k <= |epoch| && (k > 0 ==> HOP_SAMPLES * k + OVERLAP_SAMPLES <= |epoch|) &&
      samples == epoch[HOP_SAMPLES * k..] &&
      pendingStartSample == HOP_SAMPLES * k && nextSample == |epoch| &&
      coveredUntilSample == (if k == 0 then 0 else HOP_SAMPLES * k + OVERLAP_SAMPLES) &&
      hasEmittedFullChunk == (k > 0) &&
      sequence == firstSequence + k &&
      (epoch != [] ==> startTime == Some(startedAt + Seconds(HOP_SAMPLES * k))) &&
      (epoch == [] ==> startTime.None?) &&
      (epoch == [] <==> expectedNextTime.None?)
    }

    ghost predicate Valid()
      reads this
    {
      At(FullCount(|epoch|))
    }

    constructor ()
      ensures Valid() && epoch == [] && sequence == 0 && expectedNextTime.None?
    {
      samples, startTime, expectedNextTime, sequence := [], None, None, 0;
      pendingStartSample, nextSample, coveredUntilSample, hasEmittedFullChunk := 0, 0, 0, false;
      epoch, startedAt, firstSequence, handed := [], 0.0, 0, [];
    }

    // A frame that jumps more than 100 ms starts a new epoch; anything else continues the current one.
    ghost predicate Jumps(frame: MixedAudioFrame)
      reads this
    {
      expectedNextTime.Some? &&
      (frame.captureTime - expectedNextTime.value > GAP_TOLERANCE_SECONDS ||
       expectedNextTime.value - frame.captureTime > GAP_TOLERANCE_SECONDS)
    }

    ghost predicate Regresses(frame: MixedAudioFrame)
      reads this
    {
      expectedNextTime.Some? && frame.captureTime - expectedNextTime.value < -Seconds(1)
    }

    method Push(frame: MixedAudioFrame) returns (r: Result<ChunkingResult, AudioChunkerError>)
      requires Valid()
      modifies this
      ensures Valid()
      ensures r.Ok? <==> frame.captureTime >= 0.0 && frame.samples != [] && !old(Regresses(frame))
      ensures r.Err? ==> (r.error == TimelineRegression <==> frame.captureTime >= 0.0 && frame.samples != [])
      ensures r.Err? ==> unchanged(this)
      ensures r.Ok? ==> r.value.gapDetected == old(Jumps(frame))
      ensures r.Ok? ==> expectedNextTime == Some(frame.captureTime + Seconds(|frame.samples|))
      // A continued epoch grows by the frame and emits exactly the windows that have become complete.
      ensures r.Ok? && !old(Jumps(frame)) && old(epoch) != [] ==>
        epoch == old(epoch) + frame.samples && startedAt == old(startedAt) && firstSequence == old(firstSequence) &&
        r.value.chunks ==
          Windows(epoch, startedAt, firstSequence, FullCount(|old(epoch)|), FullCount(|epoch|))
      ensures r.Ok? && !old(Jumps(frame)) && old(epoch) != [] ==> handed == old(handed) + r.value.chunks
      ensures r.Ok? && (old(Jumps(frame)) || old(epoch) == []) ==> handed == r.value.chunks
      // A new epoch is the frame alone; sequence numbers go on where they were.
      ensures r.Ok? && (old(Jumps(frame)) || old(epoch) == []) ==>
        epoch == frame.samples && startedAt == frame.captureTime && firstSequence == old(sequence) &&
        r.value.chunks == Windows(epoch, startedAt, firstSequence, 0, FullCount(|epoch|))
      ensures r.Ok? ==> sequence == old(sequence) + |r.value.chunks|
      ensures r.Ok? ==> NumberedFrom(r.value.chunks, old(sequence))
      // Every chunk of the epoch, these being the last ones, is stamped with the time of its own first sample.
      ensures r.Ok? ==> CutInTurn(handed, epoch, startedAt, 0) && |r.value.chunks| <= |handed|
      ensures r.Ok? ==> CutInTurn(r.value.chunks, epoch, startedAt, |handed| - |r.value.chunks|)
    {
      if frame.captureTime < 0.0 || frame.samples == [] {
        return Err(InvalidFrame);
      }
      if expectedNextTime.Some? && frame.captureTime - expectedNextTime.value < -Seconds(1) {
        return Err(TimelineRegression);
      }
      var gapDetected := ClearAtGap(frame);
      var chunks := TakeFrame(frame);
      r := Ok(ChunkingResult(chunks, gapDetected));
    }

    // The gap test of push.
    method ClearAtGap(frame: MixedAudioFrame) returns (gapDetected: bool)
      requires Valid()
      modifies this
      ensures Valid() && gapDetected == old(Jumps(frame)) && sequence == old(sequence)
      ensures gapDetected ==> epoch == [] && firstSequence == sequence
      ensures !gapDetected ==> unchanged(this)
    {
      gapDetected := false;
      if expectedNextTime.Some? {
        var delta := frame.captureTime - expectedNextTime.value;
        if (if delta < 0.0 then -delta else delta) > GAP_TOLERANCE_SECONDS {
          ClearPendingTimeline();
          gapDetected := true;
        }
      }
    }

    // The rest of push: the frame joins the epoch and the windows it completes are emitted.
    method TakeFrame(frame: MixedAudioFrame) returns (chunks: seq<AudioChunk>)
      requires Valid() && frame.samples != []
      modifies this
      ensures Valid() && epoch == old(epoch) + frame.samples && firstSequence == old(firstSequence)
      ensures startedAt == (if old(epoch) == [] then frame.captureTime else old(startedAt))
      ensures expectedNextTime == Some(frame.captureTime + Seconds(|frame.samples|))
      ensures FullCount(|old(epoch)|) <= FullCount(|epoch|)
      ensures chunks == Windows(epoch, startedAt, firstSequence, FullCount(|old(epoch)|), FullCount(|epoch|))
      ensures handed == old(handed) + chunks && NumberedFrom(chunks, old(sequence))
      ensures sequence == old(sequence) + |chunks|
      ensures CutInTurn(handed, epoch, startedAt, 0)
      ensures CutInTurn(chunks, epoch, startedAt, |handed| - |chunks|)
    {
      chunks := GrowEpoch(frame);
      EmittedAreCut(epoch, startedAt, firstSequence, handed, chunks);
    }

    method GrowEpoch(frame: MixedAudioFrame) returns (chunks: seq<AudioChunk>)
      requires Valid() && frame.samples != []
      modifies this
      ensures Valid() && epoch == old(epoch) + frame.samples && firstSequence == old(firstSequence)
      ensures startedAt == (if old(epoch) == [] then frame.captureTime else old(startedAt))
      ensures expectedNextTime == Some(frame.captureTime + Seconds(|frame.samples|))
      ensures FullCount(|old(epoch)|) <= FullCount(|epoch|)
      ensures chunks == Windows(epoch, startedAt, firstSequence, FullCount(|old(epoch)|), FullCount(|epoch|))
      ensures handed == old(handed) + chunks && NumberedFrom(chunks, old(sequence))
      ensures sequence == old(sequence) + |chunks|
      ensures handed == Windows(epoch, startedAt, firstSequence, 0, FullCount(|epoch|))
    {
      ghost var done := FullCount(|epoch|);
      Extend(frame, done);
      chunks := FlushCompleteChunks(done);
      WindowsAreNumbered(epoch, startedAt, firstSequence, done, FullCount(|epoch|));
    }

    // The middle of push: the frame joins the epoch, which may be empty.
    method Extend(frame: MixedAudioFrame, ghost done: nat)
      requires At(done) && done == FullCount(|epoch|) && frame.samples != []
      modifies this
      ensures epoch == old(epoch) + frame.samples && At(done) && done <= FullCount(|epoch|)
      ensures startedAt == (if old(epoch) == [] then frame.captureTime else old(startedAt))
      ensures firstSequence == old(firstSequence) && sequence == old(sequence) && handed == old(handed)
      ensures expectedNextTime == Some(frame.captureTime + Seconds(|frame.samples|))
    {
      WindowsPrefix(epoch, frame.samples, startedAt, firstSequence, done);
      SuffixGrows(epoch, frame.samples, HOP_SAMPLES * done);
      WindowsDoNotDependOnTheSplit(epoch, frame.samples, startedAt, firstSequence);
      assert samples == [] <==> epoch == [];
      if samples == [] {
        startTime := Some(frame.captureTime);
        startedAt := frame.captureTime;
      }
      expectedNextTime := Some(frame.captureTime + Seconds(|frame.samples|));
      nextSample := nextSample + |frame.samples|;
      samples := samples + frame.samples;
      epoch := epoch + frame.samples;
    }

    method FlushCompleteChunks(ghost done: nat) returns (chunks: seq<AudioChunk>)
      requires At(done) && epoch != [] && done <= FullCount(|epoch|)
      modifies this
      ensures Valid()
      ensures epoch == old(epoch) && startedAt == old(startedAt) && firstSequence == old(firstSequence)
      ensures expectedNextTime == old(expectedNextTime)
      ensures chunks == Windows(epoch, startedAt, firstSequence, done, FullCount(|epoch|))
      ensures handed == old(handed) + chunks
    {
      chunks := [];
      ghost var k: nat := done;
      while |samples| >= CHUNK_SAMPLES
        invariant epoch == old(epoch) && startedAt == old(startedAt) && firstSequence == old(firstSequence)
        invariant expectedNextTime == old(expectedNextTime)
        invariant At(k) && done <= k <= FullCount(|epoch|)
        invariant chunks == Windows(epoch, startedAt, firstSequence, done, k) && handed == old(handed) + chunks
        decreases |samples|
      {
        var chunk := EmitFullChunk(k);
        WindowsSnoc(epoch, startedAt, firstSequence, done, k);
        chunks := chunks + [chunk];
        k := k + 1;
      }
      FullCountIsExact(|epoch|, k);
    }

    // One iteration of that loop.
    method EmitFullChunk(ghost k: nat) returns (chunk: AudioChunk)
      requires At(k) && |samples| >= CHUNK_SAMPLES
      modifies this`samples, this`startTime, this`sequence, this`pendingStartSample, this`coveredUntilSample,
               this`hasEmittedFullChunk, this`handed
      ensures k < FullCount(|epoch|) && At(k + 1) && handed == old(handed) + [chunk]
      ensures chunk == Window(epoch, startedAt, firstSequence, k)
      ensures |samples| < |old(samples)|
    {
      FullCountIsExact(|epoch|, k);
      WindowsSnoc(epoch, startedAt, firstSequence, 0, k);
      SecondsAdd(HOP_SAMPLES * k, HOP_SAMPLES);
      var timestamp := startTime.value;
      chunk := AudioChunk(sequence, timestamp, samples[..CHUNK_SAMPLES], OVERLAP_SECONDS);
      sequence := sequence + 1;
      hasEmittedFullChunk := true;
      coveredUntilSample := Max(coveredUntilSample, pendingStartSample + CHUNK_SAMPLES);
      samples := samples[HOP_SAMPLES..];
      pendingStartSample := pendingStartSample + HOP_SAMPLES;
      startTime := Some(timestamp + Seconds(HOP_SAMPLES));
      assert chunk == Window(epoch, startedAt, firstSequence, k);
      handed := handed + [chunk];
    }

    // The final request: only when samples lie beyond what full windows covered, and never twice.
    method FlushFinal() returns (chunk: Option<AudioChunk>)
      requires Valid()
      modifies this
      ensures Valid()
      ensures chunk.Some? <==> |old(epoch)| > Covered(|old(epoch)|)
      ensures chunk.None? ==> unchanged(this)
      ensures chunk.Some? ==>
        var k := FullCount(|old(epoch)|);
        HOP_SAMPLES * k <= |old(epoch)| &&
        chunk.value.sequence == old(sequence) &&
        chunk.value.captureStartedAt == old(startedAt) + Seconds(HOP_SAMPLES * k) &&
        chunk.value.samples == old(epoch)[HOP_SAMPLES * k..] &&
        chunk.value.overlapSeconds == if k > 0 then OVERLAP_SECONDS else 0.0
      ensures chunk.Some? ==> epoch == [] && sequence == old(sequence) + 1
      // All chunks of the epoch, the tail included, stitch back to it, however it was cut into frames.
      ensures Stitched(SamplesOf(old(handed) + AsList(chunk))) == old(epoch)
      // Dropping the overlaps they declare loses the first second once there is a full chunk.
      ensures old(handed) != [] ==> |old(epoch)| > 16_000
      ensures Declared(old(handed) + AsList(chunk)) == if old(handed) == [] then old(epoch) else old(epoch)[16_000..]
    {
      ghost var before, started, first, n := epoch, startedAt, firstSequence, FullCount(|epoch|);
      assert handed == Windows(before, started, first, 0, n) && |handed| == n;
      chunk := FlushFinalAt(n);
      TailIs(before, chunk);
      AllChunksOfAnEpoch(before, started, first, AsList(chunk));
    }

    method FlushFinalAt(ghost k: nat) returns (chunk: Option<AudioChunk>)
      requires At(k)
      modifies this
      ensures chunk.Some? <==> |old(epoch)| > CoveredBy(k)
      ensures chunk.None? ==> unchanged(this)
      ensures chunk.Some? ==>
        chunk.value.sequence == old(sequence) &&
        chunk.value.captureStartedAt == old(startedAt) + Seconds(HOP_SAMPLES * k) &&
        chunk.value.samples == old(samples) &&
        chunk.value.overlapSeconds == if k > 0 then OVERLAP_SECONDS else 0.0
      ensures chunk.Some? ==> At(0) && epoch == [] && sequence == old(sequence) + 1
    {
      if samples == [] || nextSample <= coveredUntilSample {
        return None;
      }
      var startSample :=
        if hasEmittedFullChunk then
          Max(pendingStartSample,
            if coveredUntilSample > OVERLAP_SAMPLES then coveredUntilSample - OVERLAP_SAMPLES else 0)
        else pendingStartSample;
      var startOffset := startSample - pendingStartSample;
      assert startOffset == 0;
      var timestamp := startTime.value + Seconds(startOffset);
      var tail := samples[startOffset..];
      var overlap := if coveredUntilSample > startSample then coveredUntilSample - startSample else 0;
      assert overlap == if hasEmittedFullChunk then OVERLAP_SAMPLES else 0;
      chunk := Some(AudioChunk(sequence, timestamp, tail, Seconds(overlap)));
      sequence := sequence + 1;
      coveredUntilSample := nextSample;
      ClearPendingTimelineAt();
    }

    method Reset()
      requires Valid()
      modifies this
      ensures Valid() && epoch == [] && sequence == 0
    {
      ClearPendingTimeline();
      sequence := 0;
      firstSequence := 0;
    }

    method ClearPendingTimeline()
      requires Valid()
      modifies this
      ensures Valid() && epoch == [] && sequence == old(sequence) && firstSequence == sequence
      ensures expectedNextTime.None?
    {
      ClearPendingTimelineAt();
    }

    method ClearPendingTimelineAt()
      modifies this
      ensures At(0) && epoch == [] && sequence == old(sequence) && firstSequence == sequence
      ensures expectedNextTime.None?
    {
      samples := [];
      startTime := None;
      expectedNextTime := None;
      pendingStartSample := 0;
      nextSample := 0;
      coveredUntilSample := 0;
      hasEmittedFullChunk := false;
      epoch, handed := [], [];
      firstSequence := sequence;
    }
  }

  /* ---------- what the windows of an epoch amount to ---------- */

  // Windows that are complete stay as they are when the epoch grows, so the chunks of any split into
  // frames are the chunks of the whole.
  lemma {:induction false} WindowsDoNotDependOnTheSplit(
      epoch: seq<real>, more: seq<real>, startedAt: real, firstSequence: nat)
    ensures FullCount(|epoch|) <= FullCount(|epoch + more|)
    ensures Windows(epoch, startedAt, firstSequence, 0, FullCount(|epoch|)) +
            Windows(epoch + more, startedAt, firstSequence, FullCount(|epoch|), FullCount(|epoch + more|)) ==
            Windows(epoch + more, startedAt, firstSequence, 0, FullCount(|epoch + more|))
  {
    var k, n := FullCount(|epoch|), FullCount(|epoch + more|);
    WindowsPrefix(epoch, more, startedAt, firstSequence, k);
    WindowsJoin(epoch + more, startedAt, firstSequence, k, n);
  }

  lemma {:induction false} WindowsJoin(epoch: seq<real>, startedAt: real, firstSequence: nat, k: nat, n: nat)
    requires k <= n <= FullCount(|epoch|)
    ensures Windows(epoch, startedAt, firstSequence, 0, k) + Windows(epoch, startedAt, firstSequence, k, n) ==
      Windows(epoch, startedAt, firstSequence, 0, n)
  {
  }

  lemma {:induction false} SliceOfJoin(epoch: seq<real>, more: seq<real>, low: nat, high: nat)
    requires low <= high <= |epoch|
    ensures (epoch + more)[low..high] == epoch[low..high]
  {
  }

  // A complete window stays as it is.
  lemma {:induction false} SameWindow(
      epoch: seq<real>, more: seq<real>, startedAt: real, firstSequence: nat, i: nat)
    requires i < FullCount(|epoch|)
    ensures i < FullCount(|epoch + more|)
    ensures Window(epoch, startedAt, firstSequence, i) == Window(epoch + more, startedAt, firstSequence, i)
  {
    FullCountIsExact(|epoch|, i);
    FullCountIsExact(|epoch + more|, i);
    SliceOfJoin(epoch, more, HOP_SAMPLES * i, HOP_SAMPLES * i + CHUNK_SAMPLES);
  }

  lemma {:induction false} WindowsPrefix(
      epoch: seq<real>, more: seq<real>, startedAt: real, firstSequence: nat, k: nat)
    requires k <= FullCount(|epoch|)
    ensures k <= FullCount(|epoch + more|)
    ensures Windows(epoch, startedAt, firstSequence, 0, k) == Windows(epoch + more, startedAt, firstSequence, 0, k)
  {
    if k > 0 {
      SameWindow(epoch, more, startedAt, firstSequence, k - 1);
    }
    forall i: nat | i < k
      ensures Window(epoch, startedAt, firstSequence, i) == Window(epoch + more, startedAt, firstSequence, i)
    {
      SameWindow(epoch, more, startedAt, firstSequence, i);
    }
  }

  function AsList(chunk: Option<AudioChunk>): seq<AudioChunk> {
    if chunk.Some? then [chunk.value] else []
  }

  function SamplesOf(chunks: seq<AudioChunk>): seq<seq<real>> {
    seq(|chunks|, i requires 0 <= i < |chunks| => chunks[i].samples)
  }

  lemma {:induction false} HandedSamples(epoch: seq<real>, startedAt: real, firstSequence: nat, k: nat)
    requires k <= FullCount(|epoch|)
    ensures SamplesOf(Windows(epoch, startedAt, firstSequence, 0, k)) == WindowList(epoch, k)
  {
    var windows := Windows(epoch, startedAt, firstSequence, 0, k);
    forall i | 0 <= i < k ensures SamplesOf(windows)[i] == WindowList(epoch, k)[i] {
      assert windows[i] == Window(epoch, startedAt, firstSequence, i);
    }
  }

  // The first chunk, then every other chunk without its first second.
  function Stitched(chunks: seq<seq<real>>): seq<real> {
    if chunks == [] then []
    else if |chunks| == 1 then chunks[0]
    else
      var last := chunks[|chunks| - 1];
      Stitched(chunks[..|chunks| - 1]) + last[if |last| < OVERLAP_SAMPLES then |last| else OVERLAP_SAMPLES..]
  }

  ghost function WindowList(epoch: seq<real>, n: nat): seq<seq<real>>
    requires n <= FullCount(|epoch|)
  {
    seq(n, i requires 0 <= i < n => WindowSamples(epoch, i))
  }

  lemma {:induction false} StitchedWindows(epoch: seq<real>, n: nat)
    requires 0 < n <= FullCount(|epoch|)
    ensures HOP_SAMPLES * n + OVERLAP_SAMPLES <= |epoch|
    ensures Stitched(WindowList(epoch, n)) == epoch[..HOP_SAMPLES * n + OVERLAP_SAMPLES]
  {
    FullCountIsExact(|epoch|, n - 1);
    if n > 1 {
      StitchedWindows(epoch, n - 1);
      StitchWindow(epoch, n);
    }
  }

  lemma {:induction false} StitchWindow(epoch: seq<real>, n: nat)
    requires 1 < n <= FullCount(|epoch|) && HOP_SAMPLES * n + OVERLAP_SAMPLES <= |epoch|
    requires Stitched(WindowList(epoch, n - 1)) == epoch[..HOP_SAMPLES * (n - 1) + OVERLAP_SAMPLES]
    ensures Stitched(WindowList(epoch, n)) == epoch[..HOP_SAMPLES * n + OVERLAP_SAMPLES]
  {
    var low, window := HOP_SAMPLES * (n - 1), WindowSamples(epoch, n - 1);
    assert WindowList(epoch, n)[..n - 1] == WindowList(epoch, n - 1);
    assert WindowList(epoch, n)[n - 1] == window;
    assert Stitched(WindowList(epoch, n)) == Stitched(WindowList(epoch, n - 1)) + window[OVERLAP_SAMPLES..];
    NextWindow(epoch, low);
  }

  lemma {:induction false} NextWindow(epoch: seq<real>, low: nat)
    requires low + CHUNK_SAMPLES <= |epoch|
    ensures epoch[..low + OVERLAP_SAMPLES] + epoch[low..low + CHUNK_SAMPLES][OVERLAP_SAMPLES..] ==
      epoch[..low + CHUNK_SAMPLES]
  {
    assert epoch[low..low + CHUNK_SAMPLES][OVERLAP_SAMPLES..] == epoch[low + OVERLAP_SAMPLES..low + CHUNK_SAMPLES];
  }

  // The tail the final flush sends, as samples.
  ghost function TailSamples(epoch: seq<real>): seq<seq<real>> {
    if |epoch| > Covered(|epoch|) then [epoch[Min(HOP_SAMPLES * FullCount(|epoch|), |epoch|)..]] else []
  }

  // Nothing is lost and nothing is repeated: full chunks and tail stitch back to the epoch exactly.
  lemma {:induction false} ChunksStitchBackToInput(epoch: seq<real>)
    ensures Stitched(WindowList(epoch, FullCount(|epoch|)) + TailSamples(epoch)) == epoch
  {
    var n := FullCount(|epoch|);
    var windows, tail := WindowList(epoch, n), TailSamples(epoch);
    if n == 0 {
      assert windows == [];
      assert windows + tail == tail;
    } else {
      StitchedWindows(epoch, n);
      var end := HOP_SAMPLES * n + OVERLAP_SAMPLES;
      if tail == [] {
        assert windows + tail == windows;
      } else {
        assert (windows + tail)[..n] == windows;
        assert tail[0][OVERLAP_SAMPLES..] == epoch[end..];
        assert epoch[..end] + epoch[end..] == epoch;
      }
    }
  }

  // Dropping from every chunk the overlap it declares.
  function Declared(chunks: seq<AudioChunk>): seq<real> {
    if chunks == [] then [] else Declared(chunks[..|chunks| - 1]) + WithoutOverlap(chunks[|chunks| - 1])
  }

  function WithoutOverlap(chunk: AudioChunk): seq<real> {
    var declared := (chunk.overlapSeconds * 16_000.0).Floor;
    chunk.samples[if declared < 0 then 0 else if declared > |chunk.samples| then |chunk.samples| else declared..]
  }

  // The tail the final flush sends, if any.
  ghost predicate IsTail(tail: seq<AudioChunk>, epoch: seq<real>) {
    SamplesOf(tail) == TailSamples(epoch) &&
    forall i :: 0 <= i < |tail| ==> tail[i].overlapSeconds == if FullCount(|epoch|) > 0 then 1.0 else 0.0
  }

  lemma {:induction false} DeclaredSnoc(chunks: seq<AudioChunk>, chunk: AudioChunk)
    ensures Declared(chunks + [chunk]) == Declared(chunks) + WithoutOverlap(chunk)
  {
    assert (chunks + [chunk])[..|chunks|] == chunks;
  }

  lemma {:induction false} DeclaredWindows(epoch: seq<real>, startedAt: real, firstSequence: nat, n: nat)
    requires n <= FullCount(|epoch|)
    ensures n > 0 ==> HOP_SAMPLES * n + OVERLAP_SAMPLES <= |epoch|
    ensures Declared(Windows(epoch, startedAt, firstSequence, 0, n)) ==
      if n == 0 then [] else epoch[OVERLAP_SAMPLES..HOP_SAMPLES * n + OVERLAP_SAMPLES]
  {
    if n > 0 {
      FullCountIsExact(|epoch|, n - 1);
      DeclaredWindows(epoch, startedAt, firstSequence, n - 1);
      DeclaredNext(epoch, startedAt, firstSequence, n);
      NextSlice(epoch, n, HOP_SAMPLES * (n - 1));
    }
  }

  lemma {:induction false} DeclaredNext(epoch: seq<real>, startedAt: real, firstSequence: nat, n: nat)
    requires 0 < n <= FullCount(|epoch|)
    ensures Declared(Windows(epoch, startedAt, firstSequence, 0, n)) ==
      Declared(Windows(epoch, startedAt, firstSequence, 0, n - 1)) + WindowSamples(epoch, n - 1)[OVERLAP_SAMPLES..]
  {
    WindowsSnoc(epoch, startedAt, firstSequence, 0, n - 1);
    DeclaredGrows(Windows(epoch, startedAt, firstSequence, 0, n - 1), Window(epoch, startedAt, firstSequence, n - 1));
  }

  lemma {:induction false} DeclaredGrows(chunks: seq<AudioChunk>, chunk: AudioChunk)
    requires chunk.overlapSeconds == 1.0 && |chunk.samples| >= 16_000
    ensures Declared(chunks + [chunk]) == Declared(chunks) + chunk.samples[16_000..]
  {
    DeclaredSnoc(chunks, chunk);
  }

  // What window n - 1 adds without its first second.
  lemma {:induction false} NextSlice(epoch: seq<real>, n: nat, low: nat)
    requires n > 0 && low == HOP_SAMPLES * (n - 1) && low + CHUNK_SAMPLES <= |epoch|
    ensures epoch[low..low + CHUNK_SAMPLES][OVERLAP_SAMPLES..] == epoch[low + OVERLAP_SAMPLES..low + CHUNK_SAMPLES]
    ensures (if n == 1 then [] else epoch[OVERLAP_SAMPLES..low + OVERLAP_SAMPLES]) +
      epoch[low + OVERLAP_SAMPLES..low + CHUNK_SAMPLES] == epoch[OVERLAP_SAMPLES..low + CHUNK_SAMPLES]
  {
  }

  // The first full chunk declares an overlap of one second although nothing precedes it. Trusting the overlaps
  // the chunks of an epoch declare gives the epoch back exactly when there is no full chunk; otherwise it loses
  // precisely the first second.
  lemma {:induction false} DeclaredOverlapIsExactOnlyWithoutFullChunk(
      epoch: seq<real>, startedAt: real, firstSequence: nat, tail: seq<AudioChunk>)
    requires IsTail(tail, epoch)
    ensures var n := FullCount(|epoch|);
            var all := Windows(epoch, startedAt, firstSequence, 0, n) + tail;
            (n > 0 ==> |epoch| > 16_000 && Declared(all) == epoch[16_000..]) && (Declared(all) == epoch <==> n == 0)
  {
    var n := FullCount(|epoch|);
    var windows := Windows(epoch, startedAt, firstSequence, 0, n);
    DeclaredWindows(epoch, startedAt, firstSequence, n);
    if tail == [] {
      assert windows + tail == windows;
      TailOrCovered(epoch);
    } else {
      assert |tail| == |TailSamples(epoch)| == 1 && tail == [tail[0]];
      assert tail[0].samples == SamplesOf(tail)[0];
      DeclaredSnoc(windows, tail[0]);
      AddTail(epoch, n, tail[0].samples);
    }
    assert |epoch| > OVERLAP_SAMPLES ==> |epoch[OVERLAP_SAMPLES..]| < |epoch|;
  }

  lemma {:induction false} TailIs(epoch: seq<real>, chunk: Option<AudioChunk>)
    requires chunk.Some? <==> |epoch| > Covered(|epoch|)
    requires chunk.Some? ==>
      var k := FullCount(|epoch|);
      HOP_SAMPLES * k <= |epoch| && chunk.value.samples == epoch[HOP_SAMPLES * k..] &&
      chunk.value.overlapSeconds == if k > 0 then OVERLAP_SECONDS else 0.0
    ensures IsTail(AsList(chunk), epoch)
  {
  }

  lemma {:induction false} SamplesOfJoin(a: seq<AudioChunk>, b: seq<AudioChunk>)
    ensures SamplesOf(a + b) == SamplesOf(a) + SamplesOf(b)
  {
  }

  // What the chunks handed out for a whole epoch amount to, with and without the overlaps they declare.
  lemma {:induction false} AllChunksOfAnEpoch(
      epoch: seq<real>, startedAt: real, firstSequence: nat, tail: seq<AudioChunk>)
    requires IsTail(tail, epoch)
    ensures var n := FullCount(|epoch|);
            var all := Windows(epoch, startedAt, firstSequence, 0, n) + tail;
            Stitched(SamplesOf(all)) == epoch && (n > 0 ==> |epoch| > 16_000) &&
            Declared(all) == if n == 0 then epoch else epoch[16_000..]
  {
    var n := FullCount(|epoch|);
    SamplesOfJoin(Windows(epoch, startedAt, firstSequence, 0, n), tail);
    HandedSamples(epoch, startedAt, firstSequence, n);
    ChunksStitchBackToInput(epoch);
    DeclaredOverlapIsExactOnlyWithoutFullChunk(epoch, startedAt, firstSequence, tail);
  }

  // Without a tail the windows end where the epoch does.
  lemma {:induction false} TailOrCovered(epoch: seq<real>)
    requires TailSamples(epoch) == []
    ensures FullCount(|epoch|) > 0 ==> HOP_SAMPLES * FullCount(|epoch|) + OVERLAP_SAMPLES == |epoch|
    ensures FullCount(|epoch|) == 0 ==> epoch == []
  {
  }

  lemma {:induction false} AddTail(epoch: seq<real>, n: nat, tail: seq<real>)
    requires n == FullCount(|epoch|) && TailSamples(epoch) == [tail]
    ensures n == 0 ==> tail[0..] == epoch
    ensures n > 0 ==>
      var end := HOP_SAMPLES * n + OVERLAP_SAMPLES;
      OVERLAP_SAMPLES < end <= |epoch| && OVERLAP_SAMPLES <= |tail| && tail[OVERLAP_SAMPLES..] == epoch[end..] &&
      epoch[OVERLAP_SAMPLES..end] + epoch[end..] == epoch[OVERLAP_SAMPLES..]
  {
  }
}
