/**
 * Recording chunks: independent five-second segments without overlap, cut short only by a gap or the end.
 */
module RecordingChunking {
  import opened Wrappers

  const SAMPLE_RATE_HZ := 16_000
  const SEGMENT_SAMPLES := 80_000
  const GAP_TOLERANCE_SECONDS := 0.1
  const U32_MAX := 0xffff_ffff

  datatype RecordingAudioChunk = RecordingAudioChunk(
    segmentIndex: nat, samples: seq<real>, sampleCount: nat, firstSampleTimestamp: real)

  datatype RecordingChunkingResult = RecordingChunkingResult(chunks: seq<RecordingAudioChunk>, gapDetected: bool)

  datatype RecordingChunkerError = InvalidTimeline

  function Seconds(samples: int): real {
    samples as real / SAMPLE_RATE_HZ as real
  }

  // u32::saturating_add(1).
  function NextIndex(index: nat): nat {
    if index >= U32_MAX then U32_MAX else index + 1
  }

  // The index of the n-th segment: 0, 1, 2, ... until the counter saturates.
  function IndexAt(n: nat): nat {
    if n > U32_MAX then U32_MAX else n
  }

  // All samples of a list of segments.
  function Flat(chunks: seq<RecordingAudioChunk>): seq<real> {
    if chunks == [] then [] else Flat(chunks[..|chunks| - 1]) + chunks[|chunks| - 1].samples
  }

  lemma {:induction false} FlatSnoc(chunks: seq<RecordingAudioChunk>, chunk: RecordingAudioChunk)
    ensures Flat(chunks + [chunk]) == Flat(chunks) + chunk.samples
  {
    assert (chunks + [chunk])[..|chunks|] == chunks;
  }

  // A segment that could have been stored: its count is its length, within one segment's size.
  ghost predicate WellFormed(chunk: RecordingAudioChunk) {
    0 < |chunk.samples| == chunk.sampleCount <= SEGMENT_SAMPLES
  }

  // Segment k has its own index, could have been stored, and is short only if it was cut.
  ghost predicate InPlace(emitted: seq<RecordingAudioChunk>, cut: set<nat>, k: nat)
    requires k < |emitted|
  {
    WellFormed(emitted[k]) && emitted[k].segmentIndex == IndexAt(k) &&
    (|emitted[k].samples| < SEGMENT_SAMPLES ==> k in cut)
  }

  // The segments emitted so far, those that were cut short, and what is buffered: together exactly the
  // samples captured, in order, with consecutive indexes.
  ghost predicate Conserves(
    emitted: seq<RecordingAudioChunk>, cut: set<nat>, buffer: seq<real>, captured: seq<real>)
  {
    Flat(emitted) + buffer == captured &&
    forall k {:trigger InPlace(emitted, cut, k)} :: 0 <= k < |emitted| ==> InPlace(emitted, cut, k)
  }

  // Moving the front of the buffer into a segment conserves the capture.
  lemma {:induction false} Handing(
      emitted: seq<RecordingAudioChunk>, cut: set<nat>, buffer: seq<real>, captured: seq<real>,
        next: RecordingAudioChunk)
    requires Conserves(emitted, cut, buffer, captured) && WellFormed(next) && next.segmentIndex == IndexAt(|emitted|)
    requires |next.samples| <= |buffer| && next.samples == buffer[..|next.samples|]
    ensures |next.samples| == SEGMENT_SAMPLES ==>
      Conserves(emitted + [next], cut, buffer[|next.samples|..], captured)
    ensures Conserves(emitted + [next], cut + {|emitted|}, buffer[|next.samples|..], captured)
  {
    FlatSnoc(emitted, next);
    assert next.samples + buffer[|next.samples|..] == buffer;
    assert Flat(emitted) + buffer == Flat(emitted) + next.samples + buffer[|next.samples|..];
    var all := emitted + [next];
    forall k | 0 <= k < |all|
      ensures InPlace(all, cut + {|emitted|}, k)
      ensures |next.samples| == SEGMENT_SAMPLES ==> InPlace(all, cut, k)
    {
      assert k < |emitted| ==> all[k] == emitted[k] && InPlace(emitted, cut, k);
    }
  }

  // Full segments are stamped five seconds apart from the anchor on, and the next one is due at next.
  ghost predicate OnGrid(chunks: seq<RecordingAudioChunk>, anchor: real, next: real) {
    (forall k :: 0 <= k < |chunks| ==> chunks[k].firstSampleTimestamp == anchor + 5.0 * k as real) &&
    next == anchor + 5.0 * |chunks| as real
  }

  class RecordingAudioChunker {
    var samples: seq<real>
    var startTime: Option<real>
    var expectedNextTime: Option<real>
    var nextSegmentIndex: nat

    ghost var captured: seq<real>                 // every sample pushed since the last reset
    ghost var emitted: seq<RecordingAudioChunk>   // every segment handed out since then
    ghost var cut: set<nat>                       // which of them a gap or the final flush ended

    // Everything but the buffer bound, which push restores last.
    ghost predicate Consistent()
      reads this
    {
      Conserves(emitted, cut, samples, captured) &&
      nextSegmentIndex == IndexAt(|emitted|) &&
      (samples != [] ==> startTime.Some? && expectedNextTime.Some?)
    }

    ghost predicate Valid()
      reads this
    {
      Consistent() && |samples| < SEGMENT_SAMPLES
    }

    constructor ()
      ensures Valid() && captured == [] && emitted == [] && cut == {} && expectedNextTime.None?
    {
      samples, startTime, expectedNextTime, nextSegmentIndex := [], None, None, 0;
      captured, emitted, cut := [], [], {};
    }

    ghost predicate Jumps(captureTime: real)
      reads this
    {
      expectedNextTime.Some? &&
      (captureTime - expectedNextTime.value > GAP_TOLERANCE_SECONDS ||
       expectedNextTime.value - captureTime > GAP_TOLERANCE_SECONDS)
    }

    ghost predicate Regresses(captureTime: real)
      reads this
    {
      expectedNextTime.Some? && captureTime - expectedNextTime.value < -Seconds(1)
    }

    // Every accepted push appends its samples to what is captured; only a gap cuts a segment short.
    method Push(captureTime: real, frame: seq<real>) returns (r: Result<RecordingChunkingResult, RecordingChunkerError>)
      requires Valid()
      modifies this
      ensures Valid()
      ensures r.Ok? <==> captureTime >= 0.0 && frame != [] && !old(Regresses(captureTime))
      ensures r.Err? ==> unchanged(this)
      ensures r.Ok? ==>
        captured == old(captured) + frame && emitted == old(emitted) + r.value.chunks &&
        r.value.gapDetected == old(Jumps(captureTime)) &&
        expectedNextTime == Some(captureTime + Seconds(|frame|)) &&
        cut == old(cut) + if old(Jumps(captureTime)) && old(samples) != [] then {|old(emitted)|} else {}
      // At a gap the first segment is the whole old buffer, stamped as it was started.
      ensures r.Ok? && old(Jumps(captureTime)) && old(samples) != [] ==>
        r.value.chunks != [] && r.value.chunks[0].samples == old(samples) &&
        r.value.chunks[0].firstSampleTimestamp == old(startTime).value &&
        startTime.Some? && OnGrid(r.value.chunks[1..], captureTime, startTime.value)
      // Otherwise full segments go on from the running anchor, or from this frame when nothing was left.
      ensures r.Ok? && !(old(Jumps(captureTime)) && old(samples) != []) ==>
        startTime.Some? &&
        OnGrid(r.value.chunks, if old(samples) == [] then captureTime else old(startTime).value, startTime.value)
    {
      if captureTime < 0.0 || frame == [] {
        return Err(InvalidTimeline);
      }
      if expectedNextTime.Some? && captureTime - expectedNextTime.value < -Seconds(1) {
        return Err(InvalidTimeline);
      }
      var partial, gapDetected := CutAtGap(captureTime);
      Append(captureTime, frame);
      var full := FlushComplete();
      var chunks := if partial.Some? then [partial.value] + full else full;
      assert partial.Some? ==> chunks[0] == partial.value && chunks[1..] == full;
      assert partial.Some? ==> (old(emitted) + [partial.value]) + full == old(emitted) + chunks;
      r := Ok(RecordingChunkingResult(chunks, gapDetected));
    }

    // The gap test of push: a jump hands out what is buffered and forgets the old timeline.
    method CutAtGap(captureTime: real) returns (partial: Option<RecordingAudioChunk>, gapDetected: bool)
      requires Valid() && !Regresses(captureTime)
      modifies this
      ensures Valid() && captured == old(captured) && gapDetected == old(Jumps(captureTime))
      ensures partial.Some? <==> gapDetected && old(samples) != []
      ensures partial.None? ==>
        samples == old(samples) && startTime == old(startTime) && emitted == old(emitted) && cut == old(cut)
      ensures partial.Some? ==>
        samples == [] && emitted == old(emitted) + [partial.value] && cut == old(cut) + {|old(emitted)|} &&
        partial.value.samples == old(samples) && partial.value.firstSampleTimestamp == old(startTime).value
    {
      partial, gapDetected := None, false;
      if expectedNextTime.Some? {
        var delta := captureTime - expectedNextTime.value;
        if (if delta < 0.0 then -delta else delta) > GAP_TOLERANCE_SECONDS {
          partial := FlushFinal();
          expectedNextTime := None;
          gapDetected := true;
        }
      }
    }

    method Append(captureTime: real, frame: seq<real>)
      requires Consistent() && frame != []
      modifies this`samples, this`startTime, this`expectedNextTime, this`captured
      ensures Consistent() && captured == old(captured) + frame
      ensures startTime == if old(samples) == [] then Some(captureTime) else old(startTime)
      ensures expectedNextTime == Some(captureTime + Seconds(|frame|))
    {
      if samples == [] {
        startTime := Some(captureTime);
      }
      expectedNextTime := Some(captureTime + Seconds(|frame|));
      samples := samples + frame;
      captured := captured + frame;
    }

    // Hands out the buffer, whatever its size; nothing when it is empty.
    method FlushFinal() returns (chunk: Option<RecordingAudioChunk>)
      requires Valid()
      modifies this
      ensures Valid() && samples == [] && captured == old(captured)
      ensures chunk.Some? <==> old(samples) != []
      ensures chunk.None? ==> unchanged(this)
      ensures chunk.Some? ==>
        emitted == old(emitted) + [chunk.value] && cut == old(cut) + {|old(emitted)|} &&
        chunk.value.samples == old(samples) && chunk.value.firstSampleTimestamp == old(startTime).value &&
        expectedNextTime.None? && startTime.None?
    {
      if samples == [] {
        return None;
      }
      var next := RecordingAudioChunk(nextSegmentIndex, samples, |samples|, startTime.value);
      assert samples[..|samples|] == samples && samples[|samples|..] == [];
      Handing(emitted, cut, samples, captured, next);
      emitted, cut := emitted + [next], cut + {|emitted|};
      samples := [];
      startTime := None;
      nextSegmentIndex := NextIndex(nextSegmentIndex);
      expectedNextTime := None;
      chunk := Some(next);
    }

    method FlushComplete() returns (chunks: seq<RecordingAudioChunk>)
      requires Consistent()
      modifies this
      ensures Valid() && captured == old(captured) && cut == old(cut)
      ensures emitted == old(emitted) + chunks && expectedNextTime == old(expectedNextTime)
      ensures old(startTime).Some? ==> startTime.Some? && OnGrid(chunks, old(startTime).value, startTime.value)
      ensures chunks == [] ==> startTime == old(startTime)
    {
      chunks := [];
      ghost var anchor := startTime;
      while |samples| >= SEGMENT_SAMPLES
        invariant Consistent() && captured == old(captured) && cut == old(cut)
        invariant emitted == old(emitted) + chunks && expectedNextTime == old(expectedNextTime)
        invariant anchor.Some? ==> startTime.Some? && OnGrid(chunks, anchor.value, startTime.value)
        invariant chunks == [] ==> startTime == anchor
        decreases |samples|
      {
        var next := EmitFullSegment();
        chunks := chunks + [next];
      }
    }

    // One iteration of that loop.
    method EmitFullSegment() returns (next: RecordingAudioChunk)
      requires Consistent() && |samples| >= SEGMENT_SAMPLES
      modifies this`samples, this`startTime, this`nextSegmentIndex, this`emitted
      ensures Consistent() && |samples| < |old(samples)| && emitted == old(emitted) + [next]
      ensures next.firstSampleTimestamp == old(startTime).value
      ensures startTime.Some? && startTime.value == old(startTime).value + Seconds(SEGMENT_SAMPLES)
    {
      var segment := samples[..SEGMENT_SAMPLES];
      var timestamp := startTime.value;
      next := RecordingAudioChunk(nextSegmentIndex, segment, |segment|, timestamp);
      Handing(emitted, cut, samples, captured, next);
      samples := samples[SEGMENT_SAMPLES..];
      nextSegmentIndex := NextIndex(nextSegmentIndex);
      startTime := Some(timestamp + Seconds(SEGMENT_SAMPLES));
      emitted := emitted + [next];
    }

    method Reset()
      modifies this
      ensures Valid() && captured == [] && emitted == [] && cut == {} && expectedNextTime.None?
    {
      samples := [];
      startTime := None;
      expectedNextTime := None;
      nextSegmentIndex := 0;
      captured, emitted, cut := [], [], {};
    }
  }

  /* ---------- after the final flush ---------- */

  function TotalCount(chunks: seq<RecordingAudioChunk>): nat {
    if chunks == [] then 0 else TotalCount(chunks[..|chunks| - 1]) + chunks[|chunks| - 1].sampleCount
  }

  // The counts handed to the backend add up to the samples of the segments.
  lemma {:induction false} CountsAddUp(chunks: seq<RecordingAudioChunk>)
    requires forall k :: 0 <= k < |chunks| ==> WellFormed(chunks[k])
    ensures TotalCount(chunks) == |Flat(chunks)|
    decreases |chunks|
  {
    if chunks != [] {
      CountsAddUp(chunks[..|chunks| - 1]);
    }
  }

  // Once the buffer is flushed, the segments are the whole capture, and so are their counts.
  lemma {:induction false} FlushedSegmentsAreTheCapture(
      emitted: seq<RecordingAudioChunk>, cut: set<nat>, captured: seq<real>)
    requires Conserves(emitted, cut, [], captured)
    ensures Flat(emitted) == captured && TotalCount(emitted) == |captured|
  {
    assert Flat(emitted) + [] == Flat(emitted);
    forall k | 0 <= k < |emitted| ensures WellFormed(emitted[k]) {
      assert InPlace(emitted, cut, k);
    }
    CountsAddUp(emitted);
  }

  // Between two gaps a capture of n samples makes n / 80,000 full segments and at most one short one:
  // where every position is fixed by the number of segments before it.
  lemma {:induction false} UncutSegmentsLieOnTheGrid(
      emitted: seq<RecordingAudioChunk>, cut: set<nat>, buffer: seq<real>, captured: seq<real>, k: nat)
    requires Conserves(emitted, cut, buffer, captured)
    requires k <= |emitted| && forall j :: 0 <= j < k ==> j !in cut
    ensures k * 80_000 <= |captured|
    ensures Flat(emitted[..k]) == captured[..k * 80_000]
    decreases k
  {
    PrefixOfCapture(emitted, buffer, captured, k);
    UncutLength(emitted, cut, buffer, captured, k);
  }

  lemma {:induction false} UncutLength(
      emitted: seq<RecordingAudioChunk>, cut: set<nat>, buffer: seq<real>, captured: seq<real>, k: nat)
    requires Conserves(emitted, cut, buffer, captured)
    requires k <= |emitted| && forall j :: 0 <= j < k ==> j !in cut
    ensures |Flat(emitted[..k])| == k * SEGMENT_SAMPLES
    decreases k
  {
    if k > 0 {
      UncutLength(emitted, cut, buffer, captured, k - 1);
      assert InPlace(emitted, cut, k - 1);
      assert emitted[..k] == emitted[..k - 1] + [emitted[k - 1]];
      FlatSnoc(emitted[..k - 1], emitted[k - 1]);
    }
  }

  lemma {:induction false} PrefixOfCapture(
      emitted: seq<RecordingAudioChunk>, buffer: seq<real>, captured: seq<real>, k: nat)
    requires Flat(emitted) + buffer == captured && k <= |emitted|
    ensures |Flat(emitted[..k])| <= |captured|
    ensures Flat(emitted[..k]) == captured[..|Flat(emitted[..k])|]
    decreases |emitted| - k
  {
    if k == |emitted| {
      assert emitted[..k] == emitted;
    } else {
      PrefixOfCapture(emitted, buffer, captured, k + 1);
      assert emitted[..k + 1] == emitted[..k] + [emitted[k]];
      FlatSnoc(emitted[..k], emitted[k]);
      var longer := Flat(emitted[..k + 1]);
      assert Flat(emitted[..k]) == longer[..|Flat(emitted[..k])|];
    }
  }
}
