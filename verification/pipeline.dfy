/**
 * The capture pipeline: native frames are resampled and mixed, and mixer output feeds the live chunker and,
 * while a recording runs, the recording chunker. Neither chunker can ever see a regressing timeline, and
 * neither loses a sample.
 */
module CapturePipeline {
  import opened Wrappers
  import opened AudioMixing
  import opened LiveChunking
  import RecordingChunking
  import Resampling

  const HALF_SAMPLE_SECONDS := 1.0 / 32_000.0
  const GAP_TOLERANCE_SAMPLES := 1_600

  datatype Failure =
    | ProcessorFailed
    | ChunkerInvalidFrame
    | ChunkerTimelineRegression
    | WavEncode
    | SenderQueueClosed
    | FinalTailQueueFull

  // How encoder and bounded sender queue answer for the live chunk with a given sequence number. What the
  // sender has drained by then is not up to the pipeline, so any answers are possible.
  datatype QueueAnswer = Taken | Full | Closed | NotEncoded

  /* ---------- native frames ---------- */

  // A native frame, mixed down to one channel.
  datatype NativeFrame = NativeFrame(source: Source, captureTime: real, rate: nat, samples: seq<real>)

  // A resampler, and the two of them with the frames they have produced.
  datatype Rated = Rated(rate: Option<nat>, state: Resampling.State)

  datatype Front = Front(system: Rated, microphone: Rated, frames: seq<NormalizedAudioFrame>)
  {
    predicate Settled() {
      Resampling.Settled(system.state) && Resampling.Settled(microphone.state)
    }

    function Of(source: Source): Rated {
      if source == SystemAudio then system else microphone
    }
  }

  const SILENT_FRONT := Front(Rated(None, Resampling.FRESH), Rated(None, Resampling.FRESH), [])

  // A resampler starts afresh whenever its input rate changes.
  function StateFor(r: Rated, rate: nat): Resampling.State {
    if r.rate == Some(rate) then r.state else Resampling.FRESH
  }

  predicate WellFormed(f: NativeFrame) {
    f.rate > 0 && f.samples != []
  }

  function Resampled(front: Front, f: NativeFrame): seq<real>
    requires front.Settled() && WellFormed(f)
  {
    Resampling.Written(f.rate, StateFor(front.Of(f.source), f.rate), f.samples)
  }

  // One frame through its source's resampler; a frame that yields no output is not passed on.
  function Advanced(front: Front, f: NativeFrame): Front
    requires front.Settled() && WellFormed(f)
  {
    var output := Resampled(front, f);
    var next := Rated(Some(f.rate), Resampling.After(f.rate, StateFor(front.Of(f.source), f.rate), f.samples));
    var frames := if output == [] then front.frames
                  else front.frames + [NormalizedAudioFrame(f.source, f.captureTime, output)];
    match f.source
    case SystemAudio => Front(next, front.microphone, frames)
    case Microphone => Front(front.system, next, frames)
  }

  lemma {:induction false} AdvancedStaysSettled(front: Front, f: NativeFrame)
    requires front.Settled() && WellFormed(f)
    ensures Advanced(front, f).Settled()
  {
    Resampling.StaysSettled(f.rate, StateFor(front.Of(f.source), f.rate), f.samples);
  }

  // What the resamplers make of a session's native frames, unless one of them is malformed.
  function Normalized(frames: seq<NativeFrame>): (front: Option<Front>)
    ensures front.Some? ==> front.value.Settled()
  {
    if frames == [] then Some(SILENT_FRONT)
    else
      var before, f := Normalized(frames[..|frames| - 1]), frames[|frames| - 1];
      if before.None? || !WellFormed(f) then None
      else
        AdvancedStaysSettled(before.value, f);
        Some(Advanced(before.value, f))
  }

  lemma {:induction false} NormalizedSnoc(frames: seq<NativeFrame>, f: NativeFrame)
    requires Normalized(frames).Some?
    ensures Normalized(frames + [f]) == if WellFormed(f) then Some(Advanced(Normalized(frames).value, f)) else None
  {
    assert (frames + [f])[..|frames|] == frames;
  }

  /* ---------- the emitted runs, as the chunkers see them ---------- */

  // Where the mixed timeline goes on after the first n runs.
  ghost function Due(origin: real, runs: seq<Run<real>>, n: nat): Option<real>
    requires n <= |runs|
  {
    if n == 0 then None else Some(FrameTime(origin, runs[n - 1].End()))
  }

  // The samples of the first n runs.
  ghost function Samples(runs: seq<Run<real>>, n: nat): seq<real>
    requires n <= |runs|
  {
    if n == 0 then [] else Samples(runs, n - 1) + runs[n - 1].samples
  }

  // The jump both chunkers call a gap: more than 100 ms, that is 1,600 grid positions.
  ghost predicate IsGap(runs: seq<Run<real>>, n: nat)
    requires n < |runs|
  {
    n > 0 && runs[n].start - runs[n - 1].End() > GAP_TOLERANCE_SAMPLES
  }

  // Some gap among the first n runs.
  ghost predicate HasGap(runs: seq<Run<real>>, n: nat)
    requires n <= |runs|
  {
    n > 0 && (HasGap(runs, n - 1) || IsGap(runs, n - 1))
  }

  ghost predicate BeforeZero(origin: real, runs: seq<Run<real>>, n: nat)
    requires n < |runs|
  {
    FrameTime(origin, runs[n].start) < 0.0
  }

  // No run from index n on is stamped before zero.
  ghost predicate NoneBeforeZero(origin: real, runs: seq<Run<real>>, n: nat) {
    forall i {:trigger BeforeZero(origin, runs, i)} :: n <= i < |runs| ==> !BeforeZero(origin, runs, i)
  }

  lemma {:induction false} GridDistance(origin: real, a: int, b: int)
    ensures FrameTime(origin, b) - FrameTime(origin, a) == Seconds(b - a)
    ensures a <= b ==> Seconds(b - a) >= 0.0
    ensures Seconds(b - a) > LiveChunking.GAP_TOLERANCE_SECONDS <==> b - a > GAP_TOLERANCE_SAMPLES
    ensures FrameTime(origin, a) + Seconds(b - a) == FrameTime(origin, b)
  {
  }

  lemma {:induction false} PrefixIsShared(runs: seq<Run<real>>, all: seq<Run<real>>, n: nat)
    requires runs <= all && n <= |runs|
    ensures forall origin :: Due(origin, runs, n) == Due(origin, all, n)
    ensures Samples(runs, n) == Samples(all, n) && HasGap(runs, n) == HasGap(all, n)
  {
    if n > 0 {
      PrefixIsShared(runs, all, n - 1);
    }
  }

  // Early runs are the same in a longer list.
  lemma {:induction false} BeforeZeroIsShared(origin: real, runs: seq<Run<real>>, all: seq<Run<real>>)
    requires runs <= all
    ensures NoneBeforeZero(origin, all, 0) <==> NoneBeforeZero(origin, runs, 0) && NoneBeforeZero(origin, all, |runs|)
  {
    forall i | 0 <= i < |runs| ensures BeforeZero(origin, runs, i) <==> BeforeZero(origin, all, i) {}
  }

  /* ---------- queue and writer ---------- */

  // The live stream goes on past a full queue, but not past a closed one or a chunk that cannot be encoded.
  predicate Stops(queue: nat -> QueueAnswer, sequence: nat) {
    queue(sequence).Closed? || queue(sequence).NotEncoded?
  }

  ghost predicate Passes(queue: nat -> QueueAnswer, low: nat, high: nat) {
    forall q: nat {:trigger Stops(queue, q)} :: low <= q < high ==> !Stops(queue, q)
  }

  predicate Fills(queue: nat -> QueueAnswer, sequence: nat) {
    queue(sequence).Full?
  }

  // Some of these chunks met a full queue.
  ghost predicate Overflows(queue: nat -> QueueAnswer, low: nat, high: nat) {
    exists q: nat {:trigger Fills(queue, q)} :: low <= q < high && Fills(queue, q)
  }

  lemma {:induction false} OverflowsJoin(queue: nat -> QueueAnswer, low: nat, middle: nat, high: nat)
    requires low <= middle <= high
    ensures Overflows(queue, low, high) <==> Overflows(queue, low, middle) || Overflows(queue, middle, high)
  {
  }

  ghost predicate TakesAll(queue: nat -> QueueAnswer) {
    forall q: nat {:trigger Stops(queue, q)} {:trigger queue(q)} :: queue(q).Taken?
  }

  ghost predicate WritesAll(writer: nat -> bool) {
    forall i: nat :: writer(i)
  }

  // The chunks that were queued: the others met a full queue.
  function TakenOf(queue: nat -> QueueAnswer, chunks: seq<AudioChunk>): seq<AudioChunk> {
    if chunks == [] then []
    else
      var last := chunks[|chunks| - 1];
      TakenOf(queue, chunks[..|chunks| - 1]) + if queue(last.sequence).Taken? then [last] else []
  }

  lemma {:induction false} TakenSnoc(queue: nat -> QueueAnswer, chunks: seq<AudioChunk>, chunk: AudioChunk)
    ensures TakenOf(queue, chunks + [chunk]) ==
      TakenOf(queue, chunks) + if queue(chunk.sequence).Taken? then [chunk] else []
  {
    assert (chunks + [chunk])[..|chunks|] == chunks;
  }

  lemma {:induction false} TakenNext(
      queue: nat -> QueueAnswer, before: seq<AudioChunk>, chunks: seq<AudioChunk>, n: nat)
    requires n < |chunks|
    ensures TakenOf(queue, before + chunks[..n + 1]) ==
      TakenOf(queue, before + chunks[..n]) + if queue(chunks[n].sequence).Taken? then [chunks[n]] else []
  {
    TakenSnoc(queue, before + chunks[..n], chunks[n]);
    assert before + chunks[..n + 1] == before + chunks[..n] + [chunks[n]];
  }

  predicate Unwritten(writer: nat -> bool, chunks: seq<RecordingChunking.RecordingAudioChunk>, k: nat)
    requires k < |chunks|
  {
    !writer(chunks[k].segmentIndex)
  }

  // The recording writer has taken every one of these segments.
  ghost predicate AllWritten(writer: nat -> bool, chunks: seq<RecordingChunking.RecordingAudioChunk>) {
    forall k {:trigger Unwritten(writer, chunks, k)} :: 0 <= k < |chunks| ==> !Unwritten(writer, chunks, k)
  }

  lemma {:induction false} AllWrittenJoin(
      writer: nat -> bool, a: seq<RecordingChunking.RecordingAudioChunk>, b: seq<RecordingChunking.RecordingAudioChunk>)
    ensures AllWritten(writer, a + b) <==> AllWritten(writer, a) && AllWritten(writer, b)
  {
    var all := a + b;
    forall k | 0 <= k < |a| ensures Unwritten(writer, all, k) <==> Unwritten(writer, a, k) {}
    forall k | 0 <= k < |b| ensures Unwritten(writer, all, |a| + k) <==> Unwritten(writer, b, k) {}
    if AllWritten(writer, a) && AllWritten(writer, b) {
      forall k | 0 <= k < |all| ensures !Unwritten(writer, all, k) {
        assert if k < |a| then !Unwritten(writer, a, k) else !Unwritten(writer, b, k - |a|);
      }
    }
  }

  lemma {:induction false} PassesJoin(queue: nat -> QueueAnswer, low: nat, middle: nat, high: nat)
    requires low <= middle <= high
    ensures Passes(queue, low, high) <==> Passes(queue, low, middle) && Passes(queue, middle, high)
  {
  }

  class ProcessingPipeline {
    const system: Resampling.LinearResampler
    const microphone: Resampling.LinearResampler
    const mixer: AudioMixer
    const chunker: AudioChunker
    const queue: nat -> QueueAnswer
    const writer: nat -> bool
    var recording: Option<RecordingChunking.RecordingAudioChunker>
    var recordingUnavailable: bool
    var submissionGap: bool
    var recordingHasGaps: bool
    var queued: seq<AudioChunk>

    ghost var finalized: seq<AudioChunk>               // every live chunk made so far
    ghost var heard: seq<NativeFrame>                  // every native frame
    ghost var accepted: seq<NormalizedAudioFrame>      // every frame the mixer took
    ghost var runs: seq<Run<real>>                     // every run it emitted

    ghost function Recorders(): set<object>
      reads this`recording
    {
      if recording.Some? then {recording.value} else {}
    }

    // Live chunks carry the sequence numbers 0, 1, 2, ... across all gaps.
    ghost predicate Numbered()
      reads this`finalized, chunker
    {
      chunker.Valid() && chunker.sequence == |finalized| && NumberedFrom(finalized, 0)
    }

    // While the recording branch lives, the writer has taken everything it handed out.
    ghost predicate RecordingReady()
      reads this`recording, Recorders()
    {
      recording.Some? ==> recording.value.Valid() && AllWritten(writer, recording.value.emitted)
    }

    // Both chunkers stand exactly where the first n runs end. Without a gap the live chunker's epoch is all of
    // them. The stream is marked as broken exactly when there was a gap or a chunk met a full queue.
    ghost predicate Fed(origin: real, runs: seq<Run<real>>, n: nat)
      requires n <= |runs|
      reads this`recording, this`recordingHasGaps, this`submissionGap, this`queued, this`finalized, chunker, Recorders()
    {
      Numbered() && queued == TakenOf(queue, finalized) && chunker.expectedNextTime == Due(origin, runs, n) &&
      submissionGap == (HasGap(runs, n) || Overflows(queue, 0, |finalized|)) &&
      (!HasGap(runs, n) ==> chunker.epoch == Samples(runs, n) && chunker.handed == finalized) &&
      RecordingReady() &&
      (recording.Some? ==>
        recording.value.expectedNextTime == Due(origin, runs, n) && recording.value.captured == Samples(runs, n) &&
        recordingHasGaps == HasGap(runs, n))
    }

    ghost predicate Mixes()
      reads this, mixer
    {
      mixer.commonTimelineEnabled &&
      Pushed(accepted).Some? && mixer.View() == Pushed(accepted).value.state && runs == Pushed(accepted).value.runs
    }

    ghost predicate Hears(frames: seq<NormalizedAudioFrame>)
      reads this, system, microphone
    {
      Normalized(heard).Some? && HearsAs(Normalized(heard).value, frames, system, microphone)
    }

    static ghost predicate HearsAs(
        front: Front, frames: seq<NormalizedAudioFrame>,
        system: Resampling.LinearResampler, microphone: Resampling.LinearResampler)
      reads system, microphone
    {
      system != microphone && system.Valid() && microphone.Valid() && front.frames == frames &&
      front.system == Rated(system.inputRate, system.View()) &&
      front.microphone == Rated(microphone.inputRate, microphone.View())
    }

    ghost predicate Valid()
      reads this, mixer, chunker, Recorders()
    {
      Mixes() && Fed(OriginOf(accepted), runs, |runs|) && NoneBeforeZero(OriginOf(accepted), runs, 0)
    }

    constructor (queue: nat -> QueueAnswer, writer: nat -> bool)
      ensures Valid() && Hears([]) && heard == [] && accepted == [] && finalized == [] && recording.Some?
      ensures this.queue == queue && this.writer == writer && !submissionGap
      ensures fresh(mixer) && fresh(chunker) && fresh(system) && fresh(microphone) && fresh(Recorders())
    {
      this.queue, this.writer := queue, writer;
      system := new Resampling.LinearResampler();
      microphone := new Resampling.LinearResampler();
      mixer := new AudioMixer();
      chunker := new AudioChunker();
      var recorder := new RecordingChunking.RecordingAudioChunker();
      recording := Some(recorder);
      recordingUnavailable, submissionGap, recordingHasGaps, queued := false, false, false, [];
      finalized, heard, accepted, runs := [], [], [], [];
    }

    /* ----- mixed frames ----- */

    // One mixed frame goes to the recording branch and to the live chunker. The chunkers refuse only a frame
    // stamped before zero, a regression is impossible, and both see the same gaps.
    method ProcessMixedFrame(frame: MixedAudioFrame, ghost origin: real, ghost all: seq<Run<real>>, ghost n: nat)
      returns (r: Result<(), Failure>)
      requires n < |all| && Spaced(all) && Fed(origin, all, n) && frame == FrameOf(origin, all[n])
      modifies this`recording, this`recordingUnavailable, this`submissionGap, this`recordingHasGaps,
               this`finalized, this`queued, chunker, Recorders()
      ensures old(finalized) <= finalized && RecordingReady()
      ensures r.Ok? <==> !BeforeZero(origin, all, n) && Passes(queue, |old(finalized)|, |finalized|)
      ensures r.Err? ==> if BeforeZero(origin, all, n) then r.error == ChunkerInvalidFrame else QueueFailure(r.error)
      ensures r.Ok? ==> Fed(origin, all, n + 1)
      ensures recording.Some? ==> recording == old(recording)
      ensures r.Ok? && old(recording).Some? ==>
        (recording.Some? <==> AllWritten(writer, old(recording).value.emitted))
    {
      if n > 0 {
        assert Follows(all, n);
        GridDistance(origin, all[n - 1].End(), all[n].start);
      }
      GridDistance(origin, all[n].start, all[n].End());
      ghost var before := |finalized|;
      ProcessRecordingFrame(frame);
      r := ProcessLiveFrame(frame);
      OverflowsJoin(queue, 0, before, |finalized|);
    }

    method ProcessLiveFrame(frame: MixedAudioFrame) returns (r: Result<(), Failure>)
      requires Numbered() && queued == TakenOf(queue, finalized)
      modifies this`submissionGap, this`finalized, this`queued, chunker
      ensures old(finalized) <= finalized
      ensures var taken := frame.captureTime >= 0.0 && frame.samples != [] && !old(chunker.Regresses(frame));
              (r.Ok? <==> taken && Passes(queue, |old(finalized)|, |finalized|)) &&
              (r.Err? && taken ==> QueueFailure(r.error))
      ensures frame.captureTime < 0.0 || frame.samples == [] ==> r == Err(ChunkerInvalidFrame)
      ensures r.Ok? ==> Numbered() && queued == TakenOf(queue, finalized)
      ensures r.Ok? ==> chunker.expectedNextTime == Some(frame.captureTime + Seconds(|frame.samples|))
      ensures r.Ok? && !old(chunker.Jumps(frame)) && old(chunker.handed) == old(finalized) ==>
        chunker.handed == finalized && chunker.epoch == old(chunker.epoch) + frame.samples
      ensures r.Ok? ==>
        submissionGap ==
          (old(submissionGap) || old(chunker.Jumps(frame)) || Overflows(queue, |old(finalized)|, |finalized|))
    {
      var pushed := PushChunker(frame);
      if pushed.Err? {
        return Err(if pushed.error.InvalidFrame? then ChunkerInvalidFrame else ChunkerTimelineRegression);
      }
      if pushed.value.gapDetected {
        submissionGap := true;
      }
      r := QueueChunks(pushed.value.chunks);
    }

    method PushChunker(frame: MixedAudioFrame) returns (r: Result<ChunkingResult, AudioChunkerError>)
      requires chunker.Valid()
      modifies chunker
      ensures chunker.Valid()
      ensures r.Ok? <==> frame.captureTime >= 0.0 && frame.samples != [] && !old(chunker.Regresses(frame))
      ensures r.Err? ==> (r.error == TimelineRegression <==> frame.captureTime >= 0.0 && frame.samples != [])
      ensures r.Ok? ==>
        NumberedFrom(r.value.chunks, old(chunker.sequence)) &&
        chunker.sequence == old(chunker.sequence) + |r.value.chunks| &&
        r.value.gapDetected == old(chunker.Jumps(frame)) &&
        chunker.expectedNextTime == Some(frame.captureTime + Seconds(|frame.samples|)) &&
        (!old(chunker.Jumps(frame)) ==>
          chunker.handed == old(chunker.handed) + r.value.chunks &&
          chunker.epoch == old(chunker.epoch) + frame.samples)
    {
      r := chunker.Push(frame);
    }

    predicate QueueFailure(error: Failure) {
      error.WavEncode? || error.SenderQueueClosed?
    }

    // Chunks go to the sender's queue in order; a full queue loses the chunk and marks a gap.
    method QueueChunks(chunks: seq<AudioChunk>) returns (r: Result<(), Failure>)
      requires NumberedFrom(chunks, |finalized|) && NumberedFrom(finalized, 0) && queued == TakenOf(queue, finalized)
      modifies this`submissionGap, this`finalized, this`queued
      ensures finalized == old(finalized) + chunks && NumberedFrom(finalized, 0)
      ensures r.Ok? <==> Passes(queue, |old(finalized)|, |finalized|)
      ensures r.Err? ==> QueueFailure(r.error)
      ensures r.Ok? ==> queued == TakenOf(queue, finalized)
      ensures r.Ok? ==>
        submissionGap == (old(submissionGap) || Overflows(queue, |old(finalized)|, |finalized|))
    {
      ghost var before := finalized;
      finalized := finalized + chunks;
      assert before + chunks[..0] == before;
      for n := 0 to |chunks|
        invariant finalized == before + chunks && before == old(finalized)
        invariant Passes(queue, |before|, |before| + n)
        invariant queued == TakenOf(queue, before + chunks[..n])
        invariant submissionGap == (old(submissionGap) || Overflows(queue, |before|, |before| + n))
      {
        assert Fills(queue, |before| + n) == queue(|before| + n).Full?;
        TakenNext(queue, before, chunks, n);
        assert chunks[n].sequence == |before| + n;
        match queue(chunks[n].sequence)
        case Taken => queued := queued + [chunks[n]];
        case Full => submissionGap := true;
        case Closed =>
          assert Stops(queue, |before| + n);
          return Err(SenderQueueClosed);
        case NotEncoded =>
          assert Stops(queue, |before| + n);
          return Err(WavEncode);
      }
      assert chunks[..|chunks|] == chunks;
      return Ok(());
    }

    // The recording branch ends when a frame is refused or a segment is not taken; the live stream never does
    // for that.
    method ProcessRecordingFrame(frame: MixedAudioFrame)
      requires RecordingReady()
      modifies this`recording, this`recordingUnavailable, this`recordingHasGaps, Recorders()
      ensures RecordingReady() && (recording.Some? ==> recording == old(recording))
      ensures old(recording).Some? ==>
        var recorder := old(recording).value;
        var accepts := frame.captureTime >= 0.0 && frame.samples != [] && !old(recorder.Regresses(frame.captureTime));
        (recording.Some? <==> accepts && AllWritten(writer, recorder.emitted)) &&
        recordingUnavailable == (old(recordingUnavailable) || recording.None?) &&
        (accepts ==>
          recorder.captured == old(recorder.captured) + frame.samples &&
          recorder.expectedNextTime == Some(frame.captureTime + RecordingChunking.Seconds(|frame.samples|)) &&
          recordingHasGaps == (old(recordingHasGaps) || old(recorder.Jumps(frame.captureTime))))
      ensures old(recording).None? ==> recordingHasGaps == old(recordingHasGaps)
    {
      if recording.None? {
        return;
      }
      var recorder := recording.value;
      ghost var before := recorder.emitted;
      var result := recorder.Push(frame.captureTime, frame.samples);
      if result.Err? {
        recording, recordingUnavailable := None, true;
        return;
      }
      if result.value.gapDetected {
        recordingHasGaps := true;
      }
      AllWrittenJoin(writer, before, result.value.chunks);
      var written := WriteSegments(result.value.chunks);
      if !written {
        recording, recordingUnavailable := None, true;
      }
    }

    // Segments are handed to the writer one by one until one is not taken.
    method WriteSegments(chunks: seq<RecordingChunking.RecordingAudioChunk>) returns (written: bool)
      ensures written <==> AllWritten(writer, chunks)
    {
      for n := 0 to |chunks|
        invariant forall k {:trigger Unwritten(writer, chunks, k)} :: 0 <= k < n ==> !Unwritten(writer, chunks, k)
      {
        if !writer(chunks[n].segmentIndex) {
          assert Unwritten(writer, chunks, n);
          return false;
        }
      }
      return true;
    }

    // Frames of one mixer call, in order, up to the first that is stamped before zero or meets a closed queue.
    method ProcessMixedFrames(
        frames: seq<MixedAudioFrame>, ghost origin: real, ghost all: seq<Run<real>>, ghost done: nat)
      returns (r: Result<(), Failure>)
      requires done <= |all| && Spaced(all) && Fed(origin, all, done) && frames == Emit(origin, all[done..])
      modifies this`recording, this`recordingUnavailable, this`submissionGap, this`recordingHasGaps,
               this`finalized, this`queued, chunker, Recorders()
      ensures old(finalized) <= finalized && RecordingReady()
      ensures r.Ok? <==> NoneBeforeZero(origin, all, done) && Passes(queue, |old(finalized)|, |finalized|)
      ensures r.Err? ==> QueueFailure(r.error) || (r.error == ChunkerInvalidFrame && !NoneBeforeZero(origin, all, done))
      ensures r.Ok? ==> Fed(origin, all, |all|)
      ensures recording.Some? ==> recording == old(recording)
      ensures r.Ok? && old(recording).Some? ==>
        (recording.Some? <==> AllWritten(writer, old(recording).value.emitted))
    {
      assert |frames| == |all| - done;
      for n := 0 to |frames|
        invariant Fed(origin, all, done + n)
        invariant forall i {:trigger BeforeZero(origin, all, i)} :: done <= i < done + n ==> !BeforeZero(origin, all, i)
        invariant old(finalized) <= finalized && Passes(queue, |old(finalized)|, |finalized|)
        invariant recording.Some? ==> recording == old(recording)
        invariant old(recording).Some? ==> (recording.Some? <==> AllWritten(writer, old(recording).value.emitted))
      {
        assert frames[n] == FrameOf(origin, all[done + n]);
        ghost var before := |finalized|;
        r := ProcessMixedFrame(frames[n], origin, all, done + n);
        PassesJoin(queue, |old(finalized)|, before, |finalized|);
        if r.Err? {
          return;
        }
      }
      r := Ok(());
    }

    /* ----- normalized and native frames ----- */

    // More runs do not move the chunkers.
    lemma {:induction false} FedShares(origin: real, before: seq<Run<real>>, newOrigin: real, later: seq<Run<real>>)
      requires Fed(origin, before, |before|) && |before| <= |later|
      requires Due(newOrigin, later, |before|) == Due(origin, before, |before|)
      requires Samples(later, |before|) == Samples(before, |before|)
      requires HasGap(later, |before|) == HasGap(before, |before|)
      ensures Fed(newOrigin, later, |before|)
    {
    }

    // The mixer's part. The chunkers still stand where the older runs end.
    method MixFrame(frame: NormalizedAudioFrame) returns (r: Result<seq<MixedAudioFrame>, Failure>)
      requires Valid()
      modifies this`accepted, this`runs, mixer
      ensures r.Ok? <==> Accepts(Pushed(old(accepted)).value.state, frame)
      ensures r.Err? ==> r.error == ProcessorFailed && accepted == old(accepted)
      ensures r.Ok? ==>
        Mixes() && accepted == old(accepted) + [frame] && old(runs) <= runs && Spaced(runs) &&
        r.value == Emit(OriginOf(accepted), runs[|old(runs)|..]) &&
        Fed(OriginOf(accepted), runs, |old(runs)|) &&
        (NoneBeforeZero(OriginOf(accepted), runs, 0) <==> NoneBeforeZero(OriginOf(accepted), runs, |old(runs)|))
    {
      ghost var later := NextRuns(accepted, frame);
      if Pushed(accepted + [frame]).Some? {
        FedShares(OriginOf(accepted), runs, OriginOf(accepted + [frame]), later);
      }
      r := MixInto(frame, later);
    }

    method MixInto(frame: NormalizedAudioFrame, ghost later: seq<Run<real>>)
      returns (r: Result<seq<MixedAudioFrame>, Failure>)
      requires Mixes() && |runs| <= |later|
      requires Pushed(accepted + [frame]).Some? <==> Accepts(Pushed(accepted).value.state, frame)
      requires Pushed(accepted + [frame]).Some? ==>
        var st := Inserted(Pushed(accepted).value.state, frame);
        var bound := HoldbackBound(st.latestEnd.value);
        later == Pushed(accepted + [frame]).value.runs && st.origin == Some(OriginOf(accepted + [frame])) &&
        Pushed(accepted + [frame]).value.state == Drained(st, bound) && later[|runs|..] == DrainRuns(st, bound)
      modifies this`accepted, this`runs, mixer
      ensures r.Ok? <==> Accepts(Pushed(old(accepted)).value.state, frame)
      ensures r.Err? ==> r.error == ProcessorFailed && accepted == old(accepted)
      ensures r.Ok? ==>
        Mixes() && accepted == old(accepted) + [frame] && runs == later &&
        r.value == Emit(OriginOf(accepted), later[|old(runs)|..])
    {
      r := PushMixer(frame);
      if r.Ok? {
        accepted, runs := accepted + [frame], later;
      }
    }

    method PushMixer(frame: NormalizedAudioFrame) returns (r: Result<seq<MixedAudioFrame>, Failure>)
      requires mixer.commonTimelineEnabled
      modifies mixer
      ensures mixer.commonTimelineEnabled && (r.Ok? <==> Accepts(old(mixer.View()), frame))
      ensures r.Err? ==> r.error == ProcessorFailed
      ensures r.Ok? ==>
        var st := Inserted(old(mixer.View()), frame);
        var bound := HoldbackBound(st.latestEnd.value);
        mixer.View() == Drained(st, bound) && r.value == Emit(st.origin.value, DrainRuns(st, bound))
    {
      var mixed, _ := mixer.Push(frame);
      r := if mixed.Ok? then Ok(mixed.value) else Err(ProcessorFailed);
    }

    // The chunkers' part. Whether a frame is refused for its stamp can be told from the capture times alone.
    method Deliver(mixed: seq<MixedAudioFrame>, ghost done: nat) returns (r: Result<(), Failure>)
      requires Mixes() && Spaced(runs) && done <= |runs|
      requires Fed(OriginOf(accepted), runs, done) && mixed == Emit(OriginOf(accepted), runs[done..])
      requires NoneBeforeZero(OriginOf(accepted), runs, 0) <==> NoneBeforeZero(OriginOf(accepted), runs, done)
      modifies this`recording, this`recordingUnavailable, this`submissionGap, this`recordingHasGaps,
               this`finalized, this`queued, chunker, Recorders()
      ensures old(finalized) <= finalized && RecordingReady()
      ensures r.Ok? <==>
        NoneBeforeZero(OriginOf(accepted), runs, 0) && Passes(queue, |old(finalized)|, |finalized|)
      ensures r.Ok? ==> Valid()
      ensures r.Err? ==> QueueFailure(r.error) || (r.error == ChunkerInvalidFrame && !AllStamped(accepted))
      ensures AllStamped(accepted) ==> NoneBeforeZero(OriginOf(accepted), runs, 0)
      ensures recording.Some? ==> recording == old(recording)
      ensures r.Ok? && old(recording).Some? ==>
        (recording.Some? <==> AllWritten(writer, old(recording).value.emitted))
    {
      StampedRunsStayAboveZero(accepted);
      r := ProcessMixedFrames(mixed, OriginOf(accepted), runs, done);
    }

    // One normalized frame through mixer and chunkers: when all stamps so far are at or after zero and the
    // queue does not stop the stream, it is taken exactly when the mixer accepts it.
    method Process(frame: NormalizedAudioFrame) returns (r: Result<(), Failure>)
      requires Valid()
      modifies this`accepted, this`runs, this`recording, this`recordingUnavailable, this`submissionGap,
               this`recordingHasGaps, this`finalized, this`queued, mixer, chunker, Recorders()
      ensures old(finalized) <= finalized && RecordingReady()
      ensures accepted == if Accepts(Pushed(old(accepted)).value.state,
        frame) then old(accepted) + [frame] else old(accepted)
      ensures r.Ok? <==>
        Accepts(Pushed(old(accepted)).value.state, frame) && NoneBeforeZero(OriginOf(accepted), runs, 0) &&
        Passes(queue, |old(finalized)|, |finalized|)
      ensures r.Ok? ==> Valid() && accepted == old(accepted) + [frame]
      ensures r.Err? ==> FailureFits(r.error, Accepts(Pushed(old(accepted)).value.state, frame), accepted)
      ensures r.Err? && Accepts(Pushed(old(accepted)).value.state, frame) && AllStamped(accepted) ==>
        !Passes(queue, |old(finalized)|, |finalized|)
      ensures recording.Some? ==> recording == old(recording)
      ensures r.Ok? && old(recording).Some? ==>
        (recording.Some? <==> AllWritten(writer, old(recording).value.emitted))
    {
      ghost var done := |runs|;
      var mixed := MixFrame(frame);
      if mixed.Err? {
        return Err(mixed.error);
      }
      r := Deliver(mixed.value, done);
    }

    // A native frame: through its source's resampler and, if that writes anything, on to mixer and chunkers.
    method ProcessNative(frame: NativeFrame) returns (r: Result<(), Failure>)
      requires Valid() && Hears(accepted)
      modifies this, system, microphone, mixer, chunker, Recorders()
      ensures old(finalized) <= finalized && RecordingReady()
      ensures heard == old(heard) + [frame]
      ensures r.Ok? ==> Valid() && Hears(accepted)
      ensures r.Err? ==> HearingFails(heard) || !Passes(queue, |old(finalized)|, |finalized|)
      ensures r.Ok? ==> Passes(queue, |old(finalized)|, |finalized|)
      ensures recording.Some? ==> recording == old(recording)
      ensures r.Ok? && old(recording).Some? ==>
        (recording.Some? <==> AllWritten(writer, old(recording).value.emitted))
    {
      var resampled := Resample(frame);
      if resampled.Err? {
        return Err(ProcessorFailed);
      }
      if resampled.value == [] {
        return Ok(());
      }
      r := ProcessHeard(NormalizedAudioFrame(frame.source, frame.captureTime, resampled.value));
    }

    // The frame that was just resampled.
    method ProcessHeard(normalized: NormalizedAudioFrame) returns (r: Result<(), Failure>)
      requires Valid() && Hears(accepted + [normalized])
      modifies this`accepted, this`runs, this`recording, this`recordingUnavailable, this`submissionGap,
               this`recordingHasGaps, this`finalized, this`queued, mixer, chunker, Recorders()
      ensures old(finalized) <= finalized && RecordingReady()
      ensures r.Ok? ==>
        Valid() && accepted == old(accepted) + [normalized] && Passes(queue, |old(finalized)|, |finalized|)
      ensures unchanged(system, microphone)
      ensures r.Err? ==> HearingFails(heard) || !Passes(queue, |old(finalized)|, |finalized|)
      ensures recording.Some? ==> recording == old(recording)
      ensures r.Ok? && old(recording).Some? ==>
        (recording.Some? <==> AllWritten(writer, old(recording).value.emitted))
    {
      HeardFails(heard, accepted, normalized);
      r := Process(normalized);
    }

    method Resample(frame: NativeFrame) returns (r: Result<seq<real>, Failure>)
      requires Valid() && Hears(accepted)
      modifies this`heard, system, microphone
      ensures Valid() && RecordingReady()
      ensures heard == old(heard) + [frame]
      ensures r.Err? ==> HearingFails(heard)
      ensures r.Ok? && r.value == [] ==> Hears(accepted)
      ensures r.Ok? && r.value != [] ==>
        Hears(accepted + [NormalizedAudioFrame(frame.source, frame.captureTime, r.value)])
    {
      NormalizedSnoc(heard, frame);
      r := ResampleWith(if frame.source == SystemAudio then system else microphone, frame);
      heard := heard + [frame];
    }

    method ResampleWith(
        resampler: Resampling.LinearResampler, frame: NativeFrame)
      returns (r: Result<seq<real>, Failure>)
      requires Hears(accepted) && resampler == (if frame.source == SystemAudio then system else microphone)
      modifies resampler
      ensures r.Ok? <==> WellFormed(frame)
      ensures r.Ok? ==>
        r.value == Resampled(Normalized(heard).value, frame) &&
        HearsAs(Advanced(Normalized(heard).value, frame),
          if r.value == [] then accepted
          else accepted + [NormalizedAudioFrame(frame.source, frame.captureTime, r.value)],
          system, microphone)
    {
      var output := resampler.Process(frame.rate, frame.samples);
      r := if output.Ok? then Ok(output.value) else Err(ProcessorFailed);
    }

    // What each failure says about the frames; a regression is never among them.
    ghost predicate FailureFits(error: Failure, mixes: bool, fs: seq<NormalizedAudioFrame>) {
      if !mixes then error == ProcessorFailed
      else QueueFailure(error) || (error == ChunkerInvalidFrame && !AllStamped(fs))
    }

    /* ----- the normal stop ----- */

    method FlushMixer() returns (mixed: seq<MixedAudioFrame>)
      requires Mixes()
      modifies mixer
      ensures runs <= FinalRuns(accepted) && Spaced(FinalRuns(accepted))
      ensures mixed == Emit(OriginOf(accepted), FinalRuns(accepted)[|runs|..])
    {
      FlushedRuns(accepted);
      mixed := mixer.Flush();
    }

    // What the mixer still holds goes through both chunkers.
    method FlushProcessing() returns (r: Result<(), Failure>)
      requires Valid()
      modifies this`recording, this`recordingUnavailable, this`submissionGap, this`recordingHasGaps,
               this`finalized, this`queued, mixer, chunker, Recorders()
      ensures old(finalized) <= finalized && RecordingReady()
      ensures r.Ok? <==> AllStamped(accepted) && Passes(queue, |old(finalized)|, |finalized|)
      ensures r.Ok? ==> Fed(OriginOf(accepted), FinalRuns(accepted), |FinalRuns(accepted)|)
      ensures recording.Some? ==> recording == old(recording)
      ensures r.Ok? && old(recording).Some? ==>
        (recording.Some? <==> AllWritten(writer, old(recording).value.emitted))
    {
      var mixed := FlushMixer();
      StampedIff(accepted);
      PrefixIsShared(runs, FinalRuns(accepted), |runs|);
      BeforeZeroIsShared(OriginOf(accepted), runs, FinalRuns(accepted));
      r := ProcessMixedFrames(mixed, OriginOf(accepted), FinalRuns(accepted), |runs|);
    }

    // The live tail. Without a gap all live chunks together stitch back to everything that was mixed.
    method FlushFinalLiveChunk(ghost origin: real, ghost all: seq<Run<real>>) returns (r: Result<(), Failure>)
      requires Fed(origin, all, |all|)
      modifies this`submissionGap, this`finalized, this`queued, chunker
      ensures old(finalized) <= finalized && |finalized| <= |old(finalized)| + 1 && NumberedFrom(finalized, 0)
      ensures r.Ok? <==> |finalized| == |old(finalized)| || queue(|old(finalized)|).Taken?
      ensures r.Ok? ==> queued == TakenOf(queue, finalized)
      ensures !HasGap(all, |all|) ==> Stitched(SamplesOf(finalized)) == Samples(all, |all|)
      ensures r.Ok? ==> submissionGap == (HasGap(all, |all|) || Overflows(queue, 0, |finalized|))
      ensures RecordingReady() &&
        (recording.Some? ==>
          recording.value.captured == Samples(all, |all|) && recordingHasGaps == HasGap(all, |all|) &&
          recording.value.emitted == old(recording.value.emitted))
    {
      ghost var before := finalized;
      var tail := TakeTail();
      if tail.None? {
        return Ok(());
      }
      r := QueueTail(tail.value, before);
    }

    // A full queue at the tail is a failure, although it only loses a chunk before.
    method QueueTail(tail: AudioChunk, ghost before: seq<AudioChunk>) returns (r: Result<(), Failure>)
      requires finalized == before + [tail] && tail.sequence == |before| && queued == TakenOf(queue, before)
      modifies this`submissionGap, this`queued
      ensures r.Ok? <==> queue(|before|).Taken?
      ensures r.Ok? ==> queued == TakenOf(queue, finalized) && submissionGap == old(submissionGap)
      ensures r.Ok? ==> Overflows(queue, 0, |finalized|) == Overflows(queue, 0, |before|)
    {
      TakenSnoc(queue, before, tail);
      OverflowsJoin(queue, 0, |before|, |finalized|);
      assert Fills(queue, |before|) == queue(|before|).Full?;
      match queue(tail.sequence)
      case Taken =>
        queued := queued + [tail];
        return Ok(());
      case Full =>
        submissionGap := true;
        return Err(FinalTailQueueFull);
      case Closed => return Err(SenderQueueClosed);
      case NotEncoded => return Err(WavEncode);
    }

    method TakeTail() returns (tail: Option<AudioChunk>)
      requires Numbered()
      modifies this`finalized, chunker
      ensures tail.None? ==> finalized == old(finalized)
      ensures tail.Some? ==> finalized == old(finalized) + [tail.value] && tail.value.sequence == |old(finalized)|
      ensures NumberedFrom(finalized, 0)
      ensures old(chunker.handed) == old(finalized) ==> Stitched(SamplesOf(finalized)) == old(chunker.epoch)
    {
      ghost var before := finalized;
      tail := FlushChunker();
      finalized := before + AsList(tail);
      assert tail.None? ==> finalized == before;
    }

    method FlushChunker() returns (tail: Option<AudioChunk>)
      requires chunker.Valid()
      modifies chunker
      ensures tail.Some? ==> tail.value.sequence == old(chunker.sequence)
      ensures Stitched(SamplesOf(old(chunker.handed) + AsList(tail))) == old(chunker.epoch)
    {
      tail := chunker.FlushFinal();
    }

    // The recording's rest becomes its last segment. The writer finalizes what it has only when it took every
    // segment; otherwise it aborts.
    method FinalizeRecordingBranch()
      returns (finalizes: bool, ghost segments: seq<RecordingChunking.RecordingAudioChunk>, ghost cut: set<nat>)
      requires RecordingReady()
      modifies this`recording, this`recordingUnavailable, Recorders()
      ensures recording.None?
      ensures old(recording).None? ==> !finalizes
      ensures old(recording).Some? ==>
        (finalizes <==> AllWritten(writer, segments)) && old(recording.value.emitted) <= segments &&
        RecordingChunking.Conserves(segments, cut, [], old(recording.value.captured))
    {
      finalizes, segments, cut := false, [], {};
      if recording.None? {
        return;
      }
      var recorder := recording.value;
      recording, finalizes := None, true;
      ghost var before := recorder.emitted;
      var last := recorder.FlushFinal();
      segments, cut := recorder.emitted, recorder.cut;
      if last.Some? {
        AllWrittenJoin(writer, before, [last.value]);
        finalizes := WriteSegments([last.value]);
        recordingUnavailable := recordingUnavailable || !finalizes;
      }
    }

    // The normal stop: flush, live tail and recording, which is finalized even when the live stream failed.
    // The recorded segments then are the batch mix of every accepted frame, sample for sample, and without a
    // gap so are the live chunks.
    method Stop()
      returns (r: Result<(), Failure>, recorded: bool,
               ghost segments: seq<RecordingChunking.RecordingAudioChunk>, ghost cut: set<nat>)
      requires Valid()
      modifies this, mixer, chunker, Recorders()
      ensures accepted == old(accepted) && heard == old(heard) && recording.None?
      ensures old(finalized) <= finalized
      ensures r.Ok? ==> AllStamped(accepted)
      ensures AllStamped(accepted) && TakesAll(queue) ==> r.Ok?
      ensures r.Ok? ==> NumberedFrom(finalized, 0) && queued == TakenOf(queue, finalized)
      ensures r.Ok? && !HasGap(FinalRuns(accepted), |FinalRuns(accepted)|) ==>
        Stitched(SamplesOf(finalized)) == MixedInOrder(accepted)
      ensures r.Ok? ==>
        submissionGap == (HasGap(FinalRuns(accepted), |FinalRuns(accepted)|) || Overflows(queue, 0, |finalized|))
      ensures r.Ok? && old(recording).Some? && WritesAll(writer) ==> recorded
      ensures r.Ok? && recorded ==> recordingHasGaps == HasGap(FinalRuns(accepted), |FinalRuns(accepted)|)
      ensures r.Ok? && recorded ==>
        AllWritten(writer, segments) && RecordingChunking.Conserves(segments, cut, [], MixedInOrder(accepted))
    {
      r := FlushLive();
      recorded, segments, cut := FinalizeRecordingBranch();
    }

    // The live half of the stop.
    method FlushLive() returns (r: Result<(), Failure>)
      requires Valid()
      modifies this`recording, this`recordingUnavailable, this`submissionGap, this`recordingHasGaps,
               this`finalized, this`queued, mixer, chunker, Recorders()
      ensures old(finalized) <= finalized && RecordingReady()
      ensures r.Ok? ==> AllStamped(accepted)
      ensures AllStamped(accepted) && TakesAll(queue) ==> r.Ok?
      ensures r.Ok? ==> NumberedFrom(finalized, 0) && queued == TakenOf(queue, finalized)
      ensures r.Ok? && !HasGap(FinalRuns(accepted), |FinalRuns(accepted)|) ==>
        Stitched(SamplesOf(finalized)) == MixedInOrder(accepted)
      ensures r.Ok? ==>
        submissionGap == (HasGap(FinalRuns(accepted), |FinalRuns(accepted)|) || Overflows(queue, 0, |finalized|))
      ensures recording.Some? ==> recording == old(recording)
      ensures r.Ok? && recording.Some? ==> recording.value.captured == MixedInOrder(accepted)
      ensures r.Ok? && recording.Some? ==> recordingHasGaps == HasGap(FinalRuns(accepted), |FinalRuns(accepted)|)
      ensures r.Ok? && old(recording).Some? && WritesAll(writer) ==> recording.Some?
    {
      RecordedSamples(accepted);
      r := FlushProcessing();
      if r.Ok? {
        r := FlushFinalLiveChunk(OriginOf(accepted), FinalRuns(accepted));
      }
    }
  }

  /* ---------- the mixer's runs over a whole session ---------- */

  lemma {:induction false} PushExtends(fs: seq<NormalizedAudioFrame>, f: NormalizedAudioFrame)
    requires Pushed(fs).Some?
    ensures Pushed(fs + [f]).Some? <==> Accepts(Pushed(fs).value.state, f)
    ensures Pushed(fs + [f]).Some? ==>
      var o, st := Pushed(fs).value, Inserted(Pushed(fs).value.state, f);
      var bound := HoldbackBound(st.latestEnd.value);
      Pushed(fs + [f]).value.state == Drained(st, bound) &&
      Pushed(fs + [f]).value.runs == o.runs + DrainRuns(st, bound) &&
      Spaced(Pushed(fs + [f]).value.runs) && st.origin == Some(OriginOf(fs + [f])) &&
      (o.runs != [] ==> OriginOf(fs + [f]) == OriginOf(fs))
  {
    assert (fs + [f])[..|fs|] == fs;
    EveryRunIsSound(fs);
    if Accepts(Pushed(fs).value.state, f) {
      EveryRunIsSound(fs + [f]);
    }
  }

  // What the runs after an accepted push share with those before it.
  lemma {:induction false} NextRuns(
      fs: seq<NormalizedAudioFrame>, f: NormalizedAudioFrame)
    returns (later: seq<Run<real>>)
    requires Pushed(fs).Some? && NoneBeforeZero(OriginOf(fs), Pushed(fs).value.runs, 0)
    ensures Pushed(fs).value.runs <= later
    ensures Pushed(fs + [f]).Some? <==> Accepts(Pushed(fs).value.state, f)
    ensures Pushed(fs + [f]).Some? ==>
      var before, st, origin := Pushed(fs).value.runs, Inserted(Pushed(fs).value.state, f), OriginOf(fs + [f]);
      var bound := HoldbackBound(st.latestEnd.value);
      later == Pushed(fs + [f]).value.runs && before <= later && Spaced(later) &&
      Pushed(fs + [f]).value.state == Drained(st, bound) && st.origin == Some(origin) &&
      later[|before|..] == DrainRuns(st, bound) &&
      Due(origin, later, |before|) == Due(OriginOf(fs), before, |before|) &&
      Samples(later, |before|) == Samples(before, |before|) && HasGap(later, |before|) == HasGap(before, |before|) &&
      (NoneBeforeZero(origin, later, 0) <==> NoneBeforeZero(origin, later, |before|))
  {
    PushExtends(fs, f);
    var before := Pushed(fs).value.runs;
    later := if Pushed(fs + [f]).Some? then Pushed(fs + [f]).value.runs else before;
    PrefixIsShared(before, later, |before|);
    BeforeZeroIsShared(OriginOf(fs + [f]), before, later);
  }

  // All runs of a session, up to and including the flush.
  ghost function FinalRuns(fs: seq<NormalizedAudioFrame>): seq<Run<real>> {
    if Pushed(fs).None? then [] else Drain(Pushed(fs).value, I64_MAX).runs
  }

  lemma {:induction false} FlushedRuns(fs: seq<NormalizedAudioFrame>)
    requires Pushed(fs).Some?
    ensures var o := Pushed(fs).value;
            o.runs <= FinalRuns(fs) && Spaced(FinalRuns(fs)) &&
            FinalRuns(fs)[|o.runs|..] == DrainRuns(o.state, I64_MAX) &&
            (o.state.origin.None? ==> FinalRuns(fs) == o.runs) &&
            (o.state.origin.Some? ==> o.state.origin.value == OriginOf(fs))
  {
    EveryRunIsSound(fs);
    StreamingMixRefinesBatchMix(fs);
    var o := Pushed(fs).value;
    RestOfJoin(o.runs, DrainRuns(o.state, I64_MAX));
    if fs == [] {
      NothingIsReady(o.state.pending, I64_MAX);
      assert DrainRuns(o.state, I64_MAX) == [];
    }
  }

  lemma {:induction false} RestOfJoin(a: seq<Run<real>>, b: seq<Run<real>>)
    ensures a <= a + b && (a + b)[|a|..] == b && (b == [] ==> a + b == a)
  {
  }

  /* ---------- sessions that must fail ---------- */

  // A malformed frame, one the mixer refuses, or one that is stamped before zero.
  ghost predicate HearingFails(frames: seq<NativeFrame>) {
    Normalized(frames).None? || Pushed(Normalized(frames).value.frames).None? ||
    !AllStamped(Normalized(frames).value.frames)
  }

  lemma {:induction false} HeardFails(
      frames: seq<NativeFrame>, fs: seq<NormalizedAudioFrame>, next: NormalizedAudioFrame)
    requires Pushed(fs).Some? && Normalized(frames).Some? && Normalized(frames).value.frames == fs + [next]
    ensures HearingFails(frames) <==> !Accepts(Pushed(fs).value.state, next) || !AllStamped(fs + [next])
  {
    PushExtends(fs, next);
  }

  lemma {:induction false} PushedPrefix(fs: seq<NormalizedAudioFrame>, more: seq<NormalizedAudioFrame>)
    requires Pushed(fs + more).Some?
    ensures Pushed(fs).Some?
    decreases |more|
  {
    if more == [] {
      assert fs + more == fs;
    } else {
      assert (fs + more)[..|fs + more| - 1] == fs + more[..|more| - 1];
      PushedPrefix(fs, more[..|more| - 1]);
    }
  }

  lemma {:induction false} StampedPrefix(fs: seq<NormalizedAudioFrame>, more: seq<NormalizedAudioFrame>)
    requires AllStamped(fs + more)
    ensures AllStamped(fs)
  {
    forall i | 0 <= i < |fs| ensures !Early(fs, i) {
      assert !Early(fs + more, i);
    }
  }

  lemma {:induction false} NormalizedGrows(frames: seq<NativeFrame>, f: NativeFrame)
    requires Normalized(frames + [f]).Some?
    ensures Normalized(frames).Some?
    ensures Normalized(frames).value.frames <= Normalized(frames + [f]).value.frames
  {
    assert (frames + [f])[..|frames|] == frames;
  }

  // What must fail still must with more frames.
  lemma {:induction false} FailureStays(frames: seq<NativeFrame>, more: seq<NativeFrame>)
    requires HearingFails(frames)
    ensures HearingFails(frames + more)
    decreases |more|
  {
    if more == [] {
      assert frames + more == frames;
    } else {
      var front, last := frames + more[..|more| - 1], more[|more| - 1];
      FailureStays(frames, more[..|more| - 1]);
      assert frames + more == front + [last];
      FailureStaysOne(front, last);
    }
  }

  lemma {:induction false} FailureStaysOne(frames: seq<NativeFrame>, f: NativeFrame)
    requires HearingFails(frames)
    ensures HearingFails(frames + [f])
  {
    if Normalized(frames + [f]).Some? {
      NormalizedGrows(frames, f);
      var fs, all := Normalized(frames).value.frames, Normalized(frames + [f]).value.frames;
      assert all == fs + all[|fs|..];
      if Pushed(all).Some? && AllStamped(all) {
        PushedPrefix(fs, all[|fs|..]);
        StampedPrefix(fs, all[|fs|..]);
        assert false;
      }
    }
  }

  /* ---------- what is recorded ---------- */

  // The batch mix as plain samples, in ascending grid order.
  ghost function MixedInOrder(fs: seq<NormalizedAudioFrame>): seq<real> {
    var batch := Batch(OriginOf(fs), fs);
    if Covers(batch, SortedKeys(batch.Keys)) then MixedAt(batch, SortedKeys(batch.Keys)) else []
  }

  ghost function Values(points: seq<Point<real>>): seq<real> {
    seq(|points|, i requires 0 <= i < |points| => points[i].value)
  }

  lemma {:induction false} ValuesJoin(a: seq<Point<real>>, b: seq<Point<real>>)
    ensures Values(a + b) == Values(a) + Values(b)
  {
  }

  lemma {:induction false} ValuesOfRun(run: Run<real>)
    ensures Values(RunPoints(run)) == run.samples
  {
  }

  lemma {:induction false} SamplesAreValues(runs: seq<Run<real>>)
    ensures Samples(runs, |runs|) == Values(Points(runs))
    decreases |runs|
  {
    if runs != [] {
      var front, last := runs[..|runs| - 1], runs[|runs| - 1];
      SamplesAreValues(front);
      PrefixIsShared(front, runs, |front|);
      ValuesJoin(Points(front), RunPoints(last));
      ValuesOfRun(last);
    }
  }

  // The samples of all runs are the batch mix, read in grid order.
  lemma {:induction false} RecordedSamples(fs: seq<NormalizedAudioFrame>)
    requires Pushed(fs).Some?
    ensures Samples(FinalRuns(fs), |FinalRuns(fs)|) == MixedInOrder(fs)
  {
    StreamingMixRefinesBatchMix(fs);
    var batch := Batch(OriginOf(fs), fs);
    SamplesAreValues(FinalRuns(fs));
    ValuesOfEnumeration(batch, SortedKeys(batch.Keys));
  }

  // And each of them is half the sum of what the two sources wrote last at its grid position, within [-1, 1].
  lemma {:induction false} RecordedSamplesMixTheLastWrites(fs: seq<NormalizedAudioFrame>, k: nat)
    requires Pushed(fs).Some? && k < |MixedInOrder(fs)|
    ensures var ks := SortedKeys(Batch(OriginOf(fs), fs).Keys);
            k < |ks| && CarriesLastWrites(OriginOf(fs), fs, Point(ks[k], MixedInOrder(fs)[k]))
  {
    StreamingMixRefinesBatchMix(fs);
    EnumerationCarriesLastWrites(OriginOf(fs), fs, SortedKeys(Batch(OriginOf(fs), fs).Keys), k);
  }

  lemma {:induction false} ValuesOfEnumeration(p: Timeline, ks: seq<int>)
    requires Covers(p, ks)
    ensures Values(Enumeration(p, ks)) == MixedAt(p, ks)
  {
  }

  /* ---------- stamps before zero ---------- */

  // The stamp of the grid position nearest to t.
  function Stamp(origin: real, t: real): real {
    FrameTime(origin, Round((t - origin) * SAMPLE_RATE_HZ as real))
  }

  // A frame's own grid position is stamped before zero.
  predicate Early(fs: seq<NormalizedAudioFrame>, i: nat)
    requires i < |fs|
  {
    Stamp(fs[0].captureTime, fs[i].captureTime) < 0.0
  }

  // No frame's is: a condition on the capture times alone.
  ghost predicate AllStamped(fs: seq<NormalizedAudioFrame>) {
    forall i {:trigger Early(fs, i)} :: 0 <= i < |fs| ==> !Early(fs, i)
  }

  // The nearest whole number, and of two equally near ones the one farther from zero.
  lemma {:induction false} RoundIsNear(x: real)
    ensures x - 0.5 <= Round(x) as real <= x + 0.5
    ensures x > 0.0 ==> Round(x) as real != x - 0.5
    ensures x < 0.0 ==> Round(x) as real != x + 0.5
  {
    if x < 0.0 {
      NearestBelow(-x);
    } else {
      NearestBelow(x);
    }
  }

  lemma {:induction false} NearestBelow(x: real)
    ensures x - 0.5 < (x + 0.5).Floor as real <= x + 0.5
  {
  }

  // Frames captured at least half a sample after zero always are.
  lemma {:induction false} LateFramesAreStamped(fs: seq<NormalizedAudioFrame>)
    requires forall i :: 0 <= i < |fs| ==> fs[i].captureTime >= HALF_SAMPLE_SECONDS
    ensures AllStamped(fs)
  {
    forall i | 0 <= i < |fs| ensures !Early(fs, i) {
      RoundIsNear((fs[i].captureTime - OriginOf(fs)) * SAMPLE_RATE_HZ as real);
    }
  }

  // And half a sample is the least that is enough for every origin.
  lemma {:induction false} HalfASampleIsExactlyEnough(t: real)
    ensures t >= HALF_SAMPLE_SECONDS <==> forall origin: real :: origin >= 0.0 ==> Stamp(origin, t) >= 0.0
  {
    if t >= HALF_SAMPLE_SECONDS {
      forall origin: real | origin >= 0.0 ensures Stamp(origin, t) >= 0.0 {
        RoundIsNear((t - origin) * SAMPLE_RATE_HZ as real);
      }
    } else {
      var n := if t < 0.0 then (-t * 16_000.0).Floor + 1 else 0;
      EarlyStamp(t, n);
    }
  }

  lemma {:induction false} EarlyStamp(t: real, n: nat)
    requires t < HALF_SAMPLE_SECONDS
    ensures Stamp(t + (n as real + 0.5) / 16_000.0, t) < 0.0
  {
    var origin := t + (n as real + 0.5) / 16_000.0;
    assert (t - origin) * SAMPLE_RATE_HZ as real == -(n as real + 0.5);
    assert Round(-(n as real + 0.5)) == -(n + 1);
  }

  // An accepted frame starts at the grid position of its stamp, and has at least one sample.
  ghost predicate OnItsStamp(origin: real, f: NormalizedAudioFrame) {
    f.samples != [] && FrameTime(origin, GridStart(origin, f)) == Stamp(origin, f.captureTime)
  }

  lemma {:induction false} LastFrameFits(fs: seq<NormalizedAudioFrame>)
    requires fs != [] && Pushed(fs).Some?
    ensures Pushed(fs[..|fs| - 1]).Some?
    ensures |fs| > 1 ==> OriginOf(fs[..|fs| - 1]) == OriginOf(fs)
    ensures OnItsStamp(OriginOf(fs), fs[|fs| - 1])
  {
    var front, last := fs[..|fs| - 1], fs[|fs| - 1];
    EveryRunIsSound(front);
    AcceptedOnItsStamp(Pushed(front).value.state, last);
  }

  lemma {:induction false} AcceptedOnItsStamp(st: State, f: NormalizedAudioFrame)
    requires Accepts(st, f)
    ensures OnItsStamp(OriginFor(st, f), f)
  {
  }

  lemma {:induction false} PushedFramesFit(fs: seq<NormalizedAudioFrame>, i: nat)
    requires Pushed(fs).Some? && i < |fs|
    ensures OnItsStamp(OriginOf(fs), fs[i])
    decreases |fs|
  {
    LastFrameFits(fs);
    if i < |fs| - 1 {
      PushedFramesFit(fs[..|fs| - 1], i);
    }
  }

  // Every index of the batch mix lies within some frame, and every frame's start is one.
  lemma {:induction false} IndexHasFrame(origin: real, fs: seq<NormalizedAudioFrame>, index: int) returns (i: nat)
    requires index in Batch(origin, fs)
    ensures i < |fs| && GridStart(origin, fs[i]) <= index < GridStart(origin, fs[i]) + |fs[i].samples|
    decreases |fs|
  {
    var last := fs[|fs| - 1];
    var start := GridStart(origin, last);
    if start <= index < start + |last.samples| {
      i := |fs| - 1;
    } else {
      i := IndexHasFrame(origin, fs[..|fs| - 1], index);
    }
  }

  lemma {:induction false} StartIsInBatch(origin: real, fs: seq<NormalizedAudioFrame>, i: nat)
    requires i < |fs| && fs[i].samples != []
    ensures GridStart(origin, fs[i]) in Batch(origin, fs)
    decreases |fs|
  {
    if i < |fs| - 1 {
      StartIsInBatch(origin, fs[..|fs| - 1], i);
    }
  }

  // Sample k of a frame was captured k sample periods after the frame's own time.
  predicate CapturedAbout(f: NormalizedAudioFrame, k: int, time: real) {
    0 <= k < |f.samples| && -HALF_SAMPLE_SECONDS <= time - (f.captureTime + k as real / 16_000.0) <= HALF_SAMPLE_SECONDS
  }

  // Every emitted sample, the flush included, is stamped within half a sample of the moment at which a sample of
  // an accepted frame that lies there was captured.
  lemma {:induction false} EmittedSamplesKeepTheirTime(fs: seq<NormalizedAudioFrame>, n: nat) returns (i: nat, k: int)
    requires Pushed(fs).Some? && n < |Points(FinalRuns(fs))|
    ensures i < |fs| && CapturedAbout(fs[i], k, FrameTime(OriginOf(fs), Points(FinalRuns(fs))[n].index))
  {
    StreamingMixRefinesBatchMix(fs);
    var origin := OriginOf(fs);
    var index := SortedKeys(Batch(origin, fs).Keys)[n];
    i := IndexHasFrame(origin, fs, index);
    k := index - GridStart(origin, fs[i]);
    PushedFramesFit(fs, i);
    RoundIsNear((fs[i].captureTime - origin) * SAMPLE_RATE_HZ as real);
    GridDistance(origin, GridStart(origin, fs[i]), index);
    assert Points(FinalRuns(fs))[n].index == index;
  }

  lemma {:induction false} StartsAscend(runs: seq<Run<real>>, i: nat)
    requires Spaced(runs) && i < |runs|
    ensures runs[0].start <= runs[i].start
  {
    if i > 0 {
      StartsAscend(runs, i - 1);
      assert Follows(runs, i);
    }
  }

  // The first run starts at the first point.
  lemma {:induction false} FirstPoint(runs: seq<Run<real>>, n: nat)
    requires 0 < n <= |runs| && Spaced(runs)
    ensures Points(runs[..n]) != [] && Points(runs[..n])[0].index == runs[0].start
    decreases n
  {
    assert runs[..n][..n - 1] == runs[..n - 1];
    if n > 1 {
      FirstPoint(runs, n - 1);
    } else {
      assert runs[..1][..0] == [];
      assert Points(runs[..1]) == [] + RunPoints(runs[0]);
    }
  }

  // All indexes are stamped at or after zero exactly when the first run is.
  lemma {:induction false} FirstIndexDecides(
      origin: real, batch: Timeline, runs: seq<Run<real>>, ks: seq<int>)
    requires Covers(batch, ks) && Points(runs) == Enumeration(batch, ks) && Spaced(runs) && Ascending(ks)
    ensures NoneBeforeZero(origin, runs, 0) <==> forall j :: 0 <= j < |ks| ==> FrameTime(origin, ks[j]) >= 0.0
  {
    assert runs[..|runs|] == runs;
    if runs == [] {
      assert Points(runs) == [];
      assert |Enumeration(batch, ks)| == |ks|;
    } else {
      FirstPoint(runs, |runs|);
      assert ks != [] && Enumeration(batch, ks)[0].index == ks[0];
      assert ks[0] == runs[0].start;
      forall j | 0 <= j < |ks| ensures FrameTime(origin, ks[j]) >= FrameTime(origin, runs[0].start) {
        GridDistance(origin, ks[0], ks[j]);
      }
      forall i | 0 <= i < |runs| ensures FrameTime(origin, runs[i].start) >= FrameTime(origin, runs[0].start) {
        StartsAscend(runs, i);
        GridDistance(origin, runs[0].start, runs[i].start);
      }
      assert BeforeZero(origin, runs, 0) <==> FrameTime(origin, ks[0]) < 0.0;
      assert NoneBeforeZero(origin, runs, 0) ==> !BeforeZero(origin, runs, 0);
    }
  }

  lemma {:induction false} StampsDecideIndexes(fs: seq<NormalizedAudioFrame>, ks: seq<int>)
    requires Pushed(fs).Some?
    requires forall k :: k in ks <==> k in Batch(OriginOf(fs), fs)
    ensures AllStamped(fs) <==> forall j :: 0 <= j < |ks| ==> FrameTime(OriginOf(fs), ks[j]) >= 0.0
  {
    var origin := OriginOf(fs);
    if AllStamped(fs) {
      forall j | 0 <= j < |ks| ensures FrameTime(origin, ks[j]) >= 0.0 {
        assert ks[j] in ks;
        var i := IndexHasFrame(origin, fs, ks[j]);
        PushedFramesFit(fs, i);
        assert !Early(fs, i);
        GridDistance(origin, GridStart(origin, fs[i]), ks[j]);
      }
    }
    if forall j :: 0 <= j < |ks| ==> FrameTime(origin, ks[j]) >= 0.0 {
      forall i | 0 <= i < |fs| ensures !Early(fs, i) {
        PushedFramesFit(fs, i);
        StartIsInBatch(origin, fs, i);
        assert GridStart(origin, fs[i]) in ks;
      }
    }
  }

  // Exactly when, for every run of accepted frames: some mixed frame, the flush included, is stamped before
  // zero if and only if some accepted frame's own stamp is.
  lemma {:induction false} StampedIff(fs: seq<NormalizedAudioFrame>)
    requires Pushed(fs).Some?
    ensures NoneBeforeZero(OriginOf(fs), FinalRuns(fs), 0) <==> AllStamped(fs)
  {
    StreamingMixRefinesBatchMix(fs);
    var batch := Batch(OriginOf(fs), fs);
    var ks := SortedKeys(batch.Keys);
    FirstIndexDecides(OriginOf(fs), batch, FinalRuns(fs), ks);
    StampsDecideIndexes(fs, ks);
  }

  lemma {:induction false} StampedRunsStayAboveZero(fs: seq<NormalizedAudioFrame>)
    requires Pushed(fs).Some?
    ensures AllStamped(fs) ==> NoneBeforeZero(OriginOf(fs), Pushed(fs).value.runs, 0)
    ensures Pushed(fs).value.runs <= FinalRuns(fs)
  {
    StampedIff(fs);
    BeforeZeroIsShared(OriginOf(fs), Pushed(fs).value.runs, FinalRuns(fs));
  }

  // So nothing captured half a sample after zero or later is ever stamped before zero, the flush included.
  lemma {:induction false} LateCapturesStayAboveZero(fs: seq<NormalizedAudioFrame>)
    requires Pushed(fs).Some? && forall i :: 0 <= i < |fs| ==> fs[i].captureTime >= HALF_SAMPLE_SECONDS
    ensures NoneBeforeZero(OriginOf(fs), Pushed(fs).value.runs, 0)
    ensures NoneBeforeZero(OriginOf(fs), FinalRuns(fs), 0)
  {
    LateFramesAreStamped(fs);
    StampedIff(fs);
    StampedRunsStayAboveZero(fs);
  }

  // It happens: the mixer takes both frames, and the second one lands before zero.
  lemma {:induction false} EarlyFrameIsStampedBeforeZero() returns (fs: seq<NormalizedAudioFrame>)
    ensures Pushed(fs).Some? && (forall i :: 0 <= i < |fs| ==> fs[i].captureTime >= 0.0)
    ensures !AllStamped(fs) && !NoneBeforeZero(OriginOf(fs), FinalRuns(fs), 0)
  {
    var f := NormalizedAudioFrame(SystemAudio, HALF_SAMPLE_SECONDS, [0.0]);
    var g := NormalizedAudioFrame(Microphone, 0.0, [0.0]);
    FirstFrameIsAccepted(f);
    SecondFrameIsEarly(f, g);
    PushExtends([f], g);
    fs := [f] + [g];
    assert fs[0] == f && fs[1] == g && Early(fs, 1);
    StampedIff(fs);
  }

  lemma {:induction false} FirstFrameIsAccepted(f: NormalizedAudioFrame)
    requires ValidFrame(f) && |f.samples| <= HOLDBACK_SAMPLES
    ensures Pushed([f]).Some? && OriginOf([f]) == f.captureTime
    ensures Pushed([f]).value.state.emittedEnd.None? && Pushed([f]).value.state.origin == Some(f.captureTime)
  {
    PushExtends([], f);
    OrdinaryFramesAreAccepted([], f);
    assert [] + [f] == [f];
    FirstPushEmitsNothing(f);
    EveryRunIsSound([f]);
  }

  lemma {:induction false} SecondFrameIsEarly(f: NormalizedAudioFrame, g: NormalizedAudioFrame)
    requires f.captureTime == HALF_SAMPLE_SECONDS && g.captureTime == 0.0 && |g.samples| == 1
    requires Pushed([f]).Some? && OriginOf([f]) == f.captureTime
    requires Pushed([f]).value.state.emittedEnd.None? && Pushed([f]).value.state.origin == Some(f.captureTime)
    ensures Accepts(Pushed([f]).value.state, g) && Stamp(f.captureTime, g.captureTime) < 0.0
  {
    OrdinaryFramesAreAccepted([f], g);
    assert (g.captureTime - f.captureTime) * 16_000.0 == -0.5;
    assert Round(-0.5) == -1;
  }

  lemma {:induction false} FirstPushEmitsNothing(f: NormalizedAudioFrame)
    requires Pushed([f]).Some? && |f.samples| <= HOLDBACK_SAMPLES
    ensures Pushed([f]).value.state.emittedEnd.None?
  {
    assert [f][..0] == [];
    var st := Inserted(FRESH, f);
    NothingIsReady(st.pending, HoldbackBound(st.latestEnd.value));
  }

  lemma {:induction false} NothingIsReady(p: Timeline, bound: int)
    requires forall k :: k in p ==> k >= bound
    ensures ReadyKeys(p, bound) == []
  {
    var ready := ReadyKeys(p, bound);
    SubsetSize(set k | k in ready, {});
    DistinctSize(ready);
  }

  lemma {:induction false} DistinctSize(ks: seq<int>)
    requires Ascending(ks)
    ensures |set k | k in ks| == |ks|
    decreases |ks|
  {
    if ks != [] {
      var front, last := ks[..|ks| - 1], ks[|ks| - 1];
      DistinctSize(front);
      assert (set k | k in ks) == (set k | k in front) + {last};
    }
  }
}
