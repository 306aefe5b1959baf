/**
 * Capture meets backend: the segments of a recording chunker, written in order through the segment-write
 * protocol and then finalized, become a completed recording of exactly the captured length.
 */
module RecordingDelivery {
  import opened Wrappers
  import opened RecordingTiming
  import opened RecordingProtocol
  import RecordingChunking
  import LiveChunking
  import CapturePipeline

  // Segment k of the capture, as the backend receives it.
  function CommandFor(chunks: seq<RecordingChunking.RecordingAudioChunk>, k: nat): Command
    requires k < |chunks|
  {
    Command(chunks[k].segmentIndex, Segment(chunks[k].sampleCount, k))
  }

  // One undisturbed write by writer 0.
  function WriteEvents(c: Command): seq<Event> {
    [BeginWrite(0, c), ReadPhase(0), ListPhase(0), StorePhase(0, true), CommitPhase(0, false)]
  }

  // All writes of the first n segments, in order.
  function Delivery(chunks: seq<RecordingChunking.RecordingAudioChunk>, n: nat): seq<Event>
    requires n <= |chunks|
  {
    if n == 0 then [] else Delivery(chunks, n - 1) + WriteEvents(CommandFor(chunks, n - 1))
  }

  // A recording in progress with no write in flight, whose storage lists exactly its rows.
  ghost predicate Ready(s: Sys, n: nat) {
    TimingSound(s) && Writable(s.record) && s.writers == map[] && |s.rows| == n && Lists(s.storage, n)
  }

  ghost predicate RowHolds(s: Sys, chunks: seq<RecordingChunking.RecordingAudioChunk>, k: nat)
    requires k < |s.rows| && k < |chunks|
  {
    s.rows[k].sampleCount == chunks[k].sampleCount && k in s.storage && s.storage[k] == CommandFor(chunks, k).segment
  }

  ghost predicate Delivered(s: Sys, chunks: seq<RecordingChunking.RecordingAudioChunk>, n: nat) {
    n <= |chunks| && Ready(s, n) && forall k {:trigger RowHolds(s, chunks, k)} :: 0 <= k < n ==> RowHolds(s, chunks, k)
  }

  lemma {:induction false} RunWrite(s: Sys, trace: seq<Event>, c: Command)
    ensures Run(s, trace + WriteEvents(c)) ==
      Step(Step(Step(Step(Step(Run(s, trace), BeginWrite(0, c)), ReadPhase(0)), ListPhase(0)), StorePhase(0, true)),
           CommitPhase(0, false))
  {
    var t1 := trace + [BeginWrite(0, c)];
    var t2 := t1 + [ReadPhase(0)];
    var t3 := t2 + [ListPhase(0)];
    var t4 := t3 + [StorePhase(0, true)];
    RunStep(s, trace, BeginWrite(0, c));
    RunStep(s, t1, ReadPhase(0));
    RunStep(s, t2, ListPhase(0));
    RunStep(s, t3, StorePhase(0, true));
    RunStep(s, t4, CommitPhase(0, false));
    assert t4 + [CommitPhase(0, false)] == trace + WriteEvents(c);
  }

  // Up to the commit an undisturbed write of the next segment passes every check.
  lemma {:induction false} WriteReachesStorage(s: Sys, c: Command) returns (t: Sys)
    requires Ready(s, |s.rows|) && c.index == |s.rows| && c.segment.sampleCount > 0
    ensures t == Step(Step(Step(Step(s, BeginWrite(0, c)), ReadPhase(0)), ListPhase(0)), StorePhase(0, true))
    ensures t.rows == s.rows && t.record == s.record && t.storage == s.storage[c.index := c.segment]
    ensures t.writers == map[0 := Stored(c, Total(s.rows))] && TimingSound(t)
  {
    ContiguousIsRangeIndexed(s.rows, s.record.id);
    var s1 := Step(s, BeginWrite(0, c));
    StepKeepsTiming(s, BeginWrite(0, c));
    assert s1.writers == map[0 := Requested(c)];
    var s2 := Step(s1, ReadPhase(0));
    StepKeepsTiming(s1, ReadPhase(0));
    assert s2.writers == map[0 := Read(c, Total(s.rows), c.index)];
    var s3 := Step(s2, ListPhase(0));
    StepKeepsTiming(s2, ListPhase(0));
    assert s3.writers == map[0 := Listed(c, Total(s.rows))];
    t := Step(s3, StorePhase(0, true));
    StepKeepsTiming(s3, StorePhase(0, true));
  }

  lemma {:induction false} WriteDelivers(from: Sys, trace: seq<Event>, c: Command)
    requires var s := Run(from, trace); Ready(s, |s.rows|) && c.index == |s.rows| && c.segment.sampleCount > 0
    ensures var s, t := Run(from, trace), Run(from, trace + WriteEvents(c));
            Ready(t, |s.rows| + 1) && t.record.id == s.record.id && s.rows <= t.rows &&
            t.rows[|s.rows|].sampleCount == c.segment.sampleCount && t.storage == s.storage[c.index := c.segment]
  {
    var s := Run(from, trace);
    RunWrite(from, trace, c);
    var u := WriteReachesStorage(s, c);
    WriteCommits(s, c, u);
  }

  lemma {:induction false} WriteCommits(s: Sys, c: Command, u: Sys)
    requires Ready(s, |s.rows|) && c.index == |s.rows| && c.segment.sampleCount > 0
    requires u.rows == s.rows && u.record == s.record && u.storage == s.storage[c.index := c.segment]
    requires u.writers == map[0 := Stored(c, Total(s.rows))] && TimingSound(u)
    ensures var t := Step(u, CommitPhase(0, false));
            Ready(t, |s.rows| + 1) && t.record.id == s.record.id && s.rows <= t.rows &&
            t.rows[|s.rows|].sampleCount == c.segment.sampleCount && t.storage == u.storage
  {
    CommitKeepsTiming(u, 0, false);
    ContiguousIsRangeIndexed(s.rows, s.record.id);
  }

  // Every segment of an ordered capture passes every check of its write, in turn.
  lemma {:induction false} OrderedWritesAllCommit(
      from: Sys, trace: seq<Event>, chunks: seq<RecordingChunking.RecordingAudioChunk>, cut: set<nat>, n: nat)
    requires Ready(Run(from, trace), 0) && n <= |chunks| <= RecordingChunking.U32_MAX
    requires forall k {:trigger RecordingChunking.InPlace(chunks, cut, k)} :: 0 <= k < |chunks| ==>
      RecordingChunking.InPlace(chunks, cut, k)
    ensures Delivered(Run(from, trace + Delivery(chunks, n)), chunks, n)
  {
    if n == 0 {
      assert trace + [] == trace;
    } else {
      OrderedWritesAllCommit(from, trace, chunks, cut, n - 1);
      assert RecordingChunking.InPlace(chunks, cut, n - 1);
      var longer := trace + Delivery(chunks, n - 1);
      WriteDelivers(from, longer, CommandFor(chunks, n - 1));
      assert longer + WriteEvents(CommandFor(chunks, n - 1)) == trace + Delivery(chunks, n);
      NextDelivered(Run(from, longer), Run(from, trace + Delivery(chunks, n)), chunks, n);
    }
  }

  lemma {:induction false} NextDelivered(s: Sys, t: Sys, chunks: seq<RecordingChunking.RecordingAudioChunk>, n: nat)
    requires 0 < n <= |chunks| && Delivered(s, chunks, n - 1) && Ready(t, n) && s.rows <= t.rows
    requires t.rows[n - 1].sampleCount == chunks[n - 1].sampleCount
    requires t.storage == s.storage[n - 1 := CommandFor(chunks, n - 1).segment]
    ensures Delivered(t, chunks, n)
  {
    forall k | 0 <= k < n ensures RowHolds(t, chunks, k) {
      assert k < n - 1 ==> RowHolds(s, chunks, k);
    }
  }

  lemma {:induction false} RowsCountTheSegments(
      s: Sys, chunks: seq<RecordingChunking.RecordingAudioChunk>, n: nat, k: nat)
    requires Delivered(s, chunks, n) && k <= n
    ensures Sum(s.rows, k) == RecordingChunking.TotalCount(chunks[..k])
  {
    if k > 0 {
      RowsCountTheSegments(s, chunks, n, k - 1);
      assert RowHolds(s, chunks, k - 1);
      assert chunks[..k][..k - 1] == chunks[..k - 1];
    }
  }

  // Preparing, starting, writing every segment in order and finalizing with the captured length.
  function Session(
      anchor: real, chunks: seq<RecordingChunking.RecordingAudioChunk>, captured: seq<real>, hasGaps: bool): seq<Event>
  {
    [MarkStarted(anchor)] + Delivery(chunks, |chunks|) +
    [Finalize(|captured| as real / PLAYBACK_RATE_HZ as real, |chunks|, hasGaps)]
  }

  lemma {:induction false} StartedIsReady(id: nat, anchor: real)
    ensures Ready(Run(Prepared(id, WavSegmentedV1, true), [MarkStarted(anchor)]), 0)
  {
    TimingIsSoundOverEveryRun(id, WavSegmentedV1, true, [MarkStarted(anchor)]);
    RunStep(Prepared(id, WavSegmentedV1, true), [], MarkStarted(anchor));
    assert [] + [MarkStarted(anchor)] == [MarkStarted(anchor)];
  }

  // The whole way: a flushed capture, written in order by one writer, ends in rows that sum to exactly the
  // samples captured, each backed by its own segment, and finalizing with the captured length completes it.
  lemma {:induction false} CaptureBecomesCompletedRecording(
      id: nat, anchor: real, chunks: seq<RecordingChunking.RecordingAudioChunk>, cut: set<nat>, captured: seq<real>,
      hasGaps: bool)
    requires RecordingChunking.Conserves(chunks, cut, [], captured)
    requires 0 < |chunks| <= RecordingChunking.U32_MAX
    ensures var written := Run(Prepared(id, WavSegmentedV1, true), [MarkStarted(anchor)] + Delivery(chunks, |chunks|));
            var done := Run(Prepared(id, WavSegmentedV1, true), Session(anchor, chunks, captured, hasGaps));
            Delivered(written, chunks, |chunks|) && Total(written.rows) == |captured| &&
            done.record.state == Completed && done.record.segmentCount == |chunks| &&
            done.record.durationSeconds == Some(|captured| as real / PLAYBACK_RATE_HZ as real) &&
            done.rows == written.rows && done.storage == written.storage
  {
    var from := Prepared(id, WavSegmentedV1, true);
    var start := [MarkStarted(anchor)];
    StartedIsReady(id, anchor);
    OrderedWritesAllCommit(from, start, chunks, cut, |chunks|);
    var written := Run(from, start + Delivery(chunks, |chunks|));
    RowsCountTheSegments(written, chunks, |chunks|, |chunks|);
    RecordingChunking.FlushedSegmentsAreTheCapture(chunks, cut, captured);
    assert chunks[..|chunks|] == chunks;
    FinalizingCompletes(id, start + Delivery(chunks, |chunks|), |captured|, hasGaps);
  }

  lemma {:induction false} FinalizingCompletes(id: nat, trace: seq<Event>, count: nat, hasGaps: bool)
    requires var s := Run(Prepared(id, WavSegmentedV1, true), trace);
      s.record.state == Recording && s.rows != [] && Total(s.rows) == count
    ensures var s := Run(Prepared(id, WavSegmentedV1, true), trace);
            var finalize := Finalize(count as real / PLAYBACK_RATE_HZ as real, |s.rows|, hasGaps);
            var done := Run(Prepared(id, WavSegmentedV1, true), trace + [finalize]);
            done.record.state == Completed && done.record.segmentCount == |s.rows| &&
            done.record.durationSeconds == Some(count as real / PLAYBACK_RATE_HZ as real) &&
            done.rows == s.rows && done.storage == s.storage
  {
    var s := Run(Prepared(id, WavSegmentedV1, true), trace);
    FinalizationMatchesRows(id, true, trace, count as real / PLAYBACK_RATE_HZ as real, |s.rows|, hasGaps);
  }

  /* ---------- from native frames to the completed recording ---------- */

  // The samples a session's native frames mix to.
  ghost function Mixed(frames: seq<CapturePipeline.NativeFrame>): seq<real> {
    if CapturePipeline.Normalized(frames).None? then []
    else CapturePipeline.MixedInOrder(CapturePipeline.Normalized(frames).value.frames)
  }

  ghost predicate WithoutGap(frames: seq<CapturePipeline.NativeFrame>) {
    CapturePipeline.Normalized(frames).Some? &&
    var runs := CapturePipeline.FinalRuns(CapturePipeline.Normalized(frames).value.frames);
    !CapturePipeline.HasGap(runs, |runs|)
  }

  // The backend completes a recording of exactly these samples, each row backed by its own segment.
  ghost predicate Completes(
      id: nat, anchor: real, chunks: seq<RecordingChunking.RecordingAudioChunk>, captured: seq<real>, hasGaps: bool)
  {
    var done := Run(Prepared(id, WavSegmentedV1, true), Session(anchor, chunks, captured, hasGaps));
    done.record.state == Completed && done.record.segmentCount == |chunks| == |done.rows| &&
    done.record.durationSeconds == Some(|captured| as real / PLAYBACK_RATE_HZ as real) &&
    Total(done.rows) == |captured| && RecordingChunking.Flat(chunks) == captured &&
    forall k {:trigger RowHolds(done, chunks, k)} :: 0 <= k < |chunks| ==> RowHolds(done, chunks, k)
  }

  lemma {:induction false} RecordedSessionCompletes(
      id: nat, anchor: real, chunks: seq<RecordingChunking.RecordingAudioChunk>, cut: set<nat>, captured: seq<real>,
      hasGaps: bool)
    requires RecordingChunking.Conserves(chunks, cut, [], captured)
    requires 0 < |chunks| <= RecordingChunking.U32_MAX
    ensures Completes(id, anchor, chunks, captured, hasGaps)
  {
    CaptureBecomesCompletedRecording(id, anchor, chunks, cut, captured, hasGaps);
    RecordingChunking.FlushedSegmentsAreTheCapture(chunks, cut, captured);
    var written := Run(Prepared(id, WavSegmentedV1, true), [MarkStarted(anchor)] + Delivery(chunks, |chunks|));
    var done := Run(Prepared(id, WavSegmentedV1, true), Session(anchor, chunks, captured, hasGaps));
    forall k | 0 <= k < |chunks| ensures RowHolds(done, chunks, k) {
      assert RowHolds(written, chunks, k);
    }
  }

  lemma {:induction false} AllTaken(queue: nat -> CapturePipeline.QueueAnswer, chunks: seq<LiveChunking.AudioChunk>)
    requires CapturePipeline.TakesAll(queue)
    ensures CapturePipeline.TakenOf(queue, chunks) == chunks
    decreases |chunks|
  {
    if chunks != [] {
      var front, last := chunks[..|chunks| - 1], chunks[|chunks| - 1];
      AllTaken(queue, front);
      OneMoreTaken(queue, front, last);
      assert chunks == front + [last];
    }
  }

  lemma {:induction false} OneMoreTaken(
      queue: nat -> CapturePipeline.QueueAnswer, front: seq<LiveChunking.AudioChunk>, last: LiveChunking.AudioChunk)
    requires CapturePipeline.TakesAll(queue) && CapturePipeline.TakenOf(queue, front) == front
    ensures CapturePipeline.TakenOf(queue, front + [last]) == front + [last]
  {
    CapturePipeline.TakenSnoc(queue, front, last);
    assert queue(last.sequence).Taken?;
  }

  // All frames of a session, one after another, until one fails.
  method FeedFrames(pipeline: CapturePipeline.ProcessingPipeline, frames: seq<CapturePipeline.NativeFrame>)
    returns (r: Result<(), CapturePipeline.Failure>)
    requires pipeline.Valid() && pipeline.Hears(pipeline.accepted) && pipeline.heard == []
    requires pipeline.recording.Some?
    modifies pipeline, pipeline.mixer, pipeline.chunker, pipeline.system, pipeline.microphone, pipeline.Recorders()
    ensures r.Ok? ==> pipeline.Valid() && pipeline.Hears(pipeline.accepted) && pipeline.heard == frames
    ensures r.Err? && CapturePipeline.TakesAll(pipeline.queue) ==> CapturePipeline.HearingFails(frames)
    ensures pipeline.recording.Some? ==> pipeline.recording == old(pipeline.recording)
    ensures r.Ok? && CapturePipeline.WritesAll(pipeline.writer) ==> pipeline.recording.Some?
  {
    for n := 0 to |frames|
      invariant pipeline.Valid() && pipeline.Hears(pipeline.accepted) && pipeline.heard == frames[..n]
      invariant pipeline.recording.Some? ==> pipeline.recording == old(pipeline.recording)
      invariant CapturePipeline.WritesAll(pipeline.writer) ==> pipeline.recording.Some?
    {
      r := FeedFrame(pipeline, frames, n);
      if r.Err? {
        return;
      }
    }
    assert frames[..|frames|] == frames;
    r := Ok(());
  }

  // One iteration of that loop.
  method FeedFrame(pipeline: CapturePipeline.ProcessingPipeline, frames: seq<CapturePipeline.NativeFrame>, n: nat)
    returns (r: Result<(), CapturePipeline.Failure>)
    requires n < |frames|
    requires pipeline.Valid() && pipeline.Hears(pipeline.accepted) && pipeline.heard == frames[..n]
    modifies pipeline, pipeline.mixer, pipeline.chunker, pipeline.system, pipeline.microphone, pipeline.Recorders()
    ensures r.Ok? ==> pipeline.Valid() && pipeline.Hears(pipeline.accepted) && pipeline.heard == frames[..n + 1]
    ensures r.Err? && CapturePipeline.TakesAll(pipeline.queue) ==> CapturePipeline.HearingFails(frames)
    ensures pipeline.recording.Some? ==> pipeline.recording == old(pipeline.recording)
    ensures r.Ok? && old(pipeline.recording).Some? && CapturePipeline.WritesAll(pipeline.writer) ==>
      pipeline.recording.Some?
  {
    FailsAsAWhole(frames, n);
    r := pipeline.ProcessNative(frames[n]);
  }

  lemma {:induction false} FailsAsAWhole(frames: seq<CapturePipeline.NativeFrame>, n: nat)
    requires n < |frames|
    ensures frames[..n] + [frames[n]] == frames[..n + 1]
    ensures CapturePipeline.HearingFails(frames[..n + 1]) ==> CapturePipeline.HearingFails(frames)
  {
    if CapturePipeline.HearingFails(frames[..n + 1]) {
      assert frames[..n + 1] + frames[n + 1..] == frames;
      CapturePipeline.FailureStays(frames[..n + 1], frames[n + 1..]);
    }
  }

  // A whole session. It fails if and only if a frame is malformed, refused by the mixer or stamped before zero,
  // or the sender's queue stops it. Otherwise, without a gap, the live chunks stitch to the batch mix of all
  // frames, and the recorded segments conserve it.
  method CaptureSession(
      frames: seq<CapturePipeline.NativeFrame>, queue: nat -> CapturePipeline.QueueAnswer, writer: nat -> bool)
    returns (r: Result<seq<LiveChunking.AudioChunk>, CapturePipeline.Failure>, recorded: bool,
             ghost segments: seq<RecordingChunking.RecordingAudioChunk>, ghost cut: set<nat>)
    ensures r.Ok? ==> !CapturePipeline.HearingFails(frames)
    ensures CapturePipeline.TakesAll(queue) ==> (r.Ok? <==> !CapturePipeline.HearingFails(frames))
    ensures r.Ok? && CapturePipeline.TakesAll(queue) && WithoutGap(frames) ==>
      LiveChunking.Stitched(LiveChunking.SamplesOf(r.value)) == Mixed(frames)
    ensures r.Ok? && CapturePipeline.WritesAll(writer) ==> recorded
    ensures r.Ok? && recorded ==> RecordingChunking.Conserves(segments, cut, [], Mixed(frames))
  {
    recorded, segments, cut := false, [], {};
    var pipeline := new CapturePipeline.ProcessingPipeline(queue, writer);
    var fed := FeedFrames(pipeline, frames);
    if fed.Err? {
      return Err(fed.error), false, [], {};
    }
    var stopped;
    stopped, recorded, segments, cut := pipeline.Stop();
    if stopped.Err? {
      return Err(stopped.error), recorded, segments, cut;
    }
    r := Ok(pipeline.queued);
    if CapturePipeline.TakesAll(queue) {
      AllTaken(queue, pipeline.finalized);
    }
  }

  // And what was recorded, written segment by segment and finalized, completes a recording of exactly that mix.
  method RecordSession(
      frames: seq<CapturePipeline.NativeFrame>, queue: nat -> CapturePipeline.QueueAnswer, writer: nat -> bool,
      id: nat, anchor: real, hasGaps: bool)
    returns (r: Result<seq<LiveChunking.AudioChunk>, CapturePipeline.Failure>, recorded: bool,
             ghost segments: seq<RecordingChunking.RecordingAudioChunk>)
    ensures CapturePipeline.TakesAll(queue) ==> (r.Ok? <==> !CapturePipeline.HearingFails(frames))
    ensures r.Ok? && CapturePipeline.WritesAll(writer) ==> recorded
    ensures r.Ok? && recorded ==> RecordingChunking.Flat(segments) == Mixed(frames)
    ensures r.Ok? && recorded && 0 < |segments| <= RecordingChunking.U32_MAX ==>
      Completes(id, anchor, segments, Mixed(frames), hasGaps)
  {
    ghost var cut;
    r, recorded, segments, cut := CaptureSession(frames, queue, writer);
    if r.Ok? && recorded {
      RecordingChunking.FlushedSegmentsAreTheCapture(segments, cut, Mixed(frames));
      if 0 < |segments| <= RecordingChunking.U32_MAX {
        RecordedSessionCompletes(id, anchor, segments, cut, Mixed(frames), hasGaps);
      }
    }
  }
}
