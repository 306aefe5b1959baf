# Verified model of the meeting assistant's core

The repository records meetings on a desktop (Rust) and transcribes, translates and reviews them in a local
backend (Python). This project models its stateful core in Dafny and proves what that core promises over every
input, every run and every interleaving:

- **Capture.** A streaming resampler, a bounded two-source mixer, a live chunker with overlapping windows and a
  recording chunker, each proved against a simple batch definition, and their composition into one pipeline.
- **Recordings.** The three-phase segment write with compensation, interleaved with other writers and with the
  lifecycle calls; finalization; seeking; and the stored byte formats.
- **Live sessions.** The connection's message loop, the gate that admits translations only in the pauses of
  speech-to-text (STT), and the orchestrator that schedules translations. Code between two awaits is one step.
- **Text algorithms.** Edit distance with traceback, greedy context packing, overlapping review batches, the
  sliding context window and overlap removal, each with an optimality or refinement theorem.

Objects that the source updates in place are classes whose methods are proved against functions on values;
runs, protocols and main theorems are stated on those functions. Times are exact rationals.

| file | module | models |
|---|---|---|
| `resampler.dfy` | `Resampling` | streaming linear resampling |
| `mixer.dfy` | `AudioMixing` | the common-timeline mixer |
| `chunker.dfy`, `recording_chunker.dfy` | `LiveChunking`, `RecordingChunking` | live windows, recording segments |
| `pipeline.dfy` | `CapturePipeline` | native frames through resamplers, mixer and both chunkers |
| `recording_protocol.dfy`, `recording_timing.dfy` | `RecordingProtocol`, `RecordingTiming` | segment writes, finalization, timing rows, seeking |
| `recording_delivery.dfy` | `RecordingDelivery` | from native frames to a completed recording |
| `byte_codec.dfy`, `segment_container.dfy`, `wav_segment.dfy` | `ByteCodec`, `SegmentContainer`, `WavSegment` | stored bytes (RIFF/WAVE as in the Waveform Audio File Format section of Multimedia Programming Interface and Data Specifications 1.0) |
| `priority_gate.dfy`, `orchestrator.dfy`, `session.dfy` | `PriorityGate`, `AssistOrchestration`, `LiveSession` | translation admission, assist scheduling, the connection |
| `edit_distance.dfy`, `context_packing.dfy`, `joined_text.dfy` | `EditDistance`, `ContextPacking`, `JoinedText` | word errors, context units |
| `review_batcher.dfy`, `recent_context.dfy`, `deduplicator.dfy` | `ReviewBatching`, `RecentContext`, `TranscriptDeduplication` | review batches, reply context, overlap removal |
| `wrappers.dfy` | `Wrappers` | `Option` and `Result` |

## What turned out false, and when it holds

- Feeding the resampler in pieces does not always give the one-shot output. It does for every split exactly when
  the input rate is at most 32,000 Hz; above that it gives the one-shot output of the stream with the skipped
  positions filled in (`Resampling.SplitIndependentIffAtMostTwoPerStep`, `Resampling.StreamingIsOneShotOfWovenStream`).
- The first full live chunk declares a second of overlap although nothing precedes it. Trusting the declared
  overlaps reproduces the input exactly when there is no full chunk (`LiveChunking.DeclaredOverlapIsExactOnlyWithoutFullChunk`).
- With several writers a committed row can lose its segment: to a compensation after it was committed, to one before
  it was committed, or to a later file of the same index (`RecordingProtocol.ConcurrentWritersCanLoseACommittedSegment`,
  `RecordingProtocol.EarlyCompensationCanLoseASegment`, `RecordingProtocol.LaterFileCanReplaceACommittedOne`). Over every
  run, every row and every writer about to commit has its own segment all along exactly when no step robs one: no
  store replaces another's segment, no compensation deletes an index that a row or another stored writer has, and no
  files are deleted under them (`RecordingProtocol.BackedIffHarmless`; for the rows alone
  `RecordingProtocol.RowsStoredIff`).
- A frame captured less than half a sample after zero can be stamped before zero by the mixer's rounding and then be
  refused by the chunkers (`CapturePipeline.EarlyFrameIsStampedBeforeZero`). Over every accepted run that happens exactly
  when some frame's own grid position lies before zero, which the capture times alone decide
  (`CapturePipeline.StampedIff`).
- An exception that passes the assist worker's handlers, such as a cancellation raised by a provider or by the update
  sink, ends the worker but leaves the session RUNNING (`AssistOrchestration.ProviderCanBreakARunningSession`). A running
  session is without a worker exactly when that happened (`AssistOrchestration.RunningWithoutWorkerIff`), and no segment
  is taken afterwards (`AssistOrchestration.BrokenWorkerTakesNothing`).

## Model

| member | source | states |
|---|---|---|
| Resampling.LinearResampler.Process | desktop/src-tauri/src/audio_capture/resampler.rs:63-101 | A call fails only for a zero rate or no samples, so both lookups always succeed; it writes and keeps what the streaming state determines, and restarts when the rate changes. |
| Resampling.StaysSettled | desktop/src-tauri/src/audio_capture/resampler.rs:94-99 | After every call at most one sample is kept and the buffer starts at the whole part of the next output position. |
| Resampling.OneShotInClosedForm | desktop/src-tauri/src/audio_capture/resampler.rs:79-93 | In one call, output k is the interpolation at position k·step, and it exists exactly while k·step + 1 is before the end of the stream. |
| Resampling.LinesStayLines | desktop/src-tauri/src/audio_capture/resampler.rs:76-92 | A stream on a straight line a + b·i is resampled to that line: output k is a + b·k·rate/16,000. |
| Resampling.OutputsAreSamplesOrBetween | desktop/src-tauri/src/audio_capture/resampler.rs:83-92 | Every output is the input sample itself at a whole position, and elsewhere lies strictly between its two neighbours unless they are equal. |
| Resampling.TargetRateKeepsTheSamples | desktop/src-tauri/src/audio_capture/resampler.rs:76-92 | At 16,000 Hz the output is the input without its last sample. |
| Resampling.StreamingIsOneShotOfWovenStream | desktop/src-tauri/src/audio_capture/resampler.rs:75-100 | For every rate and every split the concatenated output is the one-shot output of the stream with the skipped positions filled in, whatever the filler is. |
| Resampling.WovenIsJoined | desktop/src-tauri/src/audio_capture/resampler.rs:94-99 | At rates up to 32,000 Hz nothing is ever skipped. |
| Resampling.SplitMattersAbove | desktop/src-tauri/src/audio_capture/resampler.rs:94-99 | Above 32,000 Hz there are frames whose streaming output differs from the one-shot output. |
| Resampling.SplitIndependentIffAtMostTwoPerStep | desktop/src-tauri/src/audio_capture/resampler.rs:63-101 | Streaming equals one-shot for every split if and only if the rate is at most 32,000 Hz. |
| AudioMixing.AudioMixer.Push | desktop/src-tauri/src/audio_capture/mixer.rs:98-168 | On the common timeline a push succeeds exactly when the frame is well formed, fits 64-bit positions, does not start before the emitted end and finds room; it then lays the frame over the timeline and releases all but the holdback, and a refused frame leaves at most a prefix behind. |
| AudioMixing.AudioMixer.InsertBlocks | desktop/src-tauri/src/audio_capture/mixer.rs:132-160 | The block-wise insertion succeeds exactly when no new index meets a full map, and otherwise has written exactly a prefix. |
| AudioMixing.RoomInClosedForm | desktop/src-tauri/src/audio_capture/mixer.rs:143-154 | The index-by-index capacity test as one condition on the sizes and the last new index. |
| AudioMixing.TakeRuns | desktop/src-tauri/src/audio_capture/mixer.rs:230-253 | The drain loop emits the grouping of the ready samples into runs of consecutive indexes. |
| AudioMixing.GroupKeepsPoints | desktop/src-tauri/src/audio_capture/mixer.rs:235-252 | Grouping loses, adds and moves no sample: the runs read point by point are the drained samples at their indexes. |
| AudioMixing.GroupIsSpaced | desktop/src-tauri/src/audio_capture/mixer.rs:241-247 | Runs are non-empty, in order and separated by real gaps, so each is as long as it can be. |
| AudioMixing.BatchHoldsLastWrites | desktop/src-tauri/src/audio_capture/mixer.rs:44-57 | The reference mix holds exactly the indexes some frame covers, each with the last system and the last microphone write. |
| AudioMixing.EveryRunIsSound | desktop/src-tauri/src/audio_capture/mixer.rs:98-255 | After any successful pushes, what was emitted and what is pending partition the reference mix, emission is ascending and the emitted end is just past it. |
| AudioMixing.StreamingMixRefinesBatchMix | desktop/src-tauri/src/audio_capture/mixer.rs:98-175 | For every run of successful pushes and a flush, the output is the reference mix read in ascending index order, every index once. |
| AudioMixing.EmittedSamplesMixTheLastWrites | desktop/src-tauri/src/audio_capture/mixer.rs:44-57 | After any accepted pushes, and also after the flush, the value that came out at an index is half the sum of the last system and the last microphone sample written there, an absent one being 0, and 1 or -1 where that passes them. |
| AudioMixing.EveryWriteComesOut | desktop/src-tauri/src/audio_capture/mixer.rs:218-255 | Every index that some source wrote comes out, and only once. |
| AudioMixing.PendingIsBounded | desktop/src-tauri/src/audio_capture/mixer.rs:186-191 | After every successful push at most 800 samples wait, all in the last 800 positions before the latest end. |
| AudioMixing.HoldbackLeavesRoom | desktop/src-tauri/src/audio_capture/mixer.rs:118-191 | The holdback is kept: a frame that starts at most 800 positions before the end of every earlier frame is never too late, and with at most 4,000 samples it is accepted. |
| AudioMixing.OrdinaryFramesAreAccepted | desktop/src-tauri/src/audio_capture/mixer.rs:150-154 | So a frame of at most 4,000 samples is refused only for its own shape, its position range or for starting before the emitted end. |
| AudioMixing.NeverMoreThanTheHardBound | desktop/src-tauri/src/audio_capture/mixer.rs:131-160 | Over every sequence of pushes, accepted or refused, never more than 4,800 samples are pending. |
| AudioMixing.AudioMixer.Flush | desktop/src-tauri/src/audio_capture/mixer.rs:171-176 | Releases everything that is left, in runs; without a common timeline there is nothing to release. |
| LiveChunking.FullCountIsExact | desktop/src-tauri/src/audio_capture/chunker.rs:105-128 | Window k is counted exactly when its 64,000 samples from 48,000·k on are there. |
| LiveChunking.AudioChunker.Push | desktop/src-tauri/src/audio_capture/chunker.rs:69-103 | A frame is refused exactly when malformed or more than a sample early; otherwise the epoch grows by it, or restarts at a jump over 100 ms, and exactly the windows that became complete are emitted with consecutive sequence numbers, each stamped with the capture time of its own first sample. |
| LiveChunking.WindowsAreCut | desktop/src-tauri/src/audio_capture/chunker.rs:105-128 | Chunk k of an epoch holds its 64,000 samples from 48,000·k on, is stamped 3·k seconds after the epoch's start and declares one second of overlap. |
| LiveChunking.ThreeSecondsApart | desktop/src-tauri/src/audio_capture/chunker.rs:105-128 | Neighbouring chunks are stamped three seconds apart, and the second begins with the last second of the first. |
| LiveChunking.AudioChunker.FlushFinal | desktop/src-tauri/src/audio_capture/chunker.rs:130-159 | Emits the uncovered tail, with its overlap, if and only if samples lie beyond the last window; all chunks handed out for the epoch, whatever its split into frames, then stitch back to it, and without the overlaps they declare they are the epoch, less its first second if there was a full chunk. |
| LiveChunking.WindowsDoNotDependOnTheSplit | desktop/src-tauri/src/audio_capture/chunker.rs:105-128 | Windows emitted early are the windows of the longer epoch, so the split into frames does not show. |
| LiveChunking.ChunksStitchBackToInput | desktop/src-tauri/src/audio_capture/chunker.rs:105-159 | The first chunk and the others without their first second, tail included, are the input exactly. |
| LiveChunking.DeclaredOverlapIsExactOnlyWithoutFullChunk | desktop/src-tauri/src/audio_capture/chunker.rs:109-114 | Removing the overlaps the emitted chunks declare loses exactly the first second as soon as there is a full chunk, and nothing otherwise. |
| RecordingChunking.RecordingAudioChunker.Push | desktop/src-tauri/src/audio_capture/recording_chunker.rs:68-102 | Accepted samples are appended to the capture; segments handed out followed by the buffer are the capture, indexes count from 0, and a segment is short only before a gap. |
| RecordingChunking.RecordingAudioChunker.FlushFinal | desktop/src-tauri/src/audio_capture/recording_chunker.rs:104-118 | Hands out the whole buffer as one more segment, or nothing when it is empty. |
| RecordingChunking.Handing | desktop/src-tauri/src/audio_capture/recording_chunker.rs:127-142 | Moving the front of the buffer into a segment conserves the capture; only a marked segment may be short. |
| RecordingChunking.FlushedSegmentsAreTheCapture | desktop/src-tauri/src/audio_capture/recording_chunker.rs:104-142 | Once flushed, the segments are the capture and their counts sum to its length. |
| RecordingChunking.UncutSegmentsLieOnTheGrid | desktop/src-tauri/src/audio_capture/recording_chunker.rs:127-142 | Until the first cut, segment k is exactly the samples from 80,000·k on. |
| CapturePipeline.ProcessingPipeline.ProcessMixedFrame | desktop/src-tauri/src/audio_capture/coordinator.rs:935-1001 | Of a mixed frame the chunkers refuse only a stamp before zero, never a regression; both flag the same gaps, namely jumps of more than 1,600 positions; a full queue loses the chunk, and only a closed queue or an encoding failure stops the stream. |
| CapturePipeline.ProcessingPipeline.ProcessRecordingFrame | desktop/src-tauri/src/audio_capture/coordinator.rs:1104-1158 | The recording branch lives on exactly when the frame is accepted and the writer has taken every segment handed out; ending it never ends the live stream. |
| CapturePipeline.ProcessingPipeline.Process | desktop/src-tauri/src/audio_capture/coordinator.rs:923-1006 | A normalized frame is taken exactly when the mixer accepts it, nothing emitted is stamped before zero and the queue does not stop the stream; the failure says which. |
| CapturePipeline.ProcessingPipeline.ProcessNative | desktop/src-tauri/src/audio_capture/coordinator.rs:821-864 | A native frame fails only when the session so far must fail, or the queue stops it; otherwise resamplers, mixer and chunkers are where the frames heard put them. |
| CapturePipeline.ProcessingPipeline.Resample | desktop/src-tauri/src/audio_capture/processing.rs:30-51 | Each source has its own resampler, and a frame that yields no samples is not passed on. |
| CapturePipeline.ProcessingPipeline.FlushFinalLiveChunk | desktop/src-tauri/src/audio_capture/coordinator.rs:898-919 | Without a gap all live chunks, tail included, stitch to everything that was mixed; a full queue at the tail is a failure. |
| CapturePipeline.ProcessingPipeline.FinalizeRecordingBranch | desktop/src-tauri/src/audio_capture/coordinator.rs:1160-1198 | The rest of the buffer becomes the last segment, and the writer finalizes exactly when it took every segment; the segments conserve the capture. |
| CapturePipeline.ProcessingPipeline.Stop | desktop/src-tauri/src/audio_capture/coordinator.rs:866-919 | With a queue that takes everything the stop succeeds whenever no frame's stamp lies before zero, and it succeeds only then; the recorded segments then are the batch mix of every accepted frame, and without a gap the live chunks stitch to it; the stream is marked as broken exactly when there was a gap or a chunk met a full queue, and the recording exactly when there was a gap. |
| CapturePipeline.HalfASampleIsExactlyEnough | desktop/src-tauri/src/audio_capture/mixer.rs:257-266 | No origin stamps a capture time before zero if and only if that time is at least half a sample. |
| CapturePipeline.LateCapturesStayAboveZero | desktop/src-tauri/src/audio_capture/mixer.rs:257-266 | If every accepted frame was captured that late, no emitted frame, flush included, is stamped before zero. |
| CapturePipeline.StampedIff | desktop/src-tauri/src/audio_capture/mixer.rs:218-266 | For every run of accepted frames: some mixed frame, flush included, is stamped before zero if and only if some frame's own grid position is. |
| CapturePipeline.EarlyFrameIsStampedBeforeZero | desktop/src-tauri/src/audio_capture/mixer.rs:257-266 | Two accepted frames with times from zero on whose mix starts before zero. |
| CapturePipeline.EmittedSamplesKeepTheirTime | desktop/src-tauri/src/audio_capture/mixer.rs:218-266 | Every emitted sample is stamped within half a sample of the moment at which an accepted sample that lies there was captured. |
| CapturePipeline.FailureStays | desktop/src-tauri/src/audio_capture/coordinator.rs:821-864 | A session that must fail on some frames must fail on any more. |
| CapturePipeline.RecordedSamples | desktop/src-tauri/src/audio_capture/mixer.rs:218-255 | The samples of all emitted runs are the reference mix in index order. |
| CapturePipeline.RecordedSamplesMixTheLastWrites | desktop/src-tauri/src/audio_capture/mixer.rs:44-57 | Each of these samples is half the sum of the sources' last writes at its position, within [-1, 1]. |
| RecordingTiming.TotalSamplesForContiguousTiming | backend/app/application/services/recording_timing.py:11-39 | Succeeds on exactly the non-empty, gapless row lists of the recording, and returns their sum. |
| RecordingTiming.RowsTileTheRecording | backend/app/application/services/recording_timing.py:26-37 | Every sample below the total lies in some row of a contiguous list. |
| RecordingTiming.OnlyOneRowHolds | backend/app/application/services/recording_timing.py:26-37 | No sample lies in two rows. |
| RecordingTiming.FindTarget | backend/app/application/use_cases/resolve_recording_seek.py:76-107 | On contiguous rows the binary search finds exactly the row a linear scan finds, and its fall-through error cannot happen. |
| RecordingTiming.ResolveRecordingSeek | backend/app/application/use_cases/resolve_recording_seek.py:32-74 | Every target from zero to the duration resolves to the one row holding it, less than a sample early, and the end is reported exactly at the duration. |
| RecordingProtocol.TimingIsSoundOverEveryRun | backend/app/application/use_cases/write_recording_segment.py:39-113 | Under every interleaving of writers and lifecycle calls the rows are contiguous from 0, each start is the sum before it, and the recording's index is the row count. |
| RecordingProtocol.StepKeepsTiming | backend/app/application/use_cases/write_recording_segment.py:82-113 | Every single step keeps that, although start samples are computed before the external write. |
| RecordingProtocol.RowsFreezeAfterRecording | backend/app/application/use_cases/mark_recording_failed.py:16-35 | Once the recording has left RECORDING no run changes a row or brings it back. |
| RecordingProtocol.RowsOnlyGrow | backend/app/application/use_cases/write_recording_segment.py:102-113 | No step removes or alters a committed row; at most one is appended. |
| RecordingProtocol.CompensationIsSafeIff | backend/app/application/use_cases/write_recording_segment.py:114-120 | Deleting a rejected writer's file keeps every row's and every stored writer's own segment if and only if no row has that index and no other stored writer is about to commit it. |
| RecordingProtocol.StoreIsSafeIff | backend/app/infrastructure/recordings/encrypted_segment_writer.py:91-97 | Storing keeps them if and only if it replaces neither a row's nor another stored writer's different segment. |
| RecordingProtocol.StepKeepsBackedIff | backend/app/application/use_cases/write_recording_segment.py:61-120 | Every step of every party keeps them if and only if it is harmless, which can be checked before it. |
| RecordingProtocol.BackedIffHarmless | backend/app/application/use_cases/write_recording_segment.py:61-120 | Over every run with any number of writers: every row and every writer about to commit has its own segment all along if and only if every step was harmless. |
| RecordingProtocol.RowsStoredIff | backend/app/application/use_cases/write_recording_segment.py:61-120 | The same for the rows alone: every row has its own segment all along if and only if no step took one away and every commit found its own file. |
| RecordingProtocol.ConcurrentWritersCanLoseACommittedSegment | backend/app/application/use_cases/write_recording_segment.py:114-120 | A run of two writers in which the loser's compensation removes the committed segment. |
| RecordingProtocol.EarlyCompensationCanLoseASegment | backend/app/application/use_cases/write_recording_segment.py:114-120 | A run in which the compensation comes first, while there is no row, and the other writer then commits a row without a segment. |
| RecordingProtocol.LaterFileCanReplaceACommittedOne | backend/app/infrastructure/recordings/encrypted_segment_writer.py:91-97 | A run without compensation in which a committed row ends with the other writer's segment. |
| RecordingProtocol.StorageIsSoundOneAtATime | backend/app/application/use_cases/write_recording_segment.py:61-120 | With one write in flight, working compensation and no deletion, every row of every reachable state has its segment, and storage holds at most one more. |
| RecordingProtocol.RejectedWriteRestoresStorage | backend/app/application/use_cases/write_recording_segment.py:114-120 | Under the same conditions a stretch of steps that starts and ends without a write in flight and adds no row leaves storage as it was. |
| RecordingProtocol.FinalizationMatchesRows | backend/app/application/use_cases/finalize_recording.py:31-73 | At any point of any run, finalizing an active WAV recording completes it if and only if there are rows, the count is theirs and the duration is within 1e-6 of their sum; otherwise nothing changes. |
| RecordingProtocol.CompletedRecordingsAreSeekable | backend/app/application/use_cases/resolve_recording_seek.py:38-60 | Every reachable completed recording meets all conditions of seeking: available, contiguous, and with its duration equal to its rows'. |
| RecordingProtocol.OnlyCompletedRecordingsPlay | backend/app/application/use_cases/resolve_recording_seek.py:39-50 | At any point of any run a recording is available for seeking if and only if it is completed and of the WAV format; every other one is refused. |
| RecordingProtocol.RecordingBackend.Execute | backend/app/application/use_cases/write_recording_segment.py:32-125 | A write that nothing interrupts is exactly its phases in order. It answers with the index if and only if it added exactly this segment's row, starting where the rows before it end, and stored the segment; an error changes neither record nor rows, and no file unless the compensation fails too; and each error has exactly its cause. |
| RecordingProtocol.WholeWriteAddsItsRowIff | backend/app/application/use_cases/write_recording_segment.py:32-125 | An uninterrupted write adds its row and stores its segment if and only if record, rows and files all stop before its index, the store succeeds and the database does not fail; otherwise nothing changes, except that a failing compensation leaves the file. |
| RecordingProtocol.WritesAreAcceptedExactlyInOrder | backend/app/application/use_cases/write_recording_segment.py:39-113 | At any point of any run exactly the next segment of an active WAV recording with matching files is accepted, and its row starts at the sum of all rows before it. |
| RecordingProtocol.RecordingBackend.CommitPhaseOf | backend/app/application/use_cases/write_recording_segment.py:82-113 | The commit validates again and saves both rows together, or rejects and changes neither. |
| RecordingProtocol.RecordingBackend.FinalizeNow | backend/app/application/use_cases/finalize_recording.py:26-73 | The finalize call as a whole: completes with the rows' own duration and count and the declared gap flag, or leaves everything unchanged with the error of exactly that cause. |
| RecordingProtocol.RecordingBackend.MarkStartedNow | backend/app/application/use_cases/mark_recording_started.py:19-40 | Only a pending recording with confirmed consent starts, and keeps its capture anchor. |
| RecordingProtocol.RecordingBackend.MarkFailedNow | backend/app/application/use_cases/mark_recording_failed.py:16-35 | Any recording that is not deleted can fail; repeating the same failure changes nothing. |
| RecordingProtocol.RecordingBackend.MarkDeletingNow | backend/app/application/use_cases/delete_meeting_audio.py:87-96 | Only this first mark checks that the recording is not active; the files are removed later without another check. |
| RecordingProtocol.RecordingBackend.MarkDeletedNow | backend/app/application/use_cases/delete_meeting_audio.py:126-133 | The last mark checks again: a recording that has been started meanwhile is not marked deleted. |
| RecordingProtocol.SavingPastTheEndAppends | backend/app/infrastructure/persistence/sqlalchemy/recording_segment_timing_repository.py:22-58 | Saving a row with a larger index than all others appends it to the listing. |
| RecordingDelivery.OrderedWritesAllCommit | backend/app/application/use_cases/write_recording_segment.py:32-125 | Every segment of a conserved capture, written in order by one writer, passes every check of its write. |
| RecordingDelivery.CaptureBecomesCompletedRecording | backend/app/application/use_cases/finalize_recording.py:38-72 | A flushed capture so written has rows summing to exactly the captured samples, each with its own stored segment, and finalizing with its length completes it. |
| RecordingDelivery.CaptureSession | desktop/src-tauri/src/audio_capture/coordinator.rs:584-766 | A whole session of native frames fails, with a queue that takes everything, if and only if a frame is malformed, refused by the mixer or stamped before zero; otherwise its live chunks stitch to the batch mix when there is no gap, and its segments conserve it. |
| RecordingDelivery.RecordSession | backend/app/application/use_cases/finalize_recording.py:26-73 | What such a session recorded, written and finalized, is a completed recording of exactly the mixed samples, every row backed by its own segment. |
| ByteCodec.BigEndianIsExact | backend/app/infrastructure/recordings/encrypted_segment_writer.py:26-27 | Any bytes are the big-endian form of exactly one number of their width. |
| ByteCodec.LittleEndianIsExact | backend/app/infrastructure/recordings/wav_recording_segment.py:7-9 | The same for little-endian fields. |
| ByteCodec.LowestByte | backend/app/infrastructure/recordings/wav_recording_segment.py:7-9 | The byte n % 256 stands first in little-endian and last in big-endian order. |
| ByteCodec.LittleEndianWeight | backend/app/infrastructure/recordings/wav_recording_segment.py:7-9 | A byte with k bytes before it counts 256^k. |
| ByteCodec.BigEndianWeight | backend/app/infrastructure/recordings/encrypted_segment_writer.py:26-27 | A byte with k bytes behind it counts 256^k. |
| SegmentContainer.DecodeInvertsPrint | backend/app/infrastructure/recordings/encrypted_segment_writer.py:79-90 | Every 32-bit index, 12-byte nonce and ciphertext of at least 16 bytes is read back as stored. |
| SegmentContainer.AcceptedContainersReprint | backend/app/infrastructure/recordings/recording_storage.py:170-189 | Every accepted file is byte for byte the printed form of what was read from it. |
| SegmentContainer.PrintIsInjective | backend/app/infrastructure/recordings/encrypted_segment_writer.py:79-90 | Different contents never share a file. |
| SegmentContainer.StoredLayout | backend/app/infrastructure/recordings/encrypted_segment_writer.py:79-90 | The file byte for byte: AMCR, version, algorithm, index, nonce length, nonce, ciphertext length, ciphertext. |
| SegmentContainer.EncryptedRecordingSegmentWriter.Write | backend/app/infrastructure/recordings/encrypted_segment_writer.py:58-66 | Appends all of the data, or nothing when finished or past the bound. |
| SegmentContainer.EncryptedRecordingSegmentWriter.Finalize | backend/app/infrastructure/recordings/encrypted_segment_writer.py:68-111 | Publishes once; the file decodes to this index and nonce and the encryption of everything written; when the file cannot be written the writer stays open with all it holds. |
| WavSegment.SegmentsAreAccepted | backend/app/infrastructure/recordings/wav_recording_segment.py:18-76 | A header, the fixed format chunk and a non-empty data chunk of whole samples, in either order, are accepted with half the data length. |
| WavSegment.AcceptedIsASegment | backend/app/infrastructure/recordings/wav_recording_segment.py:18-76 | Nothing else is accepted. |
| WavSegment.FormatIsFixed | backend/app/infrastructure/recordings/wav_recording_segment.py:53-74 | The format checks admit exactly one sequence of sixteen bytes. |
| WavSegment.FormatBytes | backend/app/infrastructure/recordings/wav_recording_segment.py:54-75 | The sixteen bytes of the one format chunk. |
| WavSegment.TagsInAscii | backend/app/infrastructure/recordings/wav_recording_segment.py:27-52 | The tags are RIFF, WAVE, fmt and data in ASCII. |
| WavSegment.ValidateWavRecordingSegment | backend/app/infrastructure/recordings/wav_recording_segment.py:18-76 | The loop accepts exactly those files and returns the sample count. |
| PriorityGate.LiveTranscriptionPriorityGate.SttStarted | backend/app/application/services/live_transcription_priority_gate.py:85-98 | A start counts, is timed, and keeps the event flags saying what the counters say. |
| PriorityGate.LiveTranscriptionPriorityGate.SttFinished | backend/app/application/services/live_transcription_priority_gate.py:100-108 | A finish releases one request without underflow and sets the idle flag exactly at zero. |
| PriorityGate.LiveTranscriptionPriorityGate.SetUpstreamPendingSttChunks | backend/app/application/services/live_transcription_priority_gate.py:74-83 | A backlog report is taken unless negative, and its flag is set exactly at zero. |
| PriorityGate.CadenceIsTheLastFourGaps | backend/app/application/services/live_transcription_priority_gate.py:85-96 | After any starts the gate remembers exactly the last four positive distances between them. |
| PriorityGate.AdmittedExactlyWhen | backend/app/application/services/live_transcription_priority_gate.py:123-188 | A translation is admitted if and only if no STT runs, nothing waits upstream, and there is no forecast, or the estimate fits before the earliest expected start, or the pause outlasted the extended boundary. |
| PriorityGate.ReasonsMeanWhatTheySay | backend/app/application/services/live_transcription_priority_gate.py:149-188 | Each admission reason implies the timing fact it names. |
| PriorityGate.AdmissionRespectsEveryInterval | backend/app/application/services/live_transcription_priority_gate.py:123-188 | In the observed intervals themselves: ahead of the next start the estimate fits before it even after the shortest interval; an extended pause has outlasted every interval, by the estimate and, to the millisecond, by the spread of the intervals. |
| PriorityGate.LongPausesAdmit | backend/app/application/services/live_transcription_priority_gate.py:123-188 | A pause without backlog that has outlasted every interval by estimate and spread is long enough. |
| PriorityGate.OnlyForecastsReportTimes | backend/app/application/services/live_transcription_priority_gate.py:123-188 | Only a forecast reports a window or a margin, and a wait is asked for exactly when its window is too short and the boundary still ahead. |
| PriorityGate.GateCountsRequestsUnderWay | backend/app/application/services/live_transcription_priority_gate.py:74-108 | Unless more requests finish than start, the gate counts exactly those under way, and the backlog is the one reported last. |
| PriorityGate.AdmissionWait.Resume | backend/app/application/services/live_transcription_priority_gate.py:190-253 | One resumption of the waiting coroutine, from one await to the next, and its deferral flag. |
| PriorityGate.ReturnsOnlyInAPause | backend/app/application/services/live_transcription_priority_gate.py:207-229 | In every run that has returned, the return happened at a resumption that saw no active STT and no backlog, with the gate's own answer of that moment. |
| PriorityGate.FullWaitAdmits | backend/app/application/services/live_transcription_priority_gate.py:231-253 | In every run, a timed wait that ran out without an STT start is followed by admission when nothing waits upstream. |
| PriorityGate.TimedWaitsAreBounded | backend/app/application/services/live_transcription_priority_gate.py:207-253 | Over every run the timed waits of a call are at most the STT starts during it, plus one. |
| PriorityGate.TimedWaitEndsAtTheBoundary | backend/app/application/services/live_transcription_priority_gate.py:183-188 | A timed wait is entered only before the extended boundary and lasts exactly until it. |
| AssistOrchestration.EveryRunIsSound | backend/app/application/services/assist_mode_orchestrator.py:154-585 | Every state reachable under any environment keeps the invariants of queue, worker, fates and sent updates, exceptions of sink and providers included. |
| AssistOrchestration.QueueKeepsTheNewest | backend/app/application/services/assist_mode_orchestrator.py:164-229 | The queue stays within its bound (1 in translation-only sessions), strictly increasing, newer than the worker's segment, and when non-empty ends with the newest segment, whose translation is the pending one. |
| AssistOrchestration.ToldExactlyOnce | backend/app/application/services/assist_mode_orchestrator.py:280-312 | While running, a segment that left queue and worker was sent exactly one terminal translation update, except when coalesced in a translation-only session, refused by the context, or lost when its provider or the sink ended the worker; never two. |
| AssistOrchestration.AnswersAreDeliveredIff | backend/app/application/services/assist_mode_orchestrator.py:538-564 | Over every run, READY or a failure is sent for a segment and capability if and only if its provider answered exactly that while the session ran, or the context refused the segment. |
| AssistOrchestration.TranslationAnswerIsSent | backend/app/application/services/assist_mode_orchestrator.py:587-618 | Whatever a translation's provider answers while the session runs is sent at once as the segment's one terminal update. |
| AssistOrchestration.DurationsAreTheLastFour | backend/app/application/services/assist_mode_orchestrator.py:596-598 | Over every run the estimate rests on the last four durations of translations that became READY. |
| AssistOrchestration.OnlyAFullQueueDrops | backend/app/application/services/assist_mode_orchestrator.py:164-229 | A segment is pushed out only by a full queue: then the oldest goes, and is told so at once unless it was coalesced. |
| AssistOrchestration.OnlyTheNewestWaits | backend/app/application/services/assist_mode_orchestrator.py:434-490 | A segment that is no longer the newest is told so as soon as it is taken or admitted; the newest waits with the slowest remembered duration as its estimate, and is announced once admitted. |
| AssistOrchestration.SinkErrorsFailTheSession | backend/app/application/services/assist_mode_orchestrator.py:738-751 | An error of the sink leaves a failed session with an empty queue. |
| AssistOrchestration.CancelledOnlyForStt | backend/app/application/services/assist_mode_orchestrator.py:525-570 | A provider call is being cancelled only if an STT request started since it began, and can be as soon as one did. |
| AssistOrchestration.SegmentsAreWorkedThrough | backend/app/application/services/assist_mode_orchestrator.py:280-327 | In a running session the worker rests only when its last segment is through: with simplification enabled, that was announced and concluded. |
| AssistOrchestration.CoachingComesNext | backend/app/application/services/assist_mode_orchestrator.py:303-327 | After the translation is told, coaching is announced if enabled and there is a reply context, else simplification if enabled, else the worker rests. |
| AssistOrchestration.ProviderStartsOnlyForTheNewest | backend/app/application/services/assist_mode_orchestrator.py:482-524 | A provider call starts only while running, for the newest enqueued segment, with no active STT and the STT generation of its admission. |
| AssistOrchestration.ProviderStartsInTheAdmittedPause | backend/app/application/services/assist_mode_orchestrator.py:463-524 | Every provider call was admitted earlier in the run, and no STT request started in between. |
| AssistOrchestration.ProviderStartsAreAscending | backend/app/application/services/assist_mode_orchestrator.py:509-524 | Provider calls are for ever newer segments, so none is started twice. |
| AssistOrchestration.BrokenWorkerTakesNothing | backend/app/application/services/assist_mode_orchestrator.py:255-278 | After the worker has ended no further segment is taken and no provider called, even in a running session. |
| AssistOrchestration.RunningWithoutWorkerIff | backend/app/application/services/assist_mode_orchestrator.py:255-278 | A reachable running session is without a live worker if and only if, at some step before, a provider or the sink raised past the worker's handlers. |
| AssistOrchestration.ProviderCanBreakARunningSession | backend/app/application/services/assist_mode_orchestrator.py:538-541 | A run in which a cancelled provider call leaves the session running without a worker and its segment untold. |
| AssistOrchestration.StepKeepsCounts | backend/app/application/services/assist_mode_orchestrator.py:587-652 | Every step keeps the terminal updates in line with the segments' fates. |
| AssistOrchestration.AssistModeOrchestrator.Enqueue | backend/app/application/services/assist_mode_orchestrator.py:164-229 | A running session queues the segment, coalescing or pushing out exactly one older segment where it must; any other session refuses. |
| AssistOrchestration.AssistModeOrchestrator.DropPublishAnswered | backend/app/application/services/assist_mode_orchestrator.py:708-720 | The pushed-out segment's updates go out one by one, and enqueue answers true exactly when all of them did and the session still runs. |
| AssistOrchestration.AssistModeOrchestrator.TakeSegment | backend/app/application/services/assist_mode_orchestrator.py:280-312 | Taking the oldest segment rejects, answers or starts waiting exactly as the step says. |
| AssistOrchestration.AssistModeOrchestrator.ProcessingReturned | backend/app/application/services/assist_mode_orchestrator.py:495-524 | After the processing update everything is checked again before the provider starts. |
| AssistOrchestration.AssistModeOrchestrator.PublishAnswered | backend/app/application/services/assist_mode_orchestrator.py:738-751 | The sink's answer resumes the worker; an error of the sink ends the session and empties the queue. |
| AssistOrchestration.AssistModeOrchestrator.OperationAnswered | backend/app/application/services/assist_mode_orchestrator.py:530-564 | A provider's update, whatever its terminal state, or its error is sent as exactly that for the segment and the capability. |
| AssistOrchestration.AssistModeOrchestrator.WorkerInterrupted | backend/app/application/services/assist_mode_orchestrator.py:571-585 | An exception that passes the handlers, or the stop's cancellation, ends the worker; within and after a provider call its cleanup still runs. |
| AssistOrchestration.AssistModeOrchestrator.Stop | backend/app/application/services/assist_mode_orchestrator.py:236-244 | Stopping is final and empties the queue. |
| LiveSession.BoundedAudioChunkBuffer.Put | backend/app/infrastructure/audio/bounded_chunk_buffer.py:38-50 | Never more than the capacity: a full buffer gives up its oldest chunk, a closed one refuses. |
| LiveSession.BufferedLiveTranscriptionSession.ProcessChunk | backend/app/infrastructure/audio/live_transcription_session.py:61-105 | The buffer is empty again after every call, so nothing is ever dropped and no gap reported; the context becomes the last accepted text and errors leave it alone. |
| LiveSession.ConnectionHandler.Serve | backend/app/api/routes/live_transcription.py:113-585 | The loop sends and keeps exactly what the messages call for, for any list of messages, and a closed connection has stopped its session and closed the buffer. |
| LiveSession.EveryTraceIsSound | backend/app/api/routes/live_transcription.py:113-565 | Over any trace: results in sequence, violations counted and fewer than three while open, and while open the context equal to the last accepted text. |
| LiveSession.ResultsAreConsecutive | backend/app/api/routes/live_transcription.py:452-565 | Chunk results carry 0, 1, 2, … without gap or repeat, and the expected sequence is the number of results sent. |
| LiveSession.ExactlyExpectedFramesAreProcessed | backend/app/api/routes/live_transcription.py:374-565 | Exactly a frame of this session, of its source and with the sequence of the next result reaches the processor, with the text accepted last; its answer decides reply, sequence and whether the connection stays open. |
| LiveSession.CloseCodesTellWhy | backend/app/api/routes/live_transcription.py:113-585 | A connection is closed with 1000 after a stop, 1009 for an oversized frame, 1011 for server failures and 4400 for all else. |
| LiveSession.ComplaintsNameTheFault | backend/app/api/routes/live_transcription.py:113-398 | Every other faulty message is answered by the error that names its fault, with the expected sequence once there is a session. |
| LiveSession.ThirdViolationCloses | backend/app/api/routes/live_transcription.py:398-416 | A wrong session or sequence produces no result; exactly the third one closes the connection. |
| LiveSession.StopNeedsTheLastSequence | backend/app/api/routes/live_transcription.py:288-332 | The session is stopped if and only if the message names this session and the sequence of the last result, or 0 without results. |
| LiveSession.ProviderErrorsCanBeRetried | backend/app/api/routes/live_transcription.py:488-510 | A provider error changes neither the expected sequence nor the results, and the same chunk sent again gets its result. |
| LiveSession.OneSessionPerConnection | backend/app/api/routes/live_transcription.py:124-133 | A started session is never replaced on its connection. |
| EditDistance.TableIsUnique | backend/app/development/gold_stt_dataset.py:730-743 | The table's rule determines every cell, so both copies fill the same table. |
| EditDistance.BackstepIsLegal | backend/app/development/gold_stt_dataset.py:744-775 | Every branch of the traceback, the final else included, is a step the table allows. |
| EditDistance.NoScriptIsCheaper | backend/app/development/gold_stt_dataset.py:730-743 | No edit script for two prefixes costs less than their cell. |
| EditDistance.TraceAttainsCell | backend/app/development/gold_stt_dataset.py:744-775 | The traceback's script aligns the prefixes and costs exactly the cell. |
| EditDistance.CellIsMinimumCost | backend/app/development/gold_stt_dataset.py:730-743 | Every cell is the minimum cost over all edit scripts of its prefix pair. |
| EditDistance.CountsBalance | backend/app/development/gold_stt_dataset.py:744-782 | In any alignment, reference length minus deletions plus insertions is the hypothesis length. |
| EditDistance.CalculateErrorCounts | backend/app/development/gold_stt_dataset.py:726-782 | Table and walk count exactly the errors of the optimal script. |
| EditDistance.WordDistances | backend/app/development/quality_baseline.py:676-692 | The second copy fills the same table. |
| EditDistance.TraceWordEdits | backend/app/development/quality_baseline.py:695-753 | Its edit list is the non-matching steps of the same optimal script, in reading order. |
| EditDistance.CalculateWordErrorRate | backend/app/development/quality_baseline.py:475-495 | Both copies report the same substitutions, deletions and insertions. |
| EditDistance.OptimalScriptIsOptimal | backend/app/development/quality_baseline.py:676-753 | The reported errors sum to the least cost of any alignment. |
| EditDistance.AggregateBoundsWholeText | backend/app/development/gold_stt_dataset.py:785-793 | Summed per-segment errors are never below the distance of the joined texts. |
| ContextPacking.SplitContextUnits | backend/app/development/quality_baseline.py:532-558 | The units are those of the one greedy packing; joined they are the joined sentences; no other packing has fewer. |
| ContextPacking.GreedyIsOptimal | backend/app/development/quality_baseline.py:543-557 | No division into units of at most 1,000 characters or single sentences has fewer units than the greedy one. |
| ContextPacking.GreedyIsUnique | backend/app/development/quality_baseline.py:543-557 | Fitting and being unable to take the next sentence determine the packing. |
| ContextPacking.UnitsJoinBack | backend/app/development/quality_baseline.py:550-557 | Joining the units of any packing gives the joined sentences. |
| ReviewBatching.NextEndIndex | backend/app/application/services/meeting_review_batcher.py:66-85 | A batch is within the limit or one oversized entry, and cannot take the next entry. |
| ReviewBatching.BuildBatches | backend/app/application/services/meeting_review_batcher.py:29-64 | Terminates for every overlap setting, and produces a batching from the first entry to the last. |
| ReviewBatching.NeighboursOverlap | backend/app/application/services/meeting_review_batcher.py:59-62 | Starts strictly increase, ends never decrease, and neighbours share exactly the smaller of the overlap and the earlier size minus one. |
| ReviewBatching.BatchesReproduceTheTranscript | backend/app/application/services/meeting_review_batcher.py:42-64 | Without the shared entries the batches are the transcript. |
| ReviewBatching.BatchingIsDetermined | backend/app/application/services/meeting_review_batcher.py:42-85 | These properties leave only one batching. |
| RecentContext.RecentTranscriptContext.Add | backend/app/application/services/recent_transcript_context.py:23-35 | The window is the longest fitting suffix of everything accepted since the last clear, the newest is kept, and an oversized segment changes nothing. |
| RecentContext.RecentTranscriptContext.TrimOldest | backend/app/application/services/recent_transcript_context.py:73-82 | The two trimming loops drop no more oldest entries than the limits require. |
| RecentContext.RecentTranscriptContext.BuildReplyContext | backend/app/application/services/recent_transcript_context.py:49-59 | The reply context is that window, newest apart, within both limits. |
| RecentContext.WindowIsIncremental | backend/app/application/services/recent_transcript_context.py:33-35 | Computing the window from the previous window alone loses nothing. |
| RecentContext.WindowIsLongestSuffix | backend/app/application/services/recent_transcript_context.py:23-41 | After any adds and clears the stepwise window is the longest fitting suffix of the history. |
| TranscriptDeduplication.Deduplicate | backend/app/application/services/transcript_deduplicator.py:26-66 | The longest overlap within the cap is removed, the kept text is a stripped end of the trimmed text, and its words are those after the overlap. |
| TranscriptDeduplication.NormalizedCurrentTokens | backend/app/application/services/transcript_deduplicator.py:78-87 | The loop yields every token that normalizes to something, with its span. |
| TranscriptDeduplication.NothingIsLost | backend/app/application/services/transcript_deduplicator.py:26-66 | The current words are a suffix of the previous words followed by the accepted ones. |
| TranscriptDeduplication.StripKeepsWords | backend/app/application/services/transcript_deduplicator.py:34-43 | Stripping changes no word, so both tokenizers agree on the trimmed text. |
| TranscriptDeduplication.TokensSplitTheWords | backend/app/application/services/transcript_deduplicator.py:65-66 | Cutting after a token's end leaves exactly the words after it. |
| TranscriptDeduplication.AcceptSegments | backend/app/application/use_cases/process_live_audio_chunk.py:108-138 | Each segment is compared with the text accepted last, and silence means that nothing was accepted. |
| TranscriptDeduplication.FoldLosesNothing | backend/app/application/use_cases/process_live_audio_chunk.py:108-138 | Along the whole fold, each segment's words end the log of all words once the segment is handled. |

## Left out

- f32 and f64 rounding: times, positions and samples are exact; the 1e-6 tolerance of finalization is kept as an explicit bound.
- Overflow of u64 positions and usize lengths, and non-finite times; the mixer's 64-bit index limits are modelled.
- CapturePipeline.ProcessingPipeline.ProcessNative: starts from frames already mixed down to one channel; sample formats and channel layouts are not modelled.
- CapturePipeline.ProcessingPipeline.ProcessMixedFrame: what the sender has drained by the time of a push is not modelled; the queue may answer each chunk in any way.
- CapturePipeline.ProcessingPipeline.ProcessRecordingFrame: building the WAV bytes and queueing them are one answer of the writer per segment.
- The reorder buffer, and the timeouts and start of the capture coordinator.
- AudioMixing.AudioMixer.DrainThrough: removes the ready samples from the map at once instead of one by one while walking them.
- Single-source capture, whose mixer passes frames straight on: `CapturePipeline` composes the common timeline only.
- Live samples after the last full window that a gap discards: the chunker drops them, and no property claims them.
- AES-GCM, keys, files and SQL: ciphertext is opaque, storage is a map from index to segment, and a unit of work is one atomic step.
- Segment numbers above 999,999, whose file names no longer sort by number.
- Recordings that do not exist, key references, and reconciliation of missing storage.
- RecordingDelivery.RecordSession: the recording's index counter saturates at the 32-bit limit; completion is stated for fewer segments than that.
- RecordingProtocol.TimingIsSoundOverEveryRun: concerns one recording; recordings share no state in the modelled calls.
- RecordingProtocol.RecordingBackend.Execute: runs the phases back to back; interleavings are stated on the step functions its phase methods are proved against.
- AssistOrchestration.ProviderStartsOnlyForTheNewest: speaks of the step that schedules the provider call, because the event loop begins the call itself a moment later.
- AssistOrchestration.AssistModeOrchestrator.OperationAnswered: no provider answers with the processing state, which no use case does.
- PriorityGate.AdmissionWait.Resume: every wait but a timed one may wake at any time, which allows more behaviour than the event flags do.
- Texts, timestamps and identifiers of assist updates, and the meeting an orchestrator belongs to: segments are their ordinals.
- LiveSession.ConnectionHandler.Serve: assist updates and assist enqueueing are modelled apart, and a failing follow-up is a property of the message.
- Origin, token and hello checks, parsing of control messages and audio frames, and failures while sending.
- Splitting text into sentences and tokens by regular expression: sentences are given, white space is a predicate and normalization a function.
- Meeting aggregate, retention, review merging, user interface, HTTP routes, settings and diagnostics.
