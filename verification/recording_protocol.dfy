/**
 * Writing, finalizing and failing one recording, as a state machine.
 *
 * A segment write runs in phases: a database read, external storage work, and a database commit that
 * validates again; a rejected commit deletes the stored segment. Each database unit of work and each
 * storage call is one atomic step here. Any number of writers, lifecycle calls and deletions interleave.
 */
module RecordingProtocol {
  import opened Wrappers
  import opened RecordingTiming

  datatype RecordingState = Pending | Recording | Finalizing | Completed | Incomplete | Failed | Deleted | Missing

  datatype DeletionStatus = NotScheduled | Scheduled | Deleting | DeletionDone | DeletionFailed

  datatype MediaFormat = LegacyM4a | WavSegmentedV1

  datatype Record = Record(
    id: nat, state: RecordingState, format: MediaFormat, consentConfirmed: bool, deletion: DeletionStatus,
    currentSegmentIndex: nat, captureAnchor: Option<real>, durationSeconds: Option<real>, segmentCount: int,
    hasGaps: bool, failureCode: Option<string>)

  // A validated WAV segment: its sample count, and whatever its bytes are.
  datatype Segment = Segment(sampleCount: int, payload: nat)

  datatype Command = Command(index: int, segment: Segment)

  // Where a writer is between its awaits. start is computed by the first phase and used by the last.
  datatype Phase =
    | Requested(command: Command)
    | Read(command: Command, start: int, metadataIndex: int)
    | Listed(command: Command, start: int)
    | Stored(command: Command, start: int)
    | Rejected(command: Command)

  // The durable state, the writers suspended in it, and how many deletions are between marking the record
  // and removing the files, or between that and the last mark. committed says which segment each row was
  // saved for.
  datatype Sys = Sys(
    record: Record, rows: seq<Timing>, committed: seq<Segment>, storage: map<int, Segment>,
    writers: map<nat, Phase>, marked: nat, emptied: nat)

  datatype Event =
    | BeginWrite(writer: nat, command: Command)
    | ReadPhase(writer: nat)
    | ListPhase(writer: nat)
    | StorePhase(writer: nat, succeeds: bool)
    | CommitPhase(writer: nat, databaseFails: bool)
    | Compensate(writer: nat, succeeds: bool)
    | MarkStarted(captureAnchor: real)
    | MarkFailed(code: string)
    | Finalize(durationSeconds: real, segmentCount: int, hasGaps: bool)
    | MarkDeleting
    | DeleteFiles
    | DeletionFails(code: string, filesGone: bool)
    | MarkDeleted

  /* ---------- the use case's helpers ---------- */

  predicate RangeIndexed(rows: seq<Timing>) {
    forall k :: 0 <= k < |rows| ==> rows[k].segmentIndex == k
  }

  // _last_contiguous_timing: None is the lifecycle error.
  function LastContiguousTiming(rows: seq<Timing>): Option<Option<Timing>> {
    if !RangeIndexed(rows) then None
    else if rows == [] then Some(None)
    else Some(Some(rows[|rows| - 1]))
  }

  function ExpectedNextTimingIndex(previous: Option<Timing>): int {
    if previous.None? then 0 else previous.value.segmentIndex + 1
  }

  function StartSample(previous: Option<Timing>): int {
    if previous.None? then 0 else previous.value.startSample + previous.value.sampleCount
  }

  // list_segments gives exactly the indexes 0, ..., n - 1.
  ghost predicate Lists(storage: map<int, Segment>, n: int) {
    forall i :: i in storage <==> 0 <= i < n
  }

  predicate Writable(record: Record) {
    record.state == Recording && record.format == WavSegmentedV1
  }

  // The timing table keeps one row per index, listed by index: saving replaces or inserts.
  function SaveTiming(rows: seq<Timing>, t: Timing): seq<Timing> {
    if rows == [] || t.segmentIndex < rows[0].segmentIndex then [t] + rows
    else if rows[0].segmentIndex == t.segmentIndex then [t] + rows[1..]
    else [rows[0]] + SaveTiming(rows[1..], t)
  }

  lemma {:induction false} SavingPastTheEndAppends(rows: seq<Timing>, t: Timing)
    requires forall k :: 0 <= k < |rows| ==> rows[k].segmentIndex < t.segmentIndex
    ensures SaveTiming(rows, t) == rows + [t]
    decreases |rows|
  {
    if rows != [] {
      SavingPastTheEndAppends(rows[1..], t);
      assert [rows[0]] + rows[1..] == rows;
    }
  }

  /* ---------- the steps ---------- */

  function Without(writers: map<nat, Phase>, w: nat): map<nat, Phase> {
    map v | v in writers && v != w :: writers[v]
  }

  // First phase: validate the recording and the expected index, and compute the start sample.
  function ReadStep(s: Sys, w: nat, c: Command): Sys {
    var last := LastContiguousTiming(s.rows);
    if !Writable(s.record) || last.None? ||
       c.index != ExpectedNextTimingIndex(last.value) ||
       s.record.currentSegmentIndex != ExpectedNextTimingIndex(last.value)
    then s.(writers := Without(s.writers, w))
    else s.(writers := s.writers[w := Read(c, StartSample(last.value), s.record.currentSegmentIndex)])
  }

  // Second phase, before any byte is written: storage must list exactly the earlier segments.
  ghost function ListStep(s: Sys, w: nat, p: Phase): Sys
    requires p.Read?
  {
    if Lists(s.storage, p.command.index) && p.metadataIndex == p.command.index
    then s.(writers := s.writers[w := Listed(p.command, p.start)])
    else s.(writers := Without(s.writers, w))
  }

  // Writing and finalizing the segment file, which replaces any file of that index.
  function StoreStep(s: Sys, w: nat, p: Phase, succeeds: bool): Sys
    requires p.Listed?
  {
    if succeeds
    then s.(storage := s.storage[p.command.index := p.command.segment],
            writers := s.writers[w := Stored(p.command, p.start)])
    else s.(writers := Without(s.writers, w))
  }

  // Third phase: everything is validated again; the start sample is the one read before storing.
  function CommitStep(s: Sys, w: nat, p: Phase, databaseFails: bool): Sys
    requires p.Stored?
  {
    var c := p.command;
    var last := LastContiguousTiming(s.rows);
    if databaseFails || !Writable(s.record) || last.None? ||
       s.record.currentSegmentIndex != c.index || ExpectedNextTimingIndex(last.value) != c.index ||
       c.index < 0
    then s.(writers := s.writers[w := Rejected(c)])
    else
      s.(record := s.record.(currentSegmentIndex := c.index + 1),
         rows := SaveTiming(s.rows, Timing(s.record.id, c.index, c.segment.sampleCount, p.start)),
         committed := s.committed + [c.segment],
         writers := Without(s.writers, w))
  }

  // A rejected commit deletes the stored file of its index; a failing deletion is suppressed.
  function CompensateStep(s: Sys, w: nat, p: Phase, succeeds: bool): Sys
    requires p.Rejected?
  {
    s.(storage := if succeeds then map i | i in s.storage && i != p.command.index :: s.storage[i] else s.storage,
       writers := Without(s.writers, w))
  }

  function Abs(x: real): real {
    if x < 0.0 then -x else x
  }

  // math.isclose with an absolute tolerance of 1e-6 only.
  predicate IsClose(a: real, b: real) {
    Abs(a - b) <= 0.000001
  }

  ghost function FinalizeStep(s: Sys, durationSeconds: real, segmentCount: int, hasGaps: bool): Sys {
    if s.record.state != Recording && s.record.state != Finalizing then s
    else if s.record.format != WavSegmentedV1 then
      s.(record := s.record.(
        state := Completed, durationSeconds := Some(durationSeconds), segmentCount := segmentCount, hasGaps := hasGaps))
    else if s.rows == [] || !Contiguous(s.rows, s.record.id) ||
            segmentCount != |s.rows| || !IsClose(durationSeconds, Duration(s.rows)) then s
    else
      s.(record := s.record.(
        state := Completed, durationSeconds := Some(Duration(s.rows)), segmentCount := |s.rows|, hasGaps := hasGaps))
  }

  predicate Active(state: RecordingState) {
    state == Recording || state == Finalizing
  }

  ghost function Step(s: Sys, e: Event): Sys {
    match e
    case BeginWrite(w, c) =>
      if w in s.writers || c.index < 0 || c.segment.sampleCount <= 0 then s
      else s.(writers := s.writers[w := Requested(c)])
    case ReadPhase(w) =>
      if w in s.writers && s.writers[w].Requested? then ReadStep(s, w, s.writers[w].command) else s
    case ListPhase(w) =>
      if w in s.writers && s.writers[w].Read? then ListStep(s, w, s.writers[w]) else s
    case StorePhase(w, ok) =>
      if w in s.writers && s.writers[w].Listed? then StoreStep(s, w, s.writers[w], ok) else s
    case CommitPhase(w, fails) =>
      if w in s.writers && s.writers[w].Stored? then CommitStep(s, w, s.writers[w], fails) else s
    case Compensate(w, ok) =>
      if w in s.writers && s.writers[w].Rejected? then CompensateStep(s, w, s.writers[w], ok) else s
    case MarkStarted(anchor) =>
      if s.record.state == Pending && s.record.consentConfirmed
      then s.(record := s.record.(state := Recording, captureAnchor := Some(anchor))) else s
    case MarkFailed(code) =>
      if s.record.state == Deleted || (s.record.state == Failed && s.record.failureCode == Some(code)) then s
      else s.(record := s.record.(state := Failed, failureCode := Some(code)))
    case Finalize(d, n, gaps) => FinalizeStep(s, d, n, gaps)
    case MarkDeleting =>
      if Active(s.record.state) then s
      else if s.record.state == Deleted then s.(marked := s.marked + 1)
      else s.(record := s.record.(deletion := Deleting), marked := s.marked + 1)
    case DeleteFiles =>
      if s.marked == 0 then s else s.(storage := map[], marked := s.marked - 1, emptied := s.emptied + 1)
    case DeletionFails(code, filesGone) => DeletionFailsStep(s, code, filesGone)
    case MarkDeleted =>
      if s.emptied == 0 then s
      else if Active(s.record.state) then s.(emptied := s.emptied - 1)
      else
        s.(record := s.record.(state := Deleted, deletion := DeletionDone, failureCode := None),
           emptied := s.emptied - 1)
  }

  // Removing the files or, with the files gone, the key did not work; the record is marked whatever its
  // state has become, unless it is deleted.
  function DeletionFailsStep(s: Sys, code: string, filesGone: bool): Sys {
    if (filesGone && s.emptied == 0) || (!filesGone && s.marked == 0) then s
    else
      var t := if filesGone then s.(emptied := s.emptied - 1) else s.(marked := s.marked - 1);
      if s.record.state == Deleted then t
      else t.(record := s.record.(deletion := DeletionFailed, failureCode := Some(code)))
  }

  // A prepared recording.
  function Prepared(id: nat, format: MediaFormat, consent: bool): Sys {
    Sys(Record(id, Pending, format, consent, NotScheduled, 0, None, None, 0, false, None),
        [], [], map[], map[], 0, 0)
  }

  ghost function Run(s: Sys, trace: seq<Event>): Sys {
    if trace == [] then s else Step(Run(s, trace[..|trace| - 1]), trace[|trace| - 1])
  }

  lemma {:induction false} RunStep(s: Sys, trace: seq<Event>, e: Event)
    ensures Run(s, trace + [e]) == Step(Run(s, trace), e)
  {
    assert (trace + [e])[..|trace|] == trace;
  }

  /* ---------- timing: any interleaving whatsoever ---------- */

  // Whatever a writer computed before the external write still is the sum of the rows before its index.
  ghost predicate StartIsPrefixSum(s: Sys, index: int, start: int) {
    0 <= index <= |s.rows| && start == Sum(s.rows, index)
  }

  ghost predicate WriterSound(s: Sys, w: nat)
    requires w in s.writers
  {
    var p := s.writers[w];
    p.command.segment.sampleCount > 0 && p.command.index >= 0 &&
    (p.Read? || p.Listed? || p.Stored? ==> StartIsPrefixSum(s, p.command.index, p.start))
  }

  ghost predicate CompletedMatchesRows(s: Sys) {
    s.record.state == Completed && s.record.format == WavSegmentedV1 ==>
      s.rows != [] && s.record.consentConfirmed &&
      s.record.segmentCount == |s.rows| && s.record.durationSeconds == Some(Duration(s.rows))
  }

  ghost predicate TimingSound(s: Sys) {
    Contiguous(s.rows, s.record.id) &&
    s.record.currentSegmentIndex == |s.rows| && |s.committed| == |s.rows| &&
    (s.record.state == Pending ==> s.rows == []) &&
    (s.record.state == Recording || s.record.state == Finalizing ==> s.record.consentConfirmed) &&
    CompletedMatchesRows(s) &&
    forall w {:trigger WriterSound(s, w)} :: w in s.writers ==> WriterSound(s, w)
  }

  lemma {:induction false} ContiguousIsRangeIndexed(rows: seq<Timing>, id: nat)
    requires Contiguous(rows, id)
    ensures RangeIndexed(rows)
    ensures StartSample(LastContiguousTiming(rows).value) == Total(rows)
    ensures ExpectedNextTimingIndex(LastContiguousTiming(rows).value) == |rows|
  {
    forall k | 0 <= k < |rows| ensures rows[k].segmentIndex == k {
      assert RowInPlace(rows, id, k);
    }
    if rows != [] {
      assert RowInPlace(rows, id, |rows| - 1);
    }
  }

  lemma {:induction false} AppendKeepsContiguous(rows: seq<Timing>, id: nat, t: Timing)
    requires Contiguous(rows, id)
    requires t.recordingId == id && t.sampleCount > 0 && t.segmentIndex == |rows| && t.startSample == Total(rows)
    ensures Contiguous(rows + [t], id) && SaveTiming(rows, t) == rows + [t]
  {
    ContiguousIsRangeIndexed(rows, id);
    SavingPastTheEndAppends(rows, t);
    var all := rows + [t];
    forall k | 0 <= k < |all| ensures RowInPlace(all, id, k) {
      SumOfPrefix(rows, [t], k);
      assert k < |rows| ==> RowInPlace(rows, id, k);
    }
  }

  lemma {:induction false} ReadKeepsTiming(s: Sys, w: nat)
    requires TimingSound(s) && w in s.writers && s.writers[w].Requested?
    ensures TimingSound(ReadStep(s, w, s.writers[w].command))
  {
    ContiguousIsRangeIndexed(s.rows, s.record.id);
    var c := s.writers[w].command;
    var t := ReadStep(s, w, c);
    assert WriterSound(s, w);
    forall v | v in t.writers ensures WriterSound(t, v) {
      assert v != w ==> WriterSound(s, v);
    }
  }

  lemma {:induction false} CommitKeepsTiming(s: Sys, w: nat, databaseFails: bool)
    requires TimingSound(s) && w in s.writers && s.writers[w].Stored?
    ensures TimingSound(CommitStep(s, w, s.writers[w], databaseFails))
    ensures var t := CommitStep(s, w, s.writers[w], databaseFails);
            (t.rows == s.rows && t.committed == s.committed) ||
            (s.record.state == Recording && t.committed == s.committed + [s.writers[w].command.segment] &&
             s.writers[w].command.index == |s.rows| &&
             t.rows == s.rows + [Timing(s.record.id, |s.rows|, s.writers[w].command.segment.sampleCount,
               Total(s.rows))])
  {
    ContiguousIsRangeIndexed(s.rows, s.record.id);
    assert WriterSound(s, w);
    var p := s.writers[w];
    var t := CommitStep(s, w, p, databaseFails);
    if p.command.index == |s.rows| {
      AppendKeepsContiguous(s.rows, s.record.id,
        Timing(s.record.id, p.command.index, p.command.segment.sampleCount, p.start));
    }
    forall v | v in t.writers ensures WriterSound(t, v) {
      assert WriterSound(s, v);
      if t.rows != s.rows {
        var q := s.writers[v];
        if q.Read? || q.Listed? || q.Stored? {
          SumOfPrefix(s.rows, t.rows[|s.rows|..], q.command.index);
          assert t.rows == s.rows + t.rows[|s.rows|..];
        }
      }
    }
  }

  // Every step of every party keeps the timing rows sound.
  lemma {:induction false} StepKeepsTiming(s: Sys, e: Event)
    requires TimingSound(s)
    ensures TimingSound(Step(s, e))
  {
    match e
    case ReadPhase(w) =>
      if w in s.writers && s.writers[w].Requested? { ReadKeepsTiming(s, w); }
    case CommitPhase(w, fails) =>
      if w in s.writers && s.writers[w].Stored? { CommitKeepsTiming(s, w, fails); }
    case _ =>
      OtherStepsKeepTiming(s, e);
  }

  lemma {:induction false} OtherStepsKeepTiming(s: Sys, e: Event)
    requires TimingSound(s) && !e.ReadPhase? && !e.CommitPhase?
    ensures TimingSound(Step(s, e))
  {
    if e.BeginWrite? || e.ListPhase? || e.StorePhase? || e.Compensate? {
      StorageStepsKeepTiming(s, e);
    } else {
      RecordStepsKeepTiming(s, e);
    }
  }

  lemma {:induction false} StorageStepsKeepTiming(s: Sys, e: Event)
    requires TimingSound(s) && (e.BeginWrite? || e.ListPhase? || e.StorePhase? || e.Compensate?)
    ensures TimingSound(Step(s, e))
  {
    var t := Step(s, e);
    forall v | v in t.writers ensures WriterSound(t, v) {
      assert v in s.writers ==> WriterSound(s, v);
    }
  }

  lemma {:induction false} RecordStepsKeepTiming(s: Sys, e: Event)
    requires TimingSound(s)
    requires e.MarkStarted? || e.MarkFailed? || e.Finalize? || e.MarkDeleting? || e.DeleteFiles? || e.DeletionFails? ||
      e.MarkDeleted?
    ensures TimingSound(Step(s, e))
  {
    var t := Step(s, e);
    forall v | v in t.writers ensures WriterSound(t, v) {
      assert WriterSound(s, v);
    }
  }

  // Under every interleaving the rows are contiguous from 0, each start is the prefix sum, and the
  // recording's segment index is the row count, although each start was computed before its write.
  lemma {:induction false} TimingIsSoundOverEveryRun(id: nat, format: MediaFormat, consent: bool, trace: seq<Event>)
    ensures TimingSound(Run(Prepared(id, format, consent), trace))
    decreases |trace|
  {
    if trace != [] {
      var before := trace[..|trace| - 1];
      TimingIsSoundOverEveryRun(id, format, consent, before);
      StepKeepsTiming(Run(Prepared(id, format, consent), before), trace[|trace| - 1]);
    }
  }

  // After the recording has left RECORDING nothing brings it back and nothing changes a row.
  lemma {:induction false} RowsFreezeAfterRecording(s: Sys, trace: seq<Event>)
    requires TimingSound(s) && s.record.state != Pending && s.record.state != Recording
    ensures Run(s, trace).rows == s.rows && Run(s, trace).committed == s.committed
    ensures TimingSound(Run(s, trace))
    ensures Run(s, trace).record.state != Pending && Run(s, trace).record.state != Recording
    decreases |trace|
  {
    if trace != [] {
      var before := trace[..|trace| - 1];
      RowsFreezeAfterRecording(s, before);
      StepKeepsTiming(Run(s, before), trace[|trace| - 1]);
      StepOutsideRecording(Run(s, before), trace[|trace| - 1]);
    }
  }

  lemma {:induction false} StepOutsideRecording(s: Sys, e: Event)
    requires TimingSound(s) && s.record.state != Pending && s.record.state != Recording
    ensures Step(s, e).rows == s.rows && Step(s, e).committed == s.committed
    ensures Step(s, e).record.state != Pending && Step(s, e).record.state != Recording
  {
  }

  // While recording, rows only ever grow at the end.
  lemma {:induction false} RowsOnlyGrow(s: Sys, e: Event)
    requires TimingSound(s)
    ensures s.rows <= Step(s, e).rows && |Step(s, e).rows| <= |s.rows| + 1
    ensures s.committed <= Step(s, e).committed
  {
    if e.CommitPhase? && e.writer in s.writers && s.writers[e.writer].Stored? {
      CommitKeepsTiming(s, e.writer, e.databaseFails);
    }
  }

  /* ---------- storage ---------- */

  // A row has the segment it was saved for in storage, of the row's size.
  ghost predicate RowStored(s: Sys, k: nat)
    requires k < |s.rows|
  {
    k < |s.committed| && k in s.storage && s.storage[k] == s.committed[k] &&
    s.storage[k].sampleCount == s.rows[k].sampleCount
  }

  ghost predicate EveryRowStored(s: Sys) {
    forall k {:trigger RowStored(s, k)} :: 0 <= k < |s.rows| ==> RowStored(s, k)
  }

  // A writer that has stored finds its own segment there.
  ghost predicate WriterStored(s: Sys, w: nat)
    requires w in s.writers
  {
    var p := s.writers[w];
    p.Stored? ==> p.command.index in s.storage && s.storage[p.command.index] == p.command.segment
  }

  // Every row and every writer about to commit has its own segment in storage.
  ghost predicate Backed(s: Sys) {
    EveryRowStored(s) && forall w {:trigger WriterStored(s, w)} :: w in s.writers ==> WriterStored(s, w)
  }

  // Another writer, about to commit, that storing or deleting this index would rob of its segment.
  ghost predicate Robs(s: Sys, w: nat, index: int, replacement: Option<Segment>, v: nat)
    requires v in s.writers
  {
    v != w && s.writers[v].Stored? && s.writers[v].command.index == index &&
    replacement != Some(s.writers[v].command.segment)
  }

  ghost predicate RobsNobody(s: Sys, w: nat, index: int, replacement: Option<Segment>) {
    forall v {:trigger Robs(s, w, index, replacement, v)} :: v in s.writers ==> !Robs(s, w, index, replacement, v)
  }

  // Storing harms no row when it has none of that index, or one saved for the very same segment.
  predicate ReplacesNoRow(s: Sys, c: Command) {
    0 <= c.index < |s.committed| ==> s.committed[c.index] == c.segment
  }

  // What can be checked before a step: it takes no segment away from a row or from a writer about to commit.
  ghost predicate Harmless(s: Sys, e: Event) {
    match e
    case StorePhase(w, succeeds) =>
      succeeds && w in s.writers && s.writers[w].Listed? ==>
        var c := s.writers[w].command;
        ReplacesNoRow(s, c) && RobsNobody(s, w, c.index, Some(c.segment))
    case Compensate(w, succeeds) =>
      succeeds && w in s.writers && s.writers[w].Rejected? ==>
        var c := s.writers[w].command;
        c.index >= |s.rows| && RobsNobody(s, w, c.index, None)
    case DeleteFiles =>
      s.marked > 0 ==> s.rows == [] && forall v :: v in s.writers ==> !s.writers[v].Stored?
    case _ => true
  }

  lemma {:induction false} StoreIsSafeIff(s: Sys, w: nat)
    requires TimingSound(s) && Backed(s) && w in s.writers && s.writers[w].Listed?
    ensures Backed(StoreStep(s, w, s.writers[w], true)) <==> Harmless(s, StorePhase(w, true))
  {
    var c := s.writers[w].command;
    var t := StoreStep(s, w, s.writers[w], true);
    assert WriterSound(s, w);
    forall k | 0 <= k < |s.rows| ensures RowStored(t, k) <==> k != c.index || s.committed[k] == c.segment {
      assert RowStored(s, k);
    }
    forall v | v in s.writers ensures WriterStored(t, v) <==> !Robs(s, w, c.index, Some(c.segment), v) {
      assert WriterStored(s, v);
    }
    if 0 <= c.index < |s.rows| && s.committed[c.index] != c.segment {
      assert !RowStored(t, c.index);
    }
    if !RobsNobody(s, w, c.index, Some(c.segment)) {
      var v :| v in s.writers && Robs(s, w, c.index, Some(c.segment), v);
      assert v in t.writers && !WriterStored(t, v);
    }
  }

  // Compensation deletes by index alone: it is harmless if and only if no row has the rejected writer's index
  // and no other writer has stored that index and is still to commit.
  lemma {:induction false} CompensationIsSafeIff(s: Sys, w: nat)
    requires TimingSound(s) && Backed(s) && w in s.writers && s.writers[w].Rejected?
    ensures Backed(CompensateStep(s, w, s.writers[w], true)) <==> Harmless(s, Compensate(w, true))
  {
    var c := s.writers[w].command;
    var t := CompensateStep(s, w, s.writers[w], true);
    assert WriterSound(s, w);
    forall k | 0 <= k < |s.rows| ensures RowStored(t, k) <==> k != c.index {
      assert RowStored(s, k);
    }
    forall v | v in t.writers ensures WriterStored(t, v) <==> !Robs(s, w, c.index, None, v) {
      assert WriterStored(s, v);
    }
    if c.index < |s.rows| {
      assert !RowStored(t, c.index);
    }
    if !RobsNobody(s, w, c.index, None) {
      var v :| v in s.writers && Robs(s, w, c.index, None, v);
      assert v in t.writers && !WriterStored(t, v);
    }
  }

  lemma {:induction false} DeletionIsSafeIff(s: Sys)
    requires TimingSound(s) && Backed(s)
    ensures Backed(Step(s, DeleteFiles)) <==> Harmless(s, DeleteFiles)
  {
    var t := Step(s, DeleteFiles);
    if s.marked == 0 {
      assert t == s;
    } else {
      if s.rows != [] {
        assert !RowStored(t, 0);
      }
      forall v | v in s.writers ensures WriterStored(t, v) <==> !s.writers[v].Stored? {}
    }
  }

  // Committing moves a stored segment from its writer to its row.
  lemma {:induction false} CommitKeepsBacked(s: Sys, w: nat, databaseFails: bool)
    requires TimingSound(s) && Backed(s)
    ensures Backed(Step(s, CommitPhase(w, databaseFails)))
  {
    var t := Step(s, CommitPhase(w, databaseFails));
    if w in s.writers && s.writers[w].Stored? {
      CommitKeepsTiming(s, w, databaseFails);
      assert WriterStored(s, w);
    }
    forall k | 0 <= k < |t.rows| ensures RowStored(t, k) {
      assert k < |s.rows| ==> RowStored(s, k);
    }
    forall v | v in t.writers ensures WriterStored(t, v) {
      assert WriterStored(s, v);
    }
  }

  lemma {:induction false} QuietStepsKeepBacked(s: Sys, e: Event)
    requires Backed(s) && !e.StorePhase? && !e.CommitPhase? && !e.Compensate? && !e.DeleteFiles?
    ensures Backed(Step(s, e))
  {
    var t := Step(s, e);
    forall k | 0 <= k < |t.rows| ensures RowStored(t, k) {
      assert RowStored(s, k);
    }
    forall v | v in t.writers ensures WriterStored(t, v) {
      assert v in s.writers ==> WriterStored(s, v);
    }
  }

  // With any number of writers, a step keeps every row and every writer about to commit backed by its own
  // segment if and only if it is harmless.
  lemma {:induction false} StepKeepsBackedIff(s: Sys, e: Event)
    requires TimingSound(s) && Backed(s)
    ensures Backed(Step(s, e)) <==> Harmless(s, e)
  {
    match e
    case StorePhase(w, succeeds) =>
      if w in s.writers && s.writers[w].Listed? {
        if succeeds { StoreIsSafeIff(s, w); } else { FailedStoreKeepsBacked(s, w); }
      }
    case CommitPhase(w, fails) => CommitKeepsBacked(s, w, fails);
    case Compensate(w, succeeds) =>
      if w in s.writers && s.writers[w].Rejected? {
        if succeeds { CompensationIsSafeIff(s, w); } else { FailedCompensationKeepsBacked(s, w); }
      }
    case DeleteFiles => DeletionIsSafeIff(s);
    case _ => QuietStepsKeepBacked(s, e);
  }

  lemma {:induction false} FailedStoreKeepsBacked(s: Sys, w: nat)
    requires Backed(s) && w in s.writers && s.writers[w].Listed?
    ensures Backed(StoreStep(s, w, s.writers[w], false))
  {
    WithoutKeepsBacked(s, w);
  }

  lemma {:induction false} FailedCompensationKeepsBacked(s: Sys, w: nat)
    requires Backed(s) && w in s.writers && s.writers[w].Rejected?
    ensures Backed(CompensateStep(s, w, s.writers[w], false))
  {
    WithoutKeepsBacked(s, w);
  }

  lemma {:induction false} WithoutKeepsBacked(s: Sys, w: nat)
    requires Backed(s)
    ensures Backed(s.(writers := Without(s.writers, w)))
  {
    var t := s.(writers := Without(s.writers, w));
    forall k | 0 <= k < |t.rows| ensures RowStored(t, k) {
      assert RowStored(s, k);
    }
    forall v | v in t.writers ensures WriterStored(t, v) {
      assert WriterStored(s, v);
    }
  }

  // Over a run: after each of its steps, and before it.
  ghost predicate BackedThroughout(s: Sys, trace: seq<Event>) {
    Backed(Run(s, trace)) && (trace != [] ==> BackedThroughout(s, trace[..|trace| - 1]))
  }

  ghost predicate HarmlessThroughout(s: Sys, trace: seq<Event>) {
    trace != [] ==>
      Harmless(Run(s, trace[..|trace| - 1]), trace[|trace| - 1]) && HarmlessThroughout(s, trace[..|trace| - 1])
  }

  // The exact condition over every run, with any number of writers: every row and every writer about to commit
  // has its own segment all along if and only if no step robbed one.
  lemma {:induction false} BackedIffHarmless(id: nat, format: MediaFormat, consent: bool, trace: seq<Event>)
    ensures var s := Prepared(id, format, consent); BackedThroughout(s, trace) <==> HarmlessThroughout(s, trace)
    decreases |trace|
  {
    var s := Prepared(id, format, consent);
    if trace != [] {
      var front := trace[..|trace| - 1];
      BackedIffHarmless(id, format, consent, front);
      if BackedThroughout(s, front) {
        TimingIsSoundOverEveryRun(id, format, consent, front);
        BackedNow(s, front);
        StepKeepsBackedIff(Run(s, front), trace[|trace| - 1]);
      }
    }
  }

  lemma {:induction false} BackedNow(s: Sys, trace: seq<Event>)
    requires BackedThroughout(s, trace)
    ensures Backed(Run(s, trace)) && EveryRowStored(Run(s, trace))
  {
  }

  // The same for the rows alone. Here a commit needs its own file still to be there.
  predicate Commits(s: Sys, w: nat, databaseFails: bool) {
    !databaseFails && w in s.writers && s.writers[w].Stored? && Writable(s.record) &&
    s.writers[w].command.index == |s.rows|
  }

  ghost predicate KeepsRows(s: Sys, e: Event) {
    match e
    case StorePhase(w, succeeds) =>
      succeeds && w in s.writers && s.writers[w].Listed? ==> ReplacesNoRow(s, s.writers[w].command)
    case CommitPhase(w, fails) => Commits(s, w, fails) ==> WriterStored(s, w)
    case Compensate(w, succeeds) =>
      succeeds && w in s.writers && s.writers[w].Rejected? ==> s.writers[w].command.index >= |s.rows|
    case DeleteFiles => s.marked > 0 ==> s.rows == []
    case _ => true
  }

  lemma {:induction false} CommitKeepsRowsIff(s: Sys, w: nat, databaseFails: bool)
    requires TimingSound(s) && EveryRowStored(s)
    ensures EveryRowStored(Step(s, CommitPhase(w, databaseFails))) <==> KeepsRows(s, CommitPhase(w, databaseFails))
  {
    var t := Step(s, CommitPhase(w, databaseFails));
    ContiguousIsRangeIndexed(s.rows, s.record.id);
    if w in s.writers && s.writers[w].Stored? {
      CommitKeepsTiming(s, w, databaseFails);
      assert t.rows != s.rows <==> Commits(s, w, databaseFails);
      assert t.rows != s.rows ==> (RowStored(t, |s.rows|) <==> WriterStored(s, w));
    }
    forall k | 0 <= k < |s.rows| ensures RowStored(t, k) {
      assert RowStored(s, k);
    }
  }

  lemma {:induction false} StoreKeepsRowsIff(s: Sys, w: nat, succeeds: bool)
    requires TimingSound(s) && EveryRowStored(s)
    ensures EveryRowStored(Step(s, StorePhase(w, succeeds))) <==> KeepsRows(s, StorePhase(w, succeeds))
  {
    var t := Step(s, StorePhase(w, succeeds));
    var writes := succeeds && w in s.writers && s.writers[w].Listed?;
    forall k | 0 <= k < |s.rows|
      ensures RowStored(t, k) <==>
        (writes ==> k != s.writers[w].command.index || s.committed[k] == s.writers[w].command.segment)
    {
      assert RowStored(s, k);
    }
    if writes {
      var index := s.writers[w].command.index;
      assert 0 <= index < |s.rows| && s.committed[index] != s.writers[w].command.segment ==> !RowStored(t, index);
    }
  }

  lemma {:induction false} CompensationKeepsRowsIff(s: Sys, w: nat, succeeds: bool)
    requires TimingSound(s) && EveryRowStored(s)
    ensures EveryRowStored(Step(s, Compensate(w, succeeds))) <==> KeepsRows(s, Compensate(w, succeeds))
  {
    var t := Step(s, Compensate(w, succeeds));
    var deletes := succeeds && w in s.writers && s.writers[w].Rejected?;
    forall k | 0 <= k < |s.rows| ensures RowStored(t, k) <==> (deletes ==> k != s.writers[w].command.index) {
      assert RowStored(s, k);
    }
    if deletes {
      assert WriterSound(s, w);
      var index := s.writers[w].command.index;
      assert index < |s.rows| ==> !RowStored(t, index);
    }
  }

  lemma {:induction false} DeletionKeepsRowsIff(s: Sys)
    requires EveryRowStored(s)
    ensures EveryRowStored(Step(s, DeleteFiles)) <==> KeepsRows(s, DeleteFiles)
  {
    var t := Step(s, DeleteFiles);
    assert s.marked == 0 ==> t == s;
    if s.marked > 0 && s.rows != [] {
      assert !RowStored(t, 0);
    }
  }

  lemma {:induction false} OtherStepsKeepRows(s: Sys, e: Event)
    requires EveryRowStored(s) && !e.StorePhase? && !e.CommitPhase? && !e.Compensate? && !e.DeleteFiles?
    ensures EveryRowStored(Step(s, e))
  {
    var t := Step(s, e);
    forall k | 0 <= k < |t.rows| ensures RowStored(t, k) {
      assert RowStored(s, k);
    }
  }

  ghost predicate RowsStoredThroughout(s: Sys, trace: seq<Event>) {
    EveryRowStored(Run(s, trace)) && (trace != [] ==> RowsStoredThroughout(s, trace[..|trace| - 1]))
  }

  ghost predicate KeepsRowsThroughout(s: Sys, trace: seq<Event>) {
    trace != [] ==>
      KeepsRows(Run(s, trace[..|trace| - 1]), trace[|trace| - 1]) && KeepsRowsThroughout(s, trace[..|trace| - 1])
  }

  // Over every run, with any number of writers: every row has its own segment all along if and only if no
  // step took one away and every commit found its file.
  lemma {:induction false} RowsStoredIff(id: nat, format: MediaFormat, consent: bool, trace: seq<Event>)
    ensures var s := Prepared(id, format, consent); RowsStoredThroughout(s, trace) <==> KeepsRowsThroughout(s, trace)
    decreases |trace|
  {
    var s := Prepared(id, format, consent);
    if trace != [] {
      var front, e := trace[..|trace| - 1], trace[|trace| - 1];
      RowsStoredIff(id, format, consent, front);
      if RowsStoredThroughout(s, front) {
        TimingIsSoundOverEveryRun(id, format, consent, front);
        RowsStoredNow(s, front);
        RowsStepIff(Run(s, front), e);
      }
    }
  }

  lemma {:induction false} RowsStoredNow(s: Sys, trace: seq<Event>)
    requires RowsStoredThroughout(s, trace)
    ensures EveryRowStored(Run(s, trace))
  {
  }

  lemma {:induction false} RowsStepIff(s: Sys, e: Event)
    requires TimingSound(s) && EveryRowStored(s)
    ensures EveryRowStored(Step(s, e)) <==> KeepsRows(s, e)
  {
    match e
    case CommitPhase(w, fails) => CommitKeepsRowsIff(s, w, fails);
    case StorePhase(w, succeeds) => StoreKeepsRowsIff(s, w, succeeds);
    case Compensate(w, succeeds) => CompensationKeepsRowsIff(s, w, succeeds);
    case DeleteFiles => DeletionKeepsRowsIff(s);
    case _ => OtherStepsKeepRows(s, e);
  }

  lemma {:induction false} After(from: Sys, trace: seq<Event>, s: Sys, e: Event)
    returns (longer: seq<Event>, t: Sys)
    requires Run(from, trace) == s
    ensures longer == trace + [e] && t == Step(s, e) && Run(from, longer) == t
  {
    longer, t := trace + [e], Step(s, e);
    RunStep(from, trace, e);
  }

  // Two writers of the same index: the loser's compensation removes the winner's committed segment.
  lemma {:induction false} ConcurrentWritersCanLoseACommittedSegment() returns (trace: seq<Event>)
    ensures var s := Run(Prepared(0, WavSegmentedV1, true), trace); |s.rows| == 1 && s.storage == map[]
  {
    var c := Command(0, Segment(5, 0));
    var from := Prepared(0, WavSegmentedV1, true);
    var s := from;
    trace, s := TwoWritersStored(c, c);
    trace, s := After(from, trace, s, CommitPhase(1, false));
    assert s.rows == [Timing(0, 0, 5, 0)] && s.writers[2] == Stored(c, 0);
    trace, s := After(from, trace, s, CommitPhase(2, false));
    assert |s.rows| == 1 && s.writers[2] == Rejected(c) && s.storage == map[0 := c.segment];
    trace, s := After(from, trace, s, Compensate(2, true));
  }

  // The same without any row at the time of the deletion: it removes the file the other writer then commits.
  lemma {:induction false} EarlyCompensationCanLoseASegment() returns (trace: seq<Event>)
    ensures var s := Run(Prepared(0, WavSegmentedV1, true), trace); |s.rows| == 1 && s.storage == map[]
  {
    var c := Command(0, Segment(5, 0));
    var from := Prepared(0, WavSegmentedV1, true);
    var s := from;
    trace, s := TwoWritersStored(c, c);
    trace, s := After(from, trace, s, CommitPhase(2, true));
    assert s.rows == [] && s.writers[1] == Stored(c, 0) && s.writers[2] == Rejected(c);
    trace, s := After(from, trace, s, Compensate(2, true));
    assert s.storage == map[] && s.writers[1] == Stored(c, 0);
    trace, s := After(from, trace, s, CommitPhase(1, false));
  }

  // And without any compensation: the later file replaces the one whose writer commits.
  lemma {:induction false} LaterFileCanReplaceACommittedOne() returns (trace: seq<Event>)
    ensures var s := Run(Prepared(0, WavSegmentedV1, true), trace);
            s.committed == [Segment(5, 1)] && s.storage == map[0 := Segment(7, 2)] && !EveryRowStored(s)
  {
    var c, d := Command(0, Segment(5, 1)), Command(0, Segment(7, 2));
    var from := Prepared(0, WavSegmentedV1, true);
    var s := from;
    trace, s := TwoWritersStored(c, d);
    trace, s := After(from, trace, s, CommitPhase(1, false));
    assert |s.rows| == 1;
    assert !RowStored(s, 0);
  }

  lemma {:induction false} TwoWritersListed(c: Command, d: Command) returns (trace: seq<Event>, s: Sys)
    requires c.index == d.index == 0 && c.segment.sampleCount > 0 && d.segment.sampleCount > 0
    ensures s == Run(Prepared(0, WavSegmentedV1, true), trace)
    ensures s.record == Prepared(0, WavSegmentedV1, true).record.(state := Recording, captureAnchor := Some(0.0))
    ensures s.rows == [] && s.committed == [] && s.storage == map[]
    ensures s.writers == map[1 := Listed(c, 0), 2 := Listed(d, 0)]
  {
    trace, s := TwoWritersRead(c, d);
    trace, s := After(Prepared(0, WavSegmentedV1, true), trace, s, ListPhase(1));
    trace, s := After(Prepared(0, WavSegmentedV1, true), trace, s, ListPhase(2));
  }

  lemma {:induction false} TwoWritersBegun(c: Command, d: Command) returns (trace: seq<Event>, s: Sys)
    requires c.index == d.index == 0 && c.segment.sampleCount > 0 && d.segment.sampleCount > 0
    ensures s == Run(Prepared(0, WavSegmentedV1, true), trace)
    ensures s.record == Prepared(0, WavSegmentedV1, true).record.(state := Recording, captureAnchor := Some(0.0))
    ensures s.rows == [] && s.committed == [] && s.storage == map[]
    ensures s.writers == map[1 := Requested(c), 2 := Requested(d)]
  {
    var from := Prepared(0, WavSegmentedV1, true);
    s := from;
    trace := [];
    trace, s := After(from, trace, s, MarkStarted(0.0));
    trace, s := After(from, trace, s, BeginWrite(1, c));
    trace, s := After(from, trace, s, BeginWrite(2, d));
  }

  lemma {:induction false} TwoWritersRead(c: Command, d: Command) returns (trace: seq<Event>, s: Sys)
    requires c.index == d.index == 0 && c.segment.sampleCount > 0 && d.segment.sampleCount > 0
    ensures s == Run(Prepared(0, WavSegmentedV1, true), trace)
    ensures s.record == Prepared(0, WavSegmentedV1, true).record.(state := Recording, captureAnchor := Some(0.0))
    ensures s.rows == [] && s.committed == [] && s.storage == map[]
    ensures s.writers == map[1 := Read(c, 0, 0), 2 := Read(d, 0, 0)]
  {
    trace, s := TwoWritersBegun(c, d);
    trace, s := After(Prepared(0, WavSegmentedV1, true), trace, s, ReadPhase(1));
    trace, s := After(Prepared(0, WavSegmentedV1, true), trace, s, ReadPhase(2));
  }

  lemma {:induction false} TwoWritersStored(c: Command, d: Command) returns (trace: seq<Event>, s: Sys)
    requires c.index == d.index == 0 && c.segment.sampleCount > 0 && d.segment.sampleCount > 0
    ensures s == Run(Prepared(0, WavSegmentedV1, true), trace)
    ensures s.record == Prepared(0, WavSegmentedV1, true).record.(state := Recording, captureAnchor := Some(0.0))
    ensures s.rows == [] && s.committed == [] && s.storage == map[0 := d.segment]
    ensures s.writers == map[1 := Stored(c, 0), 2 := Stored(d, 0)]
  {
    trace, s := TwoWritersListed(c, d);
    trace, s := After(Prepared(0, WavSegmentedV1, true), trace, s, StorePhase(1, true));
    trace, s := After(Prepared(0, WavSegmentedV1, true), trace, s, StorePhase(2, true));
  }

  /* ---------- one write in flight ---------- */

  predicate Holding(p: Phase) {
    p.Stored? || p.Rejected?
  }

  // The writer that has passed the listing is writing the next row's segment.
  ghost predicate WritesNext(s: Sys, w: nat)
    requires w in s.writers
  {
    var p := s.writers[w];
    (p.Listed? || Holding(p) ==> p.command.index == |s.rows|) &&
    (p.Stored? ==> |s.rows| in s.storage && s.storage[|s.rows|] == p.command.segment)
  }

  // Storage holds the rows' segments, and besides them at most the one being written.
  ghost predicate StorageSound(s: Sys) {
    EveryRowStored(s) &&
    (forall v, w :: v in s.writers && w in s.writers ==> v == w) &&
    (forall w {:trigger WritesNext(s, w)} :: w in s.writers ==> WritesNext(s, w)) &&
    (forall i :: i in s.storage ==> 0 <= i <= |s.rows|) &&
    (|s.rows| in s.storage ==> exists w :: w in s.writers && Holding(s.writers[w]))
  }

  // What the environment must grant: writes begin one at a time, compensation succeeds, nobody deletes.
  ghost predicate Grants(s: Sys, e: Event) {
    (e.BeginWrite? ==> s.writers == map[]) && (e.Compensate? ==> e.succeeds) && !e.DeleteFiles?
  }

  ghost predicate OneAtATime(s: Sys, trace: seq<Event>) {
    trace == [] ||
    (OneAtATime(s, trace[..|trace| - 1]) && Grants(Run(s, trace[..|trace| - 1]), trace[|trace| - 1]))
  }

  lemma {:induction false} StepKeepsStorage(s: Sys, e: Event)
    requires TimingSound(s) && StorageSound(s) && Grants(s, e)
    ensures StorageSound(Step(s, e))
    ensures forall k :: 0 <= k < |s.rows| ==>
      k in s.storage && k in Step(s, e).storage && Step(s, e).storage[k] == s.storage[k]
  {
    forall k | 0 <= k < |s.rows| ensures k in s.storage {
      assert RowStored(s, k);
    }
    match e
    case ListPhase(w) => ListKeepsStorage(s, w);
    case StorePhase(w, ok) => StoreKeepsStorage(s, w, ok);
    case CommitPhase(w, fails) => CommitKeepsStorage(s, w, fails);
    case Compensate(w, ok) => CompensateKeepsStorage(s, w);
    case _ => QuietStepsKeepStorage(s, e);
  }

  lemma {:induction false} QuietStepsKeepStorage(s: Sys, e: Event)
    requires StorageSound(s) && Grants(s, e)
    requires !e.ListPhase? && !e.StorePhase? && !e.CommitPhase? && !e.Compensate?
    ensures StorageSound(Step(s, e)) && Step(s, e).storage == s.storage
  {
    var t := Step(s, e);
    forall k | 0 <= k < |t.rows| ensures RowStored(t, k) {
      assert RowStored(s, k);
    }
    forall w | w in t.writers ensures WritesNext(t, w) {
      assert w in s.writers ==> WritesNext(s, w);
    }
    if |s.rows| in s.storage {
      var w :| w in s.writers && Holding(s.writers[w]);
      assert w in t.writers && t.writers[w] == s.writers[w];
    }
  }

  lemma {:induction false} ListKeepsStorage(s: Sys, w: nat)
    requires TimingSound(s) && StorageSound(s)
    ensures StorageSound(Step(s, ListPhase(w))) && Step(s, ListPhase(w)).storage == s.storage
  {
    var t := Step(s, ListPhase(w));
    forall k | 0 <= k < |t.rows| ensures RowStored(t, k) {
      assert RowStored(s, k);
    }
    if w in s.writers && s.writers[w].Read? {
      assert |s.rows| !in s.storage && WriterSound(s, w);
      var index := s.writers[w].command.index;
      assert 0 <= index < |s.rows| ==> RowStored(s, index);
    }
    forall v | v in t.writers ensures WritesNext(t, v) {
      assert WritesNext(s, v);
    }
  }

  lemma {:induction false} StoreKeepsStorage(s: Sys, w: nat, ok: bool)
    requires StorageSound(s)
    ensures StorageSound(Step(s, StorePhase(w, ok)))
    ensures forall k :: 0 <= k < |s.rows| && k in s.storage ==>
      k in Step(s, StorePhase(w, ok)).storage && Step(s, StorePhase(w, ok)).storage[k] == s.storage[k]
  {
    var t := Step(s, StorePhase(w, ok));
    if w in s.writers {
      assert WritesNext(s, w);
      assert ok && s.writers[w].Listed? ==> w in t.writers && Holding(t.writers[w]);
    }
    forall k | 0 <= k < |t.rows| ensures RowStored(t, k) {
      assert RowStored(s, k);
    }
    forall v | v in t.writers ensures WritesNext(t, v) {
      assert WritesNext(s, v);
    }
  }

  lemma {:induction false} CommitKeepsStorage(s: Sys, w: nat, fails: bool)
    requires TimingSound(s) && StorageSound(s)
    ensures StorageSound(Step(s, CommitPhase(w, fails))) && Step(s, CommitPhase(w, fails)).storage == s.storage
  {
    var t := Step(s, CommitPhase(w, fails));
    if w in s.writers && s.writers[w].Stored? {
      CommitKeepsTiming(s, w, fails);
      assert WritesNext(s, w);
      assert t.rows == s.rows ==> w in t.writers && Holding(t.writers[w]);
    }
    forall k | 0 <= k < |t.rows| ensures RowStored(t, k) {
      assert k < |s.rows| ==> RowStored(s, k);
    }
    forall v | v in t.writers ensures WritesNext(t, v) {
      assert WritesNext(s, v);
    }
  }

  lemma {:induction false} CompensateKeepsStorage(s: Sys, w: nat)
    requires StorageSound(s)
    ensures StorageSound(Step(s, Compensate(w, true)))
    ensures forall k :: 0 <= k < |s.rows| && k in s.storage ==>
      k in Step(s, Compensate(w, true)).storage && Step(s, Compensate(w, true)).storage[k] == s.storage[k]
  {
    var t := Step(s, Compensate(w, true));
    if w in s.writers {
      assert WritesNext(s, w);
    }
    forall k | 0 <= k < |t.rows| ensures RowStored(t, k) {
      assert RowStored(s, k);
    }
    forall v | v in t.writers ensures WritesNext(t, v) {
      assert WritesNext(s, v);
    }
  }

  // With one write in flight every row of every reachable state has its stored segment.
  lemma {:induction false} StorageIsSoundOneAtATime(id: nat, format: MediaFormat, consent: bool, trace: seq<Event>)
    requires OneAtATime(Prepared(id, format, consent), trace)
    ensures StorageSound(Run(Prepared(id, format, consent), trace))
    decreases |trace|
  {
    if trace != [] {
      var before := trace[..|trace| - 1];
      StorageIsSoundOneAtATime(id, format, consent, before);
      TimingIsSoundOverEveryRun(id, format, consent, before);
      StepKeepsStorage(Run(Prepared(id, format, consent), before), trace[|trace| - 1]);
    }
  }

  lemma {:induction false} CommittedSegmentsStay(s: Sys, trace: seq<Event>)
    requires TimingSound(s) && StorageSound(s) && OneAtATime(s, trace)
    ensures var t := Run(s, trace);
            TimingSound(t) && StorageSound(t) && s.rows <= t.rows &&
            forall k :: 0 <= k < |s.rows| ==> k in s.storage && k in t.storage && t.storage[k] == s.storage[k]
    decreases |trace|
  {
    if trace == [] {
      forall k | 0 <= k < |s.rows| ensures k in s.storage {
        assert RowStored(s, k);
      }
    } else {
      var before, e := trace[..|trace| - 1], trace[|trace| - 1];
      CommittedSegmentsStay(s, before);
      StepKeepsTiming(Run(s, before), e);
      StepKeepsStorage(Run(s, before), e);
      RowsOnlyGrow(Run(s, before), e);
    }
  }

  // A write that ends without a new row, whatever else happened meanwhile, leaves storage as it found it.
  lemma {:induction false} RejectedWriteRestoresStorage(s: Sys, trace: seq<Event>)
    requires TimingSound(s) && StorageSound(s) && OneAtATime(s, trace)
    requires s.writers == map[] && Run(s, trace).writers == map[] && Run(s, trace).rows == s.rows
    ensures Run(s, trace).storage == s.storage
  {
    CommittedSegmentsStay(s, trace);
    var t := Run(s, trace);
    ExactlyTheRows(s);
    ExactlyTheRows(t);
    SameSegments(s.storage, t.storage, |s.rows|);
  }

  // With no writer left storage holds the rows' segments only.
  lemma {:induction false} ExactlyTheRows(s: Sys)
    requires StorageSound(s) && s.writers == map[]
    ensures Lists(s.storage, |s.rows|)
  {
    forall i | 0 <= i < |s.rows| ensures i in s.storage {
      assert RowStored(s, i);
    }
  }

  lemma {:induction false} SameSegments(a: map<int, Segment>, b: map<int, Segment>, n: nat)
    requires Lists(a, n) && Lists(b, n) && forall i :: 0 <= i < n ==> i in a && i in b && a[i] == b[i]
    ensures a == b
  {
    forall i | i in a ensures i in b && a[i] == b[i] {}
    forall i | i in b ensures i in a {}
    assert a.Keys <= b.Keys && b.Keys <= a.Keys;
  }

  /* ---------- finalize, then seek ---------- */

  function PlaybackOf(record: Record): Playback {
    Playback(record.id, record.state == Completed, record.deletion == DeletionDone, record.consentConfirmed,
             record.format == WavSegmentedV1)
  }

  // At any point of any run, finalizing an active WAV recording completes it exactly when the declared count
  // and duration match the rows committed so far.
  lemma {:induction false} FinalizationMatchesRows(
      id: nat, consent: bool, trace: seq<Event>, durationSeconds: real, segmentCount: int, hasGaps: bool)
    requires Active(Run(Prepared(id, WavSegmentedV1, consent), trace).record.state)
    ensures var s := Run(Prepared(id, WavSegmentedV1, consent), trace);
            var t := Run(Prepared(id, WavSegmentedV1, consent), trace + [Finalize(durationSeconds, segmentCount,
              hasGaps)]);
            (t.record.state == Completed <==>
              s.rows != [] && segmentCount == |s.rows| &&
              -0.000001 <= durationSeconds - Total(s.rows) as real / 16_000.0 <= 0.000001) &&
            (t.record.state == Completed ==>
              t.record.durationSeconds == Some(Duration(s.rows)) && t.record.segmentCount == |s.rows| &&
              t.record.hasGaps == hasGaps) &&
            (t.record.state != Completed ==> t == s) && t.rows == s.rows && t.storage == s.storage
  {
    TimingIsSoundOverEveryRun(id, WavSegmentedV1, consent, trace);
    DeletionEndsTheRecording(id, WavSegmentedV1, consent, trace);
    RunStep(Prepared(id, WavSegmentedV1, consent), trace, Finalize(durationSeconds, segmentCount, hasGaps));
  }

  lemma {:induction false} DeletionEndsTheRecording(id: nat, format: MediaFormat, consent: bool, trace: seq<Event>)
    ensures var r := Run(Prepared(id, format, consent), trace).record;
            r.id == id && r.format == format && (r.deletion == DeletionDone ==> r.state == Deleted)
    decreases |trace|
  {
    if trace != [] {
      DeletionEndsTheRecording(id, format, consent, trace[..|trace| - 1]);
      StepKeepsIdentity(Run(Prepared(id, format, consent), trace[..|trace| - 1]), trace[|trace| - 1]);
    }
  }

  lemma {:induction false} StepKeepsIdentity(s: Sys, e: Event)
    requires s.record.deletion == DeletionDone ==> s.record.state == Deleted
    ensures var r := Step(s, e).record;
            r.id == s.record.id && r.format == s.record.format && (r.deletion == DeletionDone ==> r.state == Deleted)
  {
  }

  // So every reachable completed recording is seekable everywhere: consent is confirmed, the rows are
  // contiguous and not empty, and the recorded duration is the seek range.
  lemma {:induction false} CompletedRecordingsAreSeekable(id: nat, consent: bool, trace: seq<Event>)
    requires Run(Prepared(id, WavSegmentedV1, consent), trace).record.state == Completed
    ensures var s := Run(Prepared(id, WavSegmentedV1, consent), trace);
            PlaybackOf(s.record).Available() && s.rows != [] && Contiguous(s.rows, PlaybackOf(s.record).id) &&
            s.record.durationSeconds == Some(Duration(s.rows)) && Duration(s.rows) > 0.0
  {
    var s := Run(Prepared(id, WavSegmentedV1, consent), trace);
    TimingIsSoundOverEveryRun(id, WavSegmentedV1, consent, trace);
    DeletionEndsTheRecording(id, WavSegmentedV1, consent, trace);
    SumGrows(s.rows, s.record.id, 0, |s.rows|);
  }

  // Every other recording is refused: at any point of any run, seeking finds playback available exactly when the
  // recording is completed and of the WAV format.
  lemma {:induction false} OnlyCompletedRecordingsPlay(id: nat, format: MediaFormat, consent: bool, trace: seq<Event>)
    ensures var s := Run(Prepared(id, format, consent), trace);
            PlaybackOf(s.record).Available() <==> s.record.state == Completed && format == WavSegmentedV1
  {
    TimingIsSoundOverEveryRun(id, format, consent, trace);
    DeletionEndsTheRecording(id, format, consent, trace);
  }

  /* ---------- the use cases as an object ---------- */

  datatype FinalizeError = NotFinalizable | InvalidTimings | Inconsistent

  datatype WriteError = NotActive | LifecycleError | StorageError | DatabaseError

  // The steps of one write that nothing interrupts; a step whose phase was not reached changes nothing.
  ghost function WholeWrite(
      s: Sys, w: nat, c: Command, storeSucceeds: bool, databaseFails: bool, compensates: bool): Sys {
    var read := Step(Step(s, BeginWrite(w, c)), ReadPhase(w));
    var stored := Step(Step(read, ListPhase(w)), StorePhase(w, storeSucceeds));
    Step(Step(stored, CommitPhase(w, databaseFails)), Compensate(w, compensates))
  }

  // What a write demands before any byte is written: a writable recording whose rows, whose index and whose files
  // all stop exactly before the command's segment.
  ghost predicate Admissible(s: Sys, c: Command) {
    Writable(s.record) && RangeIndexed(s.rows) && Lists(s.storage, c.index) &&
    s.record.currentSegmentIndex == c.index && c.index == |s.rows|
  }

  lemma {:induction false} IndexesCount(rows: seq<Timing>)
    requires RangeIndexed(rows)
    ensures ExpectedNextTimingIndex(LastContiguousTiming(rows).value) == |rows|
  {
  }

  // The row of a segment written after these rows.
  function NextRow(id: nat, rows: seq<Timing>, c: Command): Timing
    requires RangeIndexed(rows)
  {
    Timing(id, c.index, c.segment.sampleCount, StartSample(LastContiguousTiming(rows).value))
  }

  lemma {:induction false} WholeAdmission(s: Sys, w: nat, c: Command)
    requires w !in s.writers && c.index >= 0 && c.segment.sampleCount > 0
    ensures var t := Step(Step(Step(s, BeginWrite(w, c)), ReadPhase(w)), ListPhase(w));
            if Admissible(s, c)
            then t == s.(writers := s.writers[w := Listed(c, NextRow(s.record.id, s.rows, c).startSample)])
            else t == s
  {
    if RangeIndexed(s.rows) {
      IndexesCount(s.rows);
    }
    WriterGone(s.writers, w, Requested(c));
  }

  lemma {:induction false} WriterGone(writers: map<nat, Phase>, w: nat, p: Phase)
    requires w !in writers
    ensures Without(writers[w := p], w) == writers
  {
  }

  lemma {:induction false} FileGone(storage: map<int, Segment>, index: int, segment: Segment)
    requires index !in storage
    ensures (map i {:trigger i in storage} | i in storage[index := segment] && i != index ::
              storage[index := segment][i]) == storage
  {
  }

  // From the stored file on.
  lemma {:induction false} WholeCommit(s: Sys, w: nat, c: Command, databaseFails: bool, compensates: bool)
    requires w !in s.writers && c.index >= 0 && Admissible(s, c)
    ensures var row := NextRow(s.record.id, s.rows, c);
            var stored := s.(storage := s.storage[c.index := c.segment],
                             writers := s.writers[w := Stored(c, row.startSample)]);
            Step(Step(stored, CommitPhase(w, databaseFails)), Compensate(w, compensates)) ==
              if !databaseFails then
                s.(record := s.record.(currentSegmentIndex := c.index + 1), rows := s.rows + [row],
                   committed := s.committed + [c.segment], storage := s.storage[c.index := c.segment])
              else if compensates then s
              else s.(storage := s.storage[c.index := c.segment])
  {
    var row := NextRow(s.record.id, s.rows, c);
    IndexesCount(s.rows);
    SavingPastTheEndAppends(s.rows, row);
    var stored := s.(storage := s.storage[c.index := c.segment],
                     writers := s.writers[w := Stored(c, row.startSample)]);
    if databaseFails {
      var rejected := CommitStep(stored, w, stored.writers[w], true);
      assert rejected == s.(storage := s.storage[c.index := c.segment], writers := s.writers[w := Rejected(c)]);
      WriterGone(s.writers, w, Rejected(c));
      FileGone(s.storage, c.index, c.segment);
    } else {
      WriterGone(s.writers, w, Stored(c, row.startSample));
    }
  }

  // A write that nothing interrupts either adds exactly its own row, with its own segment in storage, or leaves
  // everything as it was, except that a failing compensation leaves the file behind.
  lemma {:induction false} WholeWriteAddsItsRowIff(
      s: Sys, w: nat, c: Command, storeSucceeds: bool, databaseFails: bool, compensates: bool)
    requires w !in s.writers && c.index >= 0 && c.segment.sampleCount > 0
    ensures var t := WholeWrite(s, w, c, storeSucceeds, databaseFails, compensates);
            if Admissible(s, c) && storeSucceeds && !databaseFails then
              t == s.(record := s.record.(currentSegmentIndex := c.index + 1),
                      rows := s.rows + [NextRow(s.record.id, s.rows, c)], committed := s.committed + [c.segment],
                      storage := s.storage[c.index := c.segment])
            else if Admissible(s, c) && storeSucceeds && !compensates then
              t == s.(storage := s.storage[c.index := c.segment])
            else t == s
  {
    WholeAdmission(s, w, c);
    WithoutWriter(s, w, storeSucceeds, databaseFails, compensates);
    if Admissible(s, c) {
      WholeStore(s, w, c, NextRow(s.record.id, s.rows, c).startSample, storeSucceeds);
      WholeCommit(s, w, c, databaseFails, compensates);
    }
  }

  lemma {:induction false} WithoutWriter(
      s: Sys, w: nat, storeSucceeds: bool, databaseFails: bool, compensates: bool)
    requires w !in s.writers
    ensures Step(s, StorePhase(w, storeSucceeds)) == s
    ensures Step(Step(s, CommitPhase(w, databaseFails)), Compensate(w, compensates)) == s
  {
  }

  lemma {:induction false} WholeStore(s: Sys, w: nat, c: Command, start: int, storeSucceeds: bool)
    requires w !in s.writers
    ensures Step(s.(writers := s.writers[w := Listed(c, start)]), StorePhase(w, storeSucceeds)) ==
      if storeSucceeds then
        s.(storage := s.storage[c.index := c.segment], writers := s.writers[w := Stored(c, start)])
      else s
  {
    WriterGone(s.writers, w, Listed(c, start));
    assert s.writers[w := Listed(c, start)][w := Stored(c, start)] == s.writers[w := Stored(c, start)];
  }

  // At any point of any run: the row that is added starts where all rows before it end, and exactly the writes
  // that name the next segment of an active WAV recording with matching files are accepted.
  lemma {:induction false} WritesAreAcceptedExactlyInOrder(
      id: nat, format: MediaFormat, consent: bool, trace: seq<Event>, w: nat, c: Command)
    requires c.index >= 0 && c.segment.sampleCount > 0
    ensures var s := Run(Prepared(id, format, consent), trace);
            w !in s.writers ==>
              var t := WholeWrite(s, w, c, true, false, true);
              (t.rows != s.rows <==>
                s.record.state == Recording && s.record.format == WavSegmentedV1 && c.index == |s.rows| &&
                Lists(s.storage, |s.rows|)) &&
              (t.rows != s.rows ==>
                t.rows == s.rows + [Timing(s.record.id, |s.rows|, c.segment.sampleCount, Total(s.rows))] &&
                c.index in t.storage && t.storage[c.index] == c.segment)
  {
    var s := Run(Prepared(id, format, consent), trace);
    TimingIsSoundOverEveryRun(id, format, consent, trace);
    ContiguousIsRangeIndexed(s.rows, s.record.id);
    if w !in s.writers {
      WholeWriteAddsItsRowIff(s, w, c, true, false, true);
    }
  }

  // The durable state and the writers suspended in it. A method runs one phase, from one await to the next.
  class RecordingBackend {
    var record: Record
    var rows: seq<Timing>
    var storage: map<int, Segment>
    var writers: map<nat, Phase>
    var marked: nat
    var emptied: nat

    ghost var committed: seq<Segment>

    ghost function View(): Sys
      reads this
    {
      Sys(record, rows, committed, storage, writers, marked, emptied)
    }

    constructor (id: nat, format: MediaFormat, consent: bool)
      ensures View() == Prepared(id, format, consent)
    {
      record := Record(id, Pending, format, consent, NotScheduled, 0, None, None, 0, false, None);
      rows, committed, storage, writers, marked, emptied := [], [], map[], map[], 0, 0;
    }

    // The first unit of work: does the command name the next segment of a writable recording?
    method ReadPhaseOf(w: nat, c: Command) returns (passes: bool)
      modifies this`writers
      ensures View() == ReadStep(old(View()), w, c)
      ensures passes <==> w in writers && writers[w].Read?
    {
      var last := LastContiguousTiming(rows);
      if !Writable(record) || last.None? || c.index != ExpectedNextTimingIndex(last.value) ||
          record.currentSegmentIndex != ExpectedNextTimingIndex(last.value) {
        writers := Without(writers, w);
        return false;
      }
      writers := writers[w := Read(c, StartSample(last.value), record.currentSegmentIndex)];
      return true;
    }

    // Storage must list exactly the segments 0, ..., index - 1.
    method ListPhaseOf(w: nat, p: Phase) returns (passes: bool)
      requires p.Read?
      modifies this`writers
      ensures View() == ListStep(old(View()), w, p)
      ensures passes <==> w in writers && writers[w].Listed?
    {
      var lists := storage.Keys == FirstIndexes(p.command.index);
      ListsAreSets(storage, p.command.index);
      if !lists || p.metadataIndex != p.command.index {
        writers := Without(writers, w);
        return false;
      }
      writers := writers[w := Listed(p.command, p.start)];
      return true;
    }

    method StorePhaseOf(w: nat, p: Phase, succeeds: bool)
      requires p.Listed?
      modifies this`writers, this`storage
      ensures View() == StoreStep(old(View()), w, p, succeeds)
    {
      if succeeds {
        storage := storage[p.command.index := p.command.segment];
        writers := writers[w := Stored(p.command, p.start)];
      } else {
        writers := Without(writers, w);
      }
    }

    // The last unit of work validates everything again before both rows are saved together.
    method CommitPhaseOf(w: nat, p: Phase, databaseFails: bool) returns (commits: bool)
      requires p.Stored?
      modifies this`record, this`rows, this`committed, this`writers
      ensures View() == CommitStep(old(View()), w, p, databaseFails)
      ensures !commits <==> w in writers && writers[w].Rejected?
    {
      var c := p.command;
      var last := LastContiguousTiming(rows);
      if databaseFails || !Writable(record) || last.None? || record.currentSegmentIndex != c.index ||
          ExpectedNextTimingIndex(last.value) != c.index || c.index < 0 {
        writers := writers[w := Rejected(c)];
        return false;
      }
      record := record.(currentSegmentIndex := c.index + 1);
      rows := SaveTiming(rows, Timing(record.id, c.index, c.segment.sampleCount, p.start));
      committed := committed + [c.segment];
      writers := Without(writers, w);
      return true;
    }

    method CompensateFor(w: nat, p: Phase, succeeds: bool)
      requires p.Rejected?
      modifies this`storage, this`writers
      ensures View() == CompensateStep(old(View()), w, p, succeeds)
    {
      if succeeds {
        storage := map i | i in storage && i != p.command.index :: storage[i];
      }
      writers := Without(writers, w);
    }

    // The checks before any byte is written.
    method Admit(w: nat, c: Command) returns (passes: bool)
      requires w !in writers && c.index >= 0 && c.segment.sampleCount > 0
      modifies this`writers
      ensures View() == Step(Step(Step(old(View()), BeginWrite(w, c)), ReadPhase(w)), ListPhase(w))
      ensures passes <==> w in writers && writers[w].Listed?
      ensures passes <==> Admissible(old(View()), c)
    {
      WholeAdmission(View(), w, c);
      writers := writers[w := Requested(c)];
      passes := ReadPhaseOf(w, c);
      if passes {
        passes := ListPhaseOf(w, writers[w]);
      }
    }

    // One whole write with nothing in between.
    method Execute(w: nat, c: Command, storeSucceeds: bool, databaseFails: bool, compensates: bool)
      returns (r: Result<int, WriteError>)
      requires w !in writers && c.index >= 0 && c.segment.sampleCount > 0
      modifies this
      ensures View() == WholeWrite(old(View()), w, c, storeSucceeds, databaseFails, compensates)
      // It answers with the index exactly when it added the segment's row, and its own segment is in storage.
      ensures r.Ok? <==> Admissible(old(View()), c) && storeSucceeds && !databaseFails
      ensures r.Ok? <==> |rows| == |old(rows)| + 1
      ensures r.Ok? ==>
        r.value == c.index && RangeIndexed(old(rows)) && rows == old(rows) + [NextRow(record.id, old(rows), c)] &&
        storage == old(storage)[c.index := c.segment] && record == old(record).(currentSegmentIndex := c.index + 1)
      ensures r.Ok? && old(TimingSound(View())) ==> rows[|rows| - 1].startSample == Total(old(rows))
      // An error changes neither record nor rows, and no file unless the compensation fails as well.
      ensures r.Err? ==> record == old(record) && rows == old(rows)
      ensures r.Err? && (r.error != DatabaseError || compensates) ==> storage == old(storage)
      ensures r == Err(NotActive) <==> old(record).state != Recording
      ensures r == Err(LifecycleError) <==> old(record).state == Recording && !Admissible(old(View()), c)
      ensures r == Err(StorageError) <==> Admissible(old(View()), c) && !storeSucceeds
      ensures r == Err(DatabaseError) <==> Admissible(old(View()), c) && storeSucceeds && databaseFails
    {
      ghost var s := View();
      WholeWriteAddsItsRowIff(s, w, c, storeSucceeds, databaseFails, compensates);
      if TimingSound(s) {
        ContiguousIsRangeIndexed(s.rows, s.record.id);
      }
      var passes := Admit(w, c);
      WholeAdmission(s, w, c);
      if !passes {
        return Err(if record.state != Recording then NotActive else LifecycleError);
      }
      if Admissible(s, c) {
        IndexesCount(s.rows);
      }
      r := StoreAndCommit(w, writers[w], storeSucceeds, databaseFails, compensates);
    }

    // The last unit of work's demands, for the index of a stored segment.
    predicate Commits(index: int)
      reads this
    {
      Writable(record) && RangeIndexed(rows) && record.currentSegmentIndex == index && index == |rows|
    }

    // From the file on. What is validated again may fail by then.
    method StoreAndCommit(w: nat, p: Phase, storeSucceeds: bool, databaseFails: bool, compensates: bool)
      returns (r: Result<int, WriteError>)
      requires w in writers && writers[w] == p && p.Listed?
      modifies this
      ensures View() == Step(Step(Step(old(View()), StorePhase(w, storeSucceeds)), CommitPhase(w, databaseFails)),
                             Compensate(w, compensates))
      ensures r.Ok? ==> r.value == p.command.index
      ensures r.Ok? <==> storeSucceeds && !databaseFails && old(Commits(p.command.index))
      ensures r == Err(StorageError) <==> !storeSucceeds
      ensures r == Err(DatabaseError) <==> storeSucceeds && databaseFails
      ensures r == Err(NotActive) <==> storeSucceeds && !databaseFails && old(record).state != Recording
    {
      StorePhaseOf(w, p, storeSucceeds);
      if !storeSucceeds {
        return Err(StorageError);
      }
      if RangeIndexed(rows) {
        IndexesCount(rows);
      }
      var commits := CommitPhaseOf(w, writers[w], databaseFails);
      if !commits {
        CompensateFor(w, writers[w], compensates);
        return Err(
          if databaseFails then DatabaseError else if record.state != Recording then NotActive else LifecycleError);
      }
      return Ok(p.command.index);
    }

    method MarkStartedNow(captureAnchor: real) returns (starts: bool)
      modifies this`record
      ensures View() == Step(old(View()), MarkStarted(captureAnchor))
      ensures starts <==> old(record).state == Pending && old(record).consentConfirmed
      ensures starts <==> record.state == Recording && old(record).state != Recording
      ensures starts ==> record.captureAnchor == Some(captureAnchor)
      ensures !starts ==> record == old(record)
    {
      if record.state != Pending || !record.consentConfirmed {
        return false;
      }
      record := record.(state := Recording, captureAnchor := Some(captureAnchor));
      return true;
    }

    method MarkFailedNow(code: string) returns (accepted: bool)
      modifies this`record
      ensures View() == Step(old(View()), MarkFailed(code))
      ensures accepted <==> old(record).state != Deleted
      ensures accepted <==> record.state == Failed && record.failureCode == Some(code)
      ensures !accepted ==> record == old(record)
    {
      if record.state == Deleted {
        return false;
      }
      if record.state == Failed && record.failureCode == Some(code) {
        return true;
      }
      record := record.(state := Failed, failureCode := Some(code));
      return true;
    }

    method MarkDeletingNow() returns (proceeds: bool)
      modifies this`record, this`marked
      ensures View() == Step(old(View()), MarkDeleting) && proceeds == !Active(old(record).state)
      ensures record.deletion == if proceeds && record.state != Deleted then Deleting else old(record).deletion
      ensures record.state == old(record).state && marked == old(marked) + if proceeds then 1 else 0
    {
      if Active(record.state) {
        return false;
      }
      if record.state != Deleted {
        record := record.(deletion := Deleting);
      }
      marked := marked + 1;
      return true;
    }

    method DeleteFilesNow()
      requires marked > 0
      modifies this`storage, this`marked, this`emptied
      ensures View() == Step(old(View()), DeleteFiles) && storage == map[]
    {
      storage := map[];
      marked, emptied := marked - 1, emptied + 1;
    }

    method DeletionFailsNow(code: string, filesGone: bool)
      requires if filesGone then emptied > 0 else marked > 0
      modifies this`record, this`marked, this`emptied
      ensures View() == Step(old(View()), DeletionFails(code, filesGone))
      ensures record.state == old(record).state
      ensures record.state != Deleted ==> record.deletion == DeletionFailed && record.failureCode == Some(code)
      ensures record.state == Deleted ==> record == old(record)
    {
      if filesGone {
        emptied := emptied - 1;
      } else {
        marked := marked - 1;
      }
      if record.state != Deleted {
        record := record.(deletion := DeletionFailed, failureCode := Some(code));
      }
    }

    method MarkDeletedNow() returns (deletes: bool)
      requires emptied > 0
      modifies this`record, this`emptied
      ensures View() == Step(old(View()), MarkDeleted) && deletes == !Active(old(record).state)
      ensures deletes ==> record.state == Deleted && record.deletion == DeletionDone && record.failureCode.None?
      ensures !deletes ==> record == old(record)
    {
      emptied := emptied - 1;
      if Active(record.state) {
        return false;
      }
      record := record.(state := Deleted, deletion := DeletionDone, failureCode := None);
      return true;
    }

    // A WAV recording is completed only with the row count and, within 1e-6, the duration of its rows.
    method FinalizeNow(durationSeconds: real, segmentCount: int, hasGaps: bool) returns (r: Result<(), FinalizeError>)
      modifies this`record
      ensures View() == FinalizeStep(old(View()), durationSeconds, segmentCount, hasGaps)
      ensures r == Err(NotFinalizable) <==> !Active(old(record).state)
      ensures r == Err(InvalidTimings) <==>
        Active(old(record).state) && record.format == WavSegmentedV1 && (rows == [] || !Contiguous(rows, record.id))
      ensures r == Err(Inconsistent) <==>
        Active(old(record).state) && record.format == WavSegmentedV1 && rows != [] && Contiguous(rows, record.id) &&
        !(segmentCount == |rows| && -0.000001 <= durationSeconds - Duration(rows) <= 0.000001)
      ensures r.Err? ==> record == old(record)
      ensures r.Ok? ==>
        record.state == Completed && record.segmentCount == segmentCount && record.hasGaps == hasGaps &&
        record.durationSeconds == Some(if record.format == WavSegmentedV1 then Duration(rows) else durationSeconds)
    {
      if record.state != Recording && record.state != Finalizing {
        return Err(NotFinalizable);
      }
      if record.format != WavSegmentedV1 {
        record := record.(
          state := Completed, durationSeconds := Some(durationSeconds), segmentCount := segmentCount,
            hasGaps := hasGaps);
        return Ok(());
      }
      var total := TotalSamplesForContiguousTiming(record.id, rows);
      if total.Err? {
        return Err(InvalidTimings);
      }
      var computed := total.value as real / PLAYBACK_RATE_HZ as real;
      if segmentCount != |rows| || !IsClose(durationSeconds, computed) {
        return Err(Inconsistent);
      }
      record := record.(
        state := Completed, durationSeconds := Some(computed), segmentCount := |rows|, hasGaps := hasGaps);
      return Ok(());
    }
  }

  // The indexes 0, ..., n - 1.
  function FirstIndexes(n: int): (indexes: set<int>)
    ensures forall i :: i in indexes <==> 0 <= i < n
    decreases if n < 0 then 0 else n
  {
    if n <= 0 then {} else FirstIndexes(n - 1) + {n - 1}
  }

  lemma {:induction false} ListsAreSets(storage: map<int, Segment>, n: int)
    ensures Lists(storage, n) <==> storage.Keys == FirstIndexes(n)
  {
    var all := FirstIndexes(n);
    if Lists(storage, n) {
      forall i | i in storage.Keys ensures i in all {}
      forall i | i in all ensures i in storage.Keys {}
      assert storage.Keys <= all && all <= storage.Keys;
    }
  }
}
