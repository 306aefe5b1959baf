/**
 * The durable timing rows of a recording, their validation, and seeking among them.
 */
module RecordingTiming {
  import opened Wrappers

  const PLAYBACK_RATE_HZ := 16_000

  datatype Timing = Timing(recordingId: nat, segmentIndex: int, sampleCount: int, startSample: int)

  datatype TimingError = InvalidMetadata | InvalidTarget | PlaybackUnavailable

  // Samples in the first k rows.
  function Sum(rows: seq<Timing>, k: nat): int
    requires k <= |rows|
  {
    if k == 0 then 0 else Sum(rows, k - 1) + rows[k - 1].sampleCount
  }

  function Total(rows: seq<Timing>): int {
    Sum(rows, |rows|)
  }

  // Row k belongs to the recording, is not empty, has index k, and starts where the rows before it end.
  ghost predicate RowInPlace(rows: seq<Timing>, id: nat, k: nat)
    requires k < |rows|
  {
    rows[k].recordingId == id && rows[k].sampleCount > 0 &&
    rows[k].segmentIndex == k && rows[k].startSample == Sum(rows, k)
  }

  ghost predicate Contiguous(rows: seq<Timing>, id: nat) {
    forall k {:trigger RowInPlace(rows, id, k)} :: 0 <= k < |rows| ==> RowInPlace(rows, id, k)
  }

  lemma {:induction false} SumOfPrefix(rows: seq<Timing>, more: seq<Timing>, k: nat)
    requires k <= |rows|
    ensures Sum(rows + more, k) == Sum(rows, k)
  {
    if k > 0 {
      SumOfPrefix(rows, more, k - 1);
    }
  }

  // Later rows start strictly later.
  lemma {:induction false} SumGrows(rows: seq<Timing>, id: nat, j: nat, k: nat)
    requires Contiguous(rows, id) && j <= k <= |rows|
    ensures Sum(rows, k) - Sum(rows, j) >= k - j
    decreases k
  {
    if j < k {
      SumGrows(rows, id, j, k - 1);
      assert RowInPlace(rows, id, k - 1);
    }
  }

  // total_samples_for_contiguous_timing: succeeds on exactly the non-empty contiguous row lists.
  method TotalSamplesForContiguousTiming(id: nat, timings: seq<Timing>) returns (r: Result<int, TimingError>)
    ensures r.Ok? <==> timings != [] && Contiguous(timings, id)
    ensures r.Ok? ==> r.value == Total(timings)
    ensures r.Err? ==> r.error == InvalidMetadata
  {
    if timings == [] {
      return Err(InvalidMetadata);
    }
    var previous: Option<Timing> := None;
    var totalSamples := 0;
    for n := 0 to |timings|
      invariant n == 0 <==> previous.None?
      invariant n > 0 ==> previous == Some(timings[n - 1])
      invariant totalSamples == Sum(timings, n)
      invariant forall k {:trigger RowInPlace(timings, id, k)} :: 0 <= k < n ==> RowInPlace(timings, id, k)
    {
      var timing := timings[n];
      assert n > 0 ==> RowInPlace(timings, id, n - 1);
      if timing.recordingId != id || timing.sampleCount <= 0 {
        assert !RowInPlace(timings, id, n);
        return Err(InvalidMetadata);
      }
      if previous.None? {
        if timing.segmentIndex != 0 || timing.startSample != 0 {
          assert !RowInPlace(timings, id, n);
          return Err(InvalidMetadata);
        }
      } else if timing.segmentIndex != previous.value.segmentIndex + 1 ||
          timing.startSample != previous.value.startSample + previous.value.sampleCount {
        assert !RowInPlace(timings, id, n);
        return Err(InvalidMetadata);
      }
      totalSamples := totalSamples + timing.sampleCount;
      previous := Some(timing);
    }
    r := Ok(totalSamples);
  }

  /* ---------- seeking ---------- */

  datatype SeekTarget = SeekTarget(
    recordingId: nat, segmentIndex: int, segmentStartSample: int, segmentSampleCount: int,
    targetSample: int, offsetSamples: int, resolvedSeconds: real)

  predicate Holds(row: Timing, sample: int) {
    row.startSample <= sample < row.startSample + row.sampleCount
  }

  // The first row, in order, that holds a sample.
  ghost function LinearScan(rows: seq<Timing>, sample: int, from: nat): Option<nat>
    requires from <= |rows|
    decreases |rows| - from
  {
    if from == |rows| then None
    else if Holds(rows[from], sample) then Some(from)
    else LinearScan(rows, sample, from + 1)
  }

  // Contiguous rows tile the samples: the scan finds a row for every sample of the recording, and that
  // row is the only one.
  lemma {:induction false} RowsTileTheRecording(rows: seq<Timing>, id: nat, sample: int, from: nat)
    requires Contiguous(rows, id) && from <= |rows| && Sum(rows, from) <= sample
    ensures LinearScan(rows, sample, from).Some? <==> sample < Total(rows)
    ensures LinearScan(rows, sample, from).Some? ==> LinearScan(rows, sample, from).value < |rows|
    decreases |rows| - from
  {
    if from < |rows| {
      assert RowInPlace(rows, id, from);
      if Holds(rows[from], sample) {
        SumGrows(rows, id, from + 1, |rows|);
      } else {
        RowsTileTheRecording(rows, id, sample, from + 1);
      }
    }
  }

  lemma {:induction false} OnlyOneRowHolds(rows: seq<Timing>, id: nat, sample: int, j: nat, k: nat)
    requires Contiguous(rows, id) && j < |rows| && k < |rows|
    requires Holds(rows[j], sample) && Holds(rows[k], sample)
    ensures j == k
  {
    assert RowInPlace(rows, id, j) && RowInPlace(rows, id, k);
    if j < k {
      SumGrows(rows, id, j + 1, k);
    } else if k < j {
      SumGrows(rows, id, k + 1, j);
    }
  }

  lemma {:induction false} ScanFindsTheHolder(rows: seq<Timing>, id: nat, sample: int, from: nat, k: nat)
    requires Contiguous(rows, id) && from <= k < |rows| && Holds(rows[k], sample)
    ensures LinearScan(rows, sample, from) == Some(k)
    decreases k - from
  {
    if Holds(rows[from], sample) {
      OnlyOneRowHolds(rows, id, sample, from, k);
    } else {
      ScanFindsTheHolder(rows, id, sample, from + 1, k);
    }
  }

  // _find_target: the binary search finds what the linear scan finds.
  method FindTarget(id: nat, timings: seq<Timing>, targetSample: int) returns (r: Result<SeekTarget, TimingError>)
    requires Contiguous(timings, id)
    ensures r.Ok? <==> 0 <= targetSample < Total(timings)
    ensures r.Err? ==> r.error == PlaybackUnavailable
    ensures r.Ok? ==>
      var k := LinearScan(timings, targetSample, 0);
      k.Some? && k.value < |timings| && r.value.recordingId == id &&
      r.value.segmentIndex == timings[k.value].segmentIndex &&
      r.value.segmentStartSample == timings[k.value].startSample &&
      r.value.segmentSampleCount == timings[k.value].sampleCount &&
      r.value.targetSample == targetSample &&
      r.value.offsetSamples == targetSample - timings[k.value].startSample &&
      0 <= r.value.offsetSamples < r.value.segmentSampleCount &&
      r.value.resolvedSeconds == targetSample as real / PLAYBACK_RATE_HZ as real
  {
    if targetSample >= 0 {
      RowsTileTheRecording(timings, id, targetSample, 0);
    }
    var low, high := 0, |timings| - 1;
    while low <= high
      invariant 0 <= low <= high + 1 <= |timings|
      invariant targetSample < 0 ==> low == 0
      invariant targetSample >= 0 ==> Sum(timings, low) <= targetSample
      invariant targetSample < Total(timings) ==> targetSample < Sum(timings, high + 1)
      decreases high - low
    {
      var middle := (low + high) / 2;
      var timing := timings[middle];
      var segmentEnd := timing.startSample + timing.sampleCount;
      assert RowInPlace(timings, id, middle);
      SumGrows(timings, id, 0, middle);
      if targetSample < timing.startSample {
        high := middle - 1;
      } else if targetSample >= segmentEnd {
        low := middle + 1;
      } else {
        ScanFindsTheHolder(timings, id, targetSample, 0, middle);
        SumGrows(timings, id, middle + 1, |timings|);
        return Ok(SeekTarget(id, timing.segmentIndex, timing.startSample, timing.sampleCount,
                             targetSample, targetSample - timing.startSample,
                             targetSample as real / PLAYBACK_RATE_HZ as real));
      }
    }
    return Err(PlaybackUnavailable);
  }

  // What ResolveRecordingSeek reads before it looks at any row.
  datatype Playback = Playback(
    id: nat, completed: bool, deleted: bool, consentConfirmed: bool, wavV1: bool)
  {
    predicate Available() {
      completed && !deleted && consentConfirmed && wavV1
    }
  }

  datatype Resolution = AtEnd | At(target: SeekTarget)

  function Duration(rows: seq<Timing>): real {
    Total(rows) as real / PLAYBACK_RATE_HZ as real
  }

  // On a contiguous recording every target in range resolves to the one segment a linear scan finds, to
  // within one sample below the target; the end is reported only at the exact duration; and the search
  // never falls through.
  method ResolveRecordingSeek(playback: Option<Playback>, timings: seq<Timing>, targetSeconds: real)
    returns (r: Result<Resolution, TimingError>)
    requires targetSeconds >= 0.0
    ensures r == Err(PlaybackUnavailable) <==> playback.None? || !playback.value.Available()
    ensures playback.Some? && playback.value.Available() ==>
      (r == Err(InvalidMetadata) <==> timings == [] || !Contiguous(timings, playback.value.id))
    ensures playback.Some? && playback.value.Available() && timings != [] && Contiguous(timings, playback.value.id) ==>
      (r == Err(InvalidTarget) <==> targetSeconds > Duration(timings)) &&
      (r == Ok(AtEnd) <==> targetSeconds == Duration(timings)) &&
      (r.Ok? && r.value.At? <==> targetSeconds < Duration(timings))
    ensures r.Ok? && r.value.At? ==>
      var t := r.value.target;
      var k := LinearScan(timings, t.targetSample, 0);
      k.Some? && k.value < |timings| && Holds(timings[k.value], t.targetSample) &&
      t.segmentIndex == k.value && t.segmentStartSample == Sum(timings, k.value) &&
      t.segmentSampleCount == timings[k.value].sampleCount &&
      t.offsetSamples == t.targetSample - t.segmentStartSample && 0 <= t.offsetSamples < t.segmentSampleCount &&
      t.recordingId == playback.value.id && t.resolvedSeconds == t.targetSample as real / 16_000.0 &&
      t.resolvedSeconds <= targetSeconds < t.resolvedSeconds + 1.0 / 16_000.0
  {
    if playback.None? || !playback.value.Available() {
      return Err(PlaybackUnavailable);
    }
    var id := playback.value.id;
    var total := TotalSamplesForContiguousTiming(id, timings);
    if total.Err? {
      return Err(total.error);
    }
    var authoritativeDuration := total.value as real / PLAYBACK_RATE_HZ as real;
    if targetSeconds > authoritativeDuration {
      return Err(InvalidTarget);
    }
    if targetSeconds == authoritativeDuration {
      return Ok(AtEnd);
    }
    var targetSample := (targetSeconds * PLAYBACK_RATE_HZ as real).Floor;
    assert 0 <= targetSample < Total(timings);
    var found := FindTarget(id, timings, targetSample);
    ghost var k := LinearScan(timings, targetSample, 0).value;
    ScanHolds(timings, targetSample, 0);
    assert RowInPlace(timings, id, k);
    r := Ok(At(found.value));
  }

  lemma {:induction false} ScanHolds(rows: seq<Timing>, sample: int, from: nat)
    requires from <= |rows|
    ensures var k := LinearScan(rows, sample, from);
            k.Some? ==> k.value < |rows| && Holds(rows[k.value], sample)
    decreases |rows| - from
  {
    if from < |rows| && !Holds(rows[from], sample) {
      ScanHolds(rows, sample, from + 1);
    }
  }
}
