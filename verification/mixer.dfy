/**
 * The common-timeline mixer of the capture pipeline.
 *
 * Each pushed frame lands on a 16 kHz grid of sample indexes; a bounded map holds what may still be
 * overlapped by the other source, and everything older than the holdback is emitted in contiguous runs.
 * Times are exact rationals and indexes carry the 64-bit limits of the source.
 */
module AudioMixing {
  import opened Wrappers
  import Resampling

  const SAMPLE_RATE_HZ := 16_000
  const HOLDBACK_SAMPLES := 800
  const INSERT_BLOCK_SAMPLES := 320
  const MAX_PENDING_SAMPLES := 4_800
  const I64_MAX := 0x7fff_ffff_ffff_ffff
  const I64_MIN := -0x8000_0000_0000_0000

  datatype Source = SystemAudio | Microphone

  datatype NormalizedAudioFrame = NormalizedAudioFrame(source: Source, captureTime: real, samples: seq<real>)

  datatype MixedAudioFrame = MixedAudioFrame(captureTime: real, samples: seq<real>)

  function Clamp(x: real): real {
    if x < -1.0 then -1.0 else if x > 1.0 then 1.0 else x
  }

  datatype TimelineSample = TimelineSample(system: Option<real>, microphone: Option<real>)
  {
    function Insert(source: Source, sample: real): TimelineSample {
      match source
      case SystemAudio => this.(system := Some(sample))
      case Microphone => this.(microphone := Some(sample))
    }

    function Mixed(): real {
      Clamp((if system.Some? then system.value else 0.0) * 0.5 +
            (if microphone.Some? then microphone.value else 0.0) * 0.5)
    }
  }

  // What the mix of two sources is: half their sum, held between -1 and 1; a source that wrote nothing is silent.
  ghost predicate IsMixOf(value: real, system: Option<real>, microphone: Option<real>) {
    var sum := (if system.Some? then system.value else 0.0) + (if microphone.Some? then microphone.value else 0.0);
    (-2.0 <= sum <= 2.0 ==> 2.0 * value == sum) && (sum > 2.0 ==> value == 1.0) && (sum < -2.0 ==> value == -1.0)
  }

  const SILENT := TimelineSample(None, None)

  type Timeline = map<int, TimelineSample>

  /* ---------- grid positions ---------- */

  // f64::round: to nearest, halves away from zero.
  function Round(x: real): int {
    if x >= 0.0 then (x + 0.5).Floor else -((-x + 0.5).Floor)
  }

  function TimelineIndex(origin: real, timestamp: real): (index: Option<int>)
    ensures index.Some? ==> I64_MIN <= index.value <= I64_MAX
  {
    var position := (timestamp - origin) * SAMPLE_RATE_HZ as real;
    if position < I64_MIN as real || position > 0x8000_0000_0000_0000 as real then None
    else if Round(position) > I64_MAX then Some(I64_MAX)
    else Some(Round(position))
  }

  function FrameTime(origin: real, index: int): real {
    origin + index as real / SAMPLE_RATE_HZ as real
  }

  /* ---------- the sorted walk over a map's keys ---------- */

  ghost predicate Ascending(ks: seq<int>) {
    forall i, j :: 0 <= i < j < |ks| ==> ks[i] < ks[j]
  }

  lemma {:induction false} SomeElement<T>(s: set<T>) returns (x: T)
    requires s != {}
    ensures x in s
  {
    x :| x in s;
  }

  lemma {:induction false} LeastExists(s: set<int>) returns (least: int)
    requires s != {}
    ensures least in s && forall x :: x in s ==> least <= x
  {
    var x := SomeElement(s);
    if s == {x} {
      least := x;
    } else {
      var rest := s - {x};
      assert s == rest + {x};
      var m := LeastExists(rest);
      least := if m < x then m else x;
    }
  }

  // The keys of an ordered map, in order.
  function SortedKeys(s: set<int>): (ks: seq<int>)
    ensures Ascending(ks)
    ensures forall k :: k in ks <==> k in s
  {
    if s == {} then []
    else
      assert exists m :: m in s && forall x :: x in s ==> m <= x by { var _ := LeastExists(s); }
      var m :| m in s && forall x :: x in s ==> m <= x;
      [m] + SortedKeys(s - {m})
  }

  // A set has only one ascending enumeration.
  lemma {:induction false} AscendingIsUnique(a: seq<int>, b: seq<int>)
    requires Ascending(a) && Ascending(b)
    requires forall k :: k in a <==> k in b
    ensures a == b
    decreases |a|
  {
    assert |a| > 0 ==> a[0] in a;
    assert |b| > 0 ==> b[0] in b;
    if a != [] {
      assert a[0] in b && b != [];
      assert b[0] in a;
      assert a[0] == b[0];
      forall k ensures k in a[1..] <==> k in b[1..] {
        assert k in a[1..] ==> k != a[0];
        assert k in b[1..] ==> k != b[0];
        assert k in a <==> k == a[0] || k in a[1..];
        assert k in b <==> k == b[0] || k in b[1..];
      }
      AscendingIsUnique(a[1..], b[1..]);
      assert a == [a[0]] + a[1..] && b == [b[0]] + b[1..];
    }
  }

  /* ---------- inserting a frame ---------- */

  // The timeline after one source wrote the samples from a start index on.
  function Overlay(p: Timeline, source: Source, start: int, samples: seq<real>): Timeline {
    p + map i | start <= i < start + |samples| ::
      (if i in p then p[i] else SILENT).Insert(source, samples[i - start])
  }

  // The same, sample by sample: r is p after the first n samples were written.
  ghost predicate Written(r: Timeline, p: Timeline, source: Source, start: int, samples: seq<real>, n: nat)
    requires n <= |samples|
  {
    (forall i :: i in r <==> i in p || start <= i < start + n) &&
    (forall i :: i in r ==>
      r[i] == if start <= i < start + n then (if i in p then p[i] else SILENT).Insert(source, samples[i - start])
              else p[i])
  }

  lemma {:induction false} WrittenIsOverlay(
      r: Timeline, p: Timeline, source: Source, start: int, samples: seq<real>, n: nat)
    requires n <= |samples| && Written(r, p, source, start, samples, n)
    ensures r == Overlay(p, source, start, samples[..n])
  {
  }

  function WriteOne(r: Timeline, source: Source, index: int, sample: real): Timeline {
    r[index := (if index in r then r[index] else SILENT).Insert(source, sample)]
  }

  lemma {:induction false} WriteNext(r: Timeline, p: Timeline, source: Source, start: int, samples: seq<real>, n: nat)
    requires n < |samples| && Written(r, p, source, start, samples, n)
    ensures Written(WriteOne(r, source, start + n, samples[n]), p, source, start, samples, n + 1)
    ensures start + n in r <==> start + n in p
  {
  }

  // How many indexes are pending once the first n samples were written over these.
  ghost function SizeAfter(keys: set<int>, start: int, n: nat): nat {
    if n == 0 then |keys| else SizeAfter(keys, start, n - 1) + if start + n - 1 in keys then 0 else 1
  }

  lemma {:induction false} SizeAfterBounds(keys: set<int>, start: int, n: nat)
    ensures |keys| <= SizeAfter(keys, start, n) <= |keys| + n
  {
    if n > 0 {
      SizeAfterBounds(keys, start, n - 1);
    }
  }

  lemma {:induction false} SizeAfterCounts(keys: set<int>, start: int, n: nat, after: set<int>)
    requires keys <= after
    requires forall i :: i in after <==> i in keys || start <= i < start + n
    ensures |after| == SizeAfter(keys, start, n)
  {
    if n == 0 {
      forall i | i in after ensures i in keys {}
      assert after <= keys && after == keys;
    } else if start + n - 1 in keys {
      SizeAfterCounts(keys, start, n - 1, after);
    } else {
      SizeAfterCounts(keys, start, n - 1, after - {start + n - 1});
    }
  }

  // When sample k of a frame has its turn, its index is already pending or there is room for it.
  ghost predicate Admits(keys: set<int>, start: int, k: nat) {
    start + k in keys || SizeAfter(keys, start, k) < MAX_PENDING_SAMPLES
  }

  ghost predicate HasRoom(keys: set<int>, start: int, count: nat) {
    forall k :: 0 <= k < count ==> Admits(keys, start, k)
  }

  // In closed form: the frame brings nothing new, or the result stays within the hard bound.
  lemma {:induction false} RoomInClosedForm(keys: set<int>, start: int, count: nat)
    ensures HasRoom(keys, start, count) <==>
      SizeAfter(keys, start, count) == |keys| || SizeAfter(keys, start, count) <= MAX_PENDING_SAMPLES
  {
    if count > 0 {
      var k := count - 1;
      RoomInClosedForm(keys, start, k);
      SizeAfterBounds(keys, start, k);
      assert HasRoom(keys, start, count) <==> HasRoom(keys, start, k) && Admits(keys, start, k);
    }
  }

  /* ---------- grouping the drained samples ---------- */

  // An emitted frame on the grid: consecutive indexes from start on.
  datatype Run<T> = Run(start: int, samples: seq<T>)
  {
    function End(): int {
      start + |samples|
    }
  }

  datatype Point<T> = Point(index: int, value: T)

  predicate Covers(p: Timeline, ks: seq<int>) {
    forall i :: 0 <= i < |ks| ==> ks[i] in p
  }

  // The runs of the first n keys of a list, extending the last run while the keys are consecutive.
  ghost function Group<T>(ks: seq<int>, values: seq<T>, n: nat): seq<Run<T>>
    requires n <= |ks| == |values|
  {
    if n == 0 then []
    else
      var runs, k, value := Group(ks, values, n - 1), ks[n - 1], values[n - 1];
      if runs != [] && runs[|runs| - 1].End() == k then Grown(runs, value)
      else runs + [Run(k, [value])]
  }

  function Grown<T>(runs: seq<Run<T>>, value: T): seq<Run<T>>
    requires runs != []
  {
    var last := runs[|runs| - 1];
    runs[..|runs| - 1] + [Run(last.start, last.samples + [value])]
  }

  ghost function RunPoints<T>(run: Run<T>): seq<Point<T>> {
    seq(|run.samples|, k requires 0 <= k < |run.samples| => Point(run.start + k, run.samples[k]))
  }

  // All samples of a list of runs with their grid positions.
  ghost function Points<T>(runs: seq<Run<T>>): seq<Point<T>> {
    if runs == [] then [] else Points(runs[..|runs| - 1]) + RunPoints(runs[|runs| - 1])
  }

  lemma {:induction false} PointsSnoc<T>(runs: seq<Run<T>>, run: Run<T>)
    ensures Points(runs + [run]) == Points(runs) + RunPoints(run)
  {
    assert (runs + [run])[..|runs|] == runs;
  }

  lemma {:induction false} PointsAppend<T>(a: seq<Run<T>>, b: seq<Run<T>>)
    ensures Points(a + b) == Points(a) + Points(b)
    decreases |b|
  {
    if b == [] {
      assert a + b == a;
    } else {
      var front, last := b[..|b| - 1], b[|b| - 1];
      PointsAppend(a, front);
      PointsSnoc(a + front, last);
      PointsSnoc(front, last);
      assert b == front + [last];
      SeqAssociates(a, front, [last]);
      SeqAssociates(Points(a), Points(front), RunPoints(last));
    }
  }

  function MixedAt(p: Timeline, ks: seq<int>): (values: seq<real>)
    requires Covers(p, ks)
    ensures |values| == |ks|
  {
    seq(|ks|, i requires 0 <= i < |ks| => p[ks[i]].Mixed())
  }

  // The first n keys with their values.
  ghost function Pairs<T>(ks: seq<int>, values: seq<T>, n: nat): seq<Point<T>>
    requires n <= |ks| == |values|
  {
    seq(n, i requires 0 <= i < n => Point(ks[i], values[i]))
  }

  // The timeline read off along a list of its indexes.
  ghost function Enumeration(p: Timeline, ks: seq<int>): seq<Point<real>>
    requires Covers(p, ks)
  {
    Pairs(ks, MixedAt(p, ks), |ks|)
  }

  // Non-empty runs, each starting no earlier than the one before ends.
  ghost predicate Follows<T>(runs: seq<Run<T>>, i: nat)
    requires 0 < i < |runs|
  {
    runs[i - 1].End() <= runs[i].start
  }

  ghost predicate Spaced<T>(runs: seq<Run<T>>) {
    (forall i :: 0 <= i < |runs| ==> runs[i].samples != []) &&
    (forall i {:trigger Follows(runs, i)} :: 0 < i < |runs| ==> Follows(runs, i))
  }

  // Even better, a real gap between any two neighbours: no run could have been longer.
  ghost predicate Gap<T>(runs: seq<Run<T>>, i: nat)
    requires 0 < i < |runs|
  {
    runs[i - 1].End() < runs[i].start
  }

  ghost predicate Maximal<T>(runs: seq<Run<T>>) {
    forall i {:trigger Gap(runs, i)} :: 0 < i < |runs| ==> Gap(runs, i)
  }

  lemma {:induction false} PairsStep<T>(ks: seq<int>, values: seq<T>, n: nat)
    requires n < |ks| == |values|
    ensures Pairs(ks, values, n + 1) == Pairs(ks, values, n) + [Point(ks[n], values[n])]
  {
  }

  lemma {:induction false} NewRun<T>(k: int, value: T)
    ensures RunPoints(Run(k, [value])) == [Point(k, value)]
  {
  }

  // Grouping loses nothing and reorders nothing.
  lemma {:induction false} GroupKeepsPoints<T>(ks: seq<int>, values: seq<T>, n: nat)
    requires n <= |ks| == |values|
    ensures Points(Group(ks, values, n)) == Pairs(ks, values, n)
  {
    var _, _ := GroupPoints(ks, values, n);
  }

  lemma {:induction false} GroupPoints<T>(ks: seq<int>, values: seq<T>, n: nat)
    returns (runs: seq<Run<T>>, points: seq<Point<T>>)
    requires n <= |ks| == |values|
    ensures runs == Group(ks, values, n) && points == Pairs(ks, values, n) && Points(runs) == points
  {
    if n == 0 {
      runs, points := [], [];
    } else {
      runs, points := GroupPoints(ks, values, n - 1);
      runs, points := GroupNextPoints(ks, values, n, runs, points);
    }
  }

  lemma {:induction false} GroupNextPoints<T>(
      ks: seq<int>, values: seq<T>, n: nat, before: seq<Run<T>>, points: seq<Point<T>>)
    returns (runs: seq<Run<T>>, more: seq<Point<T>>)
    requires 0 < n <= |ks| == |values|
    requires before == Group(ks, values, n - 1) && points == Pairs(ks, values, n - 1) && Points(before) == points
    ensures runs == Group(ks, values, n) && more == Pairs(ks, values, n) && Points(runs) == more
  {
    GroupUnfolds(ks, values, n);
    PairsStep(ks, values, n - 1);
    runs, more := Group(ks, values, n), Pairs(ks, values, n);
    NextPoints(before, runs, ks[n - 1], values[n - 1], points, more);
  }

  lemma {:induction false} NextPoints<T>(
      runs: seq<Run<T>>, next: seq<Run<T>>, k: int, value: T, before: seq<Point<T>>, after: seq<Point<T>>)
    requires Points(runs) == before && after == before + [Point(k, value)]
    requires next == if runs != [] && runs[|runs| - 1].End() == k then Grown(runs, value) else runs + [Run(k, [value])]
    ensures Points(next) == after
  {
    AddPoint(runs, k, value);
  }

  lemma {:induction false} GroupUnfolds<T>(ks: seq<int>, values: seq<T>, n: nat)
    requires 0 < n <= |ks| == |values|
    ensures var runs, k, value := Group(ks, values, n - 1), ks[n - 1], values[n - 1];
            Group(ks, values, n) ==
              if runs != [] && runs[|runs| - 1].End() == k then Grown(runs, value) else runs + [Run(k, [value])]
  {
  }

  lemma {:induction false} AddPoint<T>(runs: seq<Run<T>>, k: int, value: T)
    ensures runs != [] && runs[|runs| - 1].End() == k ==> Points(Grown(runs, value)) == Points(runs) + [Point(k, value)]
    ensures Points(runs + [Run(k, [value])]) == Points(runs) + [Point(k, value)]
  {
    if runs != [] {
      var front, last := runs[..|runs| - 1], runs[|runs| - 1];
      GrowLast(front, last, value);
      assert runs == front + [last];
    }
    PointsSnoc(runs, Run(k, [value]));
    NewRun(k, value);
  }

  lemma {:induction false} GrowRun<T>(run: Run<T>, value: T)
    ensures RunPoints(Run(run.start, run.samples + [value])) == RunPoints(run) + [Point(run.End(), value)]
  {
  }

  // Finished runs, then the one still being filled, if any.
  ghost function WithOpen<T>(runs: seq<Run<T>>, start: Option<int>, samples: seq<T>): seq<Run<T>> {
    if start.Some? then runs + [Run(start.value, samples)] else runs
  }

  // What one more key does to the open run.
  lemma {:induction false} NextGroup<T>(
      ks: seq<int>, values: seq<T>, n: nat, runs: seq<Run<T>>, start: Option<int>, samples: seq<T>)
    requires n < |ks| == |values| && Group(ks, values, n) == WithOpen(runs, start, samples)
    requires start.None? ==> n == 0 && runs == []
    ensures var value := values[n];
            Group(ks, values, n + 1) ==
              if start.None? then runs + [Run(ks[n], [] + [value])]
              else if start.value + |samples| == ks[n] then runs + [Run(start.value, samples + [value])]
              else runs + [Run(start.value, samples)] + [Run(ks[n], [] + [value])]
  {
    assert [] + [values[n]] == [values[n]];
    if start.Some? {
      GrownSnoc(runs, Run(start.value, samples), values[n]);
    }
  }

  lemma {:induction false} GrownSnoc<T>(front: seq<Run<T>>, last: Run<T>, value: T)
    ensures Grown(front + [last], value) == front + [Run(last.start, last.samples + [value])]
    ensures (front + [last])[|front + [last]| - 1] == last
  {
  }

  lemma {:induction false} GrowLast<T>(front: seq<Run<T>>, last: Run<T>, value: T)
    ensures Points(front + [Run(last.start, last.samples + [value])]) ==
            Points(front + [last]) + [Point(last.End(), value)]
  {
    var grown, point := Run(last.start, last.samples + [value]), Point(last.End(), value);
    PointsSnoc(front, last);
    PointsSnoc(front, grown);
    GrowRun(last, value);
    SeqAssociates(Points(front), RunPoints(last), [point]);
  }

  lemma {:induction false} SeqAssociates<T>(a: seq<T>, b: seq<T>, c: seq<T>)
    ensures a + (b + c) == (a + b) + c
  {
  }

  // Runs of ascending keys are separated by real gaps and span exactly from the first key to the last.
  lemma {:induction false} GroupIsSpaced<T>(ks: seq<int>, values: seq<T>, n: nat)
    requires n <= |ks| == |values| && Ascending(ks)
    ensures var runs := Group(ks, values, n);
            Spaced(runs) && Maximal(runs) && (n == 0 ==> runs == []) &&
            (n > 0 ==> runs != [] && ks[0] <= runs[0].start && runs[|runs| - 1].End() == ks[n - 1] + 1)
  {
    if n > 0 {
      GroupIsSpaced(ks, values, n - 1);
      var runs, k, value := Group(ks, values, n - 1), ks[n - 1], values[n - 1];
      if runs != [] && runs[|runs| - 1].End() == k {
        SpacedGrow(runs, value);
      } else {
        SpacedSnoc(runs, Run(k, [value]));
      }
    }
  }

  lemma {:induction false} SpacedSnoc<T>(runs: seq<Run<T>>, run: Run<T>)
    requires Spaced(runs) && run.samples != []
    requires runs != [] ==> runs[|runs| - 1].End() <= run.start
    ensures Spaced(runs + [run])
    ensures Maximal(runs) && (runs != [] ==> runs[|runs| - 1].End() < run.start) ==> Maximal(runs + [run])
  {
    var all := runs + [run];
    forall i | 0 < i < |all|
      ensures Follows(all, i)
      ensures Maximal(runs) && (runs != [] ==> runs[|runs| - 1].End() < run.start) ==> Gap(all, i)
    {
      if i < |runs| {
        assert Follows(runs, i);
        assert Maximal(runs) ==> Gap(runs, i);
      }
    }
  }

  lemma {:induction false} SpacedGrow<T>(runs: seq<Run<T>>, value: T)
    requires runs != [] && Spaced(runs) && Maximal(runs)
    ensures var grown := Grown(runs, value);
            Spaced(grown) && Maximal(grown) && grown[0].start == runs[0].start &&
            grown[|grown| - 1].End() == runs[|runs| - 1].End() + 1
  {
    var grown := Grown(runs, value);
    forall i | 0 < i < |grown| ensures Follows(grown, i) && Gap(grown, i) {
      assert Follows(runs, i) && Gap(runs, i);
    }
  }

  /* ---------- the mixer as a state machine on values ---------- */

  datatype State = State(
    origin: Option<real>, pending: Timeline, latestEnd: Option<int>, emittedEnd: Option<int>)

  const FRESH := State(None, map[], None, None)

  predicate ValidFrame(f: NormalizedAudioFrame) {
    f.captureTime >= 0.0 && f.samples != []
  }

  function OriginFor(st: State, f: NormalizedAudioFrame): real {
    if st.origin.Some? then st.origin.value else f.captureTime
  }

  // A common-timeline push succeeds exactly when the frame is well formed, its grid positions fit 64
  // bits, it does not start before the emitted end, and every new index finds room.
  ghost predicate Accepts(st: State, f: NormalizedAudioFrame) {
    ValidFrame(f) && FitsTimeline(st, f) &&
    HasRoom(st.pending.Keys, GridStart(OriginFor(st, f), f), |f.samples|)
  }

  // The part of that test made before any sample is inserted.
  predicate FitsTimeline(st: State, f: NormalizedAudioFrame) {
    var start := TimelineIndex(OriginFor(st, f), f.captureTime);
    start.Some? && start.value + |f.samples| <= I64_MAX &&
    (st.emittedEnd.Some? ==> st.emittedEnd.value <= start.value)
  }

  function GridStart(origin: real, f: NormalizedAudioFrame): int {
    var start := TimelineIndex(origin, f.captureTime);
    if start.Some? then start.value else 0
  }

  function Max(a: int, b: int): int {
    if a >= b then a else b
  }

  function Inserted(st: State, f: NormalizedAudioFrame): State {
    var origin := OriginFor(st, f);
    var start := GridStart(origin, f);
    var end := start + |f.samples|;
    State(Some(origin),
          Overlay(st.pending, f.source, start, f.samples),
          Some(if st.latestEnd.Some? then Max(st.latestEnd.value, end) else end),
          st.emittedEnd)
  }

  function Refused(st: State, f: NormalizedAudioFrame, kept: nat): State
    requires kept <= |f.samples|
  {
    if !ValidFrame(f) then st
    else
      var origin := OriginFor(st, f);
      st.(origin := Some(origin),
          pending := Overlay(st.pending, f.source, GridStart(origin, f), f.samples[..kept]))
  }

  function HoldbackBound(latestEnd: int): int {
    Max(latestEnd - HOLDBACK_SAMPLES, I64_MIN)
  }

  function ReadyKeys(p: Timeline, bound: int): (ks: seq<int>)
    ensures Ascending(ks) && Covers(p, ks)
    ensures forall k :: k in ks <==> k in p && k < bound
  {
    var ks := SortedKeys(set i | i in p && i < bound);
    assert forall i :: 0 <= i < |ks| ==> ks[i] in ks;
    ks
  }

  function Drained(st: State, bound: int): State {
    var ks := ReadyKeys(st.pending, bound);
    st.(pending := map i | i in st.pending && i >= bound :: st.pending[i],
        emittedEnd := if ks == [] then st.emittedEnd else Some(ks[|ks| - 1] + 1))
  }

  lemma {:induction false} RestOf(p: Timeline, bound: int)
    ensures (map i | i in p && i !in ReadyKeys(p, bound) :: p[i]) == map i | i in p && i >= bound :: p[i]
  {
  }

  ghost function DrainRuns(st: State, bound: int): seq<Run<real>> {
    var ks := ReadyKeys(st.pending, bound);
    Group(ks, MixedAt(st.pending, ks), |ks|)
  }

  function FrameOf(origin: real, run: Run<real>): MixedAudioFrame {
    MixedAudioFrame(FrameTime(origin, run.start), run.samples)
  }

  ghost function Emit(origin: real, runs: seq<Run<real>>): seq<MixedAudioFrame> {
    seq(|runs|, i requires 0 <= i < |runs| => FrameOf(origin, runs[i]))
  }

  class AudioMixer {
    var commonTimelineEnabled: bool
    var timelineOrigin: Option<real>
    var pending: Timeline
    var latestEndIndex: Option<int>
    var emittedEndIndex: Option<int>
    var directLastTime: Option<real>

    ghost function View(): State
      reads this
    {
      State(timelineOrigin, pending, latestEndIndex, emittedEndIndex)
    }

    constructor ()
      ensures commonTimelineEnabled && View() == FRESH && directLastTime == None
    {
      commonTimelineEnabled := true;
      timelineOrigin, pending, latestEndIndex, emittedEndIndex, directLastTime := None, map[], None, None, None;
    }

    constructor Direct()
      ensures !commonTimelineEnabled && View() == FRESH && directLastTime == None
    {
      commonTimelineEnabled := false;
      timelineOrigin, pending, latestEndIndex, emittedEndIndex, directLastTime := None, map[], None, None, None;
    }

    method Reset()
      modifies this
      ensures View() == FRESH && directLastTime == None && commonTimelineEnabled == old(commonTimelineEnabled)
    {
      timelineOrigin := None;
      pending := map[];
      latestEndIndex := None;
      emittedEndIndex := None;
      directLastTime := None;
    }

    method SetCommonTimelineEnabled(enabled: bool)
      modifies this
      ensures View() == FRESH && directLastTime == None && commonTimelineEnabled == enabled
    {
      Reset();
      commonTimelineEnabled := enabled;
    }

    // kept counts the samples of a refused frame that stay behind.
    method Push(frame: NormalizedAudioFrame)
      returns (r: Result<seq<MixedAudioFrame>, Resampling.AudioProcessingError>, ghost kept: nat)
      modifies this
      ensures commonTimelineEnabled == old(commonTimelineEnabled)
      ensures commonTimelineEnabled ==> directLastTime == old(directLastTime)
      ensures commonTimelineEnabled ==> (r.Ok? <==> Accepts(old(View()), frame))
      ensures commonTimelineEnabled && r.Ok? ==>
        var st := Inserted(old(View()), frame);
        var bound := HoldbackBound(st.latestEnd.value);
        View() == Drained(st, bound) && r.value == Emit(st.origin.value, DrainRuns(st, bound))
      // A refused frame moves neither end; at most it fixes the origin and leaves a prefix behind.
      ensures commonTimelineEnabled && r.Err? ==>
        kept <= |frame.samples| && View() == Refused(old(View()), frame, kept)
      ensures commonTimelineEnabled && r.Err? && (!ValidFrame(frame) || !FitsTimeline(old(View()), frame)) ==> kept == 0
      ensures commonTimelineEnabled ==> Pushes(old(View()), frame, View())
      ensures !commonTimelineEnabled ==> View() == old(View())
      ensures !commonTimelineEnabled ==>
        (r.Ok? <==> ValidFrame(frame) && (old(directLastTime).Some? ==> old(directLastTime).value <= frame.captureTime))
      ensures !commonTimelineEnabled && r.Ok? ==>
        directLastTime == Some(frame.captureTime) && |r.value| == 1 &&
        r.value[0].captureTime == frame.captureTime && |r.value[0].samples| == |frame.samples| &&
        forall i :: 0 <= i < |frame.samples| ==> IsMixOf(r.value[0].samples[i], Some(frame.samples[i]), None)
    {
      kept := 0;
      if frame.captureTime < 0.0 || frame.samples == [] {
        r := Err(Resampling.InvalidTimeline);
        return;
      }
      if !commonTimelineEnabled {
        r := PushDirect(frame);
        return;
      }
      r, kept := PushCommon(frame);
    }

    method PushCommon(frame: NormalizedAudioFrame)
      returns (r: Result<seq<MixedAudioFrame>, Resampling.AudioProcessingError>, ghost kept: nat)
      requires ValidFrame(frame)
      modifies this`timelineOrigin, this`pending, this`latestEndIndex, this`emittedEndIndex
      ensures r.Ok? <==> Accepts(old(View()), frame)
      ensures r.Ok? ==>
        var st := Inserted(old(View()), frame);
        var bound := HoldbackBound(st.latestEnd.value);
        View() == Drained(st, bound) && r.value == Emit(st.origin.value, DrainRuns(st, bound))
      ensures r.Err? ==> kept <= |frame.samples| && View() == Refused(old(View()), frame, kept)
      ensures r.Err? && !FitsTimeline(old(View()), frame) ==> kept == 0
      ensures HasRoom(old(pending).Keys, GridStart(OriginFor(old(View()), frame), frame), kept)
    {
      kept := 0;
      WrittenIsOverlay(pending, pending, frame.source, GridStart(OriginFor(View(), frame), frame), frame.samples, 0);
      if timelineOrigin.None? {
        timelineOrigin := Some(frame.captureTime);
      }
      var origin := timelineOrigin.value;
      var startIndex := TimelineIndex(origin, frame.captureTime);
      if startIndex.None? {
        r := Err(Resampling.InvalidTimeline);
        return;
      }
      var start := startIndex.value;
      var frameEnd := start + |frame.samples|;
      if frameEnd > I64_MAX {
        r := Err(Resampling.InvalidTimeline);
        return;
      }
      if emittedEndIndex.Some? && start < emittedEndIndex.value {
        r := Err(Resampling.InvalidTimeline);
        return;
      }
      var inserted;
      inserted, kept := InsertBlocks(frame, start);
      if !inserted {
        r := Err(Resampling.InvalidTimeline);
        return;
      }
      latestEndIndex :=
        Some(if latestEndIndex.Some? then Max(latestEndIndex.value, frameEnd) else frameEnd);
      assert frame.samples[..|frame.samples|] == frame.samples;
      assert View() == Inserted(old(View()), frame);
      var frames := DrainReady();
      r := Ok(frames);
    }

    // The insertion loops of push: blocks of 320, refusing the first new index past the hard bound.
    method InsertBlocks(frame: NormalizedAudioFrame, start: int) returns (inserted: bool, ghost kept: nat)
      modifies this`pending
      ensures inserted <==> HasRoom(old(pending).Keys, start, |frame.samples|)
      ensures kept <= |frame.samples| && (inserted ==> kept == |frame.samples|)
      ensures HasRoom(old(pending).Keys, start, kept)
      ensures pending == Overlay(old(pending), frame.source, start, frame.samples[..kept])
    {
      var done := 0;
      while done < |frame.samples|
        invariant 0 <= done <= |frame.samples|
        invariant Written(pending, old(pending), frame.source, start, frame.samples, done)
        invariant HasRoom(old(pending).Keys, start, done)
      {
        var blockEnd := Min(done + INSERT_BLOCK_SAMPLES, |frame.samples|);
        while done < blockEnd
          invariant 0 <= done <= blockEnd <= |frame.samples|
          invariant Written(pending, old(pending), frame.source, start, frame.samples, done)
          invariant HasRoom(old(pending).Keys, start, done)
        {
          var index := start + done;
          forall i | i in old(pending).Keys ensures i in pending.Keys {}
          SizeAfterCounts(old(pending).Keys, start, done, pending.Keys);
          WriteNext(pending, old(pending), frame.source, start, frame.samples, done);
          if index !in pending && |pending.Keys| >= MAX_PENDING_SAMPLES {
            assert !Admits(old(pending).Keys, start, done);
            WrittenIsOverlay(pending, old(pending), frame.source, start, frame.samples, done);
            return false, done;
          }
          pending := WriteOne(pending, frame.source, index, frame.samples[done]);
          done := done + 1;
        }
      }
      WrittenIsOverlay(pending, old(pending), frame.source, start, frame.samples, done);
      return true, done;
    }

    // Releases what is left during the normal stop.
    method Flush() returns (frames: seq<MixedAudioFrame>)
      modifies this
      ensures commonTimelineEnabled == old(commonTimelineEnabled)
      ensures !commonTimelineEnabled || old(timelineOrigin).None? ==> frames == [] && View() == old(View())
      ensures commonTimelineEnabled && old(timelineOrigin).Some? ==>
        View() == Drained(old(View()), I64_MAX) &&
        frames == Emit(old(timelineOrigin).value, DrainRuns(old(View()), I64_MAX))
    {
      if !commonTimelineEnabled {
        return [];
      }
      frames := DrainThrough(I64_MAX);
    }

    method DrainReady() returns (frames: seq<MixedAudioFrame>)
      requires timelineOrigin.Some?
      modifies this`pending, this`emittedEndIndex
      ensures latestEndIndex.None? ==> frames == [] && View() == old(View())
      ensures latestEndIndex.Some? ==>
        var bound := HoldbackBound(latestEndIndex.value);
        View() == Drained(old(View()), bound) && frames == Emit(timelineOrigin.value, DrainRuns(old(View()), bound))
    {
      if latestEndIndex.None? {
        return [];
      }
      frames := DrainThrough(HoldbackBound(latestEndIndex.value));
    }

    method PushDirect(
        frame: NormalizedAudioFrame)
      returns (r: Result<seq<MixedAudioFrame>, Resampling.AudioProcessingError>)
      modifies this`directLastTime
      ensures r.Ok? <==> (old(directLastTime).Some? ==> old(directLastTime).value <= frame.captureTime)
      ensures r.Ok? ==>
        directLastTime == Some(frame.captureTime) && |r.value| == 1 &&
        r.value[0].captureTime == frame.captureTime && |r.value[0].samples| == |frame.samples| &&
        forall i :: 0 <= i < |frame.samples| ==> IsMixOf(r.value[0].samples[i], Some(frame.samples[i]), None)
    {
      if directLastTime.Some? && frame.captureTime < directLastTime.value {
        return Err(Resampling.InvalidTimeline);
      }
      directLastTime := Some(frame.captureTime);
      var gained := seq(|frame.samples|, i requires 0 <= i < |frame.samples| => Clamp(frame.samples[i] * 0.5));
      r := Ok([MixedAudioFrame(frame.captureTime, gained)]);
    }

    method DrainThrough(bound: int) returns (frames: seq<MixedAudioFrame>)
      modifies this`pending, this`emittedEndIndex
      ensures timelineOrigin.None? ==> frames == [] && View() == old(View())
      ensures timelineOrigin.Some? ==>
        View() == Drained(old(View()), bound) &&
        frames == Emit(timelineOrigin.value, DrainRuns(old(View()), bound))
    {
      if timelineOrigin.None? {
        return [];
      }
      var ready := ReadyKeys(pending, bound);
      ghost var runs;
      frames, runs := TakeRuns(timelineOrigin.value, pending, ready);
      RestOf(pending, bound);
      pending := map i | i in pending && i !in ready :: pending[i];
      if ready != [] {
        emittedEndIndex := Some(ready[|ready| - 1] + 1);
      }
    }
  }

  // The draining loop: mixes the ready samples in order and cuts a frame wherever the index jumps.
  method TakeRuns(origin: real, pending: Timeline, ready: seq<int>)
    returns (frames: seq<MixedAudioFrame>, ghost runs: seq<Run<real>>)
    requires Covers(pending, ready)
    ensures frames == Emit(origin, Group(ready, MixedAt(pending, ready), |ready|))
    ensures runs == Group(ready, MixedAt(pending, ready), |ready|)
  {
    frames, runs := [], [];
    ghost var values := MixedAt(pending, ready);
    var currentStart: Option<int> := None;
    var currentSamples: seq<real> := [];
    var previous: Option<int> := None;
    for n := 0 to |ready|
      invariant n > 0 <==> currentStart.Some?
      invariant n > 0 ==> previous == Some(ready[n - 1])
      invariant n == 0 ==> runs == [] && previous.None? && currentSamples == []
      invariant n > 0 ==> currentSamples != [] && currentStart.value + |currentSamples| == previous.value + 1
      invariant frames == Emit(origin, runs)
      invariant Group(ready, values, n) == WithOpen(runs, currentStart, currentSamples)
    {
      var index := ready[n];
      var sample := pending[index].Mixed();
      NextGroup(ready, values, n, runs, currentStart, currentSamples);
      if previous.Some? && index != previous.value + 1 {
        EmitSnoc(origin, runs, Run(currentStart.value, currentSamples));
        frames := frames + [MixedAudioFrame(FrameTime(origin, currentStart.value), currentSamples)];
        runs := runs + [Run(currentStart.value, currentSamples)];
        currentSamples := [];
        currentStart := None;
      }
      if currentStart.None? {
        currentStart := Some(index);
      }
      currentSamples := currentSamples + [sample];
      previous := Some(index);
    }
    if currentStart.Some? {
      EmitSnoc(origin, runs, Run(currentStart.value, currentSamples));
      frames := frames + [MixedAudioFrame(FrameTime(origin, currentStart.value), currentSamples)];
      runs := runs + [Run(currentStart.value, currentSamples)];
    }
  }

  lemma {:induction false} EmitSnoc(origin: real, runs: seq<Run<real>>, run: Run<real>)
    ensures Emit(origin, runs + [run]) == Emit(origin, runs) + [FrameOf(origin, run)]
  {
  }

  function Min(a: int, b: int): int {
    if a <= b then a else b
  }

  /* ---------- whole runs ---------- */

  // Everything a run of successful pushes has emitted, and the state it is in.
  datatype Outcome = Outcome(state: State, runs: seq<Run<real>>, keys: seq<int>)

  ghost function Drain(o: Outcome, bound: int): Outcome {
    Outcome(Drained(o.state, bound), o.runs + DrainRuns(o.state, bound), o.keys + ReadyKeys(o.state.pending, bound))
  }

  ghost function Pushed(fs: seq<NormalizedAudioFrame>): Option<Outcome> {
    if fs == [] then Some(Outcome(FRESH, [], []))
    else
      var before, f := Pushed(fs[..|fs| - 1]), fs[|fs| - 1];
      if before.None? || !Accepts(before.value.state, f) then None
      else
        var st := Inserted(before.value.state, f);
        Some(Drain(before.value.(state := st), HoldbackBound(st.latestEnd.value)))
  }

  // The batch mix: every frame laid over the one timeline whose origin is the first frame's time.
  ghost function Batch(origin: real, fs: seq<NormalizedAudioFrame>): Timeline {
    if fs == [] then map[]
    else
      var f := fs[|fs| - 1];
      Overlay(Batch(origin, fs[..|fs| - 1]), f.source, GridStart(origin, f), f.samples)
  }

  ghost function OriginOf(fs: seq<NormalizedAudioFrame>): real {
    if fs == [] then 0.0 else fs[0].captureTime
  }

  // The last value a source wrote at an index.
  ghost function LastWrite(origin: real, fs: seq<NormalizedAudioFrame>, source: Source, index: int): Option<real> {
    if fs == [] then None
    else
      var f := fs[|fs| - 1];
      var start := GridStart(origin, f);
      if f.source == source && start <= index < start + |f.samples| then Some(f.samples[index - start])
      else LastWrite(origin, fs[..|fs| - 1], source, index)
  }

  // The batch mix holds exactly the indexes some frame covers, with each source's last write.
  lemma {:induction false} BatchHoldsLastWrites(origin: real, fs: seq<NormalizedAudioFrame>, index: int)
    ensures var system, microphone :=
              LastWrite(origin, fs, SystemAudio, index), LastWrite(origin, fs, Microphone, index);
            (index in Batch(origin, fs) <==> system.Some? || microphone.Some?) &&
            (index in Batch(origin, fs) ==> Batch(origin, fs)[index] == TimelineSample(system, microphone))
    decreases |fs|
  {
    if fs != [] {
      var front, f := fs[..|fs| - 1], fs[|fs| - 1];
      BatchHoldsLastWrites(origin, front, index);
      OverlayAt(Batch(origin, front), f.source, GridStart(origin, f), f.samples, index);
    }
  }

  lemma {:induction false} OverlayAt(p: Timeline, source: Source, start: int, samples: seq<real>, index: int)
    ensures var written, after := start <= index < start + |samples|, Overlay(p, source, start, samples);
            (index in after <==> index in p || written) &&
            (written ==>
              after[index] == (if index in p then p[index] else SILENT).Insert(source, samples[index - start])) &&
            (!written && index in p ==> after[index] == p[index])
  {
  }

  /* ---------- what every accepted push keeps ---------- */

  // The batch is what was emitted together with what is pending.
  ghost predicate Partition(st: State, keys: seq<int>, batch: Timeline) {
    (forall i :: 0 <= i < |keys| ==> keys[i] in batch) &&
    (forall k :: k in batch ==> k in st.pending || k in keys) &&
    (forall k :: k in st.pending ==> k in batch && st.pending[k] == batch[k])
  }

  // Emission is ascending, the emitted end is just past it, and everything pending comes later.
  ghost predicate Ordered(st: State, keys: seq<int>) {
    Ascending(keys) &&
    (keys == [] ==> st.emittedEnd.None?) &&
    (keys != [] ==> st.emittedEnd == Some(keys[|keys| - 1] + 1)) &&
    (keys != [] ==> forall k :: k in st.pending ==> keys[|keys| - 1] < k)
  }

  ghost predicate Splits(st: State, keys: seq<int>, batch: Timeline) {
    Partition(st, keys, batch) && Ordered(st, keys)
  }

  // Every pending index lies below the latest end and on the 64-bit grid.
  ghost predicate Below(st: State) {
    (st.latestEnd.None? ==> st.pending == map[]) &&
    (st.latestEnd.Some? ==>
      st.latestEnd.value <= I64_MAX && forall k :: k in st.pending ==> I64_MIN <= k < st.latestEnd.value)
  }

  // No pending index is older than the holdback.
  ghost predicate WithinHoldback(st: State) {
    st.latestEnd.Some? ==> forall k :: k in st.pending ==> st.latestEnd.value - HOLDBACK_SAMPLES <= k
  }

  // The runs read off the batch along the keys, and span exactly from the first key to the last.
  ghost predicate Outputs(batch: Timeline, runs: seq<Run<real>>, keys: seq<int>) {
    Covers(batch, keys) &&
    Points(runs) == Enumeration(batch, keys) && Spaced(runs) &&
    (keys == [] ==> runs == []) &&
    (keys != [] ==> runs != [] && keys[0] <= runs[0].start && runs[|runs| - 1].End() == keys[|keys| - 1] + 1)
  }

  lemma {:induction false} InsertKeepsSplit(st: State, keys: seq<int>, batch: Timeline, f: NormalizedAudioFrame)
    requires Splits(st, keys, batch) && Accepts(st, f)
    ensures Splits(Inserted(st, f), keys, Overlay(batch, f.source, GridStart(OriginFor(st, f), f), f.samples))
    ensures Enumeration(batch, keys) ==
      Enumeration(Overlay(batch, f.source, GridStart(OriginFor(st, f), f), f.samples), keys)
  {
    var start := GridStart(OriginFor(st, f), f);
    forall i | 0 <= i < |keys| ensures keys[i] < start {
      assert keys[i] <= keys[|keys| - 1];
    }
  }

  lemma {:induction false} DrainKeepsPartition(st: State, keys: seq<int>, batch: Timeline, bound: int)
    requires Partition(st, keys, batch)
    ensures Partition(Drained(st, bound), keys + ReadyKeys(st.pending, bound), batch)
  {
    var ready := ReadyKeys(st.pending, bound);
    var all := keys + ready;
    forall k | k in batch ensures k in Drained(st, bound).pending || k in all {
      if k in st.pending && k < bound {
        assert k in ready;
      }
    }
    forall i | 0 <= i < |all| ensures all[i] in batch {
      if i >= |keys| {
        assert ready[i - |keys|] in st.pending;
      }
    }
  }

  lemma {:induction false} DrainKeepsOrder(st: State, keys: seq<int>, bound: int)
    requires Ordered(st, keys)
    ensures Ordered(Drained(st, bound), keys + ReadyKeys(st.pending, bound))
  {
    var ready := ReadyKeys(st.pending, bound);
    LastOfJoin(keys, ready);
    if ready != [] {
      assert ready[0] in st.pending && ready[|ready| - 1] in ready;
    }
    JoinAscending(keys, ready);
  }

  lemma {:induction false} DrainKeepsSplit(st: State, keys: seq<int>, batch: Timeline, bound: int)
    requires Splits(st, keys, batch)
    ensures Splits(Drained(st, bound), keys + ReadyKeys(st.pending, bound), batch)
  {
    DrainKeepsPartition(st, keys, batch, bound);
    DrainKeepsOrder(st, keys, bound);
  }

  lemma {:induction false} JoinAscending(a: seq<int>, b: seq<int>)
    requires Ascending(a) && Ascending(b)
    requires a != [] && b != [] ==> a[|a| - 1] < b[0]
    ensures Ascending(a + b)
  {
  }

  lemma {:induction false} LastOfJoin(a: seq<int>, b: seq<int>)
    ensures a + b != [] ==> (a + b)[|a + b| - 1] == if b == [] then a[|a| - 1] else b[|b| - 1]
  {
  }

  lemma {:induction false} MixedAgrees(p: Timeline, batch: Timeline, ks: seq<int>)
    requires Covers(p, ks)
    requires forall k :: k in p ==> k in batch && p[k] == batch[k]
    ensures Covers(batch, ks) && MixedAt(p, ks) == MixedAt(batch, ks)
  {
    forall i | 0 <= i < |ks| ensures ks[i] in batch && p[ks[i]] == batch[ks[i]] {
      var k := ks[i];
      assert p[k] == p[k];
    }
  }

  lemma {:induction false} DrainOutputs(p: Timeline, batch: Timeline, ready: seq<int>)
    requires Ascending(ready) && Covers(p, ready)
    requires forall k :: k in p ==> k in batch && p[k] == batch[k]
    ensures Outputs(batch, Group(ready, MixedAt(p, ready), |ready|), ready)
  {
    MixedAgrees(p, batch, ready);
    var values := MixedAt(p, ready);
    GroupKeepsPoints(ready, values, |ready|);
    GroupIsSpaced(ready, values, |ready|);
  }

  lemma {:induction false} JoinOutputs(
      batch: Timeline, runs: seq<Run<real>>, keys: seq<int>, more: seq<Run<real>>, ready: seq<int>)
    requires Outputs(batch, runs, keys) && Outputs(batch, more, ready)
    requires keys != [] && ready != [] ==> keys[|keys| - 1] < ready[0]
    ensures Outputs(batch, runs + more, keys + ready)
  {
    if ready == [] {
      assert runs + more == runs && keys + ready == keys;
    } else if keys == [] {
      assert runs + more == more && keys + ready == ready;
    } else {
      PointsAppend(runs, more);
      EnumerationJoin(batch, keys, ready);
      LastOfJoin(keys, ready);
      SpacedJoin(runs, more);
    }
  }

  lemma {:induction false} DrainKeepsOutput(o: Outcome, batch: Timeline, bound: int)
    requires Splits(o.state, o.keys, batch) && Outputs(batch, o.runs, o.keys)
    ensures Outputs(batch, Drain(o, bound).runs, Drain(o, bound).keys)
  {
    var ready := ReadyKeys(o.state.pending, bound);
    assert ready != [] ==> ready[0] in o.state.pending;
    DrainOutputs(o.state.pending, batch, ready);
    JoinOutputs(batch, o.runs, o.keys, Group(ready, MixedAt(o.state.pending, ready), |ready|), ready);
  }

  lemma {:induction false} EnumerationJoin(batch: Timeline, a: seq<int>, b: seq<int>)
    requires Covers(batch, a) && Covers(batch, b)
    ensures Covers(batch, a + b)
    ensures Enumeration(batch, a + b) == Enumeration(batch, a) + Enumeration(batch, b)
  {
  }

  lemma {:induction false} SpacedJoin<T>(a: seq<Run<T>>, b: seq<Run<T>>)
    requires Spaced(a) && Spaced(b) && b != []
    requires a != [] ==> a[|a| - 1].End() <= b[0].start
    ensures Spaced(a + b) && (a + b)[|a + b| - 1] == b[|b| - 1]
  {
    var all := a + b;
    forall i | 0 < i < |all| ensures Follows(all, i) {
      if i < |a| {
        assert Follows(a, i);
      } else if i > |a| {
        assert Follows(b, i - |a|);
      }
    }
  }

  ghost predicate Sound(fs: seq<NormalizedAudioFrame>, o: Outcome) {
    var batch := Batch(OriginOf(fs), fs);
    Splits(o.state, o.keys, batch) && Outputs(batch, o.runs, o.keys) && Below(o.state) && WithinHoldback(o.state) &&
    o.state.origin == (if fs == [] then None else Some(OriginOf(fs))) &&
    (o.state.latestEnd.None? <==> fs == [])
  }

  // Every run of successful pushes keeps the whole invariant.
  lemma {:induction false} EveryRunIsSound(fs: seq<NormalizedAudioFrame>)
    requires Pushed(fs).Some?
    ensures Sound(fs, Pushed(fs).value)
    decreases |fs|
  {
    if fs != [] {
      var front, f := fs[..|fs| - 1], fs[|fs| - 1];
      EveryRunIsSound(front);
      var o := Pushed(front).value;
      BatchIgnoresOrigin(OriginOf(front), OriginOf(fs), front);
      var batch := Batch(OriginOf(fs), front);
      InsertKeepsSplit(o.state, o.keys, batch, f);
      var st := Inserted(o.state, f);
      var bound := HoldbackBound(st.latestEnd.value);
      DrainKeepsSplit(st, o.keys, Batch(OriginOf(fs), fs), bound);
      DrainKeepsOutput(o.(state := st), Batch(OriginOf(fs), fs), bound);
    }
  }

  // The batch of no frames does not depend on the origin, and later batches share it.
  lemma {:induction false} BatchIgnoresOrigin(a: real, b: real, fs: seq<NormalizedAudioFrame>)
    requires fs == [] || a == b
    ensures Batch(a, fs) == Batch(b, fs)
  {
  }

  /* ---------- main results ---------- */

  // Streaming refines batch: whatever frames were pushed, in whatever pieces, the output up to and
  // including the flush is the batch mix read off in ascending order, once per index.
  lemma {:induction false} StreamingMixRefinesBatchMix(fs: seq<NormalizedAudioFrame>)
    requires Pushed(fs).Some?
    ensures var batch, o := Batch(OriginOf(fs), fs), Drain(Pushed(fs).value, I64_MAX);
            Covers(batch, SortedKeys(batch.Keys)) &&
            Points(o.runs) == Enumeration(batch, SortedKeys(batch.Keys)) &&
            Spaced(o.runs) && o.state.pending == map[]
  {
    EveryRunIsSound(fs);
    var batch, o := Batch(OriginOf(fs), fs), Pushed(fs).value;
    DrainKeepsSplit(o.state, o.keys, batch, I64_MAX);
    DrainKeepsOutput(o, batch, I64_MAX);
    var all := Drain(o, I64_MAX).keys;
    var sorted := SortedKeys(batch.Keys);
    assert Drain(o, I64_MAX).state.pending == map[];
    forall k ensures k in all <==> k in sorted {
      if k in all {
        var i :| 0 <= i < |all| && all[i] == k;
        assert all[i] in batch;
      }
    }
    AscendingIsUnique(all, sorted);
  }

  // A point carries the mix of what the sources wrote last at its index, and one of them did write there.
  ghost predicate CarriesLastWrites(origin: real, fs: seq<NormalizedAudioFrame>, point: Point<real>) {
    var system, microphone :=
      LastWrite(origin, fs, SystemAudio, point.index), LastWrite(origin, fs, Microphone, point.index);
    (system.Some? || microphone.Some?) && IsMixOf(point.value, system, microphone)
  }

  lemma {:induction false} EnumerationCarriesLastWrites(
      origin: real, fs: seq<NormalizedAudioFrame>, ks: seq<int>, k: nat)
    requires Covers(Batch(origin, fs), ks) && k < |ks|
    ensures CarriesLastWrites(origin, fs, Enumeration(Batch(origin, fs), ks)[k])
  {
    BatchHoldsLastWrites(origin, fs, ks[k]);
  }

  // Sample for sample, after any accepted pushes and also after the flush: whatever came out at an index is half
  // the sum of the last system and the last microphone sample written there, limited to [-1, 1].
  lemma {:induction false} EmittedSamplesMixTheLastWrites(fs: seq<NormalizedAudioFrame>, k: nat)
    requires Pushed(fs).Some?
    ensures var points := Points(Pushed(fs).value.runs);
            k < |points| ==> CarriesLastWrites(OriginOf(fs), fs, points[k])
    ensures var points := Points(Drain(Pushed(fs).value, I64_MAX).runs);
            k < |points| ==> CarriesLastWrites(OriginOf(fs), fs, points[k])
  {
    EveryRunIsSound(fs);
    StreamingMixRefinesBatchMix(fs);
    var batch, o := Batch(OriginOf(fs), fs), Pushed(fs).value;
    if k < |o.keys| {
      EnumerationCarriesLastWrites(OriginOf(fs), fs, o.keys, k);
    }
    if k < |SortedKeys(batch.Keys)| {
      EnumerationCarriesLastWrites(OriginOf(fs), fs, SortedKeys(batch.Keys), k);
    }
  }

  // And every index some source wrote comes out, once.
  lemma {:induction false} EveryWriteComesOut(fs: seq<NormalizedAudioFrame>, source: Source, index: int)
    returns (k: nat)
    requires Pushed(fs).Some? && LastWrite(OriginOf(fs), fs, source, index).Some?
    ensures var points := Points(Drain(Pushed(fs).value, I64_MAX).runs);
            k < |points| && points[k].index == index &&
            forall j :: 0 <= j < |points| && points[j].index == index ==> j == k
  {
    StreamingMixRefinesBatchMix(fs);
    BatchHoldsLastWrites(OriginOf(fs), fs, index);
    var ks := SortedKeys(Batch(OriginOf(fs), fs).Keys);
    assert index in ks;
    k :| k < |ks| && ks[k] == index;
  }

  lemma {:induction false} CountInInterval(s: set<int>, low: int, count: nat)
    requires forall k :: k in s ==> low <= k < low + count
    ensures |s| <= count
  {
    if count == 0 {
      assert forall k :: k !in s;
      if s != {} {
        var x := SomeElement(s);
        assert false;
      }
    } else {
      CountInInterval(s - {low + count - 1}, low, count - 1);
    }
  }

  // After every run of successful pushes at most 800 samples wait, all within the holdback.
  lemma {:induction false} PendingIsBounded(fs: seq<NormalizedAudioFrame>)
    requires Pushed(fs).Some? && fs != []
    ensures var st := Pushed(fs).value.state;
            |st.pending.Keys| <= 800 && st.latestEnd.Some? &&
            forall k :: k in st.pending ==> st.latestEnd.value - 800 <= k < st.latestEnd.value
  {
    EveryRunIsSound(fs);
    var st := Pushed(fs).value.state;
    CountInInterval(st.pending.Keys, st.latestEnd.value - HOLDBACK_SAMPLES, HOLDBACK_SAMPLES);
  }

  /* ---------- the holdback ---------- */

  function EndOf(origin: real, f: NormalizedAudioFrame): int {
    GridStart(origin, f) + |f.samples|
  }

  // Nothing was emitted within the holdback before the latest end.
  ghost predicate BehindHoldback(st: State) {
    st.emittedEnd.Some? ==> st.latestEnd.Some? && st.emittedEnd.value <= HoldbackBound(st.latestEnd.value)
  }

  lemma {:induction false} PushStaysBehind(st: State, f: NormalizedAudioFrame)
    requires BehindHoldback(st)
    ensures var inserted := Inserted(st, f);
            var after, end := Drained(inserted, HoldbackBound(inserted.latestEnd.value)), EndOf(OriginFor(st, f), f);
            BehindHoldback(after) && after.latestEnd.Some? &&
            (after.latestEnd.value == end || (st.latestEnd.Some? && after.latestEnd == st.latestEnd))
  {
    var inserted := Inserted(st, f);
    var ready := ReadyKeys(inserted.pending, HoldbackBound(inserted.latestEnd.value));
    if ready != [] {
      assert ready[|ready| - 1] in ready;
    }
  }

  // The latest end is that of some frame.
  lemma {:induction false} EmittedBehindHoldback(fs: seq<NormalizedAudioFrame>) returns (latest: nat)
    requires Pushed(fs).Some?
    ensures BehindHoldback(Pushed(fs).value.state)
    ensures fs == [] ==> Pushed(fs).value.state == FRESH
    ensures fs != [] ==>
      latest < |fs| && Pushed(fs).value.state.latestEnd == Some(EndOf(OriginOf(fs), fs[latest]))
    decreases |fs|
  {
    latest := 0;
    if fs != [] {
      var front, f := fs[..|fs| - 1], fs[|fs| - 1];
      var earlier := EmittedBehindHoldback(front);
      EveryRunIsSound(front);
      var st := Pushed(front).value.state;
      PushStaysBehind(st, f);
      latest := if Inserted(st, f).latestEnd == Some(EndOf(OriginFor(st, f), f)) then |fs| - 1 else earlier;
    }
  }

  // The holdback is kept: after any accepted pushes, a frame that starts at most 800 positions before the end of
  // every earlier frame is not too late. With at most 4,000 samples it is accepted.
  lemma {:induction false} HoldbackLeavesRoom(fs: seq<NormalizedAudioFrame>, f: NormalizedAudioFrame)
    requires Pushed(fs).Some? && fs != [] && ValidFrame(f) && TimelineIndex(OriginOf(fs), f.captureTime).Some?
    requires EndOf(OriginOf(fs), f) <= I64_MAX
    requires forall i :: 0 <= i < |fs| ==> EndOf(OriginOf(fs), fs[i]) - 800 <= GridStart(OriginOf(fs), f)
    ensures FitsTimeline(Pushed(fs).value.state, f)
    ensures |f.samples| <= 4_000 ==> Accepts(Pushed(fs).value.state, f)
  {
    EveryRunIsSound(fs);
    var _ := EmittedBehindHoldback(fs);
    if |f.samples| <= MAX_PENDING_SAMPLES - HOLDBACK_SAMPLES {
      OrdinaryFramesAreAccepted(fs, f);
    }
  }

  /* ---------- the hard bound, refused pushes included ---------- */

  // One push of the common timeline, accepted or refused.
  ghost predicate Pushes(st: State, f: NormalizedAudioFrame, after: State) {
    if Accepts(st, f) then
      after == Drained(Inserted(st, f), HoldbackBound(Inserted(st, f).latestEnd.value))
    else
      exists kept: nat ::
        kept <= |f.samples| && HasRoom(st.pending.Keys, GridStart(OriginFor(st, f), f), kept) &&
          after == Refused(st, f, kept)
  }

  lemma {:induction false} OverlaySize(p: Timeline, source: Source, start: int, samples: seq<real>)
    requires HasRoom(p.Keys, start, |samples|) && |p.Keys| <= MAX_PENDING_SAMPLES
    ensures |Overlay(p, source, start, samples).Keys| <= MAX_PENDING_SAMPLES
  {
    var after := Overlay(p, source, start, samples);
    forall i | i in p.Keys ensures i in after.Keys {}
    assert p.Keys <= after.Keys;
    SizeAfterCounts(p.Keys, start, |samples|, after.Keys);
    RoomInClosedForm(p.Keys, start, |samples|);
  }

  lemma {:induction false} SubsetSize(a: set<int>, b: set<int>)
    requires forall k :: k in a ==> k in b
    ensures |a| <= |b|
  {
    forall k | k in a ensures k in b {}
    assert a <= b;
    assert b == a + (b - a);
  }

  lemma {:induction false} PushKeepsHardBound(st: State, f: NormalizedAudioFrame, after: State)
    requires Pushes(st, f, after) && |st.pending.Keys| <= MAX_PENDING_SAMPLES
    ensures |after.pending.Keys| <= MAX_PENDING_SAMPLES
  {
    var start := GridStart(OriginFor(st, f), f);
    if Accepts(st, f) {
      OverlaySize(st.pending, f.source, start, f.samples);
      SubsetSize(after.pending.Keys, Inserted(st, f).pending.Keys);
    } else {
      var kept: nat :| kept <= |f.samples| && HasRoom(st.pending.Keys, start, kept) && after == Refused(st, f, kept);
      OverlaySize(st.pending, f.source, start, f.samples[..kept]);
    }
  }

  ghost predicate PushesAt(states: seq<State>, fs: seq<NormalizedAudioFrame>, n: nat)
    requires n < |fs| && n + 1 < |states|
  {
    Pushes(states[n], fs[n], states[n + 1])
  }

  ghost predicate PushesAll(states: seq<State>, fs: seq<NormalizedAudioFrame>) {
    |states| == |fs| + 1 && states[0] == FRESH &&
    forall n {:trigger PushesAt(states, fs, n)} :: 0 <= n < |fs| ==> PushesAt(states, fs, n)
  }

  // Whatever is pushed, accepted or refused: never more than 4,800 samples are pending.
  lemma {:induction false} NeverMoreThanTheHardBound(states: seq<State>, fs: seq<NormalizedAudioFrame>, n: nat)
    requires PushesAll(states, fs) && n <= |fs|
    ensures |states[n].pending.Keys| <= 4_800
  {
    if n > 0 {
      NeverMoreThanTheHardBound(states, fs, n - 1);
      assert PushesAt(states, fs, n - 1);
      PushKeepsHardBound(states[n - 1], fs[n - 1], states[n]);
    }
  }

  // So a frame of at most 4,000 samples is only ever refused for its own shape or for coming too late.
  lemma {:induction false} OrdinaryFramesAreAccepted(fs: seq<NormalizedAudioFrame>, f: NormalizedAudioFrame)
    requires Pushed(fs).Some? && |f.samples| <= 4_000
    ensures Accepts(Pushed(fs).value.state, f) <==> ValidFrame(f) && FitsTimeline(Pushed(fs).value.state, f)
  {
    var st := Pushed(fs).value.state;
    if fs != [] {
      PendingIsBounded(fs);
    }
    assert |st.pending.Keys| <= HOLDBACK_SAMPLES;
    var start := GridStart(OriginFor(st, f), f);
    forall k | 0 <= k < |f.samples| ensures Admits(st.pending.Keys, start, k) {
      SizeAfterBounds(st.pending.Keys, start, k);
    }
  }
}
