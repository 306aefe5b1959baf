/**
 * The streaming linear resampler of the capture pipeline.
 *
 * Positions are exact: a position counts 1/16,000 of an input sample, so an output step is the input
 * rate itself and the whole-sample part of a position is its quotient by 16,000.
 */
module Resampling {
  import opened Wrappers

  const UNIT := 16_000  // the target rate, and one whole input sample in position units

  datatype AudioProcessingError = InvalidFrame | InvalidTimeline

  function Lerp(first: real, second: real, numerator: int): real {
    first + (second - first) * (numerator as real / UNIT as real)
  }

  // The interpolated sample at a position within a buffer.
  function SampleAt(buffer: seq<real>, relative: nat): real
    requires relative / UNIT + 1 < |buffer|
  {
    Lerp(buffer[relative / UNIT], buffer[relative / UNIT + 1], relative % UNIT)
  }

  // The samples written from a position on, while two neighbours are available; base is the stream
  // index of buffer[0].
  function Emitted(rate: nat, base: nat, next: nat, buffer: seq<real>): seq<real>
    requires rate > 0 && base * UNIT <= next
    decreases (base + |buffer|) * UNIT - next
  {
    if next + UNIT < (base + |buffer|) * UNIT then
      [SampleAt(buffer, next - base * UNIT)] + Emitted(rate, base, next + rate, buffer)
    else []
  }

  // The position left over once those samples are written.
  function NextAfter(rate: nat, end: nat, next: nat): (r: nat)
    requires rate > 0
    ensures r >= next && r + UNIT >= end * UNIT
    ensures r == next || r - rate + UNIT < end * UNIT
    decreases end * UNIT - next
  {
    if next + UNIT < end * UNIT then NextAfter(rate, end, next + rate) else next
  }

  // What the resampler would write for a whole stream in one call.
  function OneShot(rate: nat, stream: seq<real>): seq<real>
    requires rate > 0
  {
    Emitted(rate, 0, 0, stream)
  }

  /* ---------- the streaming state ---------- */

  datatype State = State(inputStart: nat, nextOutput: nat, pending: seq<real>)

  const FRESH := State(0, 0, [])

  // At most one sample is carried over, and the buffer starts at the whole part of the next position.
  predicate Settled(st: State) {
    st.inputStart == st.nextOutput / UNIT && |st.pending| <= 1
  }

  function Written(rate: nat, st: State, samples: seq<real>): seq<real>
    requires rate > 0 && Settled(st)
  {
    Emitted(rate, st.inputStart, st.nextOutput, st.pending + samples)
  }

  function After(rate: nat, st: State, samples: seq<real>): State
    requires rate > 0 && Settled(st)
  {
    var buffer := st.pending + samples;
    var next := NextAfter(rate, st.inputStart + |buffer|, st.nextOutput);
    var discard := next / UNIT - st.inputStart;
    State(next / UNIT, next, buffer[if discard <= |buffer| then discard else |buffer|..])
  }

  // How far a call moves past the samples it was given: discard minus what there was to drain.
  function Skipped(rate: nat, st: State, samples: seq<real>): nat
    requires rate > 0 && Settled(st)
  {
    var end := st.inputStart + |st.pending| + |samples|;
    var next := NextAfter(rate, end, st.nextOutput);
    if next / UNIT > end then next / UNIT - end else 0
  }

  // Every call leaves the state settled again.
  lemma {:induction false} StaysSettled(rate: nat, st: State, samples: seq<real>)
    requires rate > 0 && Settled(st)
    ensures Settled(After(rate, st, samples))
  {
  }

  class LinearResampler {
    var inputRate: Option<nat>
    var inputStart: nat
    var nextOutputPosition: nat
    var pending: seq<real>

    ghost function View(): State
      reads this
    {
      State(inputStart, nextOutputPosition, pending)
    }

    ghost predicate Valid()
      reads this
    {
      Settled(View()) && (inputRate.None? ==> View() == FRESH) && (inputRate.Some? ==> inputRate.value > 0)
    }

    constructor ()
      ensures Valid() && inputRate.None?
    {
      inputRate, inputStart, nextOutputPosition, pending := None, 0, 0, [];
    }

    method Reset()
      modifies this
      ensures inputRate.None? && View() == FRESH && Valid()
    {
      inputRate := None;
      inputStart := 0;
      nextOutputPosition := 0;
      pending := [];
    }

    // The only error is a malformed call: neither index lookup can fail.
    method Process(rate: nat, samples: seq<real>) returns (r: Result<seq<real>, AudioProcessingError>)
      requires Valid()
      modifies this
      ensures Valid()
      ensures r.Err? <==> rate == 0 || samples == []
      ensures r.Err? ==> View() == old(View()) && inputRate == old(inputRate)
      ensures r.Ok? ==>
        var from := if old(inputRate) == Some(rate) then old(View()) else FRESH;
        inputRate == Some(rate) && View() == After(rate, from, samples) && r.value == Written(rate, from, samples)
    {
      if rate == 0 || samples == [] {
        return Err(InvalidFrame);
      }
      if inputRate != Some(rate) {
        Reset();
        inputRate := Some(rate);
      }
      r := Resample(rate, samples);
    }

    // The call on a resampler whose rate is settled.
    method Resample(rate: nat, samples: seq<real>) returns (r: Result<seq<real>, AudioProcessingError>)
      requires Settled(View()) && rate > 0
      modifies this`pending, this`nextOutputPosition, this`inputStart
      ensures Settled(View()) && r == Ok(Written(rate, old(View()), samples))
      ensures View() == After(rate, old(View()), samples)
    {
      StaysSettled(rate, View(), samples);
      pending := pending + samples;
      var output := WriteAvailable(rate, inputStart + |pending|);
      DiscardRead();
      r := Ok(output);
    }

    // The end of process: the buffer gives up what lies before the whole part of the next position,
    // but never more than it holds, while its start moves all the way.
    method DiscardRead()
      requires inputStart <= nextOutputPosition / UNIT
      modifies this`pending, this`inputStart
      ensures inputStart == nextOutputPosition / UNIT
      ensures var discard := inputStart - old(inputStart);
              pending == old(pending)[if discard <= |old(pending)| then discard else |old(pending)|..]
    {
      var whole := nextOutputPosition / UNIT;
      var discard := if whole > inputStart then whole - inputStart else 0;
      if discard > 0 {
        pending := pending[if discard <= |pending| then discard else |pending|..];
        inputStart := inputStart + discard;
      }
    }

    // The interpolation loop of process.
    method WriteAvailable(rate: nat, end: nat) returns (output: seq<real>)
      requires rate > 0 && end == inputStart + |pending| && inputStart * UNIT <= nextOutputPosition
      modifies this`nextOutputPosition
      ensures output == Emitted(rate, inputStart, old(nextOutputPosition), pending)
      ensures nextOutputPosition == NextAfter(rate, end, old(nextOutputPosition))
    {
      output := [];
      var base, buffer, next := inputStart, pending, nextOutputPosition;
      ghost var from := next;
      while next + UNIT < end * UNIT
        invariant WrittenSoFar(rate, base, buffer, from, next, output)
        decreases end * UNIT - next
      {
        WriteOneMore(rate, base, buffer, from, next, output);
        var sample := Interpolate(buffer, next - base * UNIT);
        output, next := output + [sample], next + rate;
      }
      AllWritten(rate, base, buffer, from, next, output);
      nextOutputPosition := next;
    }
  }

  // The two lookups of the loop, and the sample between them.
  method Interpolate(buffer: seq<real>, relative: nat) returns (sample: real)
    requires relative / UNIT + 1 < |buffer|
    ensures sample == SampleAt(buffer, relative)
  {
    var lower := relative / UNIT;
    var first := buffer[lower];
    var second := buffer[lower + 1];
    sample := Lerp(first, second, relative % UNIT);
  }

  // The samples written so far and those still to write are all there are to write.
  ghost predicate WrittenSoFar(rate: nat, base: nat, buffer: seq<real>, from: nat, next: nat, output: seq<real>) {
    rate > 0 && base * UNIT <= from && base * UNIT <= next &&
    Emitted(rate, base, from, buffer) == output + Emitted(rate, base, next, buffer) &&
    NextAfter(rate, base + |buffer|, from) == NextAfter(rate, base + |buffer|, next)
  }

  lemma {:induction false} WriteOneMore(
      rate: nat, base: nat, buffer: seq<real>, from: nat, next: nat, output: seq<real>)
    requires WrittenSoFar(rate, base, buffer, from, next, output) && next + UNIT < (base + |buffer|) * UNIT
    ensures (next - base * UNIT) / UNIT + 1 < |buffer|
    ensures WrittenSoFar(rate, base, buffer, from, next + rate, output + [SampleAt(buffer, next - base * UNIT)])
  {
    EmittedUnfolds(rate, base, next, buffer);
    SeqAssociates(output, [SampleAt(buffer, next - base * UNIT)], Emitted(rate, base, next + rate, buffer));
  }

  lemma {:induction false} AllWritten(
      rate: nat, base: nat, buffer: seq<real>, from: nat, next: nat, output: seq<real>)
    requires WrittenSoFar(rate, base, buffer, from, next, output) && next + UNIT >= (base + |buffer|) * UNIT
    ensures Emitted(rate, base, from, buffer) == output && NextAfter(rate, base + |buffer|, from) == next
  {
  }

  lemma {:induction false} EmittedUnfolds(rate: nat, base: nat, next: nat, buffer: seq<real>)
    requires rate > 0 && base * UNIT <= next && next + UNIT < (base + |buffer|) * UNIT
    ensures (next - base * UNIT) / UNIT + 1 < |buffer|
    ensures Emitted(rate, base, next, buffer) ==
      [SampleAt(buffer, next - base * UNIT)] + Emitted(rate, base, next + rate, buffer)
    ensures NextAfter(rate, base + |buffer|, next) == NextAfter(rate, base + |buffer|, next + rate)
  {
  }

  lemma {:induction false} SeqAssociates<T>(a: seq<T>, b: seq<T>, c: seq<T>)
    ensures (a + b) + c == a + (b + c)
  {
  }

  /* ---------- one-shot output in closed form ---------- */

  // Output k reads the two samples around position k * rate, and exists exactly while both do.
  lemma {:induction false} EmittedInClosedForm(rate: nat, next: nat, stream: seq<real>, k: nat)
    requires rate > 0
    ensures k < |Emitted(rate, 0, next, stream)| <==> next + k * rate + UNIT < |stream| * UNIT
    ensures k < |Emitted(rate, 0, next, stream)| ==>
      var position := next + k * rate;
      Emitted(rate, 0, next, stream)[k] ==
      Lerp(stream[position / UNIT], stream[position / UNIT + 1], position % UNIT)
    decreases k
  {
    if k > 0 {
      assert next + k * rate == next + rate + (k - 1) * rate;
      if next + UNIT < |stream| * UNIT {
        EmittedInClosedForm(rate, next + rate, stream, k - 1);
      } else {
        assert k * rate >= 0;
      }
    }
  }

  lemma {:induction false} OneShotInClosedForm(rate: nat, stream: seq<real>, k: nat)
    requires rate > 0
    ensures k < |OneShot(rate, stream)| <==> k * rate + UNIT < |stream| * UNIT
    ensures k < |OneShot(rate, stream)| ==>
      OneShot(rate, stream)[k] ==
      Lerp(stream[k * rate / UNIT], stream[k * rate / UNIT + 1], k * rate % UNIT)
  {
    EmittedInClosedForm(rate, 0, stream, k);
  }

  // What interpolation means, first: a stream on a straight line is resampled to the same line, read at the output
  // positions.
  lemma {:induction false} LinesStayLines(rate: nat, stream: seq<real>, a: real, b: real, k: nat)
    requires rate > 0 && k < |OneShot(rate, stream)|
    requires forall i :: 0 <= i < |stream| ==> stream[i] == a + b * i as real
    ensures OneShot(rate, stream)[k] == a + b * ((k * rate) as real / 16_000.0)
  {
    OneShotInClosedForm(rate, stream, k);
    var position := k * rate;
    var lower, rest := position / UNIT, position % UNIT;
    assert position == lower * UNIT + rest;
    OnTheLine(a, b, lower, rest, position);
  }

  lemma {:induction false} OnTheLine(a: real, b: real, lower: nat, rest: nat, position: nat)
    requires position == lower * UNIT + rest
    ensures Lerp(a + b * lower as real, a + b * (lower + 1) as real, rest) == a + b * (position as real / 16_000.0)
  {
    assert position as real / 16_000.0 == lower as real + rest as real / 16_000.0;
    Distributes(b, lower as real, rest as real / 16_000.0);
  }

  lemma {:induction false} Distributes(b: real, x: real, y: real)
    ensures b * (x + y) == b * x + b * y
    ensures b * (x + 1.0) - b * x == b
  {
  }

  // Second, on any stream: at a whole input position the output is that input sample, and elsewhere it lies
  // between its two neighbours, strictly so if they differ.
  lemma {:induction false} OutputsAreSamplesOrBetween(rate: nat, stream: seq<real>, k: nat)
    requires rate > 0 && k < |OneShot(rate, stream)|
    ensures var lower := k * rate / 16_000;
            var value := OneShot(rate, stream)[k];
            lower + 1 < |stream| &&
            (k * rate % 16_000 == 0 ==> value == stream[lower]) &&
            (stream[lower] == stream[lower + 1] ==> value == stream[lower]) &&
            (k * rate % 16_000 != 0 ==>
              (stream[lower] < stream[lower + 1] ==> stream[lower] < value < stream[lower + 1]) &&
              (stream[lower] > stream[lower + 1] ==> stream[lower] > value > stream[lower + 1]))
  {
    OneShotInClosedForm(rate, stream, k);
    var lower, rest := k * rate / UNIT, k * rate % UNIT;
    LerpIsBetween(stream[lower], stream[lower + 1], rest);
  }

  lemma {:induction false} LerpIsBetween(first: real, second: real, numerator: nat)
    requires numerator < UNIT
    ensures numerator == 0 || first == second ==> Lerp(first, second, numerator) == first
    ensures numerator > 0 && first < second ==> first < Lerp(first, second, numerator) < second
    ensures numerator > 0 && first > second ==> first > Lerp(first, second, numerator) > second
  {
    var _ := PartOf(second - first, numerator as real / UNIT as real);
  }

  // A proper part of a distance.
  lemma {:induction false} PartOf(distance: real, t: real) returns (part: real)
    requires 0.0 <= t < 1.0
    ensures part == distance * t
    ensures distance == 0.0 || t == 0.0 ==> part == 0.0
    ensures distance > 0.0 && t > 0.0 ==> 0.0 < part < distance
    ensures distance < 0.0 && t > 0.0 ==> distance < part < 0.0
  {
    part := distance * t;
    var rest := distance * (1.0 - t);
    assert part + rest == distance;
    SameSign(distance, t);
    SameSign(distance, 1.0 - t);
  }

  lemma {:induction false} SameSign(x: real, t: real)
    ensures t > 0.0 && x > 0.0 ==> x * t > 0.0
    ensures t > 0.0 && x < 0.0 ==> x * t < 0.0
  {
  }

  // So at the target rate the output is the input without its last sample.
  lemma {:induction false} TargetRateKeepsTheSamples(stream: seq<real>)
    ensures OneShot(16_000, stream) == stream[..if stream == [] then 0 else |stream| - 1]
  {
    var output, n := OneShot(16_000, stream), if stream == [] then 0 else |stream| - 1;
    OneShotInClosedForm(16_000, stream, |output|);
    OneShotInClosedForm(16_000, stream, n);
    assert |output| == n;
    forall k: nat | k < n ensures output[k] == stream[k] {
      OutputsAreSamplesOrBetween(16_000, stream, k);
      assert k * 16_000 / 16_000 == k;
    }
  }

  /* ---------- any frame split ---------- */

  datatype Outcome = Outcome(state: State, output: seq<real>)

  // Feeding the frames one call at a time.
  function Feed(rate: nat, frames: seq<seq<real>>): (o: Outcome)
    requires rate > 0
    ensures Settled(o.state)
  {
    if frames == [] then Outcome(FRESH, [])
    else
      var before, samples := Feed(rate, frames[..|frames| - 1]), frames[|frames| - 1];
      StaysSettled(rate, before.state, samples);
      Outcome(After(rate, before.state, samples), before.output + Written(rate, before.state, samples))
  }

  function Filler(value: real, count: nat): seq<real> {
    seq(count, _ => value)
  }

  // The stream the calls really resample: the frames, with the skipped positions filled in after each.
  function Woven(rate: nat, frames: seq<seq<real>>, filler: real): seq<real>
    requires rate > 0
  {
    if frames == [] then []
    else
      var front, samples := frames[..|frames| - 1], frames[|frames| - 1];
      Woven(rate, front, filler) + samples + Filler(filler, Skipped(rate, Feed(rate, front).state, samples))
  }

  function Joined(frames: seq<seq<real>>): seq<real> {
    if frames == [] then [] else Joined(frames[..|frames| - 1]) + frames[|frames| - 1]
  }

  // The state remembers the tail of the stream it has seen and where the next output lies.
  ghost predicate Tracks(rate: nat, st: State, stream: seq<real>)
    requires rate > 0
  {
    Settled(st) &&
    |stream| == st.inputStart + |st.pending| &&
    st.pending == stream[st.inputStart..] &&
    st.nextOutput == NextAfter(rate, |stream|, 0)
  }

  lemma {:induction false} SampleShift(base: nat, next: nat, stream: seq<real>)
    requires base * UNIT <= next && next / UNIT + 1 < |stream|
    ensures SampleAt(stream, next) == SampleAt(stream[base..], next - base * UNIT)
  {
    assert (next - base * UNIT) / UNIT == next / UNIT - base;
    assert (next - base * UNIT) % UNIT == next % UNIT;
  }

  lemma {:induction false} SamplePrefix(stream: seq<real>, more: seq<real>, next: nat)
    requires next / UNIT + 1 < |stream|
    ensures SampleAt(stream + more, next) == SampleAt(stream, next)
  {
  }

  // Reading from the middle of a stream is reading from a buffer that starts there.
  lemma {:induction false} EmittedShift(rate: nat, base: nat, next: nat, stream: seq<real>)
    requires rate > 0 && base <= |stream| && base * UNIT <= next
    ensures Emitted(rate, 0, next, stream) == Emitted(rate, base, next, stream[base..])
    decreases |stream| * UNIT - next
  {
    if next + UNIT < |stream| * UNIT {
      EmittedShift(rate, base, next + rate, stream);
      SampleShift(base, next, stream);
      var buffer := stream[base..];
      assert Emitted(rate, 0, next, stream) == [SampleAt(stream, next)] + Emitted(rate, 0, next + rate, stream);
      assert Emitted(rate, base, next, buffer) ==
        [SampleAt(buffer, next - base * UNIT)] + Emitted(rate, base, next + rate, buffer);
    }
  }

  // More samples change nothing already written, and continue from where writing stopped.
  lemma {:induction false} EmittedExtends(rate: nat, next: nat, stream: seq<real>, more: seq<real>)
    requires rate > 0
    ensures Emitted(rate, 0, next, stream + more) ==
      Emitted(rate, 0, next, stream) + Emitted(rate, 0, NextAfter(rate, |stream|, next), stream + more)
    ensures NextAfter(rate, |stream + more|, next) ==
      NextAfter(rate, |stream + more|, NextAfter(rate, |stream|, next))
    decreases |stream| * UNIT - next
  {
    if next + UNIT < |stream| * UNIT {
      EmittedExtends(rate, next + rate, stream, more);
      SamplePrefix(stream, more, next);
    }
  }

  lemma {:induction false} FillerAddsNothing(rate: nat, seen: seq<real>, fill: seq<real>)
    requires rate > 0
    requires fill != [] ==> |seen| + |fill| <= NextAfter(rate, |seen|, 0) / UNIT
    ensures OneShot(rate, seen + fill) == OneShot(rate, seen)
    ensures NextAfter(rate, |seen + fill|, 0) == NextAfter(rate, |seen|, 0)
  {
    EmittedExtends(rate, 0, seen, fill);
    var next := NextAfter(rate, |seen|, 0);
    assert next / UNIT * UNIT <= next;
    assert next + UNIT >= |seen + fill| * UNIT;
  }

  lemma {:induction false} SuffixOfJoin(a: seq<real>, b: seq<real>, start: nat)
    requires start <= |a|
    ensures (a + b)[start..] == a[start..] + b
  {
  }

  lemma {:induction false} EmittedGoesOn(rate: nat, start: nat, next: nat, stream: seq<real>, samples: seq<real>)
    requires rate > 0 && start <= |stream| && start * UNIT <= next && next == NextAfter(rate, |stream|, 0)
    ensures OneShot(rate, stream + samples) ==
      OneShot(rate, stream) + Emitted(rate, start, next, stream[start..] + samples)
  {
    EmittedExtends(rate, 0, stream, samples);
    EmittedShift(rate, start, next, stream + samples);
    SuffixOfJoin(stream, samples, start);
  }

  lemma {:induction false} WholePart(position: nat)
    ensures position / UNIT * UNIT <= position
  {
  }

  lemma {:induction false} SeenExtends(rate: nat, st: State, stream: seq<real>, samples: seq<real>)
    requires rate > 0 && Tracks(rate, st, stream)
    ensures OneShot(rate, stream + samples) == OneShot(rate, stream) + Written(rate, st, samples)
    ensures After(rate, st, samples).nextOutput == NextAfter(rate, |stream + samples|, 0)
  {
    WholePart(st.nextOutput);
    EmittedGoesOn(rate, st.inputStart, st.nextOutput, stream, samples);
    NextGoesOn(rate, st, stream, samples);
  }

  lemma {:induction false} NextGoesOn(rate: nat, st: State, stream: seq<real>, samples: seq<real>)
    requires rate > 0 && Tracks(rate, st, stream)
    ensures After(rate, st, samples).nextOutput == NextAfter(rate, |stream + samples|, 0)
  {
    EmittedExtends(rate, 0, stream, samples);
    assert st.inputStart + |st.pending + samples| == |stream + samples|;
  }

  lemma {:induction false} DrainTracks(stream: seq<real>, start: nat, samples: seq<real>, whole: nat, fill: seq<real>)
    requires start <= |stream| && whole >= start
    requires |fill| == if whole > |stream| + |samples| then whole - |stream| - |samples| else 0
    ensures var buffer := stream[start..] + samples;
            var rest := buffer[if whole - start <= |buffer| then whole - start else |buffer|..];
            var longer := stream + samples + fill;
            |longer| == whole + |rest| && rest == longer[whole..]
  {
  }

  // One call on a tracked stream writes what the longer stream adds, and tracks that stream.
  lemma {:induction false} CallExtends(rate: nat, st: State, stream: seq<real>, samples: seq<real>, filler: real)
    requires rate > 0 && Tracks(rate, st, stream)
    ensures var longer := stream + samples + Filler(filler, Skipped(rate, st, samples));
            OneShot(rate, longer) == OneShot(rate, stream) + Written(rate, st, samples) &&
            Tracks(rate, After(rate, st, samples), longer)
  {
    var fill := Filler(filler, Skipped(rate, st, samples));
    SeenExtends(rate, st, stream, samples);
    FillerAddsNothing(rate, stream + samples, fill);
    DrainTracks(stream, st.inputStart, samples, After(rate, st, samples).inputStart, fill);
    StaysSettled(rate, st, samples);
  }

  // Streaming refines one-shot, at every rate and for every split: the output is that of the woven
  // stream whatever the filler is, so no filler position is ever read.
  lemma {:induction false} StreamingIsOneShotOfWovenStream(rate: nat, frames: seq<seq<real>>, filler: real)
    requires rate > 0
    ensures Feed(rate, frames).output == OneShot(rate, Woven(rate, frames, filler))
    ensures Tracks(rate, Feed(rate, frames).state, Woven(rate, frames, filler))
    decreases |frames|
  {
    if frames != [] {
      var front, samples := frames[..|frames| - 1], frames[|frames| - 1];
      StreamingIsOneShotOfWovenStream(rate, front, filler);
      CallExtends(rate, Feed(rate, front).state, Woven(rate, front, filler), samples, filler);
    }
  }

  /* ---------- when the split does not matter ---------- */

  const LIMIT := 2 * UNIT  // 32,000 Hz

  // Up to two input samples per output step, a call never moves past its own samples.
  lemma {:induction false} NothingSkipped(rate: nat, st: State, stream: seq<real>, samples: seq<real>)
    requires 0 < rate <= LIMIT && Tracks(rate, st, stream)
    ensures Skipped(rate, st, samples) == 0
  {
  }

  lemma {:induction false} WovenIsJoined(rate: nat, frames: seq<seq<real>>, filler: real)
    requires 0 < rate <= LIMIT
    ensures Woven(rate, frames, filler) == Joined(frames)
    decreases |frames|
  {
    if frames != [] {
      var front, samples := frames[..|frames| - 1], frames[|frames| - 1];
      WovenIsJoined(rate, front, filler);
      StreamingIsOneShotOfWovenStream(rate, front, filler);
      NothingSkipped(rate, Feed(rate, front).state, Woven(rate, front, filler), samples);
    }
  }

  ghost predicate NonEmpty(frames: seq<seq<real>>) {
    forall i :: 0 <= i < |frames| ==> frames[i] != []
  }

  ghost predicate SplitIndependent(rate: nat)
    requires rate > 0
  {
    forall frames :: NonEmpty(frames) ==> Feed(rate, frames).output == OneShot(rate, Joined(frames))
  }

  // Above the limit a frame of rate - 1 samples is overrun by one position, so two more samples later
  // the stream has one output sample too many.
  lemma {:induction false} SplitMattersAbove(rate: nat) returns (frames: seq<seq<real>>)
    requires rate > LIMIT
    ensures |frames| == 2 && |frames[0]| == rate - 1 && |frames[1]| == 2
    ensures |Feed(rate, frames).output| > UNIT >= |OneShot(rate, Joined(frames))|
  {
    var first, second := Filler(0.0, rate - 1), Filler(0.0, 2);
    frames := [first, second];
    JoinedTwo(first, second);
    OneShotInClosedForm(rate, Joined(frames), UNIT);
    StreamingIsOneShotOfWovenStream(rate, frames, 0.0);
    OverrunAbove(rate);
    WovenTwo(rate, first, second, 0.0);
    OneShotInClosedForm(rate, Woven(rate, frames, 0.0), UNIT);
  }

  lemma {:induction false} JoinedTwo(a: seq<real>, b: seq<real>)
    ensures Joined([a, b]) == a + b
  {
    assert [a, b][..1] == [a] && [a][..0] == [];
    assert Joined([a]) == [] + a;
  }

  lemma {:induction false} WovenTwo(rate: nat, a: seq<real>, b: seq<real>, filler: real)
    requires rate > 0
    ensures |Woven(rate, [a, b], filler)| >= |a| + Skipped(rate, FRESH, a) + |b|
  {
    assert [a, b][..1] == [a] && [a][..0] == [];
    assert Woven(rate, [a], filler) == [] + a + Filler(filler, Skipped(rate, FRESH, a));
  }

  lemma {:induction false} OverrunAbove(rate: nat)
    requires rate > LIMIT
    ensures Skipped(rate, FRESH, Filler(0.0, rate - 1)) >= 1
  {
    NextAfterIsAnOutput(rate, rate - 1, 0, UNIT);
  }

  // Positions strictly before the end are all passed over.
  lemma {:induction false} NextAfterIsAnOutput(rate: nat, end: nat, next: nat, k: nat)
    requires rate > 0 && (k > 0 ==> next + (k - 1) * rate + UNIT < end * UNIT)
    ensures NextAfter(rate, end, next) >= next + k * rate
    decreases k
  {
    if k > 0 {
      assert (k - 1) * rate >= 0;
      assert next + k * rate == (next + rate) + (k - 1) * rate;
      if k > 1 {
        assert next + (k - 1) * rate == (next + rate) + (k - 2) * rate;
      }
      NextAfterIsAnOutput(rate, end, next + rate, k - 1);
    }
  }

  // The exact condition: splitting a stream into frames never matters if and only if the input rate is
  // at most 32,000 Hz.
  lemma {:induction false} SplitIndependentIffAtMostTwoPerStep(rate: nat)
    requires rate > 0
    ensures SplitIndependent(rate) <==> rate <= LIMIT
  {
    if rate <= LIMIT {
      forall frames: seq<seq<real>> | NonEmpty(frames)
        ensures Feed(rate, frames).output == OneShot(rate, Joined(frames))
      {
        StreamingIsOneShotOfWovenStream(rate, frames, 0.0);
        WovenIsJoined(rate, frames, 0.0);
      }
    } else {
      var frames := SplitMattersAbove(rate);
      assert NonEmpty(frames) && Feed(rate, frames).output != OneShot(rate, Joined(frames));
    }
  }
}
