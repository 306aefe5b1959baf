/**
 * The gate that lets best-effort translation run only in the pauses of speech-to-text (STT).
 *
 * The gate observes when STT requests start and how far apart. A translation waits for admission in a
 * loop; the code between two awaits is one atomic step, and the environment acts at every await.
 */
module PriorityGate {
  import opened Wrappers

  const CADENCE_HISTORY_SIZE := 4

  datatype Reason = Probe | PredictedWindow | ExtendedIdle | UpstreamBacklog

  datatype Admission = Admission(reason: Reason, idleWindowMs: int, waitSeconds: real, extendedIdleMarginMs: int)

  datatype Gate = Gate(active: nat, generation: nat, lastStart: Option<real>, intervals: seq<real>, pending: nat)

  const IDLE := Gate(0, 0, None, [], 0)

  // Python's int() on a float truncates toward zero.
  function Truncate(x: real): int {
    if x >= 0.0 then x.Floor else -((-x).Floor)
  }

  function Least(xs: seq<real>): (m: real)
    requires xs != []
    ensures m in xs && forall x :: x in xs ==> m <= x
  {
    if |xs| == 1 then xs[0]
    else
      var rest := Least(xs[1..]);
      assert forall x :: x in xs ==> x == xs[0] || x in xs[1..];
      if xs[0] < rest then xs[0] else rest
  }

  function Greatest(xs: seq<real>): (m: real)
    requires xs != []
    ensures m in xs && forall x :: x in xs ==> x <= m
  {
    if |xs| == 1 then xs[0]
    else
      var rest := Greatest(xs[1..]);
      assert forall x :: x in xs ==> x == xs[0] || x in xs[1..];
      if xs[0] > rest then xs[0] else rest
  }

  /* ---------- the gate's transitions ---------- */

  // deque(maxlen=4).append.
  function Remember(intervals: seq<real>, interval: real): (r: seq<real>)
    ensures |r| <= CADENCE_HISTORY_SIZE || |r| == |intervals|
  {
    if |intervals| < CADENCE_HISTORY_SIZE then intervals + [interval] else intervals[1..] + [interval]
  }

  function Started(g: Gate, now: real): Gate {
    g.(active := g.active + 1, generation := g.generation + 1, lastStart := Some(now),
       intervals := if g.lastStart.Some? && now - g.lastStart.value > 0.0
                    then Remember(g.intervals, now - g.lastStart.value) else g.intervals)
  }

  function Finished(g: Gate): Gate {
    if g.active == 0 then g else g.(active := g.active - 1)
  }

  function Reported(g: Gate, pendingChunks: int): Gate {
    if pendingChunks < 0 then g else g.(pending := pendingChunks)
  }

  // A usable forecast: an estimate and at least one observed interval.
  predicate Forecasts(g: Gate, estimateMs: Option<int>) {
    estimateMs.Some? && estimateMs.value > 0 && g.lastStart.Some? && g.intervals != []
  }

  // max(cadence jitter, estimate), in whole milliseconds.
  function MarginMs(g: Gate, estimateMs: int): int
    requires g.intervals != []
  {
    var jitter := Truncate((Greatest(g.intervals) - Least(g.intervals)) * 1_000.0);
    if jitter > estimateMs then jitter else estimateMs
  }

  // When the next start is expected at the earliest, and when a pause counts as extended.
  function EarliestExpected(g: Gate): real
    requires g.lastStart.Some? && g.intervals != []
  {
    g.lastStart.value + Least(g.intervals)
  }

  function Boundary(g: Gate, estimateMs: int): real
    requires g.lastStart.Some? && g.intervals != []
  {
    g.lastStart.value + Greatest(g.intervals) + MarginMs(g, estimateMs) as real / 1_000.0
  }

  function TranslationAdmission(g: Gate, now: real, estimateMs: Option<int>): Option<Admission> {
    if g.active > 0 then None
    else if g.pending > 0 then Some(Admission(UpstreamBacklog, 0, 0.0, 0))
    else if !Forecasts(g, estimateMs) then Some(Admission(Probe, 0, 0.0, 0))
    else
      var margin, boundary := MarginMs(g, estimateMs.value), Boundary(g, estimateMs.value);
      var remaining := EarliestExpected(g) - now;
      if remaining <= 0.0 && now >= boundary then Some(Admission(ExtendedIdle, 0, 0.0, margin))
      else
        var window := if Truncate(remaining * 1_000.0) > 0 then Truncate(remaining * 1_000.0) else 0;
        if window >= estimateMs.value then Some(Admission(PredictedWindow, window, 0.0, margin))
        else Some(Admission(PredictedWindow, window, if boundary - now > 0.0 then boundary - now else 0.0, margin))
  }

  /* ---------- the gate as an object ---------- */

  class LiveTranscriptionPriorityGate {
    var activeSttCount: nat
    var sttStartGeneration: nat
    var lastSttStartedAt: Option<real>
    var sttStartIntervals: seq<real>
    var upstreamPendingSttChunks: nat
    var idleEvent: bool
    var backlogClearedEvent: bool
    var activityEvent: bool

    ghost function View(): Gate
      reads this
    {
      Gate(activeSttCount, sttStartGeneration, lastSttStartedAt, sttStartIntervals, upstreamPendingSttChunks)
    }

    // The event flags always say what the counters say.
    ghost predicate Valid()
      reads this
    {
      idleEvent == (activeSttCount == 0) && backlogClearedEvent == (upstreamPendingSttChunks == 0) &&
      (sttStartGeneration == 0 ==> activeSttCount == 0 && lastSttStartedAt.None?)
    }

    constructor ()
      ensures Valid() && View() == IDLE && !activityEvent
    {
      activeSttCount, sttStartGeneration, lastSttStartedAt, sttStartIntervals := 0, 0, None, [];
      upstreamPendingSttChunks := 0;
      idleEvent, backlogClearedEvent, activityEvent := true, true, false;
    }

    method SetUpstreamPendingSttChunks(pendingChunks: int)
      requires Valid()
      modifies this`upstreamPendingSttChunks, this`backlogClearedEvent
      ensures Valid() && View() == Reported(old(View()), pendingChunks)
    {
      if pendingChunks < 0 {
        return;
      }
      upstreamPendingSttChunks := pendingChunks;
      backlogClearedEvent := pendingChunks == 0;
    }

    method SttStarted(startedAt: real)
      requires Valid()
      modifies this
      ensures Valid() && View() == Started(old(View()), startedAt) && activityEvent
    {
      if lastSttStartedAt.Some? {
        var interval := startedAt - lastSttStartedAt.value;
        if interval > 0.0 {
          sttStartIntervals := Remember(sttStartIntervals, interval);
        }
      }
      lastSttStartedAt := Some(startedAt);
      activeSttCount := activeSttCount + 1;
      sttStartGeneration := sttStartGeneration + 1;
      idleEvent := false;
      activityEvent := true;
    }

    method SttFinished()
      requires Valid()
      modifies this`activeSttCount, this`idleEvent, this`activityEvent
      ensures Valid() && View() == Finished(old(View()))
      ensures activityEvent == (old(activityEvent) || old(activeSttCount) > 0)
    {
      if activeSttCount == 0 {
        return;
      }
      activeSttCount := activeSttCount - 1;
      if activeSttCount == 0 {
        idleEvent := true;
      }
      activityEvent := true;
    }
  }

  /* ---------- what the gate remembers ---------- */

  // The positive distances between successive starts.
  function Gaps(starts: seq<real>): seq<real> {
    if |starts| < 2 then []
    else
      var before, gap := Gaps(starts[..|starts| - 1]), starts[|starts| - 1] - starts[|starts| - 2];
      if gap > 0.0 then before + [gap] else before
  }

  function LastFour(xs: seq<real>): seq<real> {
    if |xs| <= 4 then xs else xs[|xs| - 4..]
  }

  function AfterStarts(starts: seq<real>): Gate {
    if starts == [] then IDLE else Started(AfterStarts(starts[..|starts| - 1]), starts[|starts| - 1])
  }

  lemma {:induction false} RememberKeepsLastFour(xs: seq<real>, x: real)
    ensures Remember(LastFour(xs), x) == LastFour(xs + [x])
  {
  }

  // After any starts the gate holds exactly the last four positive distances between them.
  lemma {:induction false} CadenceIsTheLastFourGaps(starts: seq<real>)
    ensures var g := AfterStarts(starts);
            g.intervals == LastFour(Gaps(starts)) && g.generation == |starts| &&
            g.lastStart == if starts == [] then None else Some(starts[|starts| - 1])
    decreases |starts|
  {
    if starts != [] {
      var front := starts[..|starts| - 1];
      CadenceIsTheLastFourGaps(front);
      if front != [] {
        assert front[|front| - 1] == starts[|starts| - 2];
        RememberKeepsLastFour(Gaps(front), starts[|starts| - 1] - starts[|starts| - 2]);
      }
    }
  }

  // Every remembered interval is positive, and is known only after a start that is not in the future.
  ghost predicate Observed(g: Gate, now: real) {
    (forall x :: x in g.intervals ==> x > 0.0) &&
    (g.intervals != [] ==> g.lastStart.Some?) &&
    (g.lastStart.Some? ==> g.lastStart.value <= now)
  }

  /* ---------- when a translation is admitted ---------- */

  predicate Admits(g: Gate, now: real, estimateMs: Option<int>) {
    var a := TranslationAdmission(g, now, estimateMs);
    a.Some? && a.value.reason != UpstreamBacklog && a.value.waitSeconds <= 0.0
  }

  lemma {:induction false} TruncateReaches(x: real, n: int)
    requires n > 0
    ensures Truncate(x) >= n <==> x >= n as real
    ensures (if Truncate(x) > 0 then Truncate(x) else 0) >= n <==> x >= n as real
  {
  }

  lemma {:induction false} BoundaryComesLater(g: Gate, estimateMs: int)
    requires g.lastStart.Some? && g.intervals != [] && estimateMs > 0
    ensures Boundary(g, estimateMs) >= EarliestExpected(g) + estimateMs as real / 1_000.0
  {
    assert Least(g.intervals) in g.intervals;
    assert MarginMs(g, estimateMs) as real / 1_000.0 >= estimateMs as real / 1_000.0;
  }

  // Exactly when: no STT runs and nothing is waiting upstream, and either there is no forecast, or the
  // estimate fits before the earliest expected start, or the pause has outlasted the extended boundary.
  lemma {:induction false} AdmittedExactlyWhen(g: Gate, now: real, estimateMs: Option<int>)
    ensures Admits(g, now, estimateMs) <==>
      g.active == 0 && g.pending == 0 &&
      (estimateMs.Some? && estimateMs.value > 0 && g.lastStart.Some? && g.intervals != [] ==>
        now + estimateMs.value as real / 1_000.0 <= EarliestExpected(g) || now >= Boundary(g, estimateMs.value))
  {
    if Forecasts(g, estimateMs) {
      BoundaryComesLater(g, estimateMs.value);
      TruncateReaches((EarliestExpected(g) - now) * 1_000.0, estimateMs.value);
    }
  }

  // What each reason promises.
  lemma {:induction false} ReasonsMeanWhatTheySay(g: Gate, now: real, estimateMs: Option<int>)
    requires Admits(g, now, estimateMs)
    ensures var a := TranslationAdmission(g, now, estimateMs).value;
            (a.reason == Probe <==> !Forecasts(g, estimateMs)) &&
            (a.reason == PredictedWindow ==>
              Forecasts(g, estimateMs) && now + estimateMs.value as real / 1_000.0 <= EarliestExpected(g) &&
              a.idleWindowMs as real / 1_000.0 <= EarliestExpected(g) - now < (a.idleWindowMs + 1) as real / 1_000.0) &&
            (a.reason == ExtendedIdle ==>
              Forecasts(g, estimateMs) && a.extendedIdleMarginMs >= estimateMs.value &&
              now >= g.lastStart.value + Greatest(g.intervals) + a.extendedIdleMarginMs as real / 1_000.0)
  {
    if Forecasts(g, estimateMs) {
      BoundaryComesLater(g, estimateMs.value);
      TruncateReaches((EarliestExpected(g) - now) * 1_000.0, estimateMs.value);
    }
  }

  // What an admission reports besides: only a forecast opens a window or a margin, and only one whose window is
  // too short for the estimate asks for a wait, which ends at the boundary.
  lemma {:induction false} OnlyForecastsReportTimes(g: Gate, now: real, estimateMs: Option<int>)
    ensures TranslationAdmission(g, now, estimateMs).None? <==> g.active > 0
    ensures g.active == 0 ==>
      var a := TranslationAdmission(g, now, estimateMs).value;
      (a.reason == UpstreamBacklog <==> g.pending > 0) &&
      (a.reason == UpstreamBacklog || a.reason == Probe ==> a.idleWindowMs == 0 && a.extendedIdleMarginMs == 0) &&
      (a.reason == ExtendedIdle ==> a.idleWindowMs == 0) &&
      (a.waitSeconds != 0.0 <==>
        a.reason == PredictedWindow && a.idleWindowMs < estimateMs.value && now < Boundary(g, estimateMs.value)) &&
      (a.waitSeconds != 0.0 ==> now + a.waitSeconds == Boundary(g, estimateMs.value))
  {
  }

  // The same in the observed intervals themselves. A translation admitted ahead of the next start fits before it
  // even if that start comes after the shortest interval seen; one admitted in an extended pause waited for the
  // longest interval, and beyond it for the estimate and, to the millisecond, for the spread of the intervals.
  lemma {:induction false} AdmissionRespectsEveryInterval(g: Gate, now: real, estimateMs: Option<int>, x: real, y: real)
    requires Admits(g, now, estimateMs) && Forecasts(g, estimateMs) && x in g.intervals && y in g.intervals
    ensures var a, start := TranslationAdmission(g, now, estimateMs).value, g.lastStart.value;
            var estimate := estimateMs.value as real / 1_000.0;
            (a.reason == PredictedWindow ==>
              now + estimate <= start + x && now + a.idleWindowMs as real / 1_000.0 <= start + x) &&
            (a.reason == ExtendedIdle ==>
              now >= start + x + estimate && now > start + x + (x - y) - 0.001 && now >= start + x)
  {
    ReasonsMeanWhatTheySay(g, now, estimateMs);
    MarginCoversSpread(g, estimateMs.value, x, y);
  }

  lemma {:induction false} MarginCoversSpread(g: Gate, estimateMs: int, x: real, y: real)
    requires x in g.intervals && y in g.intervals
    ensures MarginMs(g, estimateMs) as real / 1_000.0 > x - y - 0.001
  {
    assert Greatest(g.intervals) - Least(g.intervals) >= x - y;
  }

  // And no more is asked for: a pause with neither STT nor backlog is long enough once it has outlasted every
  // interval by the estimate and by the spread of the intervals.
  lemma {:induction false} LongPausesAdmit(g: Gate, now: real, estimateMs: Option<int>)
    requires g.active == 0 && g.pending == 0 && Forecasts(g, estimateMs)
    requires forall x, y :: x in g.intervals && y in g.intervals ==>
      now >= g.lastStart.value + x + (x - y) && now >= g.lastStart.value + x + estimateMs.value as real / 1_000.0
    ensures Admits(g, now, estimateMs)
    ensures TranslationAdmission(g, now, estimateMs).value.reason == ExtendedIdle
  {
    AdmittedExactlyWhen(g, now, estimateMs);
    BoundaryComesLater(g, estimateMs.value);
    var longest, shortest := Greatest(g.intervals), Least(g.intervals);
    assert longest in g.intervals && shortest in g.intervals;
    assert now >= g.lastStart.value + longest + (longest - shortest);
  }

  /* ---------- waiting for admission ---------- */

  // Where the waiting coroutine is suspended.
  datatype Phase =
    | AwaitIdle
    | AwaitBacklogCleared
    | TimedWait(generation: nat, deadline: real)
    | Returned(admission: Admission)

  datatype Wait = Wait(phase: Phase, deferredIdleWindowMs: int, deferredReason: Option<Reason>, timedWaits: nat)

  const ENTERED := Wait(AwaitIdle, 0, None, 0)

  // The body of the loop from its top to the next await.
  function LoopTop(g: Gate, w: Wait, now: real, estimateMs: Option<int>): Wait {
    var a := TranslationAdmission(g, now, estimateMs);
    if a.None? then w.(phase := AwaitIdle)
    else if a.value.reason == UpstreamBacklog then
      w.(phase := AwaitBacklogCleared,
         deferredReason := if w.deferredReason.None? then Some(UpstreamBacklog) else w.deferredReason)
    else if a.value.waitSeconds <= 0.0 then w.(phase := Returned(a.value))
    else
      Wait(TimedWait(g.generation, now + a.value.waitSeconds), a.value.idleWindowMs, Some(a.value.reason),
        w.timedWaits + 1)
  }

  // A timed wait ends when an STT start is noticed or its sleep is over; every other await may wake spuriously.
  function Resumed(g: Gate, w: Wait, now: real, estimateMs: Option<int>): Wait {
    match w.phase
    case TimedWait(generation, deadline) =>
      if g.generation != generation || now >= deadline then LoopTop(g, w, now, estimateMs) else w
    case Returned(_) => w
    case _ => LoopTop(g, w, now, estimateMs)
  }

  // The coroutine as an object: one resumption runs it from one await to the next.
  class AdmissionWait {
    const gate: LiveTranscriptionPriorityGate
    const estimatedTranslationDurationMs: Option<int>
    var wait: Wait
    var wasDeferred: bool

    constructor (gate: LiveTranscriptionPriorityGate, estimateMs: Option<int>)
      ensures this.gate == gate && estimatedTranslationDurationMs == estimateMs && wait == ENTERED && Valid()
    {
      this.gate, estimatedTranslationDurationMs := gate, estimateMs;
      wait, wasDeferred := ENTERED, false;
    }

    ghost predicate Valid()
      reads this
    {
      wasDeferred == wait.deferredReason.Some?
    }

    method Resume(now: real)
      requires Valid()
      modifies this
      ensures Valid() && wait == Resumed(gate.View(), old(wait), now, estimatedTranslationDurationMs)
    {
      var view := Gate(gate.activeSttCount, gate.sttStartGeneration, gate.lastSttStartedAt,
                       gate.sttStartIntervals, gate.upstreamPendingSttChunks);
      if wait.phase.Returned? {
        return;
      }
      if wait.phase.TimedWait? && gate.sttStartGeneration == wait.phase.generation && now < wait.phase.deadline {
        return;
      }
      var admission := TranslationAdmission(view, now, estimatedTranslationDurationMs);
      if admission.None? {
        wait := wait.(phase := AwaitIdle);
        return;
      }
      if admission.value.reason == UpstreamBacklog {
        wasDeferred := true;
        if wait.deferredReason.None? {
          wait := wait.(deferredReason := Some(admission.value.reason));
        }
        wait := wait.(phase := AwaitBacklogCleared);
        return;
      }
      if admission.value.waitSeconds <= 0.0 {
        wait := wait.(phase := Returned(admission.value));
        return;
      }
      wasDeferred := true;
      wait := Wait(TimedWait(gate.sttStartGeneration, now + admission.value.waitSeconds),
                   admission.value.idleWindowMs, Some(admission.value.reason), wait.timedWaits + 1);
    }
  }

  /* ---------- runs of one wait ---------- */

  datatype Event =
    | SttStart
    | SttFinish
    | Report(pendingChunks: int)
    | Tick(seconds: real)
    | Resume

  datatype Sys = Sys(gate: Gate, wait: Wait, now: real)

  function Step(s: Sys, e: Event, estimateMs: Option<int>): Sys {
    match e
    case SttStart => s.(gate := Started(s.gate, s.now))
    case SttFinish => s.(gate := Finished(s.gate))
    case Report(n) => s.(gate := Reported(s.gate, n))
    case Tick(seconds) => if seconds > 0.0 then s.(now := s.now + seconds) else s
    case Resume => s.(wait := Resumed(s.gate, s.wait, s.now, estimateMs))
  }

  function Run(s: Sys, trace: seq<Event>, estimateMs: Option<int>): Sys {
    if trace == [] then s else Step(Run(s, trace[..|trace| - 1], estimateMs), trace[|trace| - 1], estimateMs)
  }

  function Starts(trace: seq<Event>): nat {
    if trace == [] then 0 else Starts(trace[..|trace| - 1]) + if trace[|trace| - 1].SttStart? then 1 else 0
  }

  function Finishes(trace: seq<Event>): nat {
    if trace == [] then 0 else Finishes(trace[..|trace| - 1]) + if trace[|trace| - 1].SttFinish? then 1 else 0
  }

  // The backlog reported last; a negative report is ignored.
  function LastReport(pending: nat, trace: seq<Event>): nat {
    if trace == [] then pending
    else
      var e := trace[|trace| - 1];
      if e.Report? && e.pendingChunks >= 0 then e.pendingChunks else LastReport(pending, trace[..|trace| - 1])
  }

  ghost predicate Balanced(active: nat, trace: seq<Event>, n: nat)
    requires n <= |trace|
  {
    Finishes(trace[..n]) <= active + Starts(trace[..n])
  }

  // As long as no request finishes that has not started, the gate counts exactly the requests under way; and the
  // backlog always is the one reported last.
  lemma {:induction false} GateCountsRequestsUnderWay(g: Gate, now: real, trace: seq<Event>, estimateMs: Option<int>)
    ensures Run(Sys(g, ENTERED, now), trace, estimateMs).gate.pending == LastReport(g.pending, trace)
    ensures (forall n {:trigger Balanced(g.active, trace, n)} :: 0 <= n <= |trace| ==> Balanced(g.active, trace, n)) ==>
      Run(Sys(g, ENTERED, now), trace, estimateMs).gate.active == g.active + Starts(trace) - Finishes(trace)
    decreases |trace|
  {
    if trace != [] {
      var front := trace[..|trace| - 1];
      GateCountsRequestsUnderWay(g, now, front, estimateMs);
      if forall n {:trigger Balanced(g.active, trace, n)} :: 0 <= n <= |trace| ==> Balanced(g.active, trace, n) {
        forall n | 0 <= n <= |front| ensures Balanced(g.active, front, n) {
          assert front[..n] == trace[..n] && Balanced(g.active, trace, n);
        }
        assert trace[..|trace|] == trace && Balanced(g.active, trace, |trace|);
      }
    }
  }

  // The pause after the latest start has outlasted the extended boundary: waiting longer is pointless.
  ghost predicate Spent(s: Sys, estimateMs: Option<int>) {
    Forecasts(s.gate, estimateMs) && s.now >= Boundary(s.gate, estimateMs.value)
  }

  // A timed wait that no start has cut short yet.
  ghost predicate Undisturbed(s: Sys) {
    s.wait.phase.TimedWait? && s.wait.phase.generation == s.gate.generation
  }

  ghost predicate WaitSound(s: Sys, estimateMs: Option<int>, first: nat) {
    Observed(s.gate, s.now) && first <= s.gate.generation &&
    (Undisturbed(s) ==>
      s.gate.active == 0 && Forecasts(s.gate, estimateMs) &&
      s.wait.phase.deadline >= Boundary(s.gate, estimateMs.value)) &&
    s.wait.timedWaits <= s.gate.generation - first + (if Spent(s, estimateMs) || Undisturbed(s) then 1 else 0)
  }

  lemma {:induction false} StartKeepsWait(s: Sys, estimateMs: Option<int>, first: nat)
    requires WaitSound(s, estimateMs, first) &&
      (s.wait.phase.TimedWait? ==> s.wait.phase.generation <= s.gate.generation)
    ensures WaitSound(Step(s, SttStart, estimateMs), estimateMs, first)
  {
  }

  lemma {:induction false} ResumeKeepsWait(s: Sys, estimateMs: Option<int>, first: nat)
    requires WaitSound(s, estimateMs, first)
    ensures WaitSound(Step(s, Resume, estimateMs), estimateMs, first)
  {
    AdmittedExactlyWhen(s.gate, s.now, estimateMs);
  }

  lemma {:induction false} StepKeepsWait(s: Sys, e: Event, estimateMs: Option<int>, first: nat)
    requires WaitSound(s, estimateMs, first) &&
      (s.wait.phase.TimedWait? ==> s.wait.phase.generation <= s.gate.generation)
    ensures WaitSound(Step(s, e, estimateMs), estimateMs, first)
    ensures var t := Step(s, e, estimateMs); t.wait.phase.TimedWait? ==> t.wait.phase.generation <= t.gate.generation
  {
    match e
    case SttStart => StartKeepsWait(s, estimateMs, first);
    case Resume => ResumeKeepsWait(s, estimateMs, first);
    case _ =>
  }

  // Timed waits per call are at most the STT starts during the call, plus one.
  lemma {:induction false} TimedWaitsAreBounded(g: Gate, now: real, trace: seq<Event>, estimateMs: Option<int>)
    requires Observed(g, now)
    ensures var s := Run(Sys(g, ENTERED, now), trace, estimateMs);
            WaitSound(s, estimateMs, g.generation) && s.gate.generation == g.generation + Starts(trace) &&
            (s.wait.phase.TimedWait? ==> s.wait.phase.generation <= s.gate.generation) &&
            s.wait.timedWaits <= Starts(trace) + 1
    decreases |trace|
  {
    if trace != [] {
      var front := trace[..|trace| - 1];
      TimedWaitsAreBounded(g, now, front, estimateMs);
      StepKeepsWait(Run(Sys(g, ENTERED, now), front, estimateMs), trace[|trace| - 1], estimateMs, g.generation);
    }
  }

  lemma {:induction false} RunStep(s: Sys, trace: seq<Event>, e: Event, estimateMs: Option<int>)
    ensures Run(s, trace + [e], estimateMs) == Step(Run(s, trace, estimateMs), e, estimateMs)
  {
    assert (trace + [e])[..|trace|] == trace;
  }

  // Whenever a run has returned an admission, it did so at one resumption, which saw no active STT and no
  // upstream backlog, and the admission is the gate's own answer there.
  lemma {:induction false} ReturnsOnlyInAPause(g: Gate, now: real, trace: seq<Event>, estimateMs: Option<int>)
    returns (at: nat)
    requires Run(Sys(g, ENTERED, now), trace, estimateMs).wait.phase.Returned?
    ensures at < |trace| && trace[at].Resume?
    ensures var s := Run(Sys(g, ENTERED, now), trace[..at], estimateMs);
            !s.wait.phase.Returned? && s.gate.active == 0 && s.gate.pending == 0 && Admits(s.gate, s.now, estimateMs) &&
            Run(Sys(g, ENTERED, now), trace, estimateMs).wait.phase ==
              Returned(TranslationAdmission(s.gate, s.now, estimateMs).value)
    decreases |trace|
  {
    var front := trace[..|trace| - 1];
    var s := Run(Sys(g, ENTERED, now), front, estimateMs);
    if s.wait.phase.Returned? {
      at := ReturnsOnlyInAPause(g, now, front, estimateMs);
      assert front[..at] == trace[..at];
    } else {
      at := |trace| - 1;
      ReturnStep(s, trace[at], estimateMs);
    }
  }

  lemma {:induction false} ReturnStep(s: Sys, e: Event, estimateMs: Option<int>)
    requires !s.wait.phase.Returned? && Step(s, e, estimateMs).wait.phase.Returned?
    ensures e.Resume? && s.gate.active == 0 && s.gate.pending == 0 && Admits(s.gate, s.now, estimateMs)
    ensures Step(s, e, estimateMs).wait.phase == Returned(TranslationAdmission(s.gate, s.now, estimateMs).value)
  {
  }

  // A timed wait that ran its full length without an STT start, with no backlog now, is the last one.
  lemma {:induction false} FullWaitAdmits(g: Gate, now: real, trace: seq<Event>, estimateMs: Option<int>)
    requires Observed(g, now)
    requires var s := Run(Sys(g, ENTERED, now), trace, estimateMs);
      Undisturbed(s) && s.now >= s.wait.phase.deadline && s.gate.pending == 0
    ensures var t := Run(Sys(g, ENTERED, now), trace + [Resume], estimateMs);
            t.wait.phase.Returned? && t.wait.phase.admission.reason == ExtendedIdle
  {
    TimedWaitsAreBounded(g, now, trace, estimateMs);
    RunStep(Sys(g, ENTERED, now), trace, Resume, estimateMs);
    BoundaryComesLater(Run(Sys(g, ENTERED, now), trace, estimateMs).gate, estimateMs.value);
  }

  // A wait that is entered with a forecast that does not fit sleeps exactly up to the boundary.
  lemma {:induction false} TimedWaitEndsAtTheBoundary(g: Gate, w: Wait, now: real, estimateMs: Option<int>)
    requires LoopTop(g, w, now, estimateMs).phase.TimedWait?
    ensures Forecasts(g, estimateMs) && now < Boundary(g, estimateMs.value)
    ensures LoopTop(g, w, now, estimateMs).phase.deadline == Boundary(g, estimateMs.value)
  {
  }
}
